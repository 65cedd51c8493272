/** Every run of PipeLock is finite, with a linear bound, and can only stop with every call returned:
    each extra pass of the contended loop is paid for by a byte, and each unlock adds at most one. */
module PipeTermination {
  import opened Wrappers
  import opened Stacks
  import opened AbstractLock
  import opened PipeMachine
  import opened PipeSafety

  const CALL_COST: nat := 14
  const SPURIOUS_COST: nat := 3
  const BYTE_COST: nat := 3

  /** Actions that a call may still take, counting what the byte it writes lets others do. */
  function Cost(f: Frame): nat {
    match f
    case Start => 13
    case Pre(_) => 12
    case Add => 11
    case Cas => 10
    case Eval(seen) => if seen == Zero then 11 else 9
    case Read => 8
    case Sub => 9
    case SubRecursive => 0
    case Begin(_) => 8
    case Update(_, _) => 7
    case End(_) => 6
    case Load => 5
    case Write => 4
  }

  function Costs(): Frame -> nat {
    f => Cost(f)
  }

  function Measure(s: State): nat {
    CALL_COST * s.calls + SPURIOUS_COST * s.spurious + BYTE_COST * s.shared.bytes + Sum(s.stacks, Costs())
  }

  lemma ActDescends(m: Shared, capacity: nat, t: nat, f: Frame)
    requires !f.SubRecursive? && !(f.Read? && m.bytes == 0) && f != Eval(Of(t))
    ensures
      var (m', next) := Act(m, capacity, t, f);
      BYTE_COST * m'.bytes + (if next.Goto? then Cost(next.frame) else 0) < BYTE_COST * m.bytes + Cost(f)
  {
  }

  lemma MeasureDrops(s: State, lock: Lock, a: Step)
    requires CallsOk(s, lock) && Enabled(s, a)
    ensures Measure(Apply(s, a)) < Measure(s)
  {
    if a.Call? || a.Signal? {
      SumPush(s.stacks, a.t, Start, Costs());
    } else {
      var f := Top(s.stacks, a.t);
      if a.Misfire? {
        SumSetTop(s.stacks, a.t, Misfired(s.shared.holder, f), Costs());
      } else {
        RunDescends(s, lock, a.t);
      }
    }
  }

  lemma RunDescends(s: State, lock: Lock, t: nat)
    requires CallsOk(s, lock) && Enabled(s, Run(t))
    ensures Measure(Apply(s, Run(t))) < Measure(s)
  {
    var f := Top(s.stacks, t);
    var next := Act(s.shared, s.capacity, t, f).1;
    assert FrameOk(lock, s.shared.counter, t, |s.stacks[t]| - 1, f);
    assert f != Eval(Of(t));
    ActDescends(s.shared, s.capacity, t, f);
    if next.Goto? {
      SumSetTop(s.stacks, t, next.frame, Costs());
    } else {
      SumPop(s.stacks, t, Costs());
    }
  }

  /** A run with at most `calls` calls and signals and `spurious` spurious events has at most
      `14 * calls + 3 * spurious` steps, whatever the number of threads and the capacity of the pipe. */
  lemma {:induction false} RunsAreFinite(threads: nat, capacity: nat, calls: nat, spurious: nat, run: seq<Step>)
    requires capacity >= 1 && Exec(Init(threads, capacity, calls, spurious), run).Some?
    ensures
      |run| + Measure(Exec(Init(threads, capacity, calls, spurious), run).value)
      <= 14 * calls + 3 * spurious
  {
    var s := Init(threads, capacity, calls, spurious);
    if run == [] {
      SumIdle(threads, Costs());
    } else {
      var n := |run| - 1;
      RunsAreFinite(threads, capacity, calls, spurious, run[..n]);
      RunsRefine(threads, capacity, calls, spurious, run[..n]);
      MeasureDrops(Exec(s, run[..n]).value, AfterAll(UNLOCKED, Trace(s, run[..n])), run[n]);
    }
  }

  lemma StoppedIsQuiet(s: State, lock: Lock)
    requires Inv(s, lock) && forall t :: !Enabled(s, Run(t))
    ensures forall t :: 0 <= t < |s.stacks| ==> s.stacks[t] == []
    ensures s.shared.holder == Zero && s.shared.waiters == 0
  {
    if exists t :: 0 <= t < |s.stacks| && s.stacks[t] != [] {
      var u :| 0 <= u < |s.stacks| && s.stacks[u] != [];
      assert Busy(s, u);
      var t := UnblockedThread(s, lock);
    }
    assert s.stacks == Idle(|s.stacks|);
    SumIdle(|s.stacks|, Counted());
  }

  /** Whatever the schedule, a run that cannot go on has finished every call: the lock is free, nobody is
      registered as a waiter, and the counter is the number of completed critical sections. */
  lemma StoppedRunsAreComplete(threads: nat, capacity: nat, calls: nat, spurious: nat, run: seq<Step>)
    requires capacity >= 1 && Exec(Init(threads, capacity, calls, spurious), run).Some?
    requires forall t :: !Enabled(Exec(Init(threads, capacity, calls, spurious), run).value, Run(t))
    ensures
      var s := Exec(Init(threads, capacity, calls, spurious), run).value;
      && (forall t :: 0 <= t < |s.stacks| ==> s.stacks[t] == []) && s.shared.holder == Zero && s.shared.waiters == 0
      && s.shared.counter == Releases(Trace(Init(threads, capacity, calls, spurious), run))
  {
    RunsRefine(threads, capacity, calls, spurious, run);
    StoppedIsQuiet(Exec(Init(threads, capacity, calls, spurious), run).value,
                   AfterAll(UNLOCKED, Trace(Init(threads, capacity, calls, spurious), run)));
    NoLostUpdate(threads, capacity, calls, spurious, run);
  }
}
