/** Every run of FutexLock is finite, with an explicit bound, and can only stop with every call returned.
    No fairness between threads is assumed. */
module FutexTermination {
  import opened Wrappers
  import opened Stacks
  import opened AbstractLock
  import opened FutexMachine
  import opened FutexSafety

  /** Changes of the word and wakes that a call may still perform. */
  function Future(f: Frame): (w: nat)
    ensures w >= 1
  {
    if Holding(f) then 2 else if f.Wake? then 1 else 4
  }

  /** How far a call is, within its present pass, from changing the word, sleeping or returning, given
      the word as it is now. A call whose local copy is stale has one more look at the word to take. */
  function Rank(word: Word, f: Frame): (r: nat)
    ensures r <= 5
  {
    match f
    case Start => 3
    case Check(seen) => if seen == word then 2 else 5
    case TakeFree => if word == Free then 1 else 4
    case SetFlag(seen) => if seen == word then 1 else 4
    case Wait(seen) => if seen == word then 1 else 4
    case Asleep(_) => 0
    case Reload => 3
    case Begin => 2
    case Update(_) => 1
    case End => 0
    case Wake => 0
  }

  function Futures(): Frame -> nat {
    f => Future(f)
  }

  function Ranks(word: Word): Frame -> nat {
    f => Rank(word, f)
  }

  /** What is left of the run's finite supplies. */
  function Supply(s: State): nat {
    5 * s.calls + s.spurious + Sum(s.stacks, Futures())
    + Unflagged(s.word)
  }

  function Measure(s: State): nat {
    5 * Supply(s) * Supply(s) + Sum(s.stacks, Ranks(s.word))
  }

  predicate Descends(s: State, s': State) {
    || Supply(s') < Supply(s)
    || (Supply(s') == Supply(s) && Sum(s'.stacks, Ranks(s'.word)) < Sum(s.stacks, Ranks(s.word)))
  }

  /** One for a flag still to be set in the word. */
  function Unflagged(word: Word): nat {
    if word.Taken? && !word.waiters then 1 else 0
  }

  /** Without waking, changing the word or using up a supply, a call only moves down the ranks. */
  lemma ActDescends(lock: Lock, word: Word, counter: nat, t: nat, d: nat, f: Frame)
    requires FrameOk(lock, counter, t, d, f) && !f.Asleep?
    requires word.Free? <==> lock.owner == Nobody
    ensures
      var (word', _, next) := Act(word, counter, t, f);
      var future := if next.Goto? then Future(next.frame) else 0;
      || future + Unflagged(word') < Future(f) + Unflagged(word)
      || (word' == word && next.Goto? && future == Future(f) && Rank(word, next.frame) < Rank(word, f))
  {
  }

  lemma RunDescends(s: State, lock: Lock, t: nat)
    requires CallsOk(s, lock) && Enabled(s, Run(t))
    ensures Descends(s, Apply(s, Run(t)))
  {
    var f := Top(s.stacks, t);
    var (word, counter, next) := Act(s.word, s.counter, t, f);
    ActDescends(lock, s.word, s.counter, t, |s.stacks[t]| - 1, f);
    if next.Goto? {
      SumSetTop(s.stacks, t, next.frame, Futures());
      SumSetTop(s.stacks, t, next.frame, Ranks(s.word));
    } else {
      SumPop(s.stacks, t, Futures());
    }
  }

  lemma SignalDescends(s: State, t: nat, restart: bool)
    requires Enabled(s, Signal(t, restart))
    ensures Supply(Apply(s, Signal(t, restart))) < Supply(s)
  {
    var f := Interrupted(Top(s.stacks, t), restart);
    SumSetTop(s.stacks, t, f, Futures());
    SumPush(SetTop(s.stacks, t, f), t, Start, Futures());
  }

  lemma WakeDescends(s: State, t: nat, p: nat)
    requires Enabled(s, WakeOne(t, p))
    ensures Supply(Apply(s, WakeOne(t, p))) < Supply(s)
  {
    SumSetTop(s.stacks, p, Reload, Futures());
    SumPop(SetTop(s.stacks, p, Reload), t, Futures());
  }

  lemma StepDescends(s: State, lock: Lock, a: Step)
    requires CallsOk(s, lock) && Enabled(s, a)
    ensures Descends(s, Apply(s, a))
  {
    match a
    case Call(t) => SumPush(s.stacks, t, Start, Futures());
    case Signal(t, restart) => SignalDescends(s, t, restart);
    case Run(t) => RunDescends(s, lock, t);
    case Misfire(t) => SumSetTop(s.stacks, t, Misfired(s.word, Top(s.stacks, t)), Futures());
    case WakeOne(t, p) => WakeDescends(s, t, p);
  }

  lemma ProductGrows(z: nat, x: nat, y: nat)
    requires x <= y
    ensures z * x <= z * y
  {
  }

  lemma Square(a: nat, a': nat)
    requires a' < a
    ensures 5 * a' * a' + 5 * a' < 5 * a * a
  {
    assert 5 * a' * a' + 5 * a' == 5 * (a' * (a' + 1));
    assert 5 * a * a == 5 * (a * a);
    ProductGrows(a', a' + 1, a);
    ProductGrows(a, a', a - 1);
    assert a * (a - 1) == a * a - a;
  }

  lemma MeasureDrops(s: State, lock: Lock, a: Step)
    requires CallsOk(s, lock) && Enabled(s, a)
    ensures Measure(Apply(s, a)) < Measure(s)
  {
    StepDescends(s, lock, a);
    var s' := Apply(s, a);
    if Supply(s') < Supply(s) {
      SumScaled(s'.stacks, Ranks(s'.word), Futures(), 5);
      Square(Supply(s), Supply(s'));
    }
  }

  /** A run with at most `calls` calls and signals and `spurious` spurious events has at most
      `5 * (5 * calls + spurious)^2` steps. */
  lemma {:induction false} RunsAreFinite(threads: nat, calls: nat, spurious: nat, run: seq<Step>)
    requires Exec(Init(threads, calls, spurious), run).Some?
    ensures
      |run| + Measure(Exec(Init(threads, calls, spurious), run).value)
      <= 5 * (5 * calls + spurious) * (5 * calls + spurious)
  {
    var s := Init(threads, calls, spurious);
    if run == [] {
      SumIdle(threads, Futures());
      SumIdle(threads, Ranks(Free));
    } else {
      var n := |run| - 1;
      RunsAreFinite(threads, calls, spurious, run[..n]);
      RunsRefine(threads, calls, spurious, run[..n]);
      MeasureDrops(Exec(s, run[..n]).value, AfterAll(UNLOCKED, Trace(s, run[..n])), run[n]);
    }
  }

  /** While any call is unfinished, some thread can go on by itself. */
  lemma Progress(s: State, lock: Lock) returns (a: Step)
    requires Inv(s, lock) && exists t :: 0 <= t < |s.stacks| && s.stacks[t] != []
    ensures (a.Run? || a.WakeOne?) && Enabled(s, a)
  {
    var t: nat :| t < |s.stacks| && s.stacks[t] != [];
    if Sleeping(s, t) {
      t := AwakeThread(s, lock);
    }
    if Top(s.stacks, t).Wake? && AnySleeper(s) {
      var p :| 0 <= p < |s.stacks| && Sleeping(s, p);
      a := WakeOne(t, p);
    } else {
      a := Run(t);
    }
  }

  lemma StoppedIsQuiet(s: State, lock: Lock)
    requires Inv(s, lock) && forall a: Step :: a.Run? || a.WakeOne? ==> !Enabled(s, a)
    ensures s.word == Free && forall t :: 0 <= t < |s.stacks| ==> s.stacks[t] == []
  {
    if exists t :: 0 <= t < |s.stacks| && s.stacks[t] != [] {
      var a := Progress(s, lock);
    }
  }

  /** Whatever the schedule, a run that cannot go on has finished every call: the lock is free, and the
      counter is the number of completed critical sections. */
  lemma StoppedRunsAreComplete(threads: nat, calls: nat, spurious: nat, run: seq<Step>)
    requires Exec(Init(threads, calls, spurious), run).Some?
    requires
      var s := Exec(Init(threads, calls, spurious), run).value;
      forall a: Step :: a.Run? || a.WakeOne? ==> !Enabled(s, a)
    ensures
      var s := Exec(Init(threads, calls, spurious), run).value;
      && (forall t :: 0 <= t < |s.stacks| ==> s.stacks[t] == [])
      && s.word == Free && s.counter == Releases(Trace(Init(threads, calls, spurious), run))
  {
    RunsRefine(threads, calls, spurious, run);
    StoppedIsQuiet(Exec(Init(threads, calls, spurious), run).value,
                   AfterAll(UNLOCKED, Trace(Init(threads, calls, spurious), run)));
    NoLostUpdate(threads, calls, spurious, run);
  }
}
