/** Safety of PipeLock: every run refines the abstract lock, `waiters` counts exactly, and no reachable
    state is deadlocked although a byte can be consumed by a call that then loses the race. */
module PipeSafety {
  import opened Wrappers
  import opened Stacks
  import opened AbstractLock
  import opened PipeMachine

  // ---------- the invariant ----------

  predicate Holding(f: Frame) {
    f.Sub? || f.Begin? || f.Update? || f.End?
  }

  predicate SawSelf(f: Frame, t: nat) {
    (f.Pre? || f.Eval?) && f.seen == Of(t)
  }

  predicate FrameOk(lock: Lock, counter: nat, t: nat, d: nat, f: Frame) {
    && (Holding(f) <==> lock.owner == Held(t, d))
    && (if Beneath(lock.owner, t, d) then f.Start? || f == Pre(Of(t)) else !SawSelf(f, t))
    && !f.SubRecursive?
    && (f.Sub? || f.Begin? ==> counter == lock.value)
    && (f.Update? ==> counter == lock.value && f.value == counter)
    && (f.End? ==> counter == lock.value + 1)
  }

  predicate FramesOk(s: State, lock: Lock) {
    forall t, d :: 0 <= t < |s.stacks| && 0 <= d < |s.stacks[t]| ==>
      FrameOk(lock, s.shared.counter, t, d, s.stacks[t][d])
  }

  predicate HolderOk(s: State, lock: Lock) {
    match lock.owner
    case Nobody => s.shared.holder == Zero && s.shared.counter == lock.value
    case Held(t, d) => s.shared.holder == Of(t) && t < |s.stacks| && d < |s.stacks[t]|
  }

  /** Between its fetch_add and its fetch_sub. */
  predicate Registered(f: Frame) {
    f.Cas? || f.Eval? || f.Read? || f.Sub? || f.SubRecursive?
  }

  function Count(f: Frame): nat {
    if Registered(f) then 1 else 0
  }

  function Counted(): Frame -> nat {
    f => Count(f)
  }

  /** `waiters` is the number of calls, suspended ones included, between their fetch_add and fetch_sub. */
  predicate WaitersOk(s: State) {
    && s.shared.waiters == Sum(s.stacks, Counted())
    && s.shared.waiters <= Live(s) <= U32_MAX
  }

  predicate CallsOk(s: State, lock: Lock) {
    FramesOk(s, lock) && HolderOk(s, lock)
  }

  /** The call will read a byte before it looks at the lock again. */
  predicate Committed(f: Frame) {
    f.Read? || (f.Eval? && f.seen != Zero)
  }

  predicate AnyCommitted(s: State) {
    exists t, d :: 0 <= t < |s.stacks| && 0 <= d < |s.stacks[t]| && Committed(s.stacks[t][d])
  }

  /** A call that will write a byte, or will try the lock once more, and that no reader in its own
      thread's handlers can hold up. */
  predicate Obliged(s: State, t: nat, d: nat) {
    && t < |s.stacks| && d < |s.stacks[t]|
    && (s.stacks[t][d].Load? || s.stacks[t][d].Write? || s.stacks[t][d].Cas? || s.stacks[t][d] == Eval(Zero))
    && forall e :: d < e < |s.stacks[t]| ==> !Committed(s.stacks[t][e])
  }

  ghost predicate NoMissedByte(s: State) {
    AnyCommitted(s) ==>
      s.shared.bytes > 0 || s.shared.holder != Zero || exists t, d :: Obliged(s, t, d)
  }

  ghost predicate Inv(s: State, lock: Lock) {
    CallsOk(s, lock) && WaitersOk(s) && NoMissedByte(s) && s.capacity >= 1
  }

  // ---------- every step keeps it ----------

  lemma OthersKept(lock: Lock, counter: nat, lock': Lock, counter': nat, t: nat, d: nat, u: nat, e: nat, f: Frame)
    requires Moves(lock, counter, lock', counter', t, d)
    requires if u == t then e < d else true
    requires FrameOk(lock, counter, u, e, f)
    ensures FrameOk(lock', counter', u, e, f)
  {
  }

  lemma ActorKept(s: State, lock: Lock, t: nat)
    requires CallsOk(s, lock) && Enabled(s, Run(t))
    ensures
      var d := |s.stacks[t]| - 1;
      var (m, next) := Act(s.shared, s.capacity, t, Top(s.stacks, t));
      var lock' := After(lock, EventOf(s, Run(t)));
      && Permits(lock, EventOf(s, Run(t)))
      && Moves(lock, s.shared.counter, lock', m.counter, t, d)
      && (next.Goto? ==> FrameOk(lock', m.counter, t, d, next.frame))
      && (next.Return? ==> lock'.owner != Held(t, d))
      && (match lock'.owner
          case Nobody => m.holder == Zero && m.counter == lock'.value
          case Held(u, e) => m.holder == Of(u))
  {
    assert FrameOk(lock, s.shared.counter, t, |s.stacks[t]| - 1, Top(s.stacks, t));
  }

  lemma RunRefines(s: State, lock: Lock, t: nat)
    requires CallsOk(s, lock) && Enabled(s, Run(t))
    ensures Permits(lock, EventOf(s, Run(t)))
    ensures CallsOk(Apply(s, Run(t)), After(lock, EventOf(s, Run(t))))
  {
    ActorKept(s, lock, t);
    var s', lock' := Apply(s, Run(t)), After(lock, EventOf(s, Run(t)));
    var top := |s.stacks[t]| - 1;
    forall u, e | 0 <= u < |s'.stacks| && 0 <= e < |s'.stacks[u]|
      ensures FrameOk(lock', s'.shared.counter, u, e, s'.stacks[u][e])
    {
      if u != t || e != top {
        assert s'.stacks[u][e] == s.stacks[u][e];
        OthersKept(lock, s.shared.counter, lock', s'.shared.counter, t, top, u, e, s.stacks[u][e]);
      }
    }
  }

  lemma TopReplaced(s: State, lock: Lock, t: nat, f: Frame)
    requires CallsOk(s, lock) && Busy(s, t)
    requires FrameOk(lock, s.shared.counter, t, |s.stacks[t]| - 1, f)
    ensures CallsOk(s.(stacks := SetTop(s.stacks, t, f)), lock)
  {
    var s' := s.(stacks := SetTop(s.stacks, t, f));
    forall u, e | 0 <= u < |s'.stacks| && 0 <= e < |s'.stacks[u]|
      ensures FrameOk(lock, s'.shared.counter, u, e, s'.stacks[u][e])
    {
      assert (u == t && e == |s.stacks[t]| - 1) || s'.stacks[u][e] == s.stacks[u][e];
    }
  }

  lemma CallStarted(s: State, lock: Lock, t: nat)
    requires CallsOk(s, lock) && t < |s.stacks|
    ensures CallsOk(s.(stacks := Push(s.stacks, t, Start)), lock)
  {
    var s' := s.(stacks := Push(s.stacks, t, Start));
    forall u, e | 0 <= u < |s'.stacks| && 0 <= e < |s'.stacks[u]|
      ensures FrameOk(lock, s'.shared.counter, u, e, s'.stacks[u][e])
    {
      assert (u == t && e == |s.stacks[t]|) || s'.stacks[u][e] == s.stacks[u][e];
    }
  }

  /** Each step is one event of the abstract lock. */
  lemma StepRefines(s: State, lock: Lock, a: Step)
    requires CallsOk(s, lock) && Enabled(s, a)
    ensures Permits(lock, EventOf(s, a))
    ensures CallsOk(Apply(s, a), After(lock, EventOf(s, a)))
  {
    match a
    case Call(t) => CallStarted(s, lock, t);
    case Signal(t) => CallStarted(s, lock, t);
    case Run(t) => RunRefines(s, lock, t);
    case Misfire(t) =>
      assert FrameOk(lock, s.shared.counter, t, |s.stacks[t]| - 1, Top(s.stacks, t));
      TopReplaced(s, lock, t, Misfired(s.shared.holder, Top(s.stacks, t)));
  }

  lemma AtMostLive(stacks: seq<seq<Frame>>)
    ensures Sum(stacks, Counted()) <= Sum(stacks, Each())
  {
    SumScaled(stacks, Counted(), Each(), 1);
  }

  /** Unless it would wrap, an action changes `waiters` as it changes the count. */
  lemma ActCounts(m: Shared, capacity: nat, t: nat, f: Frame)
    requires !f.SubRecursive? && Count(f) <= m.waiters <= U32_MAX && (f.Add? ==> m.waiters < U32_MAX)
    ensures
      var (m', next) := Act(m, capacity, t, f);
      m'.waiters + Count(f) == m.waiters + if next.Goto? then Count(next.frame) else 0
  {
  }

  lemma ReplacedCount(s: State, t: nat, f: Frame)
    requires WaitersOk(s) && Busy(s, t)
    ensures
      var stacks := SetTop(s.stacks, t, f);
      && Sum(stacks, Counted()) + Count(Top(s.stacks, t)) == s.shared.waiters + Count(f)
      && Sum(stacks, Counted()) <= Sum(stacks, Each()) == Live(s)
      && Count(Top(s.stacks, t)) <= s.shared.waiters
  {
    SumSetTop(s.stacks, t, f, Counted());
    SumSetTop(s.stacks, t, f, Each());
    SumCovers(s.stacks, t, |s.stacks[t]| - 1, Counted());
    AtMostLive(SetTop(s.stacks, t, f));
  }

  lemma ReturnedCount(s: State, t: nat)
    requires WaitersOk(s) && Busy(s, t)
    ensures
      var stacks := Pop(s.stacks, t);
      && Sum(stacks, Counted()) + Count(Top(s.stacks, t)) == s.shared.waiters
      && Sum(stacks, Counted()) <= Sum(stacks, Each()) == Live(s) - 1
  {
    SumPop(s.stacks, t, Counted());
    SumPop(s.stacks, t, Each());
    AtMostLive(Pop(s.stacks, t));
  }

  lemma WaitersKeptByRun(s: State, lock: Lock, t: nat)
    requires CallsOk(s, lock) && WaitersOk(s) && Enabled(s, Run(t))
    ensures WaitersOk(Apply(s, Run(t)))
  {
    var f := Top(s.stacks, t);
    var next := Act(s.shared, s.capacity, t, f).1;
    assert FrameOk(lock, s.shared.counter, t, |s.stacks[t]| - 1, f);
    ReplacedCount(s, t, if next.Goto? then next.frame else f);
    if next.Return? {
      ReturnedCount(s, t);
    }
    ActCounts(s.shared, s.capacity, t, f);
  }

  lemma WaitersKept(s: State, lock: Lock, a: Step)
    requires CallsOk(s, lock) && WaitersOk(s) && Enabled(s, a)
    ensures WaitersOk(Apply(s, a))
  {
    if a.Run? {
      WaitersKeptByRun(s, lock, a.t);
    } else if a.Misfire? {
      ReplacedCount(s, a.t, Misfired(s.shared.holder, Top(s.stacks, a.t)));
    } else {
      SumPush(s.stacks, a.t, Start, Counted());
      SumPush(s.stacks, a.t, Start, Each());
    }
  }

  lemma RegisteredIsCounted(s: State, t: nat, d: nat)
    requires WaitersOk(s) && t < |s.stacks| && d < |s.stacks[t]| && Registered(s.stacks[t][d])
    ensures s.shared.waiters > 0
  {
    SumCovers(s.stacks, t, d, Counted());
  }

  /** Whoever takes the lock's release or a byte becomes the obliged call. */
  lemma BytesKeptByRun(s: State, lock: Lock, t: nat)
    requires Inv(s, lock) && Enabled(s, Run(t))
    ensures NoMissedByte(Apply(s, Run(t)))
  {
    var s' := Apply(s, Run(t));
    var top := |s.stacks[t]| - 1;
    var f := s.stacks[t][top];
    assert FrameOk(lock, s.shared.counter, t, top, f);
    if AnyCommitted(s') && s'.shared.bytes == 0 && s'.shared.holder == Zero {
      var p, c :| 0 <= p < |s'.stacks| && 0 <= c < |s'.stacks[p]| && Committed(s'.stacks[p][c]);
      if f.Read? || f.End? || f == Eval(Zero) {
        assert Obliged(s', t, top);
      } else {
        assert Committed(s.stacks[p][c]);
        if f.Load? {
          RegisteredIsCounted(s, p, c);
          assert Obliged(s', t, top);
        } else {
          var u, e :| Obliged(s, u, e);
          assert Obliged(s', u, e);
        }
      }
    }
  }

  lemma BytesKept(s: State, lock: Lock, a: Step)
    requires Inv(s, lock) && Enabled(s, a)
    ensures NoMissedByte(Apply(s, a))
  {
    var s' := Apply(s, a);
    if a.Run? {
      BytesKeptByRun(s, lock, a.t);
    } else if AnyCommitted(s') && s'.shared.bytes == 0 && s'.shared.holder == Zero {
      var p, c :| 0 <= p < |s'.stacks| && 0 <= c < |s'.stacks[p]| && Committed(s'.stacks[p][c]);
      if a.Misfire? && !Top(s.stacks, a.t).Start? && !Top(s.stacks, a.t).Write? {
        assert Obliged(s', a.t, |s.stacks[a.t]| - 1);
      } else {
        assert Committed(s.stacks[p][c]);
        var u, e :| Obliged(s, u, e);
        assert Obliged(s', u, e);
      }
    }
  }

  lemma InvKept(s: State, lock: Lock, a: Step)
    requires Inv(s, lock) && Enabled(s, a)
    ensures Permits(lock, EventOf(s, a))
    ensures Inv(Apply(s, a), After(lock, EventOf(s, a)))
  {
    StepRefines(s, lock, a);
    WaitersKept(s, lock, a);
    BytesKept(s, lock, a);
  }

  // ---------- whole runs ----------

  /** Every run of the machine, seen from outside, is a history of the abstract lock. */
  lemma {:induction false} RunsRefine(threads: nat, capacity: nat, calls: nat, spurious: nat, run: seq<Step>)
    requires capacity >= 1 && Exec(Init(threads, capacity, calls, spurious), run).Some?
    ensures
      var s := Init(threads, capacity, calls, spurious);
      && PermitsAll(UNLOCKED, Trace(s, run))
      && Inv(Exec(s, run).value, AfterAll(UNLOCKED, Trace(s, run)))
  {
    var s := Init(threads, capacity, calls, spurious);
    if run == [] {
      SumIdle(threads, Counted());
      SumIdle(threads, Each());
    } else {
      var n := |run| - 1;
      RunsRefine(threads, capacity, calls, spurious, run[..n]);
      InvKept(Exec(s, run[..n]).value, AfterAll(UNLOCKED, Trace(s, run[..n])), run[n]);
      assert Trace(s, run)[..|Trace(s, run)| - 1] == Trace(s, run[..n]);
    }
  }

  /** While any call is unfinished, some thread inside a call is not blocked. */
  lemma UnblockedThread(s: State, lock: Lock) returns (t: nat)
    requires Inv(s, lock) && exists u :: 0 <= u < |s.stacks| && Busy(s, u)
    ensures Busy(s, t) && !Blocked(s, t) && Enabled(s, Run(t))
  {
    t :| 0 <= t < |s.stacks| && Busy(s, t);
    if Blocked(s, t) {
      assert Committed(s.stacks[t][|s.stacks[t]| - 1]);
      if s.shared.holder != Zero {
        t := s.shared.holder.thread;
        assert FrameOk(lock, s.shared.counter, t, lock.owner.depth, s.stacks[t][lock.owner.depth]);
        assert FrameOk(lock, s.shared.counter, t, |s.stacks[t]| - 1, Top(s.stacks, t));
      } else {
        var u, e :| Obliged(s, u, e);
        t := u;
      }
    }
  }

  /** Deadlock freedom, for any number of threads, any nesting of handlers, signals anywhere and any pipe
      that can hold a byte, although writing to a full pipe is taken for success. */
  lemma NoDeadlock(threads: nat, capacity: nat, calls: nat, spurious: nat, run: seq<Step>)
    requires capacity >= 1 && Exec(Init(threads, capacity, calls, spurious), run).Some?
    ensures
      var s := Exec(Init(threads, capacity, calls, spurious), run).value;
      (exists t :: 0 <= t < |s.stacks| && Busy(s, t)) ==>
      (exists t :: 0 <= t < |s.stacks| && Busy(s, t) && !Blocked(s, t))
  {
    RunsRefine(threads, capacity, calls, spurious, run);
    var s := Exec(Init(threads, capacity, calls, spurious), run).value;
    var lock := AfterAll(UNLOCKED, Trace(Init(threads, capacity, calls, spurious), run));
    if exists t :: 0 <= t < |s.stacks| && Busy(s, t) {
      var t := UnblockedThread(s, lock);
    }
  }

  /** A call that interrupted the holder never waits: within two of its own actions it is refused. */
  lemma InterruptedHolderRefuses(s: State, lock: Lock, t: nat)
    requires Inv(s, lock) && Busy(s, t) && Beneath(lock.owner, t, |s.stacks[t]| - 1)
    ensures Enabled(s, Run(t))
    ensures
      var refused := Refused(t, |s.stacks[t]| - 1);
      var s' := Apply(s, Run(t));
      || EventOf(s, Run(t)) == refused
      || (Enabled(s', Run(t)) && EventOf(s', Run(t)) == refused && Apply(s', Run(t)).shared == s.shared)
  {
    assert FrameOk(lock, s.shared.counter, t, |s.stacks[t]| - 1, Top(s.stacks, t));
  }

  /** The second exit with Err(Recursive), inside the loop, is never taken. */
  lemma LoopNeverRefuses(threads: nat, capacity: nat, calls: nat, spurious: nat, run: seq<Step>, t: nat, d: nat)
    requires capacity >= 1 && Exec(Init(threads, capacity, calls, spurious), run).Some?
    requires
      var s := Exec(Init(threads, capacity, calls, spurious), run).value;
      t < |s.stacks| && d < |s.stacks[t]|
    ensures
      var f := Exec(Init(threads, capacity, calls, spurious), run).value.stacks[t][d];
      !f.SubRecursive? && f != Eval(Of(t))
  {
    RunsRefine(threads, capacity, calls, spurious, run);
    var s := Exec(Init(threads, capacity, calls, spurious), run).value;
    var lock := AfterAll(UNLOCKED, Trace(Init(threads, capacity, calls, spurious), run));
    assert FrameOk(lock, s.shared.counter, t, d, s.stacks[t][d]);
  }

  /** An unlocker that reads `waiters == 0` leaves no call waiting for the byte it does not write. */
  lemma ZeroWaitersMeansNoReader(s: State, lock: Lock)
    requires Inv(s, lock) && s.shared.waiters == 0
    ensures !AnyCommitted(s)
  {
    if AnyCommitted(s) {
      var p, c :| 0 <= p < |s.stacks| && 0 <= c < |s.stacks[p]| && Committed(s.stacks[p][c]);
      RegisteredIsCounted(s, p, c);
    }
  }

  /** No update of the protected counter is ever lost, by any thread or any handler. */
  lemma NoLostUpdate(threads: nat, capacity: nat, calls: nat, spurious: nat, run: seq<Step>)
    requires capacity >= 1 && Exec(Init(threads, capacity, calls, spurious), run).Some?
    ensures
      var s := Exec(Init(threads, capacity, calls, spurious), run).value;
      var es := Trace(Init(threads, capacity, calls, spurious), run);
      && Releases(es) <= Acquisitions(es) <= Releases(es) + 1
      && (s.shared.holder == Zero ==> s.shared.counter == Releases(es) == Acquisitions(es))
  {
    RunsRefine(threads, capacity, calls, spurious, run);
    OneHolderAtATime(UNLOCKED, Trace(Init(threads, capacity, calls, spurious), run));
  }

  /** At most one call, over all threads and all depths, is ever in its critical section. */
  lemma MutualExclusion(s: State, lock: Lock, t: nat, d: nat, u: nat, e: nat)
    requires Inv(s, lock)
    requires t < |s.stacks| && d < |s.stacks[t]| && Holding(s.stacks[t][d])
    requires u < |s.stacks| && e < |s.stacks[u]| && Holding(s.stacks[u][e])
    ensures t == u && d == e
    ensures s.shared.holder == Of(t)
  {
    assert FrameOk(lock, s.shared.counter, t, d, s.stacks[t][d]);
    assert FrameOk(lock, s.shared.counter, u, e, s.stacks[u][e]);
  }

  // ---------- what can happen ----------

  lemma {:induction false} StackOfOnes(stack: seq<Frame>)
    ensures StackSum(stack, Each()) == |stack|
  {
    if stack != [] {
      StackOfOnes(stack[..|stack| - 1]);
    }
  }

  /** Never more calls are alive than have been made, so with fewer than 2^32 calls in all the bound on live
      calls never binds. */
  lemma {:induction false} LiveIsBounded(threads: nat, capacity: nat, calls: nat, spurious: nat, run: seq<Step>)
    requires Exec(Init(threads, capacity, calls, spurious), run).Some?
    ensures
      var s := Exec(Init(threads, capacity, calls, spurious), run).value;
      Live(s) + s.calls <= calls && |s.stacks| == threads && s.capacity == capacity
  {
    if run == [] {
      SumIdle(threads, Each());
    } else {
      LiveIsBounded(threads, capacity, calls, spurious, run[..|run| - 1]);
      LiveStep(Exec(Init(threads, capacity, calls, spurious), run[..|run| - 1]).value, run[|run| - 1]);
    }
  }

  lemma LiveStep(s: State, a: Step)
    requires Enabled(s, a)
    ensures Live(Apply(s, a)) + Apply(s, a).calls <= Live(s) + s.calls
    ensures |Apply(s, a).stacks| == |s.stacks| && Apply(s, a).capacity == s.capacity
  {
    match a
    case Call(t) => SumPush(s.stacks, t, Start, Each());
    case Signal(t) => SumPush(s.stacks, t, Start, Each());
    case Misfire(t) => SumSetTop(s.stacks, t, Misfired(s.shared.holder, Top(s.stacks, t)), Each());
    case Run(t) =>
      var next := Act(s.shared, s.capacity, t, Top(s.stacks, t)).1;
      if next.Goto? {
        SumSetTop(s.stacks, t, next.frame, Each());
      } else {
        SumPop(s.stacks, t, Each());
      }
  }

  /** `waiters` is an unsigned number of 32 bits. */
  lemma WaitersWrap(x: nat)
    ensures x < 0xffff_ffff ==> Increment(x) == x + 1 && Decrement(x + 1) == x
    ensures Increment(0xffff_ffff) == 0 && Decrement(0) == 0xffff_ffff
  {
  }

  lemma TopOf(s: State, t: nat, below: seq<Frame>, f: Frame)
    requires t < |s.stacks| && s.stacks[t] == below + [f]
    ensures Busy(s, t) && Top(s.stacks, t) == f
    ensures forall g :: SetTop(s.stacks, t, g) == s.stacks[t := below + [g]]
    ensures Pop(s.stacks, t) == s.stacks[t := below]
  {
    forall g ensures SetTop(s.stacks, t, g) == s.stacks[t := below + [g]] {
      assert s.stacks[t][|s.stacks[t]| - 1 := g] == below + [g];
    }
    assert s.stacks[t][..|s.stacks[t]| - 1] == below;
  }

  /** A thread that is in no call may start one, */
  lemma CallStarts(threads: nat, capacity: nat, calls: nat, spurious: nat, run: seq<Step>, s: State, t: nat)
    requires calls <= 0xffff_ffff && Exec(Init(threads, capacity, calls, spurious), run) == Some(s)
    requires t < |s.stacks| && s.stacks[t] == [] && s.calls > 0
    ensures
      Exec(Init(threads, capacity, calls, spurious), run + [Call(t)])
      == Some(s.(stacks := s.stacks[t := [Start]], calls := s.calls - 1))
  {
    LiveIsBounded(threads, capacity, calls, spurious, run);
    PushFirst(s.stacks, t, Start);
    OneMoreStep(Init(threads, capacity, calls, spurious), run, Call(t));
  }

  /** and a signal may interrupt a call at any point, blocked in `read` or not; its handler starts a call on
      top, and the call beneath stays where it is. */
  lemma SignalLands(threads: nat, capacity: nat, calls: nat, spurious: nat, run: seq<Step>, s: State, t: nat)
    requires calls <= 0xffff_ffff && Exec(Init(threads, capacity, calls, spurious), run) == Some(s)
    requires t < |s.stacks| && s.stacks[t] != [] && s.calls > 0
    ensures
      var init := Init(threads, capacity, calls, spurious);
      && Exec(init, run + [Signal(t)])
         == Some(s.(stacks := s.stacks[t := s.stacks[t] + [Start]], calls := s.calls - 1))
      && Trace(init, run + [Signal(t)]) == Trace(init, run) + [Silent]
  {
    LiveIsBounded(threads, capacity, calls, spurious, run);
    OneMoreStep(Init(threads, capacity, calls, spurious), run, Signal(t));
  }

  lemma Misfires(init: State, run: seq<Step>, s: State, t: nat, below: seq<Frame>, f: Frame)
    requires Exec(init, run) == Some(s) && t < |s.stacks| && s.stacks[t] == below + [f] && s.spurious > 0
    requires MayMisfire(s.shared.holder, f)
    ensures
      Exec(init, run + [Misfire(t)])
      == Some(s.(stacks := s.stacks[t := below + [Misfired(s.shared.holder, f)]], spurious := s.spurious - 1))
  {
    TopOf(s, t, below, f);
    OneMoreStep(init, run, Misfire(t));
  }

  /** A weak compare-and-exchange may fail on the value it expects. */
  lemma WeakExchangeMayFail(init: State, run: seq<Step>, s: State, t: nat, below: seq<Frame>, f: Frame)
    requires Exec(init, run) == Some(s) && t < |s.stacks| && s.stacks[t] == below + [f] && s.spurious > 0
    requires (f == Start || f == Cas) && s.shared.holder == Zero
    ensures
      Exec(init, run + [Misfire(t)])
      == Some(s.(stacks := s.stacks[t := below + [if f == Start then Pre(Zero) else Eval(Zero)]],
                 spurious := s.spurious - 1))
  {
    Misfires(init, run, s, t, below, f);
  }

  /** `read` and `write` may return EINTR: the one leads back to the lock without a byte, blocked or not, the
      other is repeated. */
  lemma PipeCallMayBeInterrupted(init: State, run: seq<Step>, s: State, t: nat, below: seq<Frame>, f: Frame)
    requires Exec(init, run) == Some(s) && t < |s.stacks| && s.stacks[t] == below + [f] && s.spurious > 0
    requires f == Read || f == Write
    ensures
      Exec(init, run + [Misfire(t)])
      == Some(s.(stacks := s.stacks[t := below + [if f == Read then Cas else Write]], spurious := s.spurious - 1))
  {
    Misfires(init, run, s, t, below, f);
  }

  /** A call that finds the lock free takes it with its first action. */
  lemma FreeLockIsTaken(init: State, run: seq<Step>, s: State, t: nat, below: seq<Frame>)
    requires Exec(init, run) == Some(s) && t < |s.stacks| && s.stacks[t] == below + [Start]
    requires s.shared.holder == Zero
    ensures
      Exec(init, run + [Run(t)])
      == Some(s.(shared := s.shared.(holder := Of(t)), stacks := s.stacks[t := below + [Begin(false)]]))
    ensures Trace(init, run + [Run(t)]) == Trace(init, run) + [Acquired(t, |below|)]
  {
    TopOf(s, t, below, Start);
    OneMoreStep(init, run, Run(t));
  }

  /** One action of the running call. */
  lemma Acts(init: State, run: seq<Step>, s: State, t: nat, below: seq<Frame>, f: Frame, next: Next)
    requires Exec(init, run) == Some(s) && t < |s.stacks| && s.stacks[t] == below + [f]
    requires Enabled(s, Run(t)) && Act(s.shared, s.capacity, t, f) == (s.shared, next)
    ensures
      Exec(init, run + [Run(t)])
      == Some(s.(stacks := s.stacks[t := if next.Goto? then below + [next.frame] else below]))
    ensures Trace(init, run + [Run(t)]) == Trace(init, run) + [EventOf(s, Run(t))]
  {
    TopOf(s, t, below, f);
    OneMoreStep(init, run, Run(t));
  }

  lemma Looks(init: State, run: seq<Step>, s: State, t: nat, below: seq<Frame>)
    requires Exec(init, run) == Some(s) && t < |s.stacks| && s.stacks[t] == below + [Start]
    requires s.shared.holder == Of(t)
    ensures Exec(init, run + [Run(t)]) == Some(s.(stacks := s.stacks[t := below + [Pre(Of(t))]]))
    ensures Trace(init, run + [Run(t)]) == Trace(init, run) + [Silent]
  {
    Acts(init, run, s, t, below, Start, Goto(Pre(Of(t))));
  }

  lemma IsRefused(init: State, run: seq<Step>, s: State, t: nat, below: seq<Frame>)
    requires Exec(init, run) == Some(s) && t < |s.stacks| && s.stacks[t] == below + [Pre(Of(t))]
    ensures Exec(init, run + [Run(t)]) == Some(s.(stacks := s.stacks[t := below]))
    ensures Trace(init, run + [Run(t)]) == Trace(init, run) + [Refused(t, |below|)]
  {
    Acts(init, run, s, t, below, Pre(Of(t)), Return);
  }

  lemma RefusedAbove(init: State, run: seq<Step>, s: State, t: nat, below: seq<Frame>)
    requires Exec(init, run) == Some(s) && t < |s.stacks| && s.stacks[t] == below + [Start]
    requires s.shared.holder == Of(t)
    ensures Exec(init, run + [Run(t)] + [Run(t)]) == Some(s.(stacks := s.stacks[t := below]))
    ensures Trace(init, run + [Run(t)] + [Run(t)]) == Trace(init, run) + [Silent] + [Refused(t, |below|)]
  {
    Looks(init, run, s, t, below);
    var run', looked := run + [Run(t)], s.(stacks := s.stacks[t := below + [Pre(Of(t))]]);
    IsRefused(init, run', looked, t, below);
    assert looked.stacks[t := below] == s.stacks[t := below];
  }

  /** `holder_tid` names the thread of the call that has the lock. */
  lemma HolderIsNamed(threads: nat, capacity: nat, calls: nat, spurious: nat, run: seq<Step>, t: nat)
    requires capacity >= 1 && Exec(Init(threads, capacity, calls, spurious), run).Some?
    requires
      var s := Exec(Init(threads, capacity, calls, spurious), run).value;
      Busy(s, t) && (var f := Top(s.stacks, t); f.Sub? || f.Begin? || f.Update? || f.End?)
    ensures Exec(Init(threads, capacity, calls, spurious), run).value.shared.holder == Of(t)
  {
    var init := Init(threads, capacity, calls, spurious);
    var s := Exec(init, run).value;
    RunsRefine(threads, capacity, calls, spurious, run);
    assert FrameOk(AfterAll(UNLOCKED, Trace(init, run)), s.shared.counter, t, |s.stacks[t]| - 1, Top(s.stacks, t));
  }

  /** A handler that interrupts the holder, from the moment it has taken the lock until it gives it back, is
      refused with its second action; nothing but the number of calls left has changed. */
  lemma HolderIsInterrupted(threads: nat, capacity: nat, calls: nat, spurious: nat, run: seq<Step>, t: nat)
    requires capacity >= 1 && calls <= 0xffff_ffff
    requires Exec(Init(threads, capacity, calls, spurious), run).Some?
    requires
      var s := Exec(Init(threads, capacity, calls, spurious), run).value;
      s.calls > 0 && Busy(s, t) && (var f := Top(s.stacks, t); f.Sub? || f.Begin? || f.Update? || f.End?)
    ensures
      var init := Init(threads, capacity, calls, spurious);
      var s, run' := Exec(init, run).value, run + [Signal(t)] + [Run(t)] + [Run(t)];
      && Exec(init, run') == Some(s.(calls := s.calls - 1))
      && Trace(init, run') == Trace(init, run) + [Silent] + [Silent] + [Refused(t, |s.stacks[t]|)]
  {
    var init := Init(threads, capacity, calls, spurious);
    var s := Exec(init, run).value;
    HolderIsNamed(threads, capacity, calls, spurious, run, t);
    SignalLands(threads, capacity, calls, spurious, run, s, t);
    var signalled := s.(stacks := s.stacks[t := s.stacks[t] + [Start]], calls := s.calls - 1);
    RefusedAfterSignal(init, run, run + [Signal(t)], s, signalled, t);
  }

  lemma RefusedAfterSignal(init: State, run: seq<Step>, run': seq<Step>, s: State, signalled: State, t: nat)
    requires Exec(init, run).Some? && Exec(init, run') == Some(signalled)
    requires Trace(init, run') == Trace(init, run) + [Silent]
    requires s.calls > 0 && t < |s.stacks| && s.shared.holder == Of(t)
    requires signalled == s.(stacks := s.stacks[t := s.stacks[t] + [Start]], calls := s.calls - 1)
    ensures Exec(init, run' + [Run(t)] + [Run(t)]) == Some(s.(calls := s.calls - 1))
    ensures
      Trace(init, run' + [Run(t)] + [Run(t)])
      == Trace(init, run) + [Silent] + [Silent] + [Refused(t, |s.stacks[t]|)]
  {
    RefusedAbove(init, run', signalled, t, s.stacks[t]);
    assert signalled.stacks[t := s.stacks[t]] == s.stacks;
  }
}
