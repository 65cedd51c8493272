/** Safety of FutexLock: every run refines the abstract lock, and no reachable state is deadlocked. */
module FutexSafety {
  import opened Wrappers
  import opened Stacks
  import opened AbstractLock
  import opened FutexMachine

  // ---------- the invariant ----------

  predicate Holding(f: Frame) {
    f.Begin? || f.Update? || f.End?
  }

  /** The call is in the contended loop. */
  predicate Contended(f: Frame) {
    f.Check? || f.TakeFree? || f.SetFlag? || f.Wait? || f.Asleep? || f.Reload?
  }

  /** A local copy of the word that names thread `t` as the holder. */
  predicate SawSelf(f: Frame, t: nat) {
    (f.Check? || f.SetFlag? || f.Wait? || f.Asleep?) && f.word.Taken? && f.word.holder == t
  }

  /** What holds of the call at depth `d` of thread `t`. */
  predicate FrameOk(lock: Lock, counter: nat, t: nat, d: nat, f: Frame) {
    && (Holding(f) <==> lock.owner == Held(t, d))
    && (if Beneath(lock.owner, t, d) then f.Start? || (f.Check? && SawSelf(f, t)) else !SawSelf(f, t))
    && (f.SetFlag? ==> f.word.Taken? && !f.word.waiters)
    && (f.Wait? || f.Asleep? ==> f.word.Taken? && f.word.waiters)
    && (f.Begin? ==> counter == lock.value)
    && (f.Update? ==> counter == lock.value && f.seen == counter)
    && (f.End? ==> counter == lock.value + 1)
  }

  predicate FramesOk(s: State, lock: Lock) {
    forall t, d :: 0 <= t < |s.stacks| && 0 <= d < |s.stacks[t]| ==>
      FrameOk(lock, s.counter, t, d, s.stacks[t][d])
  }

  predicate WordOk(s: State, lock: Lock) {
    match lock.owner
    case Nobody => s.word == Free && s.counter == lock.value
    case Held(t, d) => s.word.Taken? && s.word.holder == t && t < |s.stacks| && d < |s.stacks[t]|
  }

  /** Only a running call sleeps: a handler first takes its thread off the kernel's queue. */
  predicate SleepersOnTop(s: State) {
    forall t, d :: 0 <= t < |s.stacks| && 0 <= d < |s.stacks[t]| && s.stacks[t][d].Asleep? ==>
      d == |s.stacks[t]| - 1
  }

  /** The part of the invariant that concerns calls one by one. */
  predicate CallsOk(s: State, lock: Lock) {
    FramesOk(s, lock) && WordOk(s, lock) && SleepersOnTop(s)
  }

  /** A call that still owes a wake, or will go round the contended loop and set WAITERS again, on a
      thread that is not asleep. */
  predicate Rescuer(s: State, lock: Lock, t: nat, d: nat) {
    && t < |s.stacks| && d < |s.stacks[t]|
    && !Sleeping(s, t)
    && (s.stacks[t][d].Wake? || (Contended(s.stacks[t][d]) && !Beneath(lock.owner, t, d)))
  }

  /** Nobody sleeps unless someone is bound to wake a sleeper. */
  ghost predicate NoMissedWake(s: State, lock: Lock) {
    AnySleeper(s) ==>
      (s.word.Taken? && s.word.waiters) || exists t, d :: Rescuer(s, lock, t, d)
  }

  ghost predicate Inv(s: State, lock: Lock) {
    CallsOk(s, lock) && NoMissedWake(s, lock)
  }

  // ---------- every step keeps it ----------

  /** The calls of other threads, and the suspended calls beneath, are not disturbed by it. */
  lemma OthersKept(lock: Lock, counter: nat, lock': Lock, counter': nat, t: nat, d: nat, u: nat, e: nat, f: Frame)
    requires Moves(lock, counter, lock', counter', t, d)
    requires if u == t then e < d else true
    requires FrameOk(lock, counter, u, e, f)
    ensures FrameOk(lock', counter', u, e, f)
  {
  }

  /** The running call's own action. */
  lemma ActorKept(s: State, lock: Lock, t: nat)
    requires FramesOk(s, lock) && WordOk(s, lock) && Enabled(s, Run(t))
    ensures
      var d := |s.stacks[t]| - 1;
      var (word, counter, next) := Act(s.word, s.counter, t, Top(s.stacks, t));
      var lock' := After(lock, EventOf(s, Run(t)));
      && Permits(lock, EventOf(s, Run(t)))
      && Moves(lock, s.counter, lock', counter, t, d)
      && (next.Goto? ==> FrameOk(lock', counter, t, d, next.frame))
      && (next.Return? ==> lock'.owner != Held(t, d))
      && (match lock'.owner
          case Nobody => word == Free && counter == lock'.value
          case Held(u, e) => word.Taken? && word.holder == u)
  {
    assert FrameOk(lock, s.counter, t, |s.stacks[t]| - 1, Top(s.stacks, t));
  }

  lemma RunRefines(s: State, lock: Lock, t: nat)
    requires CallsOk(s, lock) && Enabled(s, Run(t))
    ensures Permits(lock, EventOf(s, Run(t)))
    ensures CallsOk(Apply(s, Run(t)), After(lock, EventOf(s, Run(t))))
  {
    ActorKept(s, lock, t);
    var s', lock' := Apply(s, Run(t)), After(lock, EventOf(s, Run(t)));
    var top := |s.stacks[t]| - 1;
    forall u, e | 0 <= u < |s'.stacks| && 0 <= e < |s'.stacks[u]|
      ensures FrameOk(lock', s'.counter, u, e, s'.stacks[u][e])
    {
      if u != t || e != top {
        assert s'.stacks[u][e] == s.stacks[u][e];
        OthersKept(lock, s.counter, lock', s'.counter, t, top, u, e, s.stacks[u][e]);
      }
    }
  }

  lemma TopReplaced(s: State, lock: Lock, t: nat, f: Frame)
    requires CallsOk(s, lock) && Busy(s, t)
    requires FrameOk(lock, s.counter, t, |s.stacks[t]| - 1, f)
    ensures CallsOk(s.(stacks := SetTop(s.stacks, t, f)), lock)
  {
    var s' := s.(stacks := SetTop(s.stacks, t, f));
    forall u, e | 0 <= u < |s'.stacks| && 0 <= e < |s'.stacks[u]|
      ensures FrameOk(lock, s'.counter, u, e, s'.stacks[u][e])
    {
      assert (u == t && e == |s.stacks[t]| - 1) || s'.stacks[u][e] == s.stacks[u][e];
    }
  }

  lemma CallStarted(s: State, lock: Lock, t: nat)
    requires CallsOk(s, lock) && t < |s.stacks| && !Sleeping(s, t)
    ensures CallsOk(s.(stacks := Push(s.stacks, t, Start)), lock)
  {
    var s' := s.(stacks := Push(s.stacks, t, Start));
    forall u, e | 0 <= u < |s'.stacks| && 0 <= e < |s'.stacks[u]|
      ensures FrameOk(lock, s'.counter, u, e, s'.stacks[u][e])
    {
      assert (u == t && e == |s.stacks[t]|) || s'.stacks[u][e] == s.stacks[u][e];
    }
  }

  lemma CallReturned(s: State, lock: Lock, t: nat)
    requires CallsOk(s, lock) && Busy(s, t) && !Holding(Top(s.stacks, t))
    ensures CallsOk(s.(stacks := Pop(s.stacks, t)), lock)
  {
    assert FrameOk(lock, s.counter, t, |s.stacks[t]| - 1, Top(s.stacks, t));
    var s' := s.(stacks := Pop(s.stacks, t));
    forall u, e | 0 <= u < |s'.stacks| && 0 <= e < |s'.stacks[u]|
      ensures FrameOk(lock, s'.counter, u, e, s'.stacks[u][e])
    {
      assert s'.stacks[u][e] == s.stacks[u][e];
    }
  }

  /** Each step is one event of the abstract lock. */
  lemma StepRefines(s: State, lock: Lock, a: Step)
    requires CallsOk(s, lock) && Enabled(s, a)
    ensures Permits(lock, EventOf(s, a))
    ensures CallsOk(Apply(s, a), After(lock, EventOf(s, a)))
  {
    if !a.Call? {
      assert FrameOk(lock, s.counter, a.t, |s.stacks[a.t]| - 1, Top(s.stacks, a.t));
    }
    match a
    case Call(t) => CallStarted(s, lock, t);
    case Signal(t, restart) =>
      var f := Interrupted(Top(s.stacks, t), restart);
      TopReplaced(s, lock, t, f);
      CallStarted(s.(stacks := SetTop(s.stacks, t, f)), lock, t);
    case Run(t) => RunRefines(s, lock, t);
    case Misfire(t) => TopReplaced(s, lock, t, Misfired(s.word, Top(s.stacks, t)));
    case WakeOne(t, p) =>
      assert FrameOk(lock, s.counter, p, |s.stacks[p]| - 1, Top(s.stacks, p));
      TopReplaced(s, lock, p, Reload);
      CallReturned(s.(stacks := SetTop(s.stacks, p, Reload)), lock, t);
  }

  /** A sleeping thread holds nothing beneath the sleeping call. */
  lemma SleeperHoldsNothing(s: State, lock: Lock, t: nat)
    requires CallsOk(s, lock) && Sleeping(s, t)
    ensures !(lock.owner.Held? && lock.owner.thread == t)
  {
    assert FrameOk(lock, s.counter, t, |s.stacks[t]| - 1, Top(s.stacks, t));
  }

  lemma WakeKeptByRun(s: State, lock: Lock, t: nat)
    requires Inv(s, lock) && Enabled(s, Run(t))
    ensures NoMissedWake(Apply(s, Run(t)), After(lock, EventOf(s, Run(t))))
  {
    var s', lock' := Apply(s, Run(t)), After(lock, EventOf(s, Run(t)));
    var top := |s.stacks[t]| - 1;
    var f := s.stacks[t][top];
    assert FrameOk(lock, s.counter, t, top, f);
    RunRefines(s, lock, t);
    if AnySleeper(s') && !(s'.word.Taken? && s'.word.waiters) {
      if f.End? && Act(s.word, s.counter, t, f).2.Goto? {
        assert Rescuer(s', lock', t, top);
      } else {
        var p :| 0 <= p < |s'.stacks| && Sleeping(s', p);
        assert p != t;
        assert Sleeping(s, p);
        var u, e :| Rescuer(s, lock, u, e);
        assert Rescuer(s', lock', u, e);
      }
    }
  }

  /** The hand-over of the duty to wake. */
  lemma WakeKept(s: State, lock: Lock, a: Step)
    requires Inv(s, lock) && Enabled(s, a)
    ensures NoMissedWake(Apply(s, a), After(lock, EventOf(s, a)))
  {
    var s', lock' := Apply(s, a), After(lock, EventOf(s, a));
    if a.Run? {
      WakeKeptByRun(s, lock, a.t);
    } else if a.WakeOne? {
      var p := a.sleeper;
      var top := |s.stacks[p]| - 1;
      assert FrameOk(lock, s.counter, p, top, s.stacks[p][top]);
      assert Rescuer(s', lock', p, top);
    } else if AnySleeper(s') && !(s'.word.Taken? && s'.word.waiters) {
      var p :| 0 <= p < |s'.stacks| && Sleeping(s', p);
      assert p != a.t && Sleeping(s, p);
      var u, e :| Rescuer(s, lock, u, e);
      assert Rescuer(s', lock', u, e);
    }
  }

  lemma InvKept(s: State, lock: Lock, a: Step)
    requires Inv(s, lock) && Enabled(s, a)
    ensures Permits(lock, EventOf(s, a))
    ensures Inv(Apply(s, a), After(lock, EventOf(s, a)))
  {
    StepRefines(s, lock, a);
    WakeKept(s, lock, a);
  }

  // ---------- whole runs ----------

  /** Every run of the machine, seen from outside, is a history of the abstract lock. */
  lemma {:induction false} RunsRefine(threads: nat, calls: nat, spurious: nat, run: seq<Step>)
    requires Exec(Init(threads, calls, spurious), run).Some?
    ensures
      var s := Init(threads, calls, spurious);
      && PermitsAll(UNLOCKED, Trace(s, run))
      && Inv(Exec(s, run).value, AfterAll(UNLOCKED, Trace(s, run)))
  {
    var s := Init(threads, calls, spurious);
    if run != [] {
      var n := |run| - 1;
      RunsRefine(threads, calls, spurious, run[..n]);
      InvKept(Exec(s, run[..n]).value, AfterAll(UNLOCKED, Trace(s, run[..n])), run[n]);
      assert Trace(s, run)[..|Trace(s, run)| - 1] == Trace(s, run[..n]);
    }
  }

  /** Deadlock freedom: whenever a thread sleeps, some thread is inside a call and awake. Any number of
      threads, any depth of handlers, signals anywhere, including on a call that still owes a wake. */
  lemma NoDeadlock(threads: nat, calls: nat, spurious: nat, run: seq<Step>)
    requires Exec(Init(threads, calls, spurious), run).Some?
    requires AnySleeper(Exec(Init(threads, calls, spurious), run).value)
    ensures
      var s := Exec(Init(threads, calls, spurious), run).value;
      exists t :: 0 <= t < |s.stacks| && Busy(s, t) && !Sleeping(s, t)
  {
    RunsRefine(threads, calls, spurious, run);
    var s := Exec(Init(threads, calls, spurious), run).value;
    var lock := AfterAll(UNLOCKED, Trace(Init(threads, calls, spurious), run));
    var t := AwakeThread(s, lock);
  }

  lemma AwakeThread(s: State, lock: Lock) returns (t: nat)
    requires Inv(s, lock) && AnySleeper(s)
    ensures Busy(s, t) && !Sleeping(s, t)
  {
    if s.word.Taken? && s.word.waiters {
      t := s.word.holder;
      if Sleeping(s, t) {
        SleeperHoldsNothing(s, lock, t);
      }
    } else {
      var u, e :| Rescuer(s, lock, u, e);
      t := u;
    }
  }

  /** A call that interrupted the holder never waits: within two of its own actions it is refused. */
  lemma InterruptedHolderRefuses(s: State, lock: Lock, t: nat)
    requires Inv(s, lock) && Busy(s, t) && Beneath(lock.owner, t, |s.stacks[t]| - 1)
    ensures Enabled(s, Run(t))
    ensures
      var refused := Refused(t, |s.stacks[t]| - 1);
      var s' := Apply(s, Run(t));
      || EventOf(s, Run(t)) == refused
      || (Enabled(s', Run(t)) && EventOf(s', Run(t)) == refused && Apply(s', Run(t)).word == s.word)
  {
    assert FrameOk(lock, s.counter, t, |s.stacks[t]| - 1, Top(s.stacks, t));
  }

  /** No update of the protected counter is ever lost, by any thread or any handler. */
  lemma NoLostUpdate(threads: nat, calls: nat, spurious: nat, run: seq<Step>)
    requires Exec(Init(threads, calls, spurious), run).Some?
    ensures
      var s := Exec(Init(threads, calls, spurious), run).value;
      var es := Trace(Init(threads, calls, spurious), run);
      && Releases(es) <= Acquisitions(es) <= Releases(es) + 1
      && (s.word == Free ==> s.counter == Releases(es) == Acquisitions(es))
  {
    RunsRefine(threads, calls, spurious, run);
    OneHolderAtATime(UNLOCKED, Trace(Init(threads, calls, spurious), run));
  }

  /** At most one call, over all threads and all depths, is ever in its critical section. */
  lemma MutualExclusion(s: State, lock: Lock, t: nat, d: nat, u: nat, e: nat)
    requires Inv(s, lock)
    requires t < |s.stacks| && d < |s.stacks[t]| && Holding(s.stacks[t][d])
    requires u < |s.stacks| && e < |s.stacks[u]| && Holding(s.stacks[u][e])
    ensures t == u && d == e
    ensures s.word.Taken? && s.word.holder == t
  {
    assert FrameOk(lock, s.counter, t, d, s.stacks[t][d]);
    assert FrameOk(lock, s.counter, u, e, s.stacks[u][e]);
  }

  // ---------- the delicate situation is real ----------

  lemma Happens(init: State, run: seq<Step>, s: State, a: Step) returns (run': seq<Step>, s': State)
    requires Exec(init, run) == Some(s) && Enabled(s, a)
    ensures Exec(init, run') == Some(s') && s' == Apply(s, a)
  {
    run', s' := run + [a], Apply(s, a);
    OneMoreStep(init, run, a);
  }

  lemma Locks(init: State, run: seq<Step>, s: State, t: nat) returns (run': seq<Step>, s': State)
    requires Exec(init, run) == Some(s) && Enabled(s, Call(t)) && s.word == Free
    ensures Exec(init, run') == Some(s')
    ensures s' == s.(word := Taken(t, false), stacks := s.stacks[t := [Begin]], calls := s.calls - 1)
  {
    run', s' := Happens(init, run, s, Call(t));
    assert Top(s'.stacks, t) == Start;
    run', s' := Happens(init, run', s', Run(t));
    assert s'.stacks[t] == [Begin];
    assert s'.stacks == s.stacks[t := [Begin]];
  }

  /** A call about to start, finding the lock taken by another thread without waiters, goes to sleep. */
  lemma GoesToSleep(init: State, run: seq<Step>, s: State, t: nat, below: seq<Frame>)
    returns (run': seq<Step>, s': State)
    requires Exec(init, run) == Some(s) && t < |s.stacks| && s.stacks[t] == below + [Start]
    requires s.word.Taken? && s.word.holder != t && !s.word.waiters
    ensures Exec(init, run') == Some(s')
    ensures
      var w := Taken(s.word.holder, true);
      s' == s.(word := w, stacks := s.stacks[t := below + [Asleep(w)]])
  {
    var v, w := s.word, Taken(s.word.holder, true);
    run', s' := Happens(init, run, s, Run(t));
    assert s'.stacks[t] == below + [Check(v)];
    run', s' := Happens(init, run', s', Run(t));
    assert s'.stacks[t] == below + [SetFlag(v)];
    run', s' := Happens(init, run', s', Run(t));
    assert s'.stacks[t] == below + [Wait(w)];
    run', s' := Happens(init, run', s', Run(t));
    assert s'.stacks[t] == below + [Asleep(w)];
    assert s'.stacks == s.stacks[t := below + [Asleep(w)]];
  }

  lemma UnlocksOwingAWake(init: State, run: seq<Step>, s: State, t: nat) returns (run': seq<Step>, s': State)
    requires Exec(init, run) == Some(s) && t < |s.stacks| && s.stacks[t] == [Begin] && s.word == Taken(t, true)
    ensures Exec(init, run') == Some(s')
    ensures s' == s.(word := Free, counter := s.counter + 1, stacks := s.stacks[t := [Wake]])
  {
    run', s' := Happens(init, run, s, Run(t));
    assert s'.stacks[t] == [Update(s.counter)];
    run', s' := Happens(init, run', s', Run(t));
    assert s'.stacks[t] == [End];
    run', s' := Happens(init, run', s', Run(t));
    assert s'.stacks[t] == [Wake];
    assert s'.stacks == s.stacks[t := [Wake]];
  }

  lemma OwesAWake() returns (run: seq<Step>, s: State)
    ensures Exec(Init(3, 4, 0), run) == Some(s)
    ensures s == State(Free, [[Wake], [Asleep(Taken(0, true))], []], 1, 2, 0)
  {
    var init := Init(3, 4, 0);
    run, s := Locks(init, [], init, 0);
    run, s := Happens(init, run, s, Call(1));
    assert s.stacks[1] == [] + [Start];
    run, s := GoesToSleep(init, run, s, 1, []);
    assert [] + [Asleep(Taken(0, true))] == [Asleep(Taken(0, true))];
    run, s := UnlocksOwingAWake(init, run, s, 0);
  }

  /** A handler can sleep on top of the very call that owes another sleeper its wake. The theorems above
      say that even then somebody is awake: here, the thread that took the lock in between. */
  lemma HandlerSleepsOnOwedWake() returns (run: seq<Step>)
    ensures Exec(Init(3, 4, 0), run).Some?
    ensures
      var s := Exec(Init(3, 4, 0), run).value;
      s.stacks == [[Wake, Asleep(Taken(2, true))], [Asleep(Taken(0, true))], [Begin]]
  {
    var init, s := Init(3, 4, 0), Init(3, 4, 0);
    run, s := OwesAWake();
    run, s := Locks(init, run, s, 2);
    run, s := Happens(init, run, s, Signal(0, false));
    assert s.stacks[0] == [Wake] + [Start];
    run, s := GoesToSleep(init, run, s, 0, [Wake]);
    assert [Wake] + [Asleep(Taken(2, true))] == [Wake, Asleep(Taken(2, true))];
  }

  // ---------- what can happen ----------

  /** The calls of a thread, the running one last, being `below` and `f`: what the frames' order means. */
  lemma TopOf(s: State, t: nat, below: seq<Frame>, f: Frame)
    requires t < |s.stacks| && s.stacks[t] == below + [f]
    ensures Busy(s, t) && Top(s.stacks, t) == f
    ensures forall g :: SetTop(s.stacks, t, g) == s.stacks[t := below + [g]]
    ensures Pop(s.stacks, t) == s.stacks[t := below]
  {
    forall g ensures SetTop(s.stacks, t, g) == s.stacks[t := below + [g]] {
      assert s.stacks[t][|s.stacks[t]| - 1 := g] == below + [g];
    }
    assert s.stacks[t][..|s.stacks[t]| - 1] == below;
  }

  /** A thread that is in no call may start one. */
  lemma CallStarts(init: State, run: seq<Step>, s: State, t: nat)
    requires Exec(init, run) == Some(s) && t < |s.stacks| && s.stacks[t] == [] && s.calls > 0
    ensures Exec(init, run + [Call(t)]) == Some(s.(stacks := s.stacks[t := [Start]], calls := s.calls - 1))
  {
    PushFirst(s.stacks, t, Start);
    OneMoreStep(init, run, Call(t));
  }

  /** A signal may interrupt a call at any point, and its handler starts a call on top. Only a sleeper is
      moved: it will start the wait again, or load the word. */
  lemma SignalLands(init: State, run: seq<Step>, s: State, t: nat, below: seq<Frame>, f: Frame, restart: bool)
    requires Exec(init, run) == Some(s) && t < |s.stacks| && s.stacks[t] == below + [f] && s.calls > 0
    ensures
      var g := if !f.Asleep? then f else if restart then Wait(f.word) else Reload;
      Exec(init, run + [Signal(t, restart)])
      == Some(s.(stacks := s.stacks[t := below + [g, Start]], calls := s.calls - 1))
    ensures Trace(init, run + [Signal(t, restart)]) == Trace(init, run) + [Silent]
  {
    var g := if !f.Asleep? then f else if restart then Wait(f.word) else Reload;
    TopOf(s, t, below, f);
    OneMoreStep(init, run, Signal(t, restart));
    assert below + [g] + [Start] == below + [g, Start];
    assert s.stacks[t := below + [g]][t := below + [g, Start]] == s.stacks[t := below + [g, Start]];
  }

  /** A weak compare-and-exchange may fail on the value it expects. */
  lemma WeakExchangeMayFail(init: State, run: seq<Step>, s: State, t: nat, below: seq<Frame>, f: Frame)
    requires Exec(init, run) == Some(s) && t < |s.stacks| && s.stacks[t] == below + [f] && s.spurious > 0
    requires ((f == Start || f == TakeFree) && s.word == Free) || f == SetFlag(s.word)
    ensures
      Exec(init, run + [Misfire(t)])
      == Some(s.(stacks := s.stacks[t := below + [Check(s.word)]], spurious := s.spurious - 1))
  {
    TopOf(s, t, below, f);
    OneMoreStep(init, run, Misfire(t));
  }

  /** A wait may end for no reason, asleep or before it sleeps, and the call then loads the word. */
  lemma WaitMayEnd(init: State, run: seq<Step>, s: State, t: nat, below: seq<Frame>, f: Frame)
    requires Exec(init, run) == Some(s) && t < |s.stacks| && s.stacks[t] == below + [f] && s.spurious > 0
    requires f.Wait? || f.Asleep?
    ensures
      Exec(init, run + [Misfire(t)] + [Run(t)])
      == Some(s.(stacks := s.stacks[t := below + [Check(s.word)]], spurious := s.spurious - 1))
  {
    TopOf(s, t, below, f);
    OneMoreStep(init, run, Misfire(t));
    var ended := s.(stacks := s.stacks[t := below + [Reload]], spurious := s.spurious - 1);
    TopOf(ended, t, below, Reload);
    OneMoreStep(init, run + [Misfire(t)], Run(t));
    assert ended.stacks[t := below + [Check(s.word)]] == s.stacks[t := below + [Check(s.word)]];
  }

  /** A wake may take any sleeper. */
  lemma AnySleeperMayBeWoken(init: State, run: seq<Step>, s: State, t: nat, below: seq<Frame>,
                             p: nat, others: seq<Frame>, w: Word)
    requires Exec(init, run) == Some(s) && t < |s.stacks| && p < |s.stacks|
    requires s.stacks[t] == below + [Wake] && s.stacks[p] == others + [Asleep(w)]
    ensures
      Exec(init, run + [WakeOne(t, p)]) == Some(s.(stacks := s.stacks[p := others + [Reload]][t := below]))
  {
    TopOf(s, t, below, Wake);
    TopOf(s, p, others, Asleep(w));
    assert t != p;
    TopOf(s.(stacks := s.stacks[p := others + [Reload]]), t, below, Wake);
    OneMoreStep(init, run, WakeOne(t, p));
  }

  /** A call that finds the lock free takes it with its first action. */
  lemma FreeLockIsTaken(init: State, run: seq<Step>, s: State, t: nat, below: seq<Frame>)
    requires Exec(init, run) == Some(s) && t < |s.stacks| && s.stacks[t] == below + [Start] && s.word == Free
    ensures
      Exec(init, run + [Run(t)])
      == Some(s.(word := Taken(t, false), stacks := s.stacks[t := below + [Begin]]))
    ensures Trace(init, run + [Run(t)]) == Trace(init, run) + [Acquired(t, |below|)]
  {
    TopOf(s, t, below, Start);
    OneMoreStep(init, run, Run(t));
  }

  /** The word names the thread of the call that is in its critical section. */
  lemma HolderIsNamed(threads: nat, calls: nat, spurious: nat, run: seq<Step>, t: nat)
    requires Exec(Init(threads, calls, spurious), run).Some?
    requires
      var s := Exec(Init(threads, calls, spurious), run).value;
      Busy(s, t) && (var f := Top(s.stacks, t); f.Begin? || f.Update? || f.End?)
    ensures Exec(Init(threads, calls, spurious), run).value.word.Taken?
    ensures Exec(Init(threads, calls, spurious), run).value.word.holder == t
  {
    var init, s := Init(threads, calls, spurious), Exec(Init(threads, calls, spurious), run).value;
    RunsRefine(threads, calls, spurious, run);
    assert FrameOk(AfterAll(UNLOCKED, Trace(init, run)), s.counter, t, |s.stacks[t]| - 1, Top(s.stacks, t));
  }

  /** A handler that interrupts the holder, wherever in its critical section, is refused with its second
      action; nothing but the number of calls left has changed. */
  lemma HolderIsInterrupted(threads: nat, calls: nat, spurious: nat, run: seq<Step>, t: nat, restart: bool)
    requires Exec(Init(threads, calls, spurious), run).Some?
    requires
      var s := Exec(Init(threads, calls, spurious), run).value;
      s.calls > 0 && Busy(s, t) && (var f := Top(s.stacks, t); f.Begin? || f.Update? || f.End?)
    ensures
      var init, s := Init(threads, calls, spurious), Exec(Init(threads, calls, spurious), run).value;
      var run' := run + [Signal(t, restart)] + [Run(t)] + [Run(t)];
      && Exec(init, run') == Some(s.(calls := s.calls - 1))
      && Trace(init, run') == Trace(init, run) + [Silent] + [Silent] + [Refused(t, |s.stacks[t]|)]
  {
    var init, s := Init(threads, calls, spurious), Exec(Init(threads, calls, spurious), run).value;
    HolderIsNamed(threads, calls, spurious, run, t);
    RefusedByHandler(init, run, s, t, restart);
  }

  lemma RefusedByHandler(init: State, run: seq<Step>, s: State, t: nat, restart: bool)
    requires Exec(init, run) == Some(s) && s.calls > 0 && Busy(s, t) && !Sleeping(s, t)
    requires s.word.Taken? && s.word.holder == t
    ensures Exec(init, run + [Signal(t, restart)] + [Run(t)] + [Run(t)]) == Some(s.(calls := s.calls - 1))
    ensures
      Trace(init, run + [Signal(t, restart)] + [Run(t)] + [Run(t)])
      == Trace(init, run) + [Silent] + [Silent] + [Refused(t, |s.stacks[t]|)]
  {
    var stack := s.stacks[t];
    var signalled := s.(stacks := s.stacks[t := stack + [Start]], calls := s.calls - 1);
    AwakeIsInterrupted(init, run, s, t, restart);
    var run' := run + [Signal(t, restart)];
    RefusedAbove(init, run', signalled, t, stack);
    assert s.stacks[t := stack + [Start]][t := stack] == s.stacks;
  }

  lemma AwakeIsInterrupted(init: State, run: seq<Step>, s: State, t: nat, restart: bool)
    requires Exec(init, run) == Some(s) && s.calls > 0 && Busy(s, t) && !Sleeping(s, t)
    ensures
      Exec(init, run + [Signal(t, restart)])
      == Some(s.(stacks := s.stacks[t := s.stacks[t] + [Start]], calls := s.calls - 1))
    ensures Trace(init, run + [Signal(t, restart)]) == Trace(init, run) + [Silent]
  {
    var stack := s.stacks[t];
    var below, f := stack[..|stack| - 1], Top(s.stacks, t);
    assert stack == below + [f] && below + [f, Start] == stack + [Start];
    SignalLands(init, run, s, t, below, f, restart);
  }

  lemma RefusedAbove(init: State, run: seq<Step>, s: State, t: nat, below: seq<Frame>)
    requires Exec(init, run) == Some(s) && t < |s.stacks| && s.stacks[t] == below + [Start]
    requires s.word.Taken? && s.word.holder == t
    ensures Exec(init, run + [Run(t)] + [Run(t)]) == Some(s.(stacks := s.stacks[t := below]))
    ensures Trace(init, run + [Run(t)] + [Run(t)]) == Trace(init, run) + [Silent] + [Refused(t, |below|)]
  {
    TopOf(s, t, below, Start);
    OneMoreStep(init, run, Run(t));
    var looked := s.(stacks := s.stacks[t := below + [Check(s.word)]]);
    TopOf(looked, t, below, Check(s.word));
    OneMoreStep(init, run + [Run(t)], Run(t));
    assert looked.stacks[t := below] == s.stacks[t := below];
  }
}
