/** The deferred-signal protocol of the example program: a handler that cannot take the lock sets
    SIGNAL_DEFERRED, and the interrupted code looks at the flag once it has unlocked. Any number of
    threads run both; the signal is masked while its handler runs. */
module OptimisticHandler {
  import opened Schedules
  import opened Stacks
  import opened Wrappers
  import A = AbstractLock

  datatype Normal =
    | Away              // outside normal_code, or past its drain loop
    | Locking           // about to take the lock for the critical section
    | Inside            // in the critical section
    | Draining          // unlocked; about to swap the flag with false
    | Relocking         // the flag was set; about to take the lock
    | Ready             // holds the lock; about to do the thing
    | Finished          // has done the thing; about to unlock and look at the flag again

  datatype Handler =
    | Absent
    | Trying            // about to take the lock
    | HandlerReady      // holds the lock; about to do the thing
    | HandlerFinished   // has done the thing; about to unlock and return
    | Deferring         // Err(Recursive); about to set the flag and return

  datatype Thread = Thread(normal: Normal, handler: Handler)

  datatype Owner = Nobody | NormalOf(t: nat) | HandlerOf(t: nat)

  /** `unserved`: how many signals have been delivered since `do_the_thing` last started. */
  datatype State = State(owner: Owner, deferred: bool, threads: seq<Thread>, unserved: nat)

  datatype Action = Enter(t: nat) | Deliver(t: nat) | Go(t: nat)

  function Init(n: nat): State {
    State(Nobody, false, seq(n, _ => Thread(Away, Absent)), 0)
  }

  /** The lock refuses exactly the handler that interrupted the holder; everyone else waits for it. */
  predicate Enabled(s: State, a: Action) {
    && a.t < |s.threads|
    && var th := s.threads[a.t];
       match a
       case Enter(_) => th == Thread(Away, Absent)
       case Deliver(_) => th.handler == Absent
       case Go(t) =>
         if th.handler == Absent then
           th.normal != Away && (th.normal.Locking? || th.normal.Relocking? ==> s.owner == Nobody)
         else th.handler == Trying ==> s.owner == Nobody || s.owner == NormalOf(t)
  }

  function Step(s: State, a: Action): State
    requires Enabled(s, a)
  {
    var th := s.threads[a.t];
    match a
    case Enter(t) => s.(threads := s.threads[t := th.(normal := Locking)])
    case Deliver(t) => s.(threads := s.threads[t := th.(handler := Trying)], unserved := s.unserved + 1)
    case Go(t) => if th.handler == Absent then GoNormal(s, t) else GoHandler(s, t)
  }

  function GoHandler(s: State, t: nat): State
    requires Enabled(s, Go(t)) && s.threads[t].handler != Absent
  {
    var th := s.threads[t];
    match th.handler
    case Trying =>
      if s.owner == NormalOf(t) then s.(threads := s.threads[t := th.(handler := Deferring)])
      else s.(owner := HandlerOf(t), threads := s.threads[t := th.(handler := HandlerReady)])
    case HandlerReady => s.(threads := s.threads[t := th.(handler := HandlerFinished)], unserved := 0)
    case HandlerFinished => s.(owner := Nobody, threads := s.threads[t := th.(handler := Absent)])
    case _ => s.(deferred := true, threads := s.threads[t := th.(handler := Absent)])
  }

  function GoNormal(s: State, t: nat): State
    requires Enabled(s, Go(t)) && s.threads[t].handler == Absent
  {
    var th := s.threads[t];
    match th.normal
    case Locking => s.(owner := NormalOf(t), threads := s.threads[t := th.(normal := Inside)])
    case Inside => s.(owner := Nobody, threads := s.threads[t := th.(normal := Draining)])
    case Draining =>
      s.(deferred := false, threads := s.threads[t := th.(normal := if s.deferred then Relocking else Away)])
    case Relocking => s.(owner := NormalOf(t), threads := s.threads[t := th.(normal := Ready)])
    case Ready => s.(threads := s.threads[t := th.(normal := Finished)], unserved := 0)
    case _ => s.(owner := Nobody, threads := s.threads[t := th.(normal := Draining)])
  }

  function Exec(n: nat, run: seq<Action>): Option<State> {
    if run == [] then Some(Init(n))
    else
      var before := Exec(n, run[..|run| - 1]);
      if before.Some? && Enabled(before.value, run[|run| - 1])
      then Some(Step(before.value, run[|run| - 1])) else None
  }

  // ---------- the invariant ----------

  predicate NormalHolds(p: Normal) {
    p.Inside? || p.Ready? || p.Finished?
  }

  predicate HandlerHolds(p: Handler) {
    p.HandlerReady? || p.HandlerFinished?
  }

  /** Will look at the flag before it leaves. */
  predicate WillLook(p: Normal) {
    NormalHolds(p) || p.Draining?
  }

  /** Will do the thing, or set the flag. */
  predicate WillServe(th: Thread) {
    th.handler.Trying? || th.handler.HandlerReady? || th.handler.Deferring? || th.normal.Relocking? || th.normal.Ready?
  }

  predicate ThreadOk(owner: Owner, t: nat, th: Thread) {
    && (NormalHolds(th.normal) <==> owner == NormalOf(t))
    && (HandlerHolds(th.handler) <==> owner == HandlerOf(t))
    && (th.handler.Deferring? ==> NormalHolds(th.normal))
  }

  predicate LockOk(s: State) {
    && (forall t :: 0 <= t < |s.threads| ==> ThreadOk(s.owner, t, s.threads[t]))
    && (s.owner != Nobody ==> s.owner.t < |s.threads|)
  }

  predicate SomeoneLooks(s: State) {
    exists t :: 0 <= t < |s.threads| && WillLook(s.threads[t].normal)
  }

  predicate SomeoneServes(s: State) {
    exists t :: 0 <= t < |s.threads| && WillServe(s.threads[t])
  }

  /** A set flag will be seen; an unserved signal has its flag set, or somebody on the way to serve it. */
  predicate NothingLost(s: State) {
    && (s.deferred ==> SomeoneLooks(s))
    && (s.unserved > 0 ==> s.deferred || SomeoneServes(s))
  }

  predicate Inv(s: State) {
    LockOk(s) && NothingLost(s)
  }

  lemma LockKept(s: State, a: Action)
    requires LockOk(s) && Enabled(s, a)
    ensures LockOk(Step(s, a))
  {
    assert ThreadOk(s.owner, a.t, s.threads[a.t]);
  }

  lemma NothingLostByHandlers(s: State, a: Action)
    requires Inv(s) && Enabled(s, a) && (a.Go? ==> s.threads[a.t].handler != Absent)
    ensures NothingLost(Step(s, a))
  {
    var s' := Step(s, a);
    assert ThreadOk(s.owner, a.t, s.threads[a.t]);
    if SomeoneLooks(s) {
      var u :| 0 <= u < |s.threads| && WillLook(s.threads[u].normal);
      assert WillLook(s'.threads[u].normal);
    }
    if a.Go? && s.threads[a.t].handler.Deferring? {
      assert WillLook(s'.threads[a.t].normal);
    } else if SomeoneServes(s) && s'.unserved > 0 {
      var u :| 0 <= u < |s.threads| && WillServe(s.threads[u]);
      assert WillServe(s'.threads[u]);
    } else if a.Deliver? {
      assert WillServe(s'.threads[a.t]);
    }
  }

  lemma NothingLostByNormal(s: State, t: nat)
    requires Inv(s) && Enabled(s, Go(t)) && s.threads[t].handler == Absent
    ensures NothingLost(Step(s, Go(t)))
  {
    var s' := Step(s, Go(t));
    assert ThreadOk(s.owner, t, s.threads[t]);
    if SomeoneLooks(s) && s'.deferred {
      var u :| 0 <= u < |s.threads| && WillLook(s.threads[u].normal);
      assert WillLook(s'.threads[u].normal);
    }
    if s.threads[t].normal.Draining? && s.deferred {
      assert WillServe(s'.threads[t]);
    } else if SomeoneServes(s) && s'.unserved > 0 {
      var u :| 0 <= u < |s.threads| && WillServe(s.threads[u]);
      assert WillServe(s'.threads[u]);
    }
  }

  lemma InvKept(s: State, a: Action)
    requires Inv(s) && Enabled(s, a)
    ensures Inv(Step(s, a))
  {
    LockKept(s, a);
    if a.Go? && s.threads[a.t].handler == Absent {
      NothingLostByNormal(s, a.t);
    } else {
      NothingLostByHandlers(s, a);
    }
  }

  lemma {:induction false} RunsKeep(n: nat, run: seq<Action>)
    requires Exec(n, run).Some?
    ensures Inv(Exec(n, run).value) && |Exec(n, run).value.threads| == n
  {
    if run != [] {
      RunsKeep(n, run[..|run| - 1]);
      InvKept(Exec(n, run[..|run| - 1]).value, run[|run| - 1]);
    }
  }

  /** No deferred signal is lost: in any run of any number of threads, once everyone is out of handlers and
      past the drain loops, `do_the_thing` has started after the last delivery, and the flag is clear. */
  lemma NoSignalLost(n: nat, run: seq<Action>)
    requires Exec(n, run).Some?
    requires
      var s := Exec(n, run).value;
      forall t :: 0 <= t < |s.threads| ==>
        s.threads[t] == Thread(Away, Absent) || s.threads[t] == Thread(Locking, Absent)
    ensures Exec(n, run).value.unserved == 0 && !Exec(n, run).value.deferred
  {
    RunsKeep(n, run);
  }

  /** `lock().unwrap()` in normal code never panics: when it is its turn, its thread holds nothing. */
  lemma NormalCodeIsNeverRefused(n: nat, run: seq<Action>, t: nat)
    requires Exec(n, run).Some? && t < |Exec(n, run).value.threads|
    requires
      var th := Exec(n, run).value.threads[t];
      th.handler == Absent && (th.normal.Locking? || th.normal.Relocking?)
    ensures Exec(n, run).value.owner != NormalOf(t) && Exec(n, run).value.owner != HandlerOf(t)
  {
    RunsKeep(n, run);
    assert ThreadOk(Exec(n, run).value.owner, t, Exec(n, run).value.threads[t]);
  }

  lemma OneMoreStep(n: nat, run: seq<Action>, a: Action)
    requires Exec(n, run).Some? && Enabled(Exec(n, run).value, a)
    ensures Exec(n, run + [a]) == Some(Step(Exec(n, run).value, a))
  {
    assert (run + [a])[..|run + [a]| - 1] == run;
  }

  lemma SignalIsDeferred(s: State, t: nat)
    requires LockOk(s) && t < |s.threads| && s.threads[t].handler == Absent
    requires s.threads[t].normal in {Inside, Ready, Finished}
    ensures Enabled(s, Deliver(t)) && Enabled(Step(s, Deliver(t)), Go(t))
    ensures Enabled(Step(Step(s, Deliver(t)), Go(t)), Go(t))
    ensures Step(Step(Step(s, Deliver(t)), Go(t)), Go(t)) == s.(deferred := true, unserved := s.unserved + 1)
  {
    assert ThreadOk(s.owner, t, s.threads[t]);
    assert Step(Step(Step(s, Deliver(t)), Go(t)), Go(t)).threads == s.threads;
  }

  /** A signal may arrive whenever the handler is not running, */
  lemma SignalArrives(n: nat, run: seq<Action>, s: State, t: nat)
    requires Exec(n, run) == Some(s) && t < |s.threads| && s.threads[t].handler == Absent
    ensures
      Exec(n, run + [Deliver(t)])
      == Some(s.(threads := s.threads[t := Thread(s.threads[t].normal, Trying)], unserved := s.unserved + 1))
  {
    OneMoreStep(n, run, Deliver(t));
  }

  /** and normal code may be entered whenever the thread is doing nothing else. */
  lemma NormalCodeStarts(n: nat, run: seq<Action>, s: State, t: nat)
    requires Exec(n, run) == Some(s) && t < |s.threads| && s.threads[t] == Thread(Away, Absent)
    ensures Exec(n, run + [Enter(t)]) == Some(s.(threads := s.threads[t := Thread(Locking, Absent)]))
  {
    OneMoreStep(n, run, Enter(t));
  }

  /** A signal on code that holds the lock, in the critical section or in the drain loop, is deferred: the
      flag is set, and nothing else changes. On the drain loop this is why the source loops: if nobody was
      on the way to serve signals, nobody is now, so that only another look at the flag can serve it. */
  lemma SignalOnHolderIsDeferred(n: nat, run: seq<Action>, t: nat) returns (run': seq<Action>)
    requires Exec(n, run).Some? && t < |Exec(n, run).value.threads|
    requires Exec(n, run).value.threads[t].handler == Absent
    requires Exec(n, run).value.threads[t].normal in {Inside, Ready, Finished}
    ensures run' == run + [Deliver(t), Go(t), Go(t)]
    ensures
      var s := Exec(n, run).value;
      Exec(n, run') == Some(s.(deferred := true, unserved := s.unserved + 1))
  {
    RunsKeep(n, run);
    SignalIsDeferred(Exec(n, run).value, t);
    OneMoreStep(n, run, Deliver(t));
    var delivered := run + [Deliver(t)];
    OneMoreStep(n, delivered, Go(t));
    var refused := delivered + [Go(t)];
    OneMoreStep(n, refused, Go(t));
    run' := refused + [Go(t)];
  }

  /** A signal on any other code, with the lock free, is served by its handler at once. */
  lemma SignalIsServed(n: nat, run: seq<Action>, s: State, t: nat) returns (run': seq<Action>)
    requires Exec(n, run) == Some(s) && t < |s.threads| && s.threads[t].handler == Absent && s.owner == Nobody
    ensures run' == run + [Deliver(t), Go(t), Go(t), Go(t)] && Exec(n, run') == Some(s.(unserved := 0))
  {
    var normal := s.threads[t].normal;
    SignalArrives(n, run, s, t);
    run' := run + [Deliver(t)];
    var s1 := s.(threads := s.threads[t := Thread(normal, Trying)], unserved := s.unserved + 1);
    OneMoreStep(n, run', Go(t));
    run' := run' + [Go(t)];
    var s2 := s1.(owner := HandlerOf(t), threads := s.threads[t := Thread(normal, HandlerReady)]);
    assert Step(s1, Go(t)).threads == s2.threads;
    OneMoreStep(n, run', Go(t));
    run' := run' + [Go(t)];
    var s3 := s2.(threads := s.threads[t := Thread(normal, HandlerFinished)], unserved := 0);
    assert Step(s2, Go(t)).threads == s3.threads;
    OneMoreStep(n, run', Go(t));
    run' := run' + [Go(t)];
    assert Step(s3, Go(t)).threads == s.threads;
  }

  // ---------- the lock is the abstract lock ----------

  /** Normal code at depth 0, the handler at depth 1. */
  function AsOwner(o: Owner): A.Owner {
    match o
    case Nobody => A.Nobody
    case NormalOf(t) => A.Held(t, 0)
    case HandlerOf(t) => A.Held(t, 1)
  }

  function LockEvent(s: State, a: Action): A.Event
    requires Enabled(s, a)
  {
    if !a.Go? then A.Silent
    else
      var th := s.threads[a.t];
      match th.handler
      case Trying => if s.owner == NormalOf(a.t) then A.Refused(a.t, 1) else A.Acquired(a.t, 1)
      case HandlerFinished => A.Released(a.t, 1)
      case Absent =>
        (match th.normal
         case Locking => A.Acquired(a.t, 0)
         case Relocking => A.Acquired(a.t, 0)
         case Inside => A.Released(a.t, 0)
         case Finished => A.Released(a.t, 0)
         case _ => A.Silent)
      case _ => A.Silent
  }

  function LockTrace(n: nat, run: seq<Action>): seq<A.Event>
    requires Exec(n, run).Some?
  {
    if run == [] then []
    else LockTrace(n, run[..|run| - 1]) + [LockEvent(Exec(n, run[..|run| - 1]).value, run[|run| - 1])]
  }

  lemma LockPermits(s: State, a: Action, value: nat)
    requires LockOk(s) && Enabled(s, a)
    ensures A.Permits(A.Lock(AsOwner(s.owner), value), LockEvent(s, a))
    ensures A.After(A.Lock(AsOwner(s.owner), value), LockEvent(s, a)).owner == AsOwner(Step(s, a).owner)
  {
    assert ThreadOk(s.owner, a.t, s.threads[a.t]);
  }

  /** A call for the lock goes on exactly when the abstract lock grants it or refuses it. */
  lemma LockAnswers(s: State, t: nat)
    requires LockOk(s) && t < |s.threads|
    ensures
      var owner := A.Lock(AsOwner(s.owner), 0);
      && (s.threads[t].handler.Trying? ==>
            (Enabled(s, Go(t)) <==> A.Permits(owner, A.Acquired(t, 1)) || A.Permits(owner, A.Refused(t, 1))))
      && (s.threads[t].handler.Absent? && (s.threads[t].normal.Locking? || s.threads[t].normal.Relocking?) ==>
            (Enabled(s, Go(t)) <==> A.Permits(owner, A.Acquired(t, 0))))
  {
  }

  /** What the program does to its lock in a run is a history of the lock that FutexLock and PipeLock
      refine. */
  lemma {:induction false} LockRunsRefine(n: nat, run: seq<Action>)
    requires Exec(n, run).Some?
    ensures A.PermitsAll(A.UNLOCKED, LockTrace(n, run))
    ensures A.AfterAll(A.UNLOCKED, LockTrace(n, run)).owner == AsOwner(Exec(n, run).value.owner)
  {
    if run != [] {
      var before, a := run[..|run| - 1], run[|run| - 1];
      LockRunsRefine(n, before);
      RunsKeep(n, before);
      LockPermits(Exec(n, before).value, a, A.AfterAll(A.UNLOCKED, LockTrace(n, before)).value);
      assert LockTrace(n, run)[..|LockTrace(n, run)| - 1] == LockTrace(n, before);
    }
  }

  // ---------- progress ----------

  /** While anybody is in a handler or in normal code, some thread can go on by itself. */
  lemma SomeoneMoves(n: nat, run: seq<Action>, t: nat) returns (u: nat)
    requires Exec(n, run).Some? && t < |Exec(n, run).value.threads|
    requires Exec(n, run).value.threads[t] != Thread(Away, Absent)
    ensures Enabled(Exec(n, run).value, Go(u))
  {
    RunsKeep(n, run);
    var s := Exec(n, run).value;
    u := if s.owner == Nobody then t else s.owner.t;
    assert ThreadOk(s.owner, u, s.threads[u]);
  }

  function NormalRank(p: Normal): nat {
    match p
    case Away => 0
    case Locking => 3
    case Inside => 2
    case Draining => 1
    case Relocking => 4
    case Ready => 3
    case Finished => 2
  }

  function HandlerRank(h: Handler): nat {
    match h
    case Absent => 0
    case Trying => 6
    case Deferring => 5
    case HandlerReady => 2
    case HandlerFinished => 1
  }

  function Rank(th: Thread): nat {
    NormalRank(th.normal) + HandlerRank(th.handler)
  }

  function Ranks(s: State): seq<nat> {
    seq(|s.threads|, t requires 0 <= t < |s.threads| => Rank(s.threads[t]))
  }

  /** A set flag is worth one more pass of a drain loop; the handler that sets it has paid for it. */
  function Owed(s: State): nat {
    if s.deferred then 4 else 0
  }

  function Measure(s: State): nat {
    Total(Ranks(s)) + Owed(s)
  }

  function Cost(a: Action): nat {
    if a.Enter? then 4 else if a.Deliver? then 7 else 0
  }

  /** How many calls of normal code, and how many signals, a run has. */
  function Calls(run: seq<Action>): nat {
    if run == [] then 0 else Calls(run[..|run| - 1]) + if run[|run| - 1].Enter? then 1 else 0
  }

  function Signals(run: seq<Action>): nat {
    if run == [] then 0 else Signals(run[..|run| - 1]) + if run[|run| - 1].Deliver? then 1 else 0
  }

  lemma {:induction false} CallsAreCounted(run: seq<Action>)
    ensures Calls(run) == |set k | 0 <= k < |run| && run[k].Enter?|
  {
    if run != [] {
      var n := |run| - 1;
      CallsAreCounted(run[..n]);
      var calls := set k | 0 <= k < |run[..n]| && run[..n][k].Enter?;
      assert (set k | 0 <= k < |run| && run[k].Enter?) == if run[n].Enter? then calls + {n} else calls;
    }
  }

  lemma {:induction false} SignalsAreCounted(run: seq<Action>)
    ensures Signals(run) == |set k | 0 <= k < |run| && run[k].Deliver?|
  {
    if run != [] {
      var n := |run| - 1;
      SignalsAreCounted(run[..n]);
      var signals := set k | 0 <= k < |run[..n]| && run[..n][k].Deliver?;
      assert (set k | 0 <= k < |run| && run[k].Deliver?) == if run[n].Deliver? then signals + {n} else signals;
    }
  }

  lemma RankFalls(s: State, a: Action) returns (th: Thread)
    requires Enabled(s, a)
    ensures Step(s, a).threads == s.threads[a.t := th]
    ensures Rank(th) + Owed(Step(s, a)) + 1 <= Rank(s.threads[a.t]) + Owed(s) + Cost(a)
  {
    th := Step(s, a).threads[a.t];
  }

  lemma StepDescends(s: State, a: Action)
    requires Enabled(s, a)
    ensures Measure(Step(s, a)) + 1 <= Measure(s) + Cost(a)
  {
    var th := RankFalls(s, a);
    assert Ranks(Step(s, a)) == Ranks(s)[a.t := Rank(th)];
    TotalUpdate(Ranks(s), a.t, Rank(th));
  }

  /** Every run is finite: four steps for each call of normal code and seven for each signal, the extra
      passes of drain loops included. */
  lemma {:induction false} RunsAreFinite(n: nat, run: seq<Action>)
    requires Exec(n, run).Some?
    ensures |run| + Measure(Exec(n, run).value) <= 4 * Calls(run) + 7 * Signals(run)
    ensures Calls(run) == |set k | 0 <= k < |run| && run[k].Enter?|
    ensures Signals(run) == |set k | 0 <= k < |run| && run[k].Deliver?|
  {
    CallsAreCounted(run);
    SignalsAreCounted(run);
    if run == [] {
      TotalOfZeros(Ranks(Init(n)));
    } else {
      RunsAreFinite(n, run[..|run| - 1]);
      StepDescends(Exec(n, run[..|run| - 1]).value, run[|run| - 1]);
    }
  }

  /** So a run in which no thread can go on by itself has served every signal. */
  lemma StoppedRunsServeEverySignal(n: nat, run: seq<Action>)
    requires Exec(n, run).Some? && forall u :: !Enabled(Exec(n, run).value, Go(u))
    ensures
      var s := Exec(n, run).value;
      && s.unserved == 0 && !s.deferred && s.owner == Nobody
      && forall t :: 0 <= t < |s.threads| ==> s.threads[t] == Thread(Away, Absent)
  {
    var s := Exec(n, run).value;
    forall t: nat | t < |s.threads| ensures s.threads[t] == Thread(Away, Absent) {
      if s.threads[t] != Thread(Away, Absent) {
        var u := SomeoneMoves(n, run, t);
      }
    }
    RunsKeep(n, run);
    NoSignalLost(n, run);
    assert s.owner != Nobody ==> ThreadOk(s.owner, s.owner.t, s.threads[s.owner.t]);
  }

  // ---------- the source's form ----------

  function Tick(s: State, a: Action): State {
    if Enabled(s, a) then Step(s, a) else s
  }

  /** Every moment of a schedule is the end of a run. */
  lemma {:induction false} MomentsAreRuns(n: nat, schedule: seq<Action>, moments: seq<State>, k: nat)
    returns (run: seq<Action>)
    requires Recorded(Tick, schedule, moments) && moments[0] == Init(n) && k <= |schedule|
    ensures Exec(n, run) == Some(moments[k])
  {
    run := [];
    if k > 0 {
      run := MomentsAreRuns(n, schedule, moments, k - 1);
      assert StepAt(Tick, schedule, moments, k - 1);
      if Enabled(moments[k - 1], schedule[k - 1]) {
        assert (run + [schedule[k - 1]])[..|run + [schedule[k - 1]]| - 1] == run;
        run := run + [schedule[k - 1]];
      }
    }
  }

  predicate InHandler(s: State, t: nat) {
    t < |s.threads| && s.threads[t].handler != Absent
  }

  predicate InNormal(s: State, t: nat) {
    t < |s.threads| && s.threads[t].normal != Away
  }

  lemma OthersLeaveHandler(s: State, a: Action, t: nat)
    requires InHandler(s, t) && !(a == Go(t) && Enabled(s, a))
    ensures t < |Tick(s, a).threads| && Tick(s, a).threads[t] == s.threads[t]
  {
  }

  lemma OthersLeaveNormal(s: State, a: Action, t: nat)
    requires InNormal(s, t) && !(a == Go(t) && Enabled(s, a) && s.threads[t].handler == Absent)
    ensures t < |Tick(s, a).threads| && Tick(s, a).threads[t].normal == s.threads[t].normal
  {
  }

  class Program {
    const schedule: seq<Action>         // what will happen, in order
    ghost const moments: seq<State>     // and what is the case after each of its steps
    var now: nat                        // how many of them have happened
    var owner: Owner                    // of the lock
    var deferred: bool                  // SIGNAL_DEFERRED
    var threads: seq<Thread>            // where every thread's normal code and handler are
    var unserved: nat                   // signals delivered since do_the_thing last started

    function View(): State
      reads this
    {
      State(owner, deferred, threads, unserved)
    }

    ghost predicate Valid()
      reads this
    {
      && Recorded(Tick, schedule, moments)
      && now <= |schedule| && View() == moments[now]
      && Inv(View())
    }

    constructor (n: nat, schedule: seq<Action>)
      ensures Valid() && now == 0 && View() == Init(n) && this.schedule == schedule
    {
      ghost var recorded := Record(Tick, Init(n), schedule);
      this.schedule, this.moments, this.now := schedule, recorded, 0;
      this.owner, this.deferred, this.unserved := Nobody, false, 0;
      this.threads := seq(n, _ => Thread(Away, Absent));
    }

    /** Thread t's handler runs from the i-th moment to the j-th. */
    ghost predicate HandlerStays(t: nat, i: nat, j: nat)
      requires j < |moments|
    {
      forall k :: i <= k <= j ==> InHandler(moments[k], t)
    }

    /** Thread t's normal code, handlers on top of it included, goes on from the i-th moment to the j-th. */
    ghost predicate NormalStays(t: nat, i: nat, j: nat)
      requires j < |moments|
    {
      forall k :: i <= k <= j ==> InNormal(moments[k], t)
    }

    /** At the k-th moment thread t does the thing, holding the lock: `o` is its handler or normal code. */
    ghost predicate DoesTheThing(t: nat, o: Owner, k: nat) {
      && k < |schedule| && k + 1 < |moments|
      && schedule[k] == Go(t) && Enabled(moments[k], Go(t)) && moments[k].owner == o
      && (if o.HandlerOf? then moments[k].threads[t].handler == HandlerReady
          else moments[k].threads[t] == Thread(Ready, Absent))
      && moments[k + 1].unserved == 0
    }

    method Act(owner': Owner, deferred': bool, t: nat, th: Thread, unserved': nat)
      requires Valid() && now < |schedule| && Enabled(View(), schedule[now]) && t < |threads|
      requires Step(View(), schedule[now]) == State(owner', deferred', threads[t := th], unserved')
      modifies this
      ensures Valid() && now == old(now) + 1 && moments[old(now)] == old(View())
      ensures View() == State(owner', deferred', old(threads)[t := th], unserved')
    {
      assert StepAt(Tick, schedule, moments, now);
      InvKept(View(), schedule[now]);
      owner, deferred, threads, unserved := owner', deferred', threads[t := th], unserved';
      now := now + 1;
    }

    /** The next scheduled action happens if it can. */
    method Other()
      requires Valid() && now < |schedule|
      modifies this
      ensures Valid() && now == old(now) + 1 && View() == Tick(old(View()), schedule[old(now)])
    {
      assert StepAt(Tick, schedule, moments, now);
      if Enabled(View(), schedule[now]) {
        var next, t := Step(View(), schedule[now]), schedule[now].t;
        Act(next.owner, next.deferred, t, next.threads[t], next.unserved);
      } else {
        now := now + 1;
      }
    }

    /** Everybody else acts until it is the turn of thread t's handler. */
    method AwaitHandler(t: nat) returns (ready: bool)
      requires Valid() && InHandler(View(), t)
      modifies this
      ensures Valid() && old(now) <= now && HandlerStays(t, old(now), now)
      ensures t < |threads| && threads[t] == old(threads[t])
      ensures !ready ==> now == |schedule|
      ensures ready ==> now < |schedule| && schedule[now] == Go(t) && Enabled(View(), Go(t))
    {
      while now < |schedule|
        invariant Valid() && old(now) <= now && HandlerStays(t, old(now), now)
        invariant t < |threads| && threads[t] == old(threads[t])
        decreases |schedule| - now
      {
        if schedule[now] == Go(t) && Enabled(View(), schedule[now]) {
          return true;
        }
        OthersLeaveHandler(View(), schedule[now], t);
        Other();
      }
      return false;
    }

    /** Everybody else acts, handlers on top of this code too, until it is its turn. */
    method AwaitNormal(t: nat) returns (ready: bool)
      requires Valid() && InNormal(View(), t)
      modifies this
      ensures Valid() && old(now) <= now && NormalStays(t, old(now), now)
      ensures t < |threads| && threads[t].normal == old(threads[t].normal)
      ensures !ready ==> now == |schedule|
      ensures ready ==>
        now < |schedule| && schedule[now] == Go(t) && Enabled(View(), Go(t)) && threads[t].handler == Absent
    {
      while now < |schedule|
        invariant Valid() && old(now) <= now && NormalStays(t, old(now), now)
        invariant t < |threads| && threads[t].normal == old(threads[t].normal)
        decreases |schedule| - now
      {
        if schedule[now] == Go(t) && Enabled(View(), schedule[now]) && threads[t].handler == Absent {
          return true;
        }
        OthersLeaveNormal(View(), schedule[now], t);
        Other();
      }
      return false;
    }

    /** Does the thing itself, at the moment `thing`, exactly when the code it interrupted does not hold the
        lock; otherwise it leaves the flag set for that code. */
    method SignalHandler(t: nat) returns (done: bool, served: bool, ghost thing: nat)
      requires Valid() && t < |threads| && threads[t].handler == Trying
      modifies this
      ensures Valid() && old(now) <= now && t < |threads| && threads[t].normal == old(threads[t].normal)
      ensures done <==> old(now) < now && HandlerStays(t, old(now), now - 1) && threads[t].handler == Absent
      ensures !done <==> now == |schedule| && HandlerStays(t, old(now), now)
      ensures done ==> (served <==> !NormalHolds(old(threads[t].normal)))
      ensures done && served ==> old(now) <= thing < now && DoesTheThing(t, HandlerOf(t), thing)
      ensures done && !served ==> deferred && SomeoneLooks(View()) && moments[now - 1].threads[t].handler == Deferring
    {
      served, thing := false, now;
      done := AwaitHandler(t);
      if !done {
        return;
      }
      assert ThreadOk(owner, t, threads[t]);
      if owner == NormalOf(t) {
        // Err(Recursive)
        Act(owner, deferred, t, threads[t].(handler := Deferring), unserved);
        done := AwaitHandler(t);
        if !done {
          return;
        }
        Act(owner, true, t, threads[t].(handler := Absent), unserved);
      } else {
        Act(HandlerOf(t), deferred, t, threads[t].(handler := HandlerReady), unserved);
        done, thing := Serve(t);
        served := true;
      }
    }

    /** The handler's branch that holds the lock: do the thing, unlock, return. */
    method Serve(t: nat) returns (done: bool, ghost thing: nat)
      requires Valid() && t < |threads| && threads[t].handler == HandlerReady
      modifies this
      ensures Valid() && old(now) <= now && t < |threads| && threads[t].normal == old(threads[t].normal)
      ensures done ==>
        && old(now) <= thing < now && DoesTheThing(t, HandlerOf(t), thing)
        && HandlerStays(t, old(now), now - 1) && threads[t].handler == Absent
      ensures !done ==> now == |schedule| && HandlerStays(t, old(now), now)
    {
      thing := now;
      done := AwaitHandler(t);
      if !done {
        return;
      }
      thing := now;
      assert ThreadOk(owner, t, threads[t]);
      Act(owner, deferred, t, threads[t].(handler := HandlerFinished), 0);     // do_the_thing
      done := AwaitHandler(t);
      if !done {
        return;
      }
      Act(Nobody, deferred, t, threads[t].(handler := Absent), unserved);
    }

    /** Leaves its drain loop on finding the flag clear; a signal that is unserved then has somebody on the
        way to serve it. */
    method NormalCode(t: nat) returns (done: bool)
      requires Valid() && t < |threads| && threads[t].normal == Locking
      modifies this
      ensures Valid() && old(now) <= now && t < |threads|
      ensures done <==> old(now) < now && NormalStays(t, old(now), now - 1) && threads[t].normal == Away
      ensures !done <==> now == |schedule| && NormalStays(t, old(now), now)
      ensures done ==> moments[now - 1].threads[t] == Thread(Draining, Absent) && !moments[now - 1].deferred
      ensures done ==> !deferred && (unserved == 0 || SomeoneServes(View()))
    {
      done := CriticalSection(t);
      if !done {
        return;
      }
      while true
        invariant Valid() && old(now) <= now && NormalStays(t, old(now), now)
        invariant t < |threads| && threads[t].normal == Draining
        decreases |schedule| - now
      {
        done := AwaitNormal(t);
        if !done {
          return;
        }
        if !deferred {
          Act(owner, false, t, threads[t].(normal := Away), unserved);
          return;
        }
        Act(owner, false, t, threads[t].(normal := Relocking), unserved);
        ghost var thing;
        done, thing := ServeDeferred(t);
        if !done {
          return;
        }
      }
    }

    method CriticalSection(t: nat) returns (done: bool)
      requires Valid() && t < |threads| && threads[t].normal == Locking
      modifies this
      ensures Valid() && old(now) <= now && NormalStays(t, old(now), now) && t < |threads|
      ensures done ==> old(now) < now && threads[t].normal == Draining
      ensures !done ==> now == |schedule|
    {
      done := AwaitNormal(t);
      if !done {
        return;
      }
      Act(NormalOf(t), deferred, t, threads[t].(normal := Inside), unserved);
      done := AwaitNormal(t);
      if !done {
        return;
      }
      Act(Nobody, deferred, t, threads[t].(normal := Draining), unserved);
    }

    /** The body of the drain loop: the thing is done, under the lock, at the moment `thing`. */
    method ServeDeferred(t: nat) returns (done: bool, ghost thing: nat)
      requires Valid() && t < |threads| && threads[t].normal == Relocking
      modifies this
      ensures Valid() && old(now) <= now && NormalStays(t, old(now), now) && t < |threads|
      ensures done ==>
        old(now) <= thing < now && DoesTheThing(t, NormalOf(t), thing) && threads[t].normal == Draining
      ensures !done ==> now == |schedule|
    {
      thing := now;
      done := AwaitNormal(t);
      if !done {
        return;
      }
      Act(NormalOf(t), deferred, t, threads[t].(normal := Ready), unserved);
      done, thing := ServeAndUnlock(t);
    }

    method ServeAndUnlock(t: nat) returns (done: bool, ghost thing: nat)
      requires Valid() && t < |threads| && threads[t].normal == Ready
      modifies this
      ensures Valid() && old(now) <= now && NormalStays(t, old(now), now) && t < |threads|
      ensures done ==>
        old(now) <= thing < now && DoesTheThing(t, NormalOf(t), thing) && threads[t].normal == Draining
      ensures !done ==> now == |schedule|
    {
      thing := now;
      done := AwaitNormal(t);
      if !done {
        return;
      }
      thing := now;
      assert ThreadOk(owner, t, threads[t]);
      Act(owner, deferred, t, threads[t].(normal := Finished), 0);               // do_the_thing
      done := AwaitNormal(t);
      if !done {
        return;
      }
      Act(Nobody, deferred, t, threads[t].(normal := Draining), unserved);
    }
  }
}
