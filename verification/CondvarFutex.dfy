/** The futex that the loom tests use, made of an atomic word, a mutex and a condition variable. The word
    changes at any time, without the mutex. */
module CondvarFutex {
  import opened Wrappers
  import opened FutexObject
  import opened Schedules

  datatype Point<W> =
    | Idle
    | WantWait(val: W)      // wait: about to lock the mutex
    | Checking(val: W)      // holds the mutex; about to load the word
    | Enqueueing(val: W)    // holds the mutex; the word was val; about to wait on the condition variable
    | Queued(val: W)        // in the condition variable's queue; the mutex is released
    | Awake                 // notified, or awake for no reason; about to lock the mutex again
    | WantWake              // wake_one: about to lock the mutex
    | Notifying             // holds the mutex; about to notify one
    | Dropping              // holds the mutex; about to drop the guard and return

  datatype State<W> = State(word: W, mutex: Option<nat>, points: seq<Point<W>>)

  datatype Action<W> =
    | StartWait(t: nat, val: W)
    | StartWake(t: nat)
    | ChangeWord(word: W)             // anyone, at any time
    | Go(t: nat)
    | Notify(t: nat, p: nat)          // notify_one picks p
    | Spurious(t: nat)

  function Init<W>(threads: nat, word: W): State<W> {
    State(word, None, seq(threads, _ => Idle))
  }

  predicate HasMutex<W>(p: Point<W>) {
    p.Checking? || p.Enqueueing? || p.Notifying? || p.Dropping?
  }

  predicate NeedsMutex<W>(p: Point<W>) {
    p.WantWait? || p.WantWake? || p.Awake?
  }

  predicate AnyQueued<W>(s: State<W>) {
    exists t :: 0 <= t < |s.points| && s.points[t].Queued?
  }

  predicate Enabled<W>(s: State<W>, a: Action<W>) {
    match a
    case StartWait(t, _) => t < |s.points| && s.points[t].Idle?
    case StartWake(t) => t < |s.points| && s.points[t].Idle?
    case ChangeWord(_) => true
    case Go(t) =>
      && t < |s.points| && !s.points[t].Idle? && !s.points[t].Queued?
      && (NeedsMutex(s.points[t]) ==> s.mutex == None)
      && (s.points[t].Notifying? ==> !AnyQueued(s))
    case Notify(t, p) => t < |s.points| && p < |s.points| && s.points[t].Notifying? && s.points[p].Queued?
    case Spurious(t) => t < |s.points| && s.points[t].Queued?
  }

  function Step<W(==)>(s: State<W>, a: Action<W>): State<W>
    requires Enabled(s, a)
  {
    match a
    case StartWait(t, val) => s.(points := s.points[t := WantWait(val)])
    case StartWake(t) => s.(points := s.points[t := WantWake])
    case ChangeWord(word) => s.(word := word)
    case Notify(t, p) => s.(points := s.points[p := Awake][t := Dropping])
    case Spurious(t) => s.(points := s.points[t := Awake])
    case Go(t) =>
      match s.points[t]
      case WantWait(val) => s.(mutex := Some(t), points := s.points[t := Checking(val)])
      case Checking(val) => s.(points := s.points[t := if s.word == val then Enqueueing(val) else Dropping])
      case Enqueueing(val) => s.(mutex := None, points := s.points[t := Queued(val)])
      case Awake => s.(mutex := Some(t), points := s.points[t := Dropping])
      case WantWake => s.(mutex := Some(t), points := s.points[t := Notifying])
      case Notifying => s.(points := s.points[t := Dropping])
      case _ => s.(mutex := None, points := s.points[t := Idle])
  }

  /** The atomic futex being simulated: a waiter sleeps from the moment its check has passed. */
  predicate Asleep<W>(p: Point<W>) {
    p.Enqueueing? || p.Queued?
  }

  function Simulated<W>(s: State<W>): Futex<W> {
    Futex(s.word, set t | 0 <= t < |s.points| && Asleep(s.points[t]))
  }

  function SimulatedEvent<W(==)>(s: State<W>, a: Action<W>): Event<W>
    requires Enabled(s, a)
  {
    match a
    case ChangeWord(word) => SetWord(word)
    case Notify(_, p) => Wake(p)
    case Spurious(t) => WakeUnasked(t)
    case Go(t) =>
      (match s.points[t]
       case Checking(val) => if s.word == val then Sleep(t, val) else Decline(t, val)
       case Notifying => WakeNobody
       case _ => Nothing)
    case _ => Nothing
  }

  /** The mutex excludes. */
  predicate Inv<W>(s: State<W>) {
    && (forall t :: 0 <= t < |s.points| ==> (HasMutex(s.points[t]) <==> s.mutex == Some(t)))
    && (s.mutex.Some? ==> s.mutex.value < |s.points|)
  }

  lemma AsleepAfter<W>(s: State<W>, s': State<W>, t: nat)
    requires t < |s.points| == |s'.points|
    requires forall u :: 0 <= u < |s.points| && u != t ==> s'.points[u] == s.points[u]
    ensures Simulated(s').sleepers ==
      if Asleep(s'.points[t]) then Simulated(s).sleepers + {t} else Simulated(s).sleepers - {t}
  {
  }

  /** Every action of the condition-variable futex is an action of the atomic futex, or invisible: between
      a waiter's check and its place in the queue no wake can pass, whatever the word does meanwhile. */
  lemma StepRefines<W>(s: State<W>, a: Action<W>)
    requires Inv(s) && Enabled(s, a)
    ensures Inv(Step(s, a))
    ensures Permits(Simulated(s), SimulatedEvent(s, a))
    ensures Simulated(Step(s, a)) == After(Simulated(s), SimulatedEvent(s, a))
  {
    var s' := Step(s, a);
    match a
    case ChangeWord(_) =>
    case Notify(t, p) =>
      var middle := s.(points := s.points[p := Awake]);
      AsleepAfter(s, middle, p);
      AsleepAfter(middle, s', t);
    case StartWait(t, _) => AsleepAfter(s, s', t);
    case StartWake(t) => AsleepAfter(s, s', t);
    case Spurious(t) => AsleepAfter(s, s', t);
    case Go(t) => AsleepAfter(s, s', t);
  }

  function Exec<W(==)>(s: State<W>, run: seq<Action<W>>): Option<State<W>> {
    if run == [] then Some(s)
    else
      var before := Exec(s, run[..|run| - 1]);
      if before.Some? && Enabled(before.value, run[|run| - 1])
      then Some(Step(before.value, run[|run| - 1])) else None
  }

  function Trace<W(==)>(s: State<W>, run: seq<Action<W>>): seq<Event<W>>
    requires Exec(s, run).Some?
  {
    if run == [] then []
    else Trace(s, run[..|run| - 1]) + [SimulatedEvent(Exec(s, run[..|run| - 1]).value, run[|run| - 1])]
  }

  /** Every run, seen from outside, is a history of the atomic futex. */
  lemma {:induction false} RunsRefine<W>(threads: nat, word: W, run: seq<Action<W>>)
    requires Exec(Init(threads, word), run).Some?
    ensures Inv(Exec(Init(threads, word), run).value) && |Exec(Init(threads, word), run).value.points| == threads
    ensures
      Replay(Futex(word, {}), Trace(Init(threads, word), run)) == Some(Simulated(Exec(Init(threads, word), run).value))
  {
    var s := Init(threads, word);
    if run == [] {
      assert Simulated(s).sleepers == {};
    } else {
      var before, a := run[..|run| - 1], run[|run| - 1];
      RunsRefine(threads, word, before);
      StepRefines(Exec(s, before).value, a);
      ReplayOneMore(Futex(word, {}), Trace(s, before), SimulatedEvent(Exec(s, before).value, a));
    }
  }

  /** The mutex never blocks for good: unless every call is asleep in the queue, some call can go on. */
  lemma OnlyTheQueueBlocks<W>(s: State<W>, t: nat) returns (a: Action<W>)
    requires Inv(s) && t < |s.points| && !s.points[t].Idle? && !s.points[t].Queued?
    ensures (a.Go? || a.Notify?) && Enabled(s, a)
  {
    var u := if s.mutex.Some? then s.mutex.value else t;
    if s.points[u].Notifying? && AnyQueued(s) {
      var p :| 0 <= p < |s.points| && s.points[p].Queued?;
      a := Notify(u, p);
    } else {
      a := Go(u);
    }
  }

  // ---------- what can happen ----------

  /** The run goes on with `a`. */
  lemma Happens<W>(init: State<W>, run: seq<Action<W>>, s: State<W>, a: Action<W>)
    returns (run': seq<Action<W>>, s': State<W>)
    requires Exec(init, run) == Some(s) && Enabled(s, a)
    ensures run' == run + [a] && Exec(init, run') == Some(s') && s' == Step(s, a)
  {
    run', s' := run + [a], Step(s, a);
    assert run'[..|run'| - 1] == run;
  }

  /** The word may change at any time, also while a waiter is between its check and its place in the queue. */
  lemma WordMayChange<W>(init: State<W>, run: seq<Action<W>>, s: State<W>, word: W)
    requires Exec(init, run) == Some(s)
    ensures Exec(init, run + [ChangeWord(word)]) == Some(s.(word := word))
  {
    var run', s' := Happens(init, run, s, ChangeWord(word));
  }

  /** A queued waiter may wake for no reason, */
  lemma SleeperMayWake<W>(init: State<W>, run: seq<Action<W>>, s: State<W>, t: nat)
    requires Exec(init, run) == Some(s) && t < |s.points| && s.points[t].Queued?
    ensures Exec(init, run + [Spurious(t)]) == Some(s.(points := s.points[t := Awake]))
  {
    var run', s' := Happens(init, run, s, Spurious(t));
  }

  /** and any of them may be the one that is notified. */
  lemma AnySleeperMayBeNotified<W>(init: State<W>, run: seq<Action<W>>, s: State<W>, t: nat, p: nat)
    requires Exec(init, run) == Some(s) && t < |s.points| && p < |s.points|
    requires s.points[t].Notifying? && s.points[p].Queued?
    ensures Exec(init, run + [Notify(t, p)]) == Some(s.(points := s.points[p := Awake][t := Dropping]))
  {
    var run', s' := Happens(init, run, s, Notify(t, p));
  }

  /** A call of wait, undisturbed: it ends in the queue if the word is as expected, and returns if not. */
  lemma WaitTakesEffect<W>(init: State<W>, run: seq<Action<W>>, s0: State<W>, t: nat, val: W)
    returns (run': seq<Action<W>>, s: State<W>)
    requires Exec(init, run) == Some(s0) && t < |s0.points| && s0.points[t].Idle? && s0.mutex == None
    ensures run' == run + [StartWait(t, val), Go(t), Go(t), Go(t)] && Exec(init, run') == Some(s)
    ensures s == if s0.word == val then s0.(points := s0.points[t := Queued(val)]) else s0
  {
    run', s := Happens(init, run, s0, StartWait(t, val));
    assert s.points[t] == WantWait(val);
    run', s := Happens(init, run', s, Go(t));
    assert s.points[t] == Checking(val);
    run', s := Happens(init, run', s, Go(t));
    assert s.points[t] == if s0.word == val then Enqueueing(val) else Dropping;
    run', s := Happens(init, run', s, Go(t));
    assert s0.points[t := Idle] == s0.points;
  }

  /** A call of wake_one, undisturbed: it takes one waiter off the queue, or does nothing if there is none. */
  lemma WakeTakesEffect<W>(init: State<W>, run: seq<Action<W>>, s0: State<W>, t: nat, p: nat)
    returns (run': seq<Action<W>>, s: State<W>)
    requires Exec(init, run) == Some(s0) && t < |s0.points| && s0.points[t].Idle? && s0.mutex == None
    requires AnyQueued(s0) ==> p < |s0.points| && s0.points[p].Queued?
    ensures
      run' == run + [StartWake(t), Go(t), if AnyQueued(s0) then Notify(t, p) else Go(t), Go(t)]
      && Exec(init, run') == Some(s)
    ensures s == if AnyQueued(s0) then s0.(points := s0.points[p := Awake]) else s0
  {
    run', s := WakeBegins(init, run, s0, t);
    if AnyQueued(s0) {
      run', s := Happens(init, run', s, Notify(t, p));
      run', s := Happens(init, run', s, Go(t));
      assert s.points == s0.points[p := Awake];
    } else {
      run', s := Happens(init, run', s, Go(t));
      run', s := Happens(init, run', s, Go(t));
      assert s.points == s0.points;
    }
  }

  lemma WakeBegins<W>(init: State<W>, run: seq<Action<W>>, s0: State<W>, t: nat)
    returns (run': seq<Action<W>>, s: State<W>)
    requires Exec(init, run) == Some(s0) && t < |s0.points| && s0.points[t].Idle? && s0.mutex == None
    ensures run' == run + [StartWake(t), Go(t)] && Exec(init, run') == Some(s)
    ensures s == s0.(mutex := Some(t), points := s0.points[t := Notifying])
    ensures AnyQueued(s) <==> AnyQueued(s0)
  {
    run', s := Happens(init, run, s0, StartWake(t));
    assert s.points[t] == WantWake;
    run', s := Happens(init, run', s, Go(t));
    if AnyQueued(s0) {
      var q :| 0 <= q < |s0.points| && s0.points[q].Queued?;
      assert s.points[q].Queued?;
    }
  }

  // ---------- the source's form ----------

  function Tick<W(==)>(s: State<W>, a: Action<W>): State<W> {
    if Enabled(s, a) then Step(s, a) else s
  }

  function EventOn<W(==)>(s: State<W>, a: Action<W>): Event<W> {
    if Enabled(s, a) then SimulatedEvent(s, a) else Nothing
  }

  /** Every moment of a schedule is the end of a run, with its events. */
  lemma {:induction false} MomentsAreRuns<W>(init: State<W>, schedule: seq<Action<W>>, moments: seq<State<W>>, k: nat)
    returns (run: seq<Action<W>>)
    requires Recorded(Tick, schedule, moments) && moments[0] == init && k <= |schedule|
    ensures Exec(init, run) == Some(moments[k])
  {
    run := [];
    if k > 0 {
      run := MomentsAreRuns(init, schedule, moments, k - 1);
      assert StepAt(Tick, schedule, moments, k - 1);
      if Enabled(moments[k - 1], schedule[k - 1]) {
        assert (run + [schedule[k - 1]])[..|run + [schedule[k - 1]]| - 1] == run;
        run := run + [schedule[k - 1]];
      }
    }
  }

  /** And at each of them the atomic futex permits what happens, and follows. */
  lemma {:induction false} MomentsRefine<W>(schedule: seq<Action<W>>, moments: seq<State<W>>, k: nat)
    requires Recorded(Tick, schedule, moments) && Inv(moments[0]) && k < |schedule|
    ensures Inv(moments[k]) && Permits(Simulated(moments[k]), EventOn(moments[k], schedule[k]))
    ensures Simulated(moments[k + 1]) == After(Simulated(moments[k]), EventOn(moments[k], schedule[k]))
  {
    if k > 0 {
      MomentsRefine(schedule, moments, k - 1);
      assert StepAt(Tick, schedule, moments, k - 1);
      if Enabled(moments[k - 1], schedule[k - 1]) {
        StepRefines(moments[k - 1], schedule[k - 1]);
      }
    }
    assert StepAt(Tick, schedule, moments, k);
    if Enabled(moments[k], schedule[k]) {
      StepRefines(moments[k], schedule[k]);
    }
  }

  predicate Busy<W>(s: State<W>, t: nat) {
    t < |s.points| && !s.points[t].Idle?
  }

  class FakeFutex<W(==)> {
    const schedule: seq<Action<W>>          // what will happen, in order
    ghost const moments: seq<State<W>>      // and what is the case after each of its steps
    var now: nat                            // how many of them have happened
    var word: W                             // the atomic, changed by anyone
    var mutex: Option<nat>
    var points: seq<Point<W>>               // where every thread is, the condition variable's queue among them

    function View(): State<W>
      reads this
    {
      State(word, mutex, points)
    }

    ghost predicate Valid()
      reads this
    {
      && Recorded(Tick, schedule, moments)
      && now <= |schedule| && View() == moments[now]
      && Inv(View())
    }

    constructor (threads: nat, word: W, schedule: seq<Action<W>>)
      ensures Valid() && now == 0 && View() == Init(threads, word) && this.schedule == schedule
    {
      ghost var recorded := Record(Tick, Init(threads, word), schedule);
      this.schedule, this.moments, this.now := schedule, recorded, 0;
      this.word, this.mutex := word, None;
      this.points := seq(threads, _ => Idle);
    }

    /** The call of thread t goes on from the i-th moment to the j-th. */
    ghost predicate Stays(t: nat, i: nat, j: nat)
      requires j < |moments|
    {
      forall k :: i <= k <= j ==> Busy(moments[k], t)
    }

    /** What happens to the atomic futex at the k-th moment. */
    ghost function EventAt(k: nat): Event<W>
      requires k < |schedule| && k < |moments|
    {
      EventOn(moments[k], schedule[k])
    }

    /** The schedule has ended, and the call is still going on. */
    ghost predicate CutOff(t: nat, since: nat)
      reads this
    {
      now == |schedule| < |moments| && Stays(t, since, now)
    }

    /** The call has returned in the last step, having gone on until then. */
    ghost predicate Returned(t: nat, since: nat)
      reads this
    {
      since < now <= |moments| && Stays(t, since, now - 1) && t < |points| && points[t] == Idle
    }

    /** The next scheduled action happens. */
    method Act(next: State<W>)
      requires Valid() && now < |schedule| && Enabled(View(), schedule[now]) && next == Step(View(), schedule[now])
      modifies this
      ensures Valid() && View() == next && now == old(now) + 1 && moments[old(now)] == old(View())
    {
      assert StepAt(Tick, schedule, moments, now);
      StepRefines(View(), schedule[now]);
      word, mutex, points := next.word, next.mutex, next.points;
      now := now + 1;
    }

    /** What others can do to a thread: take it off the condition variable's queue. */
    predicate Carried(p: Point<W>, p': Point<W>) {
      p' == p || (p.Queued? && p' == Awake)
    }

    predicate OwnTurn(a: Action<W>, t: nat) {
      a == Go(t) || (a.Notify? && a.t == t)
    }

    /** The next scheduled action happens if it can, and is not one of thread t. */
    method Other(t: nat)
      requires Valid() && Busy(View(), t) && now < |schedule|
      requires Enabled(View(), schedule[now]) ==> !OwnTurn(schedule[now], t)
      modifies this
      ensures Valid() && now == old(now) + 1 && Busy(View(), t)
      ensures Carried(old(points[t]), points[t])
    {
      if Enabled(View(), schedule[now]) {
        Act(Step(View(), schedule[now]));
      } else {
        assert StepAt(Tick, schedule, moments, now);
        now := now + 1;
      }
    }

    /** Others act, change the word and wake, until it is the turn of thread t. */
    method Await(t: nat) returns (ready: bool)
      requires Valid() && Busy(View(), t)
      modifies this
      ensures Valid() && old(now) <= now && Stays(t, old(now), now) && Carried(old(points[t]), points[t])
      ensures !ready ==> now == |schedule|
      ensures ready ==> now < |schedule| && Enabled(View(), schedule[now]) && OwnTurn(schedule[now], t)
    {
      while now < |schedule|
        invariant Valid() && old(now) <= now && Stays(t, old(now), now) && Carried(old(points[t]), points[t])
        decreases |schedule| - now
      {
        if Enabled(View(), schedule[now]) && OwnTurn(schedule[now], t) {
          return true;
        }
        Other(t);
      }
      return false;
    }

    /** At one moment of the call, `checked`, the thread fell asleep on `val` or found another word. */
    method Wait(t: nat, val: W) returns (done: bool, slept: bool, ghost checked: nat)
      requires Valid() && t < |points| && points[t] == WantWait(val)
      modifies this
      ensures Valid() && old(now) <= now
      ensures done <==> Returned(t, old(now))
      ensures !done <==> CutOff(t, old(now))
      ensures done ==>
        && old(now) <= checked < now && slept == (moments[checked].word == val)
        && EventAt(checked) == if slept then Sleep(t, val) else Decline(t, val)
    {
      slept, checked := false, now;
      done := Await(t);
      if !done {
        return;
      }
      Act(State(word, Some(t), points[t := Checking(val)]));
      done, slept := Compare(t, val);
      if !done {
        return;
      }
      checked := now - 1;
      if slept {
        done := SleepInQueue(t, val);
        if !done {
          return;
        }
      }
      done := DropGuard(t);
    }

    /** The check of the word, under the mutex. */
    method Compare(t: nat, val: W) returns (done: bool, slept: bool)
      requires Valid() && t < |points| && points[t] == Checking(val)
      modifies this
      ensures Valid() && old(now) <= now && Stays(t, old(now), now)
      ensures done ==>
        && old(now) < now && points[t] == (if slept then Enqueueing(val) else Dropping)
        && slept == (moments[now - 1].word == val)
        && EventAt(now - 1) == if slept then Sleep(t, val) else Decline(t, val)
      ensures !done ==> now == |schedule|
    {
      slept := false;
      done := Await(t);
      if !done {
        return;
      }
      slept := word == val;
      Act(State(word, mutex, points[t := if slept then Enqueueing(val) else Dropping]));
    }

    /** The condition variable's wait: release the mutex and queue up, and when awake lock it again. */
    method SleepInQueue(t: nat, val: W) returns (done: bool)
      requires Valid() && t < |points| && points[t] == Enqueueing(val)
      modifies this
      ensures Valid() && old(now) <= now && Stays(t, old(now), now)
      ensures done ==> points[t] == Dropping
      ensures !done ==> now == |schedule|
    {
      done := Await(t);
      if !done {
        return;
      }
      Act(State(word, None, points[t := Queued(val)]));
      done := Await(t);
      if !done {
        return;
      }
      Act(State(word, Some(t), points[t := Dropping]));
    }

    method DropGuard(t: nat) returns (done: bool)
      requires Valid() && t < |points| && points[t] == Dropping
      modifies this
      ensures Valid() && old(now) <= now
      ensures done ==> Returned(t, old(now))
      ensures !done ==> CutOff(t, old(now))
    {
      done := Await(t);
      if !done {
        return;
      }
      Act(State(word, None, points[t := Idle]));
    }

    /** At one moment of the call, `notified`, a sleeper was woken, or nobody slept. */
    method WakeOne(t: nat) returns (done: bool, woken: Option<nat>, ghost notified: nat)
      requires Valid() && t < |points| && points[t] == WantWake
      modifies this
      ensures Valid() && old(now) <= now
      ensures done <==> Returned(t, old(now))
      ensures !done <==> CutOff(t, old(now))
      ensures done ==>
        && old(now) <= notified < now
        && EventAt(notified) == if woken.Some? then Wake(woken.value) else WakeNobody
    {
      woken, notified := None, now;
      done := Await(t);
      if !done {
        return;
      }
      Act(State(word, Some(t), points[t := Notifying]));
      done, woken := NotifyOne(t);
      if !done {
        return;
      }
      notified := now - 1;
      done := DropGuard(t);
    }

    method NotifyOne(t: nat) returns (done: bool, woken: Option<nat>)
      requires Valid() && t < |points| && points[t] == Notifying
      modifies this
      ensures Valid() && old(now) <= now && Stays(t, old(now), now)
      ensures done ==>
        && old(now) < now && points[t] == Dropping
        && EventAt(now - 1) == if woken.Some? then Wake(woken.value) else WakeNobody
      ensures !done ==> now == |schedule|
    {
      woken := None;
      done := Await(t);
      if !done {
        return;
      }
      if schedule[now].Notify? {
        woken := Some(schedule[now].p);
        Act(State(word, mutex, points[schedule[now].p := Awake][t := Dropping]));
      } else {
        Act(State(word, mutex, points[t := Dropping]));
      }
    }
  }
}
