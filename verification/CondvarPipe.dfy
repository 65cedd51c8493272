/** The pipe that the loom tests use, made of a mutex and a condition variable, holding at most two bytes.
    Each critical section is one step; the notification comes after the mutex is released. */
module CondvarPipe {
  import opened Wrappers
  import opened Schedules

  const CAPACITY := 2

  datatype Point =
    | Idle
    | Reader              // in read: about to lock the mutex, or notified and about to check again
    | Queued              // in read: waiting on the condition variable
    | Writer              // in write: about to lock the mutex
    | MustNotify          // in write: one byte added, mutex released; about to notify all

  datatype State = State(bytes: nat, points: seq<Point>)

  datatype Action = Read(t: nat) | Write(t: nat) | Go(t: nat) | Spurious(t: nat)

  function Init(n: nat): State {
    State(0, seq(n, _ => Idle))
  }

  function NotifyAll(points: seq<Point>): (woken: seq<Point>)
    ensures |woken| == |points|
    ensures forall i :: 0 <= i < |points| ==> woken[i] == if points[i].Queued? then Reader else points[i]
  {
    seq(|points|, i requires 0 <= i < |points| => if points[i].Queued? then Reader else points[i])
  }

  predicate Enabled(s: State, a: Action) {
    && a.t < |s.points|
    && match a
       case Read(t) => s.points[t].Idle?
       case Write(t) => s.points[t].Idle?
       case Go(t) => !s.points[t].Idle? && !s.points[t].Queued?
       case Spurious(t) => s.points[t].Queued?
  }

  function Step(s: State, a: Action): State
    requires Enabled(s, a)
  {
    var t := a.t;
    match a
    case Read(_) => s.(points := s.points[t := Reader])
    case Write(_) => s.(points := s.points[t := Writer])
    case Spurious(_) => s.(points := s.points[t := Reader])
    case Go(_) =>
      match s.points[t]
      case Reader =>
        if s.bytes > 0 then State(s.bytes - 1, s.points[t := Idle]) else s.(points := s.points[t := Queued])
      case Writer =>
        if s.bytes < CAPACITY then State(s.bytes + 1, s.points[t := MustNotify])
        else s.(points := s.points[t := Idle])       // EWOULDBLOCK
      case MustNotify => s.(points := NotifyAll(s.points)[t := Idle])
      case _ => s
  }

  function Exec(n: nat, run: seq<Action>): Option<State> {
    if run == [] then Some(Init(n))
    else
      var before := Exec(n, run[..|run| - 1]);
      if before.Some? && Enabled(before.value, run[|run| - 1])
      then Some(Step(before.value, run[|run| - 1])) else None
  }

  // ---------- an atomic pipe is simulated ----------

  datatype Event = Nothing | Took(t: nat) | Added(t: nat) | FoundFull(t: nat)

  /** What a pipe with so many bytes in it permits. */
  predicate Permits(bytes: nat, e: Event) {
    match e
    case Nothing => true
    case Took(_) => bytes > 0
    case Added(_) => bytes < CAPACITY
    case FoundFull(_) => bytes == CAPACITY
  }

  function After(bytes: nat, e: Event): nat
    requires Permits(bytes, e)
  {
    match e
    case Took(_) => bytes - 1
    case Added(_) => bytes + 1
    case _ => bytes
  }

  function Replay(bytes: nat, es: seq<Event>): Option<nat> {
    if es == [] then Some(bytes)
    else
      var before := Replay(bytes, es[..|es| - 1]);
      if before.Some? && Permits(before.value, es[|es| - 1]) then Some(After(before.value, es[|es| - 1])) else None
  }

  /** A call takes effect at one moment, in its critical section. */
  function EventOf(s: State, a: Action): Event
    requires Enabled(s, a)
  {
    if !a.Go? then Nothing
    else
      match s.points[a.t]
      case Reader => if s.bytes > 0 then Took(a.t) else Nothing
      case Writer => if s.bytes < CAPACITY then Added(a.t) else FoundFull(a.t)
      case _ => Nothing
  }

  function Trace(n: nat, run: seq<Action>): seq<Event>
    requires Exec(n, run).Some?
  {
    if run == [] then []
    else Trace(n, run[..|run| - 1]) + [EventOf(Exec(n, run[..|run| - 1]).value, run[|run| - 1])]
  }

  predicate SomeoneMustNotify(s: State) {
    exists t :: 0 <= t < |s.points| && s.points[t].MustNotify?
  }

  /** Nobody waits while there is a byte, unless a notification is on its way. */
  predicate Inv(s: State) {
    && s.bytes <= CAPACITY
    && (s.bytes > 0 && (exists t :: 0 <= t < |s.points| && s.points[t].Queued?) ==> SomeoneMustNotify(s))
  }

  lemma InvKept(s: State, a: Action)
    requires Inv(s) && Enabled(s, a)
    ensures Inv(Step(s, a))
  {
    var s' := Step(s, a);
    if s'.bytes > 0 && exists t :: 0 <= t < |s'.points| && s'.points[t].Queued? {
      var p :| 0 <= p < |s'.points| && s'.points[p].Queued?;
      if a.Go? && s.points[a.t].Writer? && s.bytes < CAPACITY {
        assert s'.points[a.t].MustNotify?;
      } else {
        assert s.points[p].Queued?;
        var u :| 0 <= u < |s.points| && s.points[u].MustNotify?;
        assert s'.points[u].MustNotify?;
      }
    }
  }

  lemma {:induction false} RunsKeep(n: nat, run: seq<Action>)
    requires Exec(n, run).Some?
    ensures Inv(Exec(n, run).value) && |Exec(n, run).value.points| == n && Exec(n, run).value.bytes <= 2
  {
    if run != [] {
      RunsKeep(n, run[..|run| - 1]);
      InvKept(Exec(n, run[..|run| - 1]).value, run[|run| - 1]);
    }
  }

  lemma StepRefines(s: State, a: Action)
    requires s.bytes <= CAPACITY && Enabled(s, a)
    ensures Permits(s.bytes, EventOf(s, a)) && Step(s, a).bytes == After(s.bytes, EventOf(s, a))
  {
  }

  lemma ReplayOneMore(bytes: nat, es: seq<Event>, e: Event)
    requires Replay(bytes, es).Some? && Permits(Replay(bytes, es).value, e)
    ensures Replay(bytes, es + [e]) == Some(After(Replay(bytes, es).value, e))
  {
    assert (es + [e])[..|es + [e]| - 1] == es;
  }

  /** Every run, seen from outside, is a history of a pipe of two bytes. */
  lemma {:induction false} RunsRefine(n: nat, run: seq<Action>)
    requires Exec(n, run).Some?
    ensures Replay(0, Trace(n, run)) == Some(Exec(n, run).value.bytes)
  {
    if run != [] {
      var before, a := run[..|run| - 1], run[|run| - 1];
      RunsRefine(n, before);
      RunsKeep(n, before);
      StepRefines(Exec(n, before).value, a);
      ReplayOneMore(0, Trace(n, before), EventOf(Exec(n, before).value, a));
    }
  }

  /** The condition-variable pipe blocks only as a pipe does: when no call can go on by itself, whoever is
      still in a call is a reader of an empty pipe. */
  lemma BlocksOnlyWhenEmpty(n: nat, run: seq<Action>, t: nat)
    requires Exec(n, run).Some? && (forall u :: !Enabled(Exec(n, run).value, Go(u))) && t < n
    ensures |Exec(n, run).value.points| == n
    ensures
      var s := Exec(n, run).value;
      s.points[t].Idle? || (s.points[t].Queued? && s.bytes == 0)
  {
    RunsKeep(n, run);
    var s := Exec(n, run).value;
    assert !Enabled(s, Go(t));
    if s.points[t].Queued? && s.bytes > 0 {
      var u :| 0 <= u < |s.points| && s.points[u].MustNotify?;
      assert Enabled(s, Go(u));
    }
  }

  // ---------- what can happen ----------

  /** The run goes on with `a`. */
  lemma Happens(n: nat, run: seq<Action>, s: State, a: Action) returns (run': seq<Action>, s': State)
    requires Exec(n, run) == Some(s) && Enabled(s, a)
    ensures run' == run + [a] && Exec(n, run') == Some(s') && s' == Step(s, a)
  {
    run', s' := run + [a], Step(s, a);
    assert run'[..|run'| - 1] == run;
  }

  /** A queued reader may wake for no reason, and looks again. */
  lemma SleeperMayWake(n: nat, run: seq<Action>, s0: State, t: nat) returns (run': seq<Action>, s: State)
    requires Exec(n, run) == Some(s0) && t < |s0.points| && s0.points[t].Queued?
    ensures run' == run + [Spurious(t)] && Exec(n, run') == Some(s)
    ensures s == s0.(points := s0.points[t := Reader])
  {
    run', s := Happens(n, run, s0, Spurious(t));
  }

  /** A thread outside writes: with fewer than two bytes in the pipe it adds one and wakes every queued
      reader, with two it comes back with nothing changed. */
  lemma WriteTakesEffect(n: nat, run: seq<Action>, s0: State, t: nat) returns (run': seq<Action>, s: State)
    requires Exec(n, run) == Some(s0) && t < |s0.points| && s0.points[t].Idle?
    ensures Exec(n, run') == Some(s)
    ensures s0.bytes < 2 ==> run' == run + [Write(t), Go(t), Go(t)] && s == State(s0.bytes + 1, NotifyAll(s0.points))
    ensures s0.bytes >= 2 ==> run' == run + [Write(t), Go(t)] && s == s0
  {
    run', s := Happens(n, run, s0, Write(t));
    RunsKeep(n, run);
    assert s.points[t] == Writer;
    run', s := Happens(n, run', s, Go(t));
    if s0.bytes < 2 {
      assert s.points[t] == MustNotify;
      run', s := Happens(n, run', s, Go(t));
      assert s.points == NotifyAll(s0.points);
    } else {
      assert s.points == s0.points;
    }
  }

  /** A thread outside reads: with a byte in the pipe it takes one, without it waits. */
  lemma ReadTakesEffect(n: nat, run: seq<Action>, s0: State, t: nat) returns (run': seq<Action>, s: State)
    requires Exec(n, run) == Some(s0) && t < |s0.points| && s0.points[t].Idle?
    ensures run' == run + [Read(t), Go(t)] && Exec(n, run') == Some(s)
    ensures
      s == if s0.bytes > 0 then s0.(bytes := s0.bytes - 1) else s0.(points := s0.points[t := Queued])
  {
    run', s := Happens(n, run, s0, Read(t));
    assert s.points[t] == Reader;
    run', s := Happens(n, run', s, Go(t));
    assert s0.points[t := Idle] == s0.points;
  }

  /** Two bytes fit, and not three. */
  lemma TwoBytesFit(n: nat, t: nat) returns (run: seq<Action>, s: State)
    requires t < n
    ensures Exec(n, run) == Some(s) && s.bytes == 2
    ensures |s.points| == n && forall u :: 0 <= u < n ==> s.points[u].Idle?
  {
    run, s := WriteTakesEffect(n, [], Init(n), t);
    assert s.points == Init(n).points;
    run, s := WriteTakesEffect(n, run, s, t);
  }

  // ---------- the source's form ----------

  function Tick(s: State, a: Action): State {
    if Enabled(s, a) then Step(s, a) else s
  }

  function EventOn(s: State, a: Action): Event {
    if Enabled(s, a) then EventOf(s, a) else Nothing
  }

  /** Every moment of a schedule is the end of a run. */
  lemma {:induction false} MomentsAreRuns(n: nat, schedule: seq<Action>, moments: seq<State>, k: nat)
    returns (run: seq<Action>)
    requires Recorded(Tick, schedule, moments) && moments[0] == Init(n) && k <= |schedule|
    ensures Exec(n, run) == Some(moments[k])
  {
    run := [];
    if k > 0 {
      run := MomentsAreRuns(n, schedule, moments, k - 1);
      assert StepAt(Tick, schedule, moments, k - 1);
      if Enabled(moments[k - 1], schedule[k - 1]) {
        assert (run + [schedule[k - 1]])[..|run + [schedule[k - 1]]| - 1] == run;
        run := run + [schedule[k - 1]];
      }
    }
  }

  predicate Busy(s: State, t: nat) {
    t < |s.points| && !s.points[t].Idle?
  }

  class LoomPipe {
    const schedule: seq<Action>         // what will happen, in order
    ghost const moments: seq<State>     // and what is the case after each of its steps
    var now: nat                        // how many of them have happened
    var bytes: nat                      // guarded by the mutex
    var points: seq<Point>              // where every thread is, the condition variable's queue among them

    function View(): State
      reads this
    {
      State(bytes, points)
    }

    ghost predicate Valid()
      reads this
    {
      && Recorded(Tick, schedule, moments)
      && now <= |schedule| && View() == moments[now]
      && Inv(View())
    }

    constructor (threads: nat, schedule: seq<Action>)
      ensures Valid() && now == 0 && View() == Init(threads) && this.schedule == schedule
    {
      ghost var recorded := Record(Tick, Init(threads), schedule);
      this.schedule, this.moments, this.now := schedule, recorded, 0;
      this.bytes, this.points := 0, seq(threads, _ => Idle);
    }

    /** The call of thread t goes on from the i-th moment to the j-th. */
    ghost predicate Stays(t: nat, i: nat, j: nat)
      requires j < |moments|
    {
      forall k :: i <= k <= j ==> Busy(moments[k], t)
    }

    /** What happens to the pipe at the k-th moment. */
    ghost function EventAt(k: nat): Event
      requires k < |schedule| && k < |moments|
    {
      EventOn(moments[k], schedule[k])
    }

    /** The schedule has ended, and the call is still going on. */
    ghost predicate CutOff(t: nat, since: nat)
      reads this
    {
      now == |schedule| < |moments| && Stays(t, since, now)
    }

    /** The call has returned in the last step, having gone on until then. */
    ghost predicate Returned(t: nat, since: nat)
      reads this
    {
      since < now <= |moments| && Stays(t, since, now - 1) && t < |points| && points[t] == Idle
    }

    method Act(newBytes: nat, newPoints: seq<Point>)
      requires Valid() && now < |schedule| && Enabled(View(), schedule[now])
      requires Step(View(), schedule[now]) == State(newBytes, newPoints)
      modifies this
      ensures Valid() && now == old(now) + 1 && View() == State(newBytes, newPoints)
      ensures moments[old(now)] == old(View())
    {
      assert StepAt(Tick, schedule, moments, now);
      InvKept(View(), schedule[now]);
      bytes, points := newBytes, newPoints;
      now := now + 1;
    }

    predicate Carried(p: Point, p': Point) {
      p' == p || (p.Queued? && p'.Reader?)
    }

    /** The others act, and wakeups happen, until thread t can go on. */
    method Await(t: nat) returns (ready: bool)
      requires Valid() && Busy(View(), t)
      modifies this
      ensures Valid() && old(now) <= now && Stays(t, old(now), now) && Carried(old(points[t]), points[t])
      ensures !ready ==> now == |schedule|
      ensures ready ==> now < |schedule| && schedule[now] == Go(t) && Enabled(View(), Go(t))
    {
      while now < |schedule|
        invariant Valid() && old(now) <= now && Stays(t, old(now), now) && Carried(old(points[t]), points[t])
        decreases |schedule| - now
      {
        if !Enabled(View(), schedule[now]) {
          assert StepAt(Tick, schedule, moments, now);
          now := now + 1;
        } else if schedule[now] == Go(t) {
          return true;
        } else {
          var next := Step(View(), schedule[now]);
          Act(next.bytes, next.points);
        }
      }
      return false;
    }

    /** Takes one byte, at the end of the call, after waiting as often as it must. */
    method Read(t: nat) returns (taken: bool)
      requires Valid() && t < |points| && points[t] == Reader
      modifies this
      ensures Valid() && old(now) <= now
      ensures taken <==> Returned(t, old(now))
      ensures !taken <==> CutOff(t, old(now))
      ensures taken ==> EventAt(now - 1) == Took(t) && bytes == moments[now - 1].bytes - 1
    {
      while true
        invariant Valid() && old(now) <= now && Stays(t, old(now), now)
        invariant t < |points| && (points[t] == Reader || points[t] == Queued)
        decreases |schedule| - now
      {
        taken := Await(t);
        if !taken {
          return;
        }
        if bytes > 0 {
          Act(bytes - 1, points[t := Idle]);
          return;
        }
        Act(bytes, points[t := Queued]);
      }
    }

    /** At the moment `effect` adds one byte, and then notifies, or finds the pipe full. */
    method Write(t: nat) returns (written: Option<bool>, ghost effect: nat)
      requires Valid() && t < |points| && points[t] == Writer
      modifies this
      ensures Valid() && old(now) <= now
      ensures written.Some? <==> Returned(t, old(now))
      ensures written == None <==> CutOff(t, old(now))
      ensures written.Some? ==>
        && old(now) <= effect < now && EventAt(effect) == (if written.value then Added(t) else FoundFull(t))
        && moments[effect].bytes <= 2 && (written.value <==> moments[effect].bytes < 2)
        && moments[effect + 1].bytes == moments[effect].bytes + if written.value then 1 else 0
      ensures written == Some(true) ==> forall u :: 0 <= u < |points| ==> !points[u].Queued?
    {
      effect := now;
      var ready := Await(t);
      if !ready {
        return None, effect;
      }
      effect := now;
      if bytes == CAPACITY {
        Act(bytes, points[t := Idle]);
        return Some(false), effect;
      }
      Act(bytes + 1, points[t := MustNotify]);
      ready := Await(t);
      if !ready {
        return None, effect;
      }
      Act(bytes, NotifyAll(points)[t := Idle]);
      return Some(true), effect;
    }
  }
}
