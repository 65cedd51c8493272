/** CondvarBarrier: the same barrier over a mutex and a condition variable. Each critical section is one
    step; waiting on the condition variable releases the mutex, and may end for no reason. */
module CondvarBarrier {
  import opened Wrappers
  import opened BarrierSpec
  import opened Schedules

  datatype Point =
    | Outside               // about to lock the mutex and enter
    | Sleeping(gen: bool)   // in condvar.wait, not notified
    | Woken(gen: bool)      // notified, or awake for no reason: will lock the mutex and check

  datatype State = State(count: int, generation: bool, points: seq<Point>)

  datatype Action = Go(i: nat) | Spurious(i: nat)

  function Init(n: nat): State {
    State(n, false, seq(n, _ => Outside))
  }

  function NotifyAll(points: seq<Point>): (woken: seq<Point>)
    ensures |woken| == |points|
    ensures forall i :: 0 <= i < |points| ==>
      woken[i] == if points[i].Sleeping? then Woken(points[i].gen) else points[i]
  {
    seq(|points|, i requires 0 <= i < |points| => if points[i].Sleeping? then Woken(points[i].gen) else points[i])
  }

  predicate Enabled(s: State, a: Action) {
    a.i < |s.points| && (a.Spurious? || s.points[a.i].Sleeping? ==> a.Spurious? && s.points[a.i].Sleeping?)
  }

  function Step(s: State, a: Action): State
    requires Enabled(s, a)
  {
    var i := a.i;
    match s.points[i]
    case Outside =>
      if s.count - 1 == 0 then State(|s.points|, !s.generation, NotifyAll(s.points))
      else s.(count := s.count - 1, points := s.points[i := Sleeping(s.generation)])
    case Sleeping(gen) => s.(points := s.points[i := Woken(gen)])
    case Woken(gen) =>
      s.(points := s.points[i := if s.generation != gen then Outside else Sleeping(gen)])
  }

  function EventsOf(s: State, a: Action): seq<Event>
    requires Enabled(s, a)
  {
    match s.points[a.i]
    case Outside => if s.count - 1 == 0 then [Enter(a.i), Leave(a.i)] else [Enter(a.i)]
    case Sleeping(_) => []
    case Woken(gen) => if s.generation != gen then [Leave(a.i)] else []
  }

  function Exec(n: nat, run: seq<Action>): Option<State> {
    if run == [] then Some(Init(n))
    else
      var before := Exec(n, run[..|run| - 1]);
      if before.Some? && Enabled(before.value, run[|run| - 1])
      then Some(Step(before.value, run[|run| - 1])) else None
  }

  function Trace(n: nat, run: seq<Action>): seq<Event>
    requires Exec(n, run).Some?
  {
    if run == [] then []
    else Trace(n, run[..|run| - 1]) + EventsOf(Exec(n, run[..|run| - 1]).value, run[|run| - 1])
  }

  // ---------- the invariant, with `k` rounds completed ----------

  /** Whoever sleeps waits for the present round: the flip has woken everybody else. */
  predicate PointOk(generation: bool, k: nat, entered: nat, left: nat, p: Point) {
    match p
    case Outside => entered == left == k
    case Sleeping(gen) => entered == k + 1 && left == k && gen == generation
    case Woken(gen) => entered == left + 1 && left == if gen == generation then k else k - 1
  }

  predicate Inv(s: State, r: Rounds, k: nat) {
    && |r.entered| == |r.left| == |s.points|
    && s.generation == (k % 2 == 1)
    && (forall i :: 0 <= i < |s.points| ==> PointOk(s.generation, k, r.entered[i], r.left[i], s.points[i]))
    && s.count == |s.points| - Arrived(r.entered, k)
    && (|s.points| > 0 ==> s.count > 0)
  }

  /** The rounds after an action of the barrier. */
  function AfterAction(s: State, r: Rounds, a: Action): Rounds
    requires Enabled(s, a) && |r.entered| == |r.left| == |s.points|
  {
    var p := s.points[a.i];
    var leaves := (p.Outside? && s.count == 1) || (p.Woken? && s.generation != p.gen);
    Rounds(if p.Outside? then r.entered[a.i := r.entered[a.i] + 1] else r.entered,
           if leaves then r.left[a.i := r.left[a.i] + 1] else r.left)
  }

  lemma ArrivalKeeps(s: State, r: Rounds, k: nat, i: nat)
    requires Inv(s, r, k) && i < |s.points| && s.points[i] == Outside && s.count > 1
    ensures Permits(r, Enter(i)) && After(r, Enter(i)) == AfterAction(s, r, Go(i))
    ensures Inv(Step(s, Go(i)), AfterAction(s, r, Go(i)), k)
  {
    assert PointOk(s.generation, k, r.entered[i], r.left[i], s.points[i]);
    OneMoreArrives(r.entered, i, k);
  }

  lemma EveryoneHasEntered(s: State, r: Rounds, k: nat, i: nat)
    requires Inv(s, r, k) && i < |s.points| && s.points[i] == Outside && s.count == 1
    ensures r.entered[i] == r.left[i] == k
    ensures forall j :: 0 <= j < |s.points| && j != i ==> r.entered[j] == k + 1
    ensures Arrived(r.entered[i := k + 1], k + 1) == 0
  {
    assert PointOk(s.generation, k, r.entered[i], r.left[i], s.points[i]);
    var entered := r.entered[i := k + 1];
    OneMoreArrives(r.entered, i, k);
    ArrivedBound(entered, k);
    forall j | 0 <= j < |s.points| ensures entered[j] == k + 1 {
      assert PointOk(s.generation, k, r.entered[j], r.left[j], s.points[j]);
    }
    assert forall j :: 0 <= j < |s.points| && j != i ==> r.entered[j] == entered[j];
    ArrivedBound(entered, k + 1);
  }

  lemma LastArrival(s: State, r: Rounds, k: nat, i: nat)
    requires Inv(s, r, k) && i < |s.points| && s.points[i] == Outside && s.count == 1
    ensures Permits(r, Enter(i)) && Permits(After(r, Enter(i)), Leave(i))
    ensures After(After(r, Enter(i)), Leave(i)) == AfterAction(s, r, Go(i))
    ensures Arrived(After(r, Enter(i)).entered, k + 1) == 0
    ensures forall j :: 0 <= j < |s.points| ==> After(r, Enter(i)).entered[j] == k + 1
  {
    EveryoneHasEntered(s, r, k, i);
    forall j | 0 <= j < |s.points| ensures k <= r.entered[j] <= k + 1 && r.left[j] <= k {
      assert PointOk(s.generation, k, r.entered[j], r.left[j], s.points[j]);
    }
  }

  lemma LastArrivalKeeps(s: State, r: Rounds, k: nat, i: nat)
    requires Inv(s, r, k) && i < |s.points| && s.points[i] == Outside && s.count == 1
    ensures Inv(Step(s, Go(i)), AfterAction(s, r, Go(i)), k + 1)
  {
    LastArrival(s, r, k, i);
    var s', r' := Step(s, Go(i)), AfterAction(s, r, Go(i));
    forall j | 0 <= j < |s.points|
      ensures PointOk(s'.generation, k + 1, r'.entered[j], r'.left[j], s'.points[j])
    {
      assert PointOk(s.generation, k, r.entered[j], r.left[j], s.points[j]);
    }
  }

  lemma LeaveKeeps(s: State, r: Rounds, k: nat, i: nat)
    requires Inv(s, r, k) && i < |s.points| && s.points[i].Woken? && s.points[i].gen != s.generation
    ensures Permits(r, Leave(i)) && After(r, Leave(i)) == AfterAction(s, r, Go(i))
    ensures Inv(Step(s, Go(i)), AfterAction(s, r, Go(i)), k)
  {
    assert PointOk(s.generation, k, r.entered[i], r.left[i], s.points[i]);
    forall j | 0 <= j < |s.points| ensures r.entered[j] >= k {
      assert PointOk(s.generation, k, r.entered[j], r.left[j], s.points[j]);
    }
  }

  lemma QuietStepKeeps(s: State, r: Rounds, k: nat, a: Action)
    requires Inv(s, r, k) && Enabled(s, a) && EventsOf(s, a) == []
    ensures AfterAction(s, r, a) == r && Inv(Step(s, a), r, k)
  {
    assert PointOk(s.generation, k, r.entered[a.i], r.left[a.i], s.points[a.i]);
  }

  /** Each action keeps the invariant. */
  lemma StepKeeps(s: State, r: Rounds, k: nat, a: Action) returns (k': nat)
    requires Inv(s, r, k) && Enabled(s, a)
    ensures Inv(Step(s, a), AfterAction(s, r, a), k')
  {
    k' := k;
    var p := s.points[a.i];
    if p.Outside? && s.count == 1 {
      LastArrivalKeeps(s, r, k, a.i);
      k' := k + 1;
    } else if p.Outside? {
      ArrivalKeeps(s, r, k, a.i);
    } else if p.Woken? && s.generation != p.gen {
      LeaveKeeps(s, r, k, a.i);
    } else {
      QuietStepKeeps(s, r, k, a);
    }
  }

  /** And each action is what the barrier's promise allows. */
  lemma StepPlays(s: State, r: Rounds, k: nat, a: Action, n: nat, es: seq<Event>)
    requires Inv(s, r, k) && Enabled(s, a) && Play(n, es) == Some(r)
    ensures Play(n, es + EventsOf(s, a)) == Some(AfterAction(s, r, a))
  {
    var p := s.points[a.i];
    if p.Outside? && s.count == 1 {
      assert EventsOf(s, a) == [Enter(a.i), Leave(a.i)] && a == Go(a.i);
      LastArrival(s, r, k, a.i);
      PlayTwo(n, es, Enter(a.i), Leave(a.i));
    } else if p.Outside? {
      assert EventsOf(s, a) == [Enter(a.i)] && a == Go(a.i);
      ArrivalKeeps(s, r, k, a.i);
      PlayOne(n, es, Enter(a.i));
    } else if p.Woken? && s.generation != p.gen {
      LeaveKeeps(s, r, k, a.i);
      PlayOne(n, es, Leave(a.i));
    } else {
      QuietStepKeeps(s, r, k, a);
      assert es + EventsOf(s, a) == es;
    }
  }

  /** The barrier keeps the same promise as SpinBarrier, spurious wakeups or not, and its assertion that
      the count is not zero on entry never fails. */
  lemma {:induction false} RunsRefine(n: nat, run: seq<Action>) returns (k: nat)
    requires Exec(n, run).Some?
    ensures Play(n, Trace(n, run)).Some?
    ensures Inv(Exec(n, run).value, Play(n, Trace(n, run)).value, k)
    ensures n == |Exec(n, run).value.points| && (n > 0 ==> Exec(n, run).value.count > 0)
  {
    if run == [] {
      k := 0;
      ArrivedBound(Start(n).entered, 0);
    } else {
      var before, a := run[..|run| - 1], run[|run| - 1];
      k := RunsRefine(n, before);
      StepPlays(Exec(n, before).value, Play(n, Trace(n, before)).value, k, a, n, Trace(n, before));
      k := StepKeeps(Exec(n, before).value, Play(n, Trace(n, before)).value, k, a);
    }
  }

  /** Anything but a wakeup without a reason and a look at the generation that finds it unchanged. */
  predicate Useful(s: State, a: Action)
    requires Enabled(s, a)
  {
    a.Go? && s.points[a.i] != Woken(s.generation)
  }

  /** No wakeup is lost: in every reachable state somebody is awake, and can enter or leave. */
  lemma SomeoneIsAwake(n: nat, run: seq<Action>) returns (i: nat)
    requires Exec(n, run).Some? && n > 0
    ensures i < n == |Exec(n, run).value.points| && !Exec(n, run).value.points[i].Sleeping?
    ensures Enabled(Exec(n, run).value, Go(i))
    ensures Exec(n, run).value.points[i] != Woken(Exec(n, run).value.generation)
  {
    var k := RunsRefine(n, run);
    i := AwakeParticipant(Exec(n, run).value, Play(n, Trace(n, run)).value, k);
  }

  lemma AwakeParticipant(s: State, r: Rounds, k: nat) returns (i: nat)
    requires Inv(s, r, k) && |s.points| > 0
    ensures i < |s.points| && !s.points[i].Sleeping? && s.points[i] != Woken(s.generation)
  {
    ArrivedBound(r.entered, k);
    assert forall i :: 0 <= i < |s.points| ==> PointOk(s.generation, k, r.entered[i], r.left[i], s.points[i]);
    i :| 0 <= i < |s.points| && !s.points[i].Sleeping? && s.points[i] != Woken(s.generation);
  }

  // ---------- what can happen ----------

  lemma OneMoreStep(n: nat, run: seq<Action>, a: Action)
    requires Exec(n, run).Some? && Enabled(Exec(n, run).value, a)
    ensures Exec(n, run + [a]) == Some(Step(Exec(n, run).value, a))
    ensures Trace(n, run + [a]) == Trace(n, run) + EventsOf(Exec(n, run).value, a)
  {
    assert (run + [a])[..|run + [a]| - 1] == run;
  }

  /** Any participant outside may enter, whatever the others do: the last flips the generation, fills the
      count up, wakes everybody and is out again; the others sleep. */
  lemma AnyoneMayEnter(n: nat, run: seq<Action>, s: State, i: nat)
    requires Exec(n, run) == Some(s) && i < |s.points| && s.points[i] == Outside
    ensures
      Exec(n, run + [Go(i)])
      == Some(if s.count == 1 then State(n, !s.generation, NotifyAll(s.points))
              else State(s.count - 1, s.generation, s.points[i := Sleeping(s.generation)]))
  {
    var k := RunsRefine(n, run);
    OneMoreStep(n, run, Go(i));
  }

  /** A sleeper may wake for no reason, and then sleeps again, unless the round has ended. */
  lemma SleeperMayWake(n: nat, run: seq<Action>, s: State, i: nat, gen: bool)
    requires Exec(n, run) == Some(s) && i < |s.points| && s.points[i] == Sleeping(gen)
    ensures
      Exec(n, run + [Spurious(i)] + [Go(i)])
      == Some(if s.generation == gen then s else s.(points := s.points[i := Outside]))
  {
    OneMoreStep(n, run, Spurious(i));
    var woken := s.(points := s.points[i := Woken(gen)]);
    OneMoreStep(n, run + [Spurious(i)], Go(i));
    assert woken.points[i := Sleeping(gen)] == s.points;
    assert woken.points[i := Outside] == s.points[i := Outside];
  }

  // ---------- every round ends ----------

  /** Participant i's useful actions in a run after its first `from` actions. */
  function Work(n: nat, run: seq<Action>, from: nat, i: nat): nat
    requires Exec(n, run).Some?
  {
    if |run| <= from then 0
    else
      var before, a := run[..|run| - 1], run[|run| - 1];
      Work(n, before, from, i) + if a.i == i && Useful(Exec(n, before).value, a) then 1 else 0
  }

  lemma {:induction false} UsefulStepsAreWork(n: nat, run: seq<Action>, from: nat, i: nat, places: set<nat>)
    requires Exec(n, run).Some? && i < n
    requires forall k <- places ::
      && from <= k < |run| && run[k] == Go(i)
      && Exec(n, run[..k]).Some? && i < |Exec(n, run[..k]).value.points|
      && Exec(n, run[..k]).value.points[i] != Woken(Exec(n, run[..k]).value.generation)
    ensures |places| <= Work(n, run, from, i)
  {
    if from < |run| {
      var before, last := run[..|run| - 1], |run| - 1;
      forall k <- places - {last} ensures before[k] == run[k] && before[..k] == run[..k] {}
      UsefulStepsAreWork(n, before, from, i, places - {last});
    } else {
      assert places == {};
    }
  }

  /** A round takes at most two of them. */
  function Credit(left: nat, p: Point): nat {
    2 * left + if p.Outside? then 0 else 1
  }

  lemma StepEarns(s: State, r: Rounds, a: Action, i: nat)
    requires |r.entered| == |r.left| == |s.points| && Enabled(s, a) && i < |s.points|
    ensures
      Credit(r.left[i], s.points[i]) + (if a.i == i && Useful(s, a) then 1 else 0)
      <= Credit(AfterAction(s, r, a).left[i], Step(s, a).points[i])
  {
  }

  /** How many rounds participant i has left, and whether it is in the next. */
  function LeftIn(n: nat, run: seq<Action>, i: nat): nat
    requires Exec(n, run).Some?
  {
    var r := Play(n, Trace(n, run));
    if r.Some? && i < |r.value.left| then r.value.left[i] else 0
  }

  function Earned(n: nat, run: seq<Action>, i: nat): nat
    requires Exec(n, run).Some?
  {
    var s := Exec(n, run).value;
    if i < |s.points| then Credit(LeftIn(n, run, i), s.points[i]) else 0
  }

  lemma EarnsOnce(n: nat, run: seq<Action>, a: Action, i: nat)
    requires Exec(n, run).Some? && Enabled(Exec(n, run).value, a) && i < n
    ensures Exec(n, run + [a]).Some?
    ensures
      Earned(n, run, i) + (if a.i == i && Useful(Exec(n, run).value, a) then 1 else 0) <= Earned(n, run + [a], i)
  {
    var k := RunsRefine(n, run);
    var s, r := Exec(n, run).value, Play(n, Trace(n, run)).value;
    StepPlays(s, r, k, a, n, Trace(n, run));
    OneMoreStep(n, run, a);
    StepEarns(s, r, a, i);
  }

  lemma {:induction false} WorkEarns(n: nat, run: seq<Action>, from: nat, i: nat)
    requires Exec(n, run).Some? && from <= |run| && i < n
    ensures Exec(n, run[..from]).Some?
    ensures Work(n, run, from, i) + Earned(n, run[..from], i) <= Earned(n, run, i)
  {
    if |run| == from {
      assert run[..from] == run;
    } else {
      var before, a := run[..|run| - 1], run[|run| - 1];
      WorkEarns(n, before, from, i);
      assert before[..from] == run[..from] && run == before + [a];
      EarnsOnce(n, before, a, i);
    }
  }

  lemma NobodyIsFarAhead(n: nat, run: seq<Action>, i: nat, j: nat)
    requires Exec(n, run).Some? && i < n && j < n
    ensures LeftIn(n, run, i) <= LeftIn(n, run, j) + 1
    ensures 2 * LeftIn(n, run, i) <= Earned(n, run, i) <= 2 * LeftIn(n, run, i) + 1
  {
    var k := RunsRefine(n, run);
    InStep(n, Trace(n, run), i, j);
  }

  /** From any point of any run on, nobody can take more than five useful actions before everybody has left
      a round, nor more than seven before everybody has left two, and so on: `places` are any actions of
      participant i but unasked wakeups and looks at the generation that find it unchanged. */
  lemma EveryoneLeaves(n: nat, run: seq<Action>, from: nat, i: nat, j: nat, places: set<nat>)
    requires Exec(n, run).Some? && from <= |run| && i < n && j < n
    requires forall k <- places ::
      && from <= k < |run| && run[k] == Go(i)
      && Exec(n, run[..k]).Some? && i < |Exec(n, run[..k]).value.points|
      && Exec(n, run[..k]).value.points[i] != Woken(Exec(n, run[..k]).value.generation)
    ensures Exec(n, run[..from]).Some?
    ensures |places| + 2 * LeftIn(n, run[..from], j) <= 2 * LeftIn(n, run, j) + 5
  {
    UsefulStepsAreWork(n, run, from, i, places);
    WorkEarns(n, run, from, i);
    NobodyIsFarAhead(n, run[..from], j, i);
    NobodyIsFarAhead(n, run[..from], i, j);
    NobodyIsFarAhead(n, run, i, j);
  }

  // ---------- the source's form ----------

  datatype Moment = Moment(world: State, rounds: Rounds)

  function Tick(m: Moment, a: Action): Moment {
    if Enabled(m.world, a) && |m.world.points| == |m.rounds.entered| == |m.rounds.left| then
      Moment(Step(m.world, a), AfterAction(m.world, m.rounds, a))
    else m
  }

  /** Every moment of a schedule is the end of a run, with its history. */
  lemma {:induction false} MomentsAreRuns(n: nat, schedule: seq<Action>, moments: seq<Moment>, k: nat)
    returns (run: seq<Action>)
    requires Recorded(Tick, schedule, moments) && moments[0] == Moment(Init(n), Start(n)) && k <= |schedule|
    ensures Exec(n, run) == Some(moments[k].world)
    ensures Play(n, Trace(n, run)) == Some(moments[k].rounds)
  {
    run := [];
    if k > 0 {
      run := MomentsAreRuns(n, schedule, moments, k - 1);
      assert StepAt(Tick, schedule, moments, k - 1);
      var c := RunsRefine(n, run);
      var a := schedule[k - 1];
      if Enabled(moments[k - 1].world, a) {
        StepPlays(moments[k - 1].world, moments[k - 1].rounds, c, a, n, Trace(n, run));
        OneMoreStep(n, run, a);
        run := run + [a];
      }
    }
  }

  class CondvarBarrier {
    const threads: nat
    const schedule: seq<Action>         // what will happen, in order
    ghost const moments: seq<Moment>    // what is the case after each step, and the rounds entered and left
    var now: nat                        // how many of them have happened
    var count: int                      // count and generation are guarded by the mutex
    var generation: bool
    var points: seq<Point>              // where every participant is, the condition variable's queue among them
    ghost var rounds: Rounds
    ghost var completed: nat

    function View(): State
      reads this
    {
      State(count, generation, points)
    }

    ghost predicate Valid()
      reads this
    {
      && |points| == threads
      && Recorded(Tick, schedule, moments)
      && now <= |schedule| && moments[now] == Moment(View(), rounds)
      && Inv(View(), rounds, completed)
    }

    constructor (threads: nat, schedule: seq<Action>)
      ensures Valid() && this.threads == threads && this.schedule == schedule && now == 0
      ensures View() == Init(threads) && rounds == Start(threads)
    {
      ghost var recorded := Record(Tick, Moment(Init(threads), Start(threads)), schedule);
      this.threads, this.schedule, this.moments := threads, schedule, recorded;
      this.now, this.count, this.generation := 0, threads, false;
      this.points := seq(threads, _ => Outside);
      this.rounds, this.completed := Start(threads), 0;
      new;
      ArrivedBound(rounds.entered, 0);
    }

    /** How many rounds participant i has left by the k-th moment. */
    ghost function LeftBy(k: int, i: nat): nat {
      if 0 <= k < |moments| && i < |moments[k].rounds.left| then moments[k].rounds.left[i] else 0
    }

    /** The next scheduled action happens, leaving these values behind. */
    method Act(newCount: int, newGeneration: bool, newPoints: seq<Point>, ghost i: nat)
      requires Valid() && now < |schedule| && Enabled(View(), schedule[now]) && i < threads
      requires Step(View(), schedule[now]) == State(newCount, newGeneration, newPoints)
      modifies this
      ensures Valid() && now == old(now) + 1 && View() == State(newCount, newGeneration, newPoints)
      ensures rounds == AfterAction(old(View()), old(rounds), schedule[old(now)])
      ensures LeftBy(old(now), i) == old(rounds.left[i]) && moments[old(now)].world == old(View())
    {
      assert StepAt(Tick, schedule, moments, now);
      ghost var k := StepKeeps(View(), rounds, completed, schedule[now]);
      rounds, completed := AfterAction(View(), rounds, schedule[now]), k;
      count, generation, points := newCount, newGeneration, newPoints;
      now := now + 1;
    }

    /** What others can do to a participant: wake it. */
    predicate Carried(p: Point, p': Point) {
      p' == p || (p.Sleeping? && p' == Woken(p.gen))
    }

    /** The next scheduled action happens if it can, and is not one of participant i. */
    method Other(i: nat)
      requires Valid() && i < threads && now < |schedule|
      requires Enabled(View(), schedule[now]) ==> schedule[now] != Go(i)
      modifies this
      ensures Valid() && now == old(now) + 1
      ensures Carried(old(points[i]), points[i]) && rounds.left[i] == old(rounds.left[i])
    {
      if Enabled(View(), schedule[now]) {
        var next := Step(View(), schedule[now]);
        Act(next.count, next.generation, next.points, i);
      } else {
        assert StepAt(Tick, schedule, moments, now);
        now := now + 1;
      }
    }

    /** The others act, and wakeups happen, until participant i can lock the mutex. */
    method Await(i: nat) returns (ready: bool)
      requires Valid() && i < threads
      modifies this
      ensures Valid() && old(now) <= now
      ensures Carried(old(points[i]), points[i]) && rounds.left[i] == old(rounds.left[i])
      ensures ready ==> now < |schedule| && schedule[now] == Go(i) && Enabled(View(), Go(i))
      ensures !ready ==> now == |schedule|
    {
      while now < |schedule|
        invariant Valid() && old(now) <= now
        invariant Carried(old(points[i]), points[i]) && rounds.left[i] == old(rounds.left[i])
        decreases |schedule| - now
      {
        if Enabled(View(), schedule[now]) && schedule[now] == Go(i) {
          return true;
        }
        Other(i);
      }
      return false;
    }

    /** Participant i has left one round, with the last step. */
    ghost predicate JustLeft(i: nat, since: nat, before: nat)
      requires i < threads
      reads this
    {
      && Valid() && since < now && points[i] == Outside
      && LeftBy(now - 1, i) == before && rounds.left[i] == before + 1
    }

    /** Leaves exactly one round, which everyone has entered; returns false only if the schedule ends with
        the participant still in that round. */
    method Wait(i: nat) returns (left: bool)
      requires Valid() && i < threads && points[i] == Outside
      modifies this
      ensures Valid() && old(now) <= now
      ensures left <==> JustLeft(i, old(now), old(rounds.left[i]))
      ensures left ==> forall j :: 0 <= j < threads ==> rounds.entered[j] >= rounds.left[i]
      ensures !left <==> now == |schedule| && rounds.left[i] == old(rounds.left[i])
    {
      left := Await(i);
      if !left {
        return;
      }
      var gen := generation;
      left := Arrive(i);
      if !left {
        left := SleepUntilReleased(i, gen);
      }
      if left {
        EveryoneEntered(i);
      }
    }

    /** The first critical section: the last to arrive releases the others, and leaves. */
    method Arrive(i: nat) returns (last: bool)
      requires Valid() && i < threads && points[i] == Outside && now < |schedule| && schedule[now] == Go(i)
      modifies this
      ensures Valid() && now == old(now) + 1 && last == (old(count) == 1)
      ensures last ==> JustLeft(i, old(now), old(rounds.left[i])) && generation != old(generation)
      ensures !last ==> points[i] == Sleeping(old(generation)) && rounds.left[i] == old(rounds.left[i])
    {
      assert count != 0;    // assert_ne
      last := count - 1 == 0;
      if last {
        Act(threads, !generation, NotifyAll(points), i);
      } else {
        Act(count - 1, generation, points[i := Sleeping(generation)], i);
      }
    }

    /** The participant wakes, locks the mutex and looks at the generation. */
    method Look(i: nat, gen: bool) returns (ready: bool, left: bool)
      requires Valid() && i < threads && (points[i] == Sleeping(gen) || points[i] == Woken(gen))
      modifies this
      ensures Valid() && old(now) <= now
      ensures ready && left ==> JustLeft(i, old(now), old(rounds.left[i])) && generation != gen
      ensures ready && !left ==> old(now) < now && points[i] == Sleeping(gen) && rounds.left[i] == old(rounds.left[i])
      ensures !ready ==> now == |schedule| && rounds.left[i] == old(rounds.left[i])
    {
      left := false;
      ready := Await(i);
      if ready {
        left := generation != gen;
        Act(count, generation, points[i := if left then Outside else Sleeping(gen)], i);
      }
    }

    method SleepUntilReleased(i: nat, gen: bool) returns (left: bool)
      requires Valid() && i < threads && points[i] == Sleeping(gen)
      modifies this
      ensures Valid() && old(now) <= now
      ensures left ==> JustLeft(i, old(now), old(rounds.left[i])) && generation != gen
      ensures !left ==> now == |schedule| && rounds.left[i] == old(rounds.left[i])
    {
      left := false;
      while !left
        invariant Valid() && old(now) <= now
        invariant if left then JustLeft(i, old(now), old(rounds.left[i])) && generation != gen
          else points[i] == Sleeping(gen) && rounds.left[i] == old(rounds.left[i])
        decreases !left, |schedule| - now
      {
        var ready;
        ready, left := Look(i, gen);
        if !ready {
          return false;
        }
      }
    }

    lemma EveryoneEntered(i: nat)
      requires Valid() && i < threads && points[i] == Outside
      ensures forall j :: 0 <= j < threads ==> rounds.entered[j] >= rounds.left[i]
    {
      assert PointOk(generation, completed, rounds.entered[i], rounds.left[i], points[i]);
      forall j | 0 <= j < threads ensures rounds.entered[j] >= rounds.left[i] {
        assert PointOk(generation, completed, rounds.entered[j], rounds.left[j], points[j]);
      }
    }
  }
}
