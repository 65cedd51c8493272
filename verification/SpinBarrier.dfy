/** SpinBarrier: an atomic count and a generation of one bit, reused round after round. */
module SpinBarrier {
  import opened Wrappers
  import opened BarrierSpec
  import opened Schedules

  /** What a participant is about to do; `gen` is the generation it loaded on entering `wait`. */
  datatype Point =
    | Outside               // load the generation
    | Loaded(gen: bool)     // count.fetch_sub(1)
    | Reset(gen: bool)      // it was the last: count.fetch_add(threads)
    | Flip(gen: bool)       // generation.store(!gen), and return
    | Spin(gen: bool)       // return if the generation is another one

  datatype State = State(count: int, generation: bool, points: seq<Point>)

  function Init(n: nat): State {
    State(n, false, seq(n, _ => Outside))
  }

  function Step(s: State, i: nat): State
    requires i < |s.points|
  {
    match s.points[i]
    case Outside => s.(points := s.points[i := Loaded(s.generation)])
    case Loaded(gen) =>
      s.(count := s.count - 1, points := s.points[i := if s.count == 1 then Reset(gen) else Spin(gen)])
    case Reset(gen) => s.(count := s.count + |s.points|, points := s.points[i := Flip(gen)])
    case Flip(gen) => s.(generation := !gen, points := s.points[i := Outside])
    case Spin(gen) => if s.generation == gen then s else s.(points := s.points[i := Outside])
  }

  function EventsOf(s: State, i: nat): seq<Event>
    requires i < |s.points|
  {
    match s.points[i]
    case Loaded(_) => [Enter(i)]
    case Flip(_) => [Leave(i)]
    case Spin(gen) => if s.generation == gen then [] else [Leave(i)]
    case _ => []
  }

  predicate ValidRun(n: nat, run: seq<nat>) {
    forall k :: 0 <= k < |run| ==> run[k] < n
  }

  /** Any interleaving: the participant named next takes its next step. */
  function Exec(n: nat, run: seq<nat>): (s: State)
    requires ValidRun(n, run)
    ensures |s.points| == n
  {
    if run == [] then Init(n) else Step(Exec(n, run[..|run| - 1]), run[|run| - 1])
  }

  function Trace(n: nat, run: seq<nat>): seq<Event>
    requires ValidRun(n, run)
  {
    if run == [] then []
    else Trace(n, run[..|run| - 1]) + EventsOf(Exec(n, run[..|run| - 1]), run[|run| - 1])
  }

  // ---------- the invariant, with `k` rounds completed ----------

  predicate Last(p: Point) {
    p.Reset? || p.Flip?
  }

  predicate PointOk(generation: bool, k: nat, entered: nat, left: nat, p: Point) {
    match p
    case Outside => entered == left == k
    case Loaded(gen) => entered == left == k && gen == generation
    case Reset(gen) => entered == k + 1 && left == k && gen == generation
    case Flip(gen) => entered == k + 1 && left == k && gen == generation
    case Spin(gen) => entered == left + 1 && left == if gen == generation then k else k - 1
  }

  predicate PointsOk(s: State, r: Rounds, k: nat) {
    && |r.entered| == |r.left| == |s.points|
    && s.generation == (k % 2 == 1)
    && forall i :: 0 <= i < |s.points| ==> PointOk(s.generation, k, r.entered[i], r.left[i], s.points[i])
  }

  /** The last to arrive is alone in resetting the count, and everyone has arrived. */
  predicate LastOk(s: State, i: nat, r: Rounds, k: nat)
    requires i < |s.points|
  {
    && (forall j :: 0 <= j < |s.points| && j != i ==> !Last(s.points[j]))
    && Arrived(r.entered, k) == |s.points|
    && s.count == if s.points[i].Flip? then |s.points| else 0
  }

  predicate CountOk(s: State, r: Rounds, k: nat) {
    && (forall i :: 0 <= i < |s.points| && Last(s.points[i]) ==> LastOk(s, i, r, k))
    && ((forall i :: 0 <= i < |s.points| ==> !Last(s.points[i])) ==>
          s.count == |s.points| - Arrived(r.entered, k) && (|s.points| > 0 ==> s.count > 0))
  }

  predicate Inv(s: State, r: Rounds, k: nat) {
    PointsOk(s, r, k) && CountOk(s, r, k)
  }

  function Completed(s: State, i: nat, k: nat): nat
    requires i < |s.points|
  {
    if s.points[i].Flip? then k + 1 else k
  }

  function AfterEvents(r: Rounds, es: seq<Event>): Rounds
    requires |es| <= 1 && (es != [] ==> |r.entered| == |r.left| && es[0].i < |r.entered|)
  {
    if es == [] then r else After(r, es[0])
  }

  /** A participant that has not arrived keeps the count up. */
  lemma NotAllArrived(s: State, r: Rounds, k: nat, i: nat)
    requires Inv(s, r, k) && i < |s.points| && r.entered[i] == k
    ensures forall j :: 0 <= j < |s.points| ==> !Last(s.points[j])
    ensures s.count == |s.points| - Arrived(r.entered, k) > 0
  {
    ArrivedBound(r.entered, k);
  }

  lemma ArrivalPoints(s: State, r: Rounds, k: nat, i: nat)
    requires Inv(s, r, k) && i < |s.points| && s.points[i].Loaded?
    ensures r.entered[i] == k && Permits(r, Enter(i)) && PointsOk(Step(s, i), After(r, Enter(i)), k)
  {
    assert PointOk(s.generation, k, r.entered[i], r.left[i], s.points[i]);
  }

  lemma ArrivalKeeps(s: State, r: Rounds, k: nat, i: nat)
    requires Inv(s, r, k) && i < |s.points| && s.points[i].Loaded?
    ensures Permits(r, Enter(i)) && Inv(Step(s, i), After(r, Enter(i)), k)
    ensures s.count > 0
  {
    ArrivalPoints(s, r, k, i);
    NotAllArrived(s, r, k, i);
    OneMoreArrives(r.entered, i, k);
    var s', r' := Step(s, i), After(r, Enter(i));
    assert r'.entered == r.entered[i := k + 1];
    if s.count == 1 {
      assert LastOk(s', i, r', k);
    }
  }

  lemma FlipKeeps(s: State, r: Rounds, k: nat, i: nat)
    requires Inv(s, r, k) && i < |s.points| && s.points[i].Flip?
    ensures Permits(r, Leave(i)) && Inv(Step(s, i), After(r, Leave(i)), k + 1)
  {
    assert PointOk(s.generation, k, r.entered[i], r.left[i], s.points[i]);
    assert LastOk(s, i, r, k);
    ArrivedBound(r.entered, k);
    ArrivedBound(r.entered, k + 1);
    forall j | 0 <= j < |s.points|
      ensures r.entered[j] == k + 1
      ensures j != i ==> s.points[j] == Spin(s.generation)
    {
      assert PointOk(s.generation, k, r.entered[j], r.left[j], s.points[j]);
    }
  }

  lemma LeaveKeeps(s: State, r: Rounds, k: nat, i: nat)
    requires Inv(s, r, k) && i < |s.points| && s.points[i].Spin? && s.points[i].gen != s.generation
    ensures Permits(r, Leave(i)) && Inv(Step(s, i), After(r, Leave(i)), k)
  {
    assert PointOk(s.generation, k, r.entered[i], r.left[i], s.points[i]);
    forall j | 0 <= j < |s.points| ensures r.entered[j] >= k {
      assert PointOk(s.generation, k, r.entered[j], r.left[j], s.points[j]);
    }
    NotAllArrived(s, r, k, i);
  }

  lemma QuietStepKeeps(s: State, r: Rounds, k: nat, i: nat)
    requires Inv(s, r, k) && i < |s.points| && EventsOf(s, i) == []
    ensures Inv(Step(s, i), r, k)
  {
    assert PointOk(s.generation, k, r.entered[i], r.left[i], s.points[i]);
    if s.points[i].Outside? {
      NotAllArrived(s, r, k, i);
    } else if s.points[i].Reset? {
      assert LastOk(s, i, r, k);
    }
  }

  lemma StepKeeps(s: State, r: Rounds, k: nat, i: nat)
    requires Inv(s, r, k) && i < |s.points|
    ensures EventsOf(s, i) != [] ==> Permits(r, EventsOf(s, i)[0])
    ensures Inv(Step(s, i), AfterEvents(r, EventsOf(s, i)), Completed(s, i, k))
  {
    match s.points[i]
    case Loaded(_) => ArrivalKeeps(s, r, k, i);
    case Flip(_) => FlipKeeps(s, r, k, i);
    case Spin(gen) =>
      if gen == s.generation {
        QuietStepKeeps(s, r, k, i);
      } else {
        LeaveKeeps(s, r, k, i);
      }
    case _ => QuietStepKeeps(s, r, k, i);
  }

  lemma TraceOneMore(n: nat, run: seq<nat>, i: nat)
    requires ValidRun(n, run) && i < n
    ensures ValidRun(n, run + [i]) && Exec(n, run + [i]) == Step(Exec(n, run), i)
    ensures Trace(n, run + [i]) == Trace(n, run) + EventsOf(Exec(n, run), i)
  {
    assert (run + [i])[..|run + [i]| - 1] == run;
  }

  lemma PlaysOn(n: nat, before: seq<Event>, es: seq<Event>, r: Rounds)
    requires Play(n, before) == Some(r) && |es| <= 1 && (es != [] ==> Permits(r, es[0]))
    ensures Play(n, before + es) == Some(AfterEvents(r, es))
  {
    if es == [] {
      assert before + es == before;
    } else {
      PlayOne(n, before, es[0]);
      assert es == [es[0]];
    }
  }

  lemma OneMoreStep(n: nat, run: seq<nat>, i: nat, r: Rounds)
    requires ValidRun(n, run) && i < n && Play(n, Trace(n, run)) == Some(r)
    requires EventsOf(Exec(n, run), i) != [] ==> Permits(r, EventsOf(Exec(n, run), i)[0])
    ensures ValidRun(n, run + [i]) && Exec(n, run + [i]) == Step(Exec(n, run), i)
    ensures Play(n, Trace(n, run + [i])) == Some(AfterEvents(r, EventsOf(Exec(n, run), i)))
  {
    TraceOneMore(n, run, i);
    PlaysOn(n, Trace(n, run), EventsOf(Exec(n, run), i), r);
  }

  predicate Refines(n: nat, run: seq<nat>, k: nat) {
    ValidRun(n, run) && Play(n, Trace(n, run)).Some? && Inv(Exec(n, run), Play(n, Trace(n, run)).value, k)
  }

  lemma NothingRefines(n: nat)
    ensures Refines(n, [], 0)
  {
    ArrivedBound(Start(n).entered, 0);
  }

  lemma OneMoreRefines(n: nat, run: seq<nat>, i: nat, k: nat)
    requires Refines(n, run, k) && i < n
    ensures Refines(n, run + [i], Completed(Exec(n, run), i, k))
  {
    StepKeeps(Exec(n, run), Play(n, Trace(n, run)).value, k, i);
    OneMoreStep(n, run, i, Play(n, Trace(n, run)).value);
  }

  lemma {:induction false} RunRefines(n: nat, run: seq<nat>) returns (k: nat)
    requires ValidRun(n, run)
    ensures Refines(n, run, k)
  {
    if run == [] {
      k := 0;
      NothingRefines(n);
    } else {
      var before, i := run[..|run| - 1], run[|run| - 1];
      k := RunRefines(n, before);
      OneMoreRefines(n, before, i, k);
      assert run == before + [i];
      k := Completed(Exec(n, before), i, k);
    }
  }

  /** Every interleaving keeps the barrier's promise, with one bit of generation. */
  lemma RunsRefine(n: nat, run: seq<nat>) returns (k: nat)
    requires ValidRun(n, run)
    ensures Play(n, Trace(n, run)).Some?
    ensures Inv(Exec(n, run), Play(n, Trace(n, run)).value, k)
  {
    k := RunRefines(n, run);
  }

  /** And the debug check on the count before the decrement always passes. */
  lemma CountPositive(n: nat, run: seq<nat>, i: nat)
    requires ValidRun(n, run) && i < n && Exec(n, run).points[i].Loaded?
    ensures Exec(n, run).count > 0
  {
    var k := RunsRefine(n, run);
    ArrivalKeeps(Exec(n, run), Play(n, Trace(n, run)).value, k, i);
  }

  /** Once everyone is inside, somebody can get out of the spin loop or is not in it. */
  lemma NobodySpinsForever(n: nat, run: seq<nat>) returns (i: nat)
    requires ValidRun(n, run) && n > 0
    ensures i < n && Exec(n, run).points[i] != Spin(Exec(n, run).generation)
  {
    var k := RunsRefine(n, run);
    i := SomeoneMoves(Exec(n, run), Play(n, Trace(n, run)).value, k);
  }

  lemma SomeoneMoves(s: State, r: Rounds, k: nat) returns (i: nat)
    requires Inv(s, r, k) && |s.points| > 0
    ensures i < |s.points| && s.points[i] != Spin(s.generation)
  {
    ArrivedBound(r.entered, k);
    i :| 0 <= i < |s.points| && s.points[i] != Spin(s.generation);
  }

  // ---------- every round ends ----------

  /** Anything but a look at the generation that finds it unchanged. */
  predicate Useful(s: State, i: nat)
    requires i < |s.points|
  {
    s.points[i] != Spin(s.generation)
  }

  /** Participant i's useful steps in a run after its first `from` steps. */
  function Work(n: nat, run: seq<nat>, from: nat, i: nat): nat
    requires ValidRun(n, run)
  {
    if |run| <= from then 0
    else
      var before, a := run[..|run| - 1], run[|run| - 1];
      Work(n, before, from, i) + if a == i && Useful(Exec(n, before), a) then 1 else 0
  }

  lemma {:induction false} UsefulStepsAreWork(n: nat, run: seq<nat>, from: nat, i: nat, places: set<nat>)
    requires ValidRun(n, run) && i < n
    requires forall k <- places ::
      && from <= k < |run| && run[k] == i
      && Exec(n, run[..k]).points[i] != Spin(Exec(n, run[..k]).generation)
    ensures |places| <= Work(n, run, from, i)
  {
    if from < |run| {
      var before, last := run[..|run| - 1], |run| - 1;
      forall k <- places - {last} ensures before[k] == run[k] && before[..k] == run[..k] {}
      UsefulStepsAreWork(n, before, from, i, places - {last});
    } else {
      assert places == {};
    }
  }

  /** A round takes at most four of them. */
  function Credit(left: nat, p: Point): nat {
    4 * left +
    match p
    case Outside => 0
    case Loaded(_) => 1
    case Reset(_) => 2
    case Spin(_) => 2
    case Flip(_) => 3
  }

  lemma StepEarns(s: State, r: Rounds, k: nat, a: nat, i: nat)
    requires Inv(s, r, k) && a < |s.points| && i < |s.points|
    ensures EventsOf(s, a) != [] ==> Permits(r, EventsOf(s, a)[0])
    ensures
      var r' := AfterEvents(r, EventsOf(s, a));
      && |r'.left| == |s.points|
      && Credit(r.left[i], s.points[i]) + (if a == i && Useful(s, a) then 1 else 0)
         <= Credit(r'.left[i], Step(s, a).points[i])
  {
    StepKeeps(s, r, k, a);
  }

  /** How many rounds participant i has left, and how far it is in the next. */
  function LeftIn(n: nat, run: seq<nat>, i: nat): nat
    requires ValidRun(n, run)
  {
    var r := Play(n, Trace(n, run));
    if r.Some? && i < |r.value.left| then r.value.left[i] else 0
  }

  function Earned(n: nat, run: seq<nat>, i: nat): nat
    requires ValidRun(n, run) && i < n
  {
    Credit(LeftIn(n, run, i), Exec(n, run).points[i])
  }

  lemma EarnsOnce(n: nat, run: seq<nat>, a: nat, i: nat)
    requires ValidRun(n, run) && a < n && i < n
    ensures ValidRun(n, run + [a])
    ensures Earned(n, run, i) + (if a == i && Useful(Exec(n, run), a) then 1 else 0) <= Earned(n, run + [a], i)
  {
    var k := RunsRefine(n, run);
    var r := Play(n, Trace(n, run)).value;
    StepEarns(Exec(n, run), r, k, a, i);
    OneMoreStep(n, run, a, r);
  }

  lemma {:induction false} WorkEarns(n: nat, run: seq<nat>, from: nat, i: nat)
    requires ValidRun(n, run) && from <= |run| && i < n
    ensures ValidRun(n, run[..from])
    ensures Work(n, run, from, i) + Earned(n, run[..from], i) <= Earned(n, run, i)
  {
    if |run| == from {
      assert run[..from] == run;
    } else {
      var before, a := run[..|run| - 1], run[|run| - 1];
      WorkEarns(n, before, from, i);
      assert before[..from] == run[..from] && run == before + [a];
      EarnsOnce(n, before, a, i);
    }
  }

  lemma NobodyIsFarAhead(n: nat, run: seq<nat>, i: nat, j: nat)
    requires ValidRun(n, run) && i < n && j < n
    ensures LeftIn(n, run, i) <= LeftIn(n, run, j) + 1
  {
    var k := RunsRefine(n, run);
    InStep(n, Trace(n, run), i, j);
  }

  /** From any point of any run on, nobody can take more than eleven useful steps before everybody has left
      a round, nor more than fifteen before everybody has left two, and so on: `places` are any steps of
      participant i but looks at the generation that find it unchanged. Together with
      NobodySpinsForever: unless only idle looks are scheduled, every round ends for everybody. */
  lemma EveryoneLeaves(n: nat, run: seq<nat>, from: nat, i: nat, j: nat, places: set<nat>)
    requires ValidRun(n, run) && from <= |run| && i < n && j < n
    requires forall k <- places ::
      && from <= k < |run| && run[k] == i
      && Exec(n, run[..k]).points[i] != Spin(Exec(n, run[..k]).generation)
    ensures ValidRun(n, run[..from])
    ensures |places| + 4 * LeftIn(n, run[..from], j) <= 4 * LeftIn(n, run, j) + 11
  {
    UsefulStepsAreWork(n, run, from, i, places);
    WorkEarns(n, run, from, i);
    NobodyIsFarAhead(n, run[..from], j, i);
    NobodyIsFarAhead(n, run, i, j);
  }

  // ---------- the source's form ----------

  datatype Moment = Moment(world: State, rounds: Rounds)

  function Tick(m: Moment, i: nat): Moment {
    if i < |m.world.points| == |m.rounds.entered| == |m.rounds.left| then
      Moment(Step(m.world, i), AfterEvents(m.rounds, EventsOf(m.world, i)))
    else m
  }

  lemma TickKeeps(m: Moment, k: nat, a: nat) returns (k': nat)
    requires Inv(m.world, m.rounds, k) && a < |m.world.points|
    ensures Tick(m, a).world == Step(m.world, a) && Inv(Tick(m, a).world, Tick(m, a).rounds, k')
  {
    StepKeeps(m.world, m.rounds, k, a);
    k' := Completed(m.world, a, k);
  }

  lemma LeftAfter(s: State, r: Rounds, a: nat, i: nat)
    requires |r.entered| == |r.left| == |s.points| && a < |s.points| && i < |s.points|
    ensures
      var r' := Tick(Moment(s, r), a).rounds;
      && |r'.left| == |Step(s, a).points| == |s.points|
      && r'.left[i] == r.left[i] + if i == a && EventsOf(s, a) == [Leave(i)] then 1 else 0
  {
  }

  predicate IsAt(n: nat, run: seq<nat>, m: Moment) {
    ValidRun(n, run) && Exec(n, run) == m.world && Play(n, Trace(n, run)) == Some(m.rounds)
  }

  lemma NextMoment(n: nat, run: seq<nat>, i: nat, m: Moment)
    requires IsAt(n, run, m) && i < n
    ensures IsAt(n, run + [i], Tick(m, i))
  {
    var k := RunsRefine(n, run);
    StepKeeps(m.world, m.rounds, k, i);
    OneMoreStep(n, run, i, m.rounds);
  }

  /** The moments of a schedule are the interleaving and its history. */
  lemma {:induction false} MomentsAreRuns(n: nat, schedule: seq<nat>, moments: seq<Moment>, k: nat)
    requires ValidRun(n, schedule) && Recorded(Tick, schedule, moments) && moments[0] == Moment(Init(n), Start(n))
    requires k <= |schedule|
    ensures IsAt(n, schedule[..k], moments[k])
  {
    if k == 0 {
      assert schedule[..k] == [];
    } else {
      MomentsAreRuns(n, schedule, moments, k - 1);
      assert StepAt(Tick, schedule, moments, k - 1);
      NextMoment(n, schedule[..k - 1], schedule[k - 1], moments[k - 1]);
      assert schedule[..k] == schedule[..k - 1] + [schedule[k - 1]];
    }
  }

  class SpinBarrier {
    const threads: nat
    const schedule: seq<nat>            // who acts, in order
    ghost const moments: seq<Moment>    // what is the case after each step, and the rounds entered and left
    var now: nat                        // how many steps have happened
    var count: int                      // the AtomicI32
    var generation: bool                // the AtomicBool
    var points: seq<Point>              // where every participant is
    ghost var rounds: Rounds
    ghost var completed: nat

    ghost predicate Valid()
      reads this
    {
      && |points| == threads && ValidRun(threads, schedule)
      && Recorded(Tick, schedule, moments)
      && now <= |schedule| && moments[now] == Moment(View(), rounds)
      && Inv(View(), rounds, completed)
    }

    function View(): State
      reads this
    {
      State(count, generation, points)
    }

    constructor (threads: nat, schedule: seq<nat>)
      requires ValidRun(threads, schedule)
      ensures Valid() && this.threads == threads && this.schedule == schedule && now == 0
      ensures View() == Init(threads) && rounds == Start(threads)
    {
      ghost var recorded := Record(Tick, Moment(Init(threads), Start(threads)), schedule);
      this.threads, this.schedule, this.moments := threads, schedule, recorded;
      this.now, this.count, this.generation := 0, threads, false;
      this.points := seq(threads, _ => Outside);
      this.rounds, this.completed := Start(threads), 0;
      new;
      ArrivedBound(rounds.entered, 0);
    }

    /** At the k-th moment participant i acts from point `p`. */
    ghost predicate Does(i: nat, p: Point, k: int) {
      && 0 <= k < |schedule| && k < |moments| && schedule[k] == i
      && i < |moments[k].world.points| && moments[k].world.points[i] == p
    }

    /** How many rounds participant i has left by the k-th moment. */
    ghost function LeftBy(k: int, i: nat): nat {
      if 0 <= k < |moments| && i < |moments[k].rounds.left| then moments[k].rounds.left[i] else 0
    }

    /** The participant whose turn it is acts, leaving these values in memory; `i` is the one the caller
        runs. */
    method Act(next: State, ghost i: nat)
      requires Valid() && now < |schedule| && i < threads && next == Step(View(), schedule[now])
      modifies this
      ensures Valid() && now == old(now) + 1 && View() == next
      ensures |old(rounds.left)| == |rounds.left| == threads
      ensures
        rounds.left[i] == old(rounds.left[i]) +
          if i == schedule[old(now)] && old(EventsOf(View(), i)) == [Leave(i)] then 1 else 0
      ensures Does(schedule[old(now)], old(points[schedule[now]]), old(now))
      ensures LeftBy(old(now), i) == old(rounds.left[i]) && moments[old(now)].world == old(View())
    {
      assert StepAt(Tick, schedule, moments, now);
      ghost var a := schedule[now];
      ghost var k := TickKeeps(Moment(View(), rounds), completed, a);
      LeftAfter(View(), rounds, a, i);
      rounds, completed := Tick(Moment(View(), rounds), a).rounds, k;
      count, generation, points := next.count, next.generation, next.points;
      now := now + 1;
    }

    /** The others act until it is the turn of participant i. */
    method Await(i: nat) returns (ready: bool)
      requires Valid() && i < threads
      modifies this
      ensures Valid() && old(now) <= now && points[i] == old(points[i]) && rounds.left[i] == old(rounds.left[i])
      ensures ready ==> now < |schedule| && schedule[now] == i
      ensures !ready ==> now == |schedule|
    {
      while now < |schedule| && schedule[now] != i
        invariant Valid() && old(now) <= now && points[i] == old(points[i])
        invariant rounds.left[i] == old(rounds.left[i])
        decreases |schedule| - now
      {
        Act(Step(View(), schedule[now]), i);
      }
      ready := now < |schedule|;
    }

    /** Participant i has left one round, with the last step. */
    ghost predicate JustLeft(i: nat, since: nat, before: nat)
      requires i < threads
      reads this
    {
      && Valid() && since < now && points[i] == Outside
      && LeftBy(now - 1, i) == before && rounds.left[i] == before + 1
    }

    /** Leaves exactly one round, which everyone has entered; returns false only if the schedule ends with
        the participant still in that round. */
    method Wait(i: nat) returns (left: bool)
      requires Valid() && i < threads && points[i] == Outside
      modifies this
      ensures Valid() && old(now) <= now
      ensures left <==> JustLeft(i, old(now), old(rounds.left[i]))
      ensures left ==> forall j :: 0 <= j < threads ==> rounds.entered[j] >= rounds.left[i]
      ensures !left <==> now == |schedule| && rounds.left[i] == old(rounds.left[i])
    {
      left := Await(i);
      if !left {
        return;
      }
      var gen := generation;
      Act(State(count, generation, points[i := Loaded(gen)]), i);
      left := Await(i);
      if !left {
        return;
      }
      var before := Arrive(i, gen);
      if before == 1 {
        left := Release(i, gen);
      } else {
        left := SpinUntilReleased(i, gen);
      }
      if left {
        EveryoneEntered(i);
      }
    }

    /** count.fetch_sub(1), and the debug assertion on what it returns. */
    method Arrive(i: nat, gen: bool) returns (before: int)
      requires Valid() && i < threads && points[i] == Loaded(gen) && now < |schedule| && schedule[now] == i
      modifies this
      ensures Valid() && now == old(now) + 1 && Does(i, Loaded(gen), old(now))
      ensures before == old(count) > 0 && count == before - 1
      ensures rounds.left[i] == old(rounds.left[i]) && points[i] == if before == 1 then Reset(gen) else Spin(gen)
    {
      ArrivalKeeps(View(), rounds, completed, i);
      before := count;
      Act(State(count - 1, generation, points[i := if before == 1 then Reset(gen) else Spin(gen)]), i);
    }

    lemma EveryoneEntered(i: nat)
      requires Valid() && i < threads && points[i] == Outside
      ensures forall j :: 0 <= j < threads ==> rounds.entered[j] >= rounds.left[i]
    {
      assert PointOk(generation, completed, rounds.entered[i], rounds.left[i], points[i]);
      forall j | 0 <= j < threads ensures rounds.entered[j] >= rounds.left[i] {
        assert PointOk(generation, completed, rounds.entered[j], rounds.left[j], points[j]);
      }
    }

    /** The last to arrive resets the count, at the moment `reset`, and then flips the generation. */
    method ResetCount(i: nat, gen: bool) returns (ready: bool)
      requires Valid() && i < threads && points[i] == Reset(gen)
      modifies this
      ensures Valid() && old(now) <= now && rounds.left[i] == old(rounds.left[i])
      ensures ready ==>
        old(now) < now && Does(i, Reset(gen), now - 1) && points[i] == Flip(gen)
        && count == moments[now - 1].world.count + threads
      ensures !ready ==> now == |schedule|
    {
      ready := Await(i);
      if ready {
        Act(State(count + threads, generation, points[i := Flip(gen)]), i);
      }
    }

    method Release(i: nat, gen: bool) returns (left: bool)
      requires Valid() && i < threads && points[i] == Reset(gen)
      modifies this
      ensures Valid() && old(now) <= now
      ensures left ==>
        JustLeft(i, old(now), old(rounds.left[i])) && Does(i, Flip(gen), now - 1) && generation == !gen
      ensures !left ==> now == |schedule| && rounds.left[i] == old(rounds.left[i])
    {
      left := ResetCount(i, gen);
      if !left {
        return;
      }
      left := Await(i);
      if left {
        Act(State(count, !gen, points[i := Outside]), i);
      }
    }

    /** One look at the generation, and the return if it is another one. */
    method Look(i: nat, gen: bool) returns (ready: bool, left: bool)
      requires Valid() && i < threads && points[i] == Spin(gen)
      modifies this
      ensures Valid() && old(now) <= now
      ensures ready && left ==>
        JustLeft(i, old(now), old(rounds.left[i])) && Does(i, Spin(gen), now - 1) && generation != gen
      ensures ready && !left ==> old(now) < now && points[i] == Spin(gen) && rounds.left[i] == old(rounds.left[i])
      ensures !ready ==> now == |schedule| && rounds.left[i] == old(rounds.left[i])
    {
      left := false;
      ready := Await(i);
      if ready {
        left := gen != generation;
        Act(State(count, generation, points[i := if left then Outside else Spin(gen)]), i);
      }
    }

    method SpinUntilReleased(i: nat, gen: bool) returns (left: bool)
      requires Valid() && i < threads && points[i] == Spin(gen)
      modifies this
      ensures Valid() && old(now) <= now
      ensures left ==>
        JustLeft(i, old(now), old(rounds.left[i])) && Does(i, Spin(gen), now - 1) && generation != gen
      ensures !left ==> now == |schedule| && rounds.left[i] == old(rounds.left[i])
    {
      left := false;
      while !left
        invariant Valid() && old(now) <= now
        invariant if left then
            JustLeft(i, old(now), old(rounds.left[i])) && Does(i, Spin(gen), now - 1) && generation != gen
          else points[i] == Spin(gen) && rounds.left[i] == old(rounds.left[i])
        decreases !left, |schedule| - now
      {
        var ready;
        ready, left := Look(i, gen);
        if !ready {
          return false;
        }
      }
    }
  }
}
