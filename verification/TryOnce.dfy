/** TryOnce and StaticRoot: fallible initialisation that any number of threads may race for, and readers,
    signal handlers among them, that must never see a root being written. */
module TryOnce {
  import opened Schedules
  import opened Stacks
  import opened Wrappers

  datatype Point =
    | Away
    | FastCheck             // try_call: about to load init
    | WantLock              // about to lock the mutex
    | SlowCheck             // holds the mutex; about to load init again
    | Building              // holds the mutex; in SignalLock::new, which may fail
    | Writing               // holds the mutex; about to write the root
    | HalfWritten           // holds the mutex; in the middle of that write
    | Storing               // holds the mutex; about to store true to init
    | Unlocking(ok: bool)   // about to drop the mutex guard and return Ok or Err
    | Getting(must: bool)   // get: about to load init; `must`: its caller unwraps the result
    | Reading               // holds a reference to the root
    | Panicked              // unwrapped None

  datatype Cell = Uninitialised | Torn | Written

  datatype State = State(init: bool, mutex: Option<nat>, root: Cell, points: seq<Point>, writes: nat)

  datatype Action =
    | GetOrInit(t: nat)
    | Get(t: nat)
    | Go(t: nat)
    | Fail(t: nat)          // SignalLock::new returns an error

  function Init(n: nat): State {
    State(false, None, Uninitialised, seq(n, _ => Away), 0)
  }

  predicate Enabled(s: State, a: Action) {
    && a.t < |s.points|
    && var p := s.points[a.t];
       match a
       case GetOrInit(_) => p.Away?
       case Get(_) => p.Away?
       case Fail(_) => p.Building?
       case Go(_) => !p.Away? && !p.Panicked? && (p.WantLock? ==> s.mutex == None)
  }

  function Step(s: State, a: Action): State
    requires Enabled(s, a)
  {
    var t := a.t;
    match a
    case GetOrInit(_) => s.(points := s.points[t := FastCheck])
    case Get(_) => s.(points := s.points[t := Getting(false)])
    case Fail(_) => s.(points := s.points[t := Unlocking(false)])
    case Go(_) =>
      match s.points[t]
      case FastCheck => s.(points := s.points[t := if s.init then Getting(true) else WantLock])
      case WantLock => s.(mutex := Some(t), points := s.points[t := SlowCheck])
      case SlowCheck => s.(points := s.points[t := if s.init then Unlocking(true) else Building])
      case Building => s.(points := s.points[t := Writing])
      case Writing => s.(root := Torn, writes := s.writes + 1, points := s.points[t := HalfWritten])
      case HalfWritten => s.(root := Written, points := s.points[t := Storing])
      case Storing => s.(init := true, points := s.points[t := Unlocking(true)])
      case Unlocking(ok) => s.(mutex := None, points := s.points[t := if ok then Getting(true) else Away])
      case Getting(must) => s.(points := s.points[t := if s.init then Reading else if must then Panicked else Away])
      case _ => s.(points := s.points[t := Away])
  }

  function Exec(n: nat, run: seq<Action>): Option<State> {
    if run == [] then Some(Init(n))
    else
      var before := Exec(n, run[..|run| - 1]);
      if before.Some? && Enabled(before.value, run[|run| - 1])
      then Some(Step(before.value, run[|run| - 1])) else None
  }

  // ---------- the invariant ----------

  predicate HasMutex(p: Point) {
    p.SlowCheck? || p.Building? || p.Writing? || p.HalfWritten? || p.Storing? || p.Unlocking?
  }

  predicate PointOk(s: State, t: nat, p: Point) {
    && (HasMutex(p) <==> s.mutex == Some(t))
    && (p.Building? || p.Writing? ==> !s.init && s.root == Uninitialised)
    && (p.HalfWritten? <==> s.root == Torn && s.mutex == Some(t))
    && (p.Storing? <==> s.root == Written && !s.init && s.mutex == Some(t))
    && (p.Unlocking? && p.ok ==> s.init)
    && (p.Getting? && p.must ==> s.init)
    && (p.Reading? ==> s.init)
    && !p.Panicked?
  }

  predicate Inv(s: State) {
    && (forall t :: 0 <= t < |s.points| ==> PointOk(s, t, s.points[t]))
    && (s.mutex.Some? ==> s.mutex.value < |s.points|)
    && (s.init ==> s.root == Written)
    && (s.mutex == None && !s.init ==> s.root == Uninitialised)
    && s.writes == if s.root == Uninitialised then 0 else 1
  }

  lemma InvKept(s: State, a: Action)
    requires Inv(s) && Enabled(s, a)
    ensures Inv(Step(s, a))
  {
    assert PointOk(s, a.t, s.points[a.t]);
    var s' := Step(s, a);
    forall u | 0 <= u < |s'.points| ensures PointOk(s', u, s'.points[u]) {
      assert PointOk(s, u, s.points[u]);
    }
  }

  lemma {:induction false} RunsKeep(n: nat, run: seq<Action>)
    requires Exec(n, run).Some?
    ensures Inv(Exec(n, run).value) && |Exec(n, run).value.points| == n
  {
    if run != [] {
      RunsKeep(n, run[..|run| - 1]);
      InvKept(Exec(n, run[..|run| - 1]).value, run[|run| - 1]);
    }
  }

  /** In every run of any number of threads the root is written at most once; whoever holds a reference to
      it sees it whole, with no write going on; and the unwrap in get_or_init never panics. */
  lemma WrittenOnceReadWhole(n: nat, run: seq<Action>)
    requires Exec(n, run).Some?
    ensures Exec(n, run).value.writes <= 1
    ensures
      var s := Exec(n, run).value;
      forall t, u :: 0 <= t < |s.points| && 0 <= u < |s.points| && s.points[t].Reading? ==>
        s.root == Written && s.writes == 1 && !s.points[u].Writing? && !s.points[u].HalfWritten?
    ensures forall t :: 0 <= t < |Exec(n, run).value.points| ==> !Exec(n, run).value.points[t].Panicked?
  {
    RunsKeep(n, run);
    var s := Exec(n, run).value;
    forall t, u | 0 <= t < |s.points| && 0 <= u < |s.points| && s.points[t].Reading?
      ensures s.root == Written && s.writes == 1 && !s.points[u].Writing? && !s.points[u].HalfWritten?
    {
      assert PointOk(s, t, s.points[t]) && PointOk(s, u, s.points[u]);
    }
    forall t | 0 <= t < |s.points| ensures !s.points[t].Panicked? {
      assert PointOk(s, t, s.points[t]);
    }
  }

  lemma OneMoreStep(n: nat, run: seq<Action>, a: Action)
    requires Exec(n, run).Some? && Enabled(Exec(n, run).value, a)
    ensures Exec(n, run + [a]) == Some(Step(Exec(n, run).value, a))
  {
    assert (run + [a])[..|run + [a]| - 1] == run;
  }

  /** After the initialiser has failed and its caller has returned Err, nothing has changed but that the
      mutex is free: any caller that waits for it can try again. */
  lemma FailureIsRetryable(s: State, t: nat)
    requires Inv(s) && t < |s.points| && s.points[t].Building?
    ensures Enabled(s, Fail(t)) && Enabled(Step(s, Fail(t)), Go(t))
    ensures
      var s' := Step(Step(s, Fail(t)), Go(t));
      && s' == s.(mutex := None, points := s.points[t := Away])
      && !s'.init && s'.root == Uninitialised
      && forall u :: 0 <= u < |s'.points| && s'.points[u].WantLock? ==> Enabled(s', Go(u))
  {
    assert PointOk(s, t, s.points[t]);
    assert s.points[t := Unlocking(false)][t := Away] == s.points[t := Away];
  }

  /** The state from which thread t can try. */
  predicate CanTry(s: State, t: nat) {
    t < |s.points| && s.points[t].Away? && s.mutex == None && !s.init
  }

  function Failures(run: seq<Action>): nat {
    if run == [] then 0 else Failures(run[..|run| - 1]) + if run[|run| - 1].Fail? then 1 else 0
  }

  lemma {:induction false} FailuresAreCounted(run: seq<Action>)
    ensures Failures(run) == |set k | 0 <= k < |run| && run[k].Fail?|
  {
    if run != [] {
      var n := |run| - 1;
      FailuresAreCounted(run[..n]);
      var failures := set k | 0 <= k < |run[..n]| && run[..n][k].Fail?;
      assert (set k | 0 <= k < |run| && run[k].Fail?) == if run[n].Fail? then failures + {n} else failures;
    }
  }

  /** The run goes on with `a`. If only this thread's point has changed since the points were `first`, that
      is still so. */
  lemma Happens(n: nat, run: seq<Action>, s: State, a: Action, first: seq<Point>)
    returns (run': seq<Action>, s': State)
    requires Exec(n, run) == Some(s) && Enabled(s, a)
    requires |first| == |s.points| && s.points == first[a.t := s.points[a.t]]
    ensures run' == run + [a] && Exec(n, run') == Some(s') && s' == Step(s, a)
    ensures s'.points == first[a.t := s'.points[a.t]]
    ensures Failures(run') == Failures(run) + if a.Fail? then 1 else 0
  {
    run', s' := run + [a], Step(s, a);
    assert run'[..|run'| - 1] == run;
  }

  /** Thread t calls get_or_init and comes to SignalLock::new. */
  lemma Tries(n: nat, run: seq<Action>, s0: State, t: nat) returns (run': seq<Action>, s: State)
    requires Exec(n, run) == Some(s0) && CanTry(s0, t)
    ensures run <= run' && Exec(n, run') == Some(s) && Failures(run') == Failures(run)
    ensures s == s0.(mutex := Some(t), points := s0.points[t := Building])
  {
    run', s := Happens(n, run, s0, GetOrInit(t), s0.points);
    assert s.points[t] == FastCheck;
    run', s := Happens(n, run', s, Go(t), s0.points);
    assert s.points[t] == WantLock;
    run', s := Happens(n, run', s, Go(t), s0.points);
    assert s.points[t] == SlowCheck;
    run', s := Happens(n, run', s, Go(t), s0.points);
    assert s.points[t] == Building;
  }

  /** From SignalLock::new to the store. */
  lemma WritesTheRoot(n: nat, run: seq<Action>, s0: State, t: nat, first: seq<Point>)
    returns (run': seq<Action>, s: State)
    requires Exec(n, run) == Some(s0) && t < |first| && s0.points == first[t := Building]
    ensures run <= run' && Exec(n, run') == Some(s) && Failures(run') == Failures(run)
    ensures s == s0.(root := Written, writes := s0.writes + 1, points := first[t := Storing])
  {
    run', s := Happens(n, run, s0, Go(t), first);
    assert s.points[t] == Writing;
    run', s := Happens(n, run', s, Go(t), first);
    assert s.points[t] == HalfWritten;
    run', s := Happens(n, run', s, Go(t), first);
    assert s.points[t] == Storing;
  }

  /** From the store to a reference. */
  lemma Publishes(n: nat, run: seq<Action>, s0: State, t: nat, first: seq<Point>)
    returns (run': seq<Action>, s: State)
    requires Exec(n, run) == Some(s0) && t < |first| && s0.points == first[t := Storing]
    ensures run <= run' && Exec(n, run') == Some(s) && Failures(run') == Failures(run)
    ensures s == State(true, None, s0.root, first[t := Reading], s0.writes)
  {
    run', s := Happens(n, run, s0, Go(t), first);
    assert s.points[t] == Unlocking(true);
    run', s := Happens(n, run', s, Go(t), first);
    assert s.points[t] == Getting(true);
    run', s := Happens(n, run', s, Go(t), first);
    assert s.points[t] == Reading;
  }

  lemma Succeeds(n: nat, run: seq<Action>, s0: State, t: nat) returns (run': seq<Action>)
    requires Exec(n, run) == Some(s0) && CanTry(s0, t)
    ensures run <= run' && Failures(run') == Failures(run)
    ensures Exec(n, run') == Some(State(true, None, Written, s0.points[t := Reading], s0.writes + 1))
  {
    var s;
    run', s := Tries(n, run, s0, t);
    run', s := WritesTheRoot(n, run', s, t, s0.points);
    run', s := Publishes(n, run', s, t, s0.points);
  }

  /** An attempt that fails returns Err and changes nothing. */
  lemma FailedAttempt(n: nat, run: seq<Action>, s0: State, t: nat) returns (run': seq<Action>)
    requires Exec(n, run) == Some(s0) && CanTry(s0, t)
    ensures run <= run' && Exec(n, run') == Some(s0) && Failures(run') == Failures(run) + 1
  {
    var s;
    run', s := Tries(n, run, s0, t);
    run', s := Happens(n, run', s, Fail(t), s0.points);
    assert s.points[t] == Unlocking(false);
    run', s := Happens(n, run', s, Go(t), s0.points);
    assert s.points[t] == Away;
    assert s.points == s0.points;
  }

  /** From any state that a run can reach in which the root is not initialised and the mutex is free, the
      initialiser can fail exactly so many times and then succeed. */
  lemma {:induction false} SucceedsAfterAnyFailures(n: nat, run: seq<Action>, t: nat, failures: nat)
    returns (run': seq<Action>)
    requires Exec(n, run).Some?
    requires
      var s := Exec(n, run).value;
      t < |s.points| && s.points[t].Away? && s.mutex == None && !s.init
    ensures run <= run' && Failures(run') == Failures(run) + failures
    ensures Failures(run) == |set k | 0 <= k < |run| && run[k].Fail?|
    ensures Failures(run') == |set k | 0 <= k < |run'| && run'[k].Fail?|
    ensures
      var s := Exec(n, run).value;
      Exec(n, run') == Some(State(true, None, Written, s.points[t := Reading], s.writes + 1))
    decreases failures
  {
    if failures == 0 {
      run' := Succeeds(n, run, Exec(n, run).value, t);
    } else {
      var failed := FailedAttempt(n, run, Exec(n, run).value, t);
      run' := SucceedsAfterAnyFailures(n, failed, t, failures - 1);
    }
    FailuresAreCounted(run);
    FailuresAreCounted(run');
  }

  /** Once the root is initialised, get_or_init is three steps of its own thread, whoever holds the mutex: it
      does not take it. */
  lemma InitialisedNeedsNoMutex(n: nat, run: seq<Action>, s0: State, t: nat) returns (run': seq<Action>)
    requires Exec(n, run) == Some(s0) && s0.init && t < |s0.points| && s0.points[t].Away?
    ensures run' == run + [GetOrInit(t), Go(t), Go(t)]
    ensures Exec(n, run') == Some(s0.(points := s0.points[t := Reading]))
  {
    var s;
    run', s := Happens(n, run, s0, GetOrInit(t), s0.points);
    assert s.points[t] == FastCheck;
    run', s := Happens(n, run', s, Go(t), s0.points);
    assert s.points[t] == Getting(true);
    run', s := Happens(n, run', s, Go(t), s0.points);
    assert s.points[t] == Reading;
  }

  /** And get, at any time, is two: it gives a reference, or none if the root is not initialised. */
  lemma GetNeedsNoMutex(n: nat, run: seq<Action>, s0: State, t: nat) returns (run': seq<Action>)
    requires Exec(n, run) == Some(s0) && t < |s0.points| && s0.points[t].Away?
    ensures run' == run + [Get(t), Go(t)]
    ensures Exec(n, run') == Some(s0.(points := s0.points[t := if s0.init then Reading else Away]))
  {
    var s;
    run', s := Happens(n, run, s0, Get(t), s0.points);
    assert s.points[t] == Getting(false);
    run', s := Happens(n, run', s, Go(t), s0.points);
  }

  /** Before that a call comes to wait for the mutex, whoever holds it, */
  lemma UninitialisedWaits(n: nat, run: seq<Action>, s0: State, t: nat) returns (run': seq<Action>)
    requires Exec(n, run) == Some(s0) && !s0.init && t < |s0.points| && s0.points[t].Away?
    ensures run' == run + [GetOrInit(t), Go(t)]
    ensures Exec(n, run') == Some(s0.(points := s0.points[t := WantLock]))
  {
    var s;
    run', s := Happens(n, run, s0, GetOrInit(t), s0.points);
    assert s.points[t] == FastCheck;
    run', s := Happens(n, run', s, Go(t), s0.points);
  }

  /** and the initialiser may fail whenever it is called, which frees the mutex. */
  lemma InitialiserMayFail(n: nat, run: seq<Action>, s0: State, t: nat) returns (run': seq<Action>)
    requires Exec(n, run) == Some(s0) && t < |s0.points| && s0.points[t].Building?
    ensures run' == run + [Fail(t), Go(t)]
    ensures Exec(n, run') == Some(s0.(mutex := None, points := s0.points[t := Away]))
  {
    var s;
    run', s := Happens(n, run, s0, Fail(t), s0.points);
    assert s.points[t] == Unlocking(false);
    run', s := Happens(n, run', s, Go(t), s0.points);
  }

  /** Once some call has succeeded, the root never changes again. */
  lemma SuccessIsFinal(s: State, a: Action)
    requires Inv(s) && Enabled(s, a) && s.init
    ensures Step(s, a).init && Step(s, a).root == Written && Step(s, a).writes == s.writes
  {
    assert PointOk(s, a.t, s.points[a.t]);
  }

  // ---------- progress ----------

  /** How many actions the thread may still take before it is away. */
  function Rank(p: Point): (r: nat)
    ensures r == 0 <==> p.Away? || p.Panicked?
  {
    match p
    case FastCheck => 10
    case WantLock => 9
    case SlowCheck => 8
    case Building => 7
    case Writing => 6
    case HalfWritten => 5
    case Storing => 4
    case Unlocking(_) => 3
    case Getting(_) => 2
    case Reading => 1
    case _ => 0
  }

  function Ranks(s: State): seq<nat> {
    seq(|s.points|, t requires 0 <= t < |s.points| => Rank(s.points[t]))
  }

  /** How often get_or_init and get are called in a run. */
  function Inits(run: seq<Action>): nat {
    if run == [] then 0 else Inits(run[..|run| - 1]) + if run[|run| - 1].GetOrInit? then 1 else 0
  }

  function Gets(run: seq<Action>): nat {
    if run == [] then 0 else Gets(run[..|run| - 1]) + if run[|run| - 1].Get? then 1 else 0
  }

  lemma {:induction false} InitsAreCounted(run: seq<Action>)
    ensures Inits(run) == |set k | 0 <= k < |run| && run[k].GetOrInit?|
  {
    if run != [] {
      var n := |run| - 1;
      InitsAreCounted(run[..n]);
      var inits := set k | 0 <= k < |run[..n]| && run[..n][k].GetOrInit?;
      assert (set k | 0 <= k < |run| && run[k].GetOrInit?) == if run[n].GetOrInit? then inits + {n} else inits;
    }
  }

  lemma {:induction false} GetsAreCounted(run: seq<Action>)
    ensures Gets(run) == |set k | 0 <= k < |run| && run[k].Get?|
  {
    if run != [] {
      var n := |run| - 1;
      GetsAreCounted(run[..n]);
      var gets := set k | 0 <= k < |run[..n]| && run[..n][k].Get?;
      assert (set k | 0 <= k < |run| && run[k].Get?) == if run[n].Get? then gets + {n} else gets;
    }
  }

  function Starts(a: Action): nat {
    if a.GetOrInit? then 11 else if a.Get? then 3 else 0
  }

  lemma RankFalls(s: State, a: Action) returns (p: Point)
    requires Enabled(s, a)
    ensures Step(s, a).points == s.points[a.t := p] && Rank(p) + 1 <= Rank(s.points[a.t]) + Starts(a)
  {
    p := Step(s, a).points[a.t];
  }

  lemma StepDescends(s: State, a: Action)
    requires Enabled(s, a)
    ensures Total(Ranks(Step(s, a))) + 1 <= Total(Ranks(s)) + Starts(a)
  {
    var p := RankFalls(s, a);
    assert Ranks(Step(s, a)) == Ranks(s)[a.t := Rank(p)];
    TotalUpdate(Ranks(s), a.t, Rank(p));
  }

  /** Every run is finite: each get_or_init takes at most 11 steps and each get at most 3, waiting for the
      mutex not being one. */
  lemma {:induction false} RunsAreFinite(n: nat, run: seq<Action>)
    requires Exec(n, run).Some?
    ensures |run| + Total(Ranks(Exec(n, run).value)) <= 11 * Inits(run) + 3 * Gets(run)
    ensures Inits(run) == |set k | 0 <= k < |run| && run[k].GetOrInit?|
    ensures Gets(run) == |set k | 0 <= k < |run| && run[k].Get?|
  {
    InitsAreCounted(run);
    GetsAreCounted(run);
    if run == [] {
      TotalOfZeros(Ranks(Init(n)));
    } else {
      RunsAreFinite(n, run[..|run| - 1]);
      StepDescends(Exec(n, run[..|run| - 1]).value, run[|run| - 1]);
    }
  }

  /** And never stuck: while any call is unfinished, some thread can take its next action. */
  lemma SomeoneMoves(n: nat, run: seq<Action>, t: nat) returns (u: nat)
    requires Exec(n, run).Some? && t < |Exec(n, run).value.points| && !Exec(n, run).value.points[t].Away?
    ensures Enabled(Exec(n, run).value, Go(u))
  {
    RunsKeep(n, run);
    var s := Exec(n, run).value;
    u := if s.mutex.Some? then s.mutex.value else t;
    assert PointOk(s, u, s.points[u]);
  }

  // ---------- the source's form ----------

  datatype Result = Ok | Err | Unfinished

  function Tick(s: State, a: Action): State {
    if Enabled(s, a) then Step(s, a) else s
  }

  /** Every moment of a schedule is the end of a run. */
  lemma {:induction false} MomentsAreRuns(n: nat, schedule: seq<Action>, moments: seq<State>, k: nat)
    returns (run: seq<Action>)
    requires Recorded(Tick, schedule, moments) && moments[0] == Init(n) && k <= |schedule|
    ensures Exec(n, run) == Some(moments[k])
  {
    run := [];
    if k > 0 {
      run := MomentsAreRuns(n, schedule, moments, k - 1);
      assert StepAt(Tick, schedule, moments, k - 1);
      if Enabled(moments[k - 1], schedule[k - 1]) {
        OneMoreStep(n, run, schedule[k - 1]);
        run := run + [schedule[k - 1]];
      }
    }
  }

  /** In try_call. */
  predicate Trying(s: State, t: nat) {
    t < |s.points| && (s.points[t].FastCheck? || s.points[t].WantLock? || HasMutex(s.points[t]))
  }

  /** One StaticRoot, with its TryOnce, shared by threads that a schedule interleaves. */
  class StaticRoot {
    const schedule: seq<Action>         // what will happen, in order
    ghost const moments: seq<State>     // and what is the case after each of its steps
    var now: nat                        // how many of them have happened
    var init: bool
    var mutex: Option<nat>
    var root: Cell
    var points: seq<Point>              // where every thread is
    var writes: nat                     // how often the root has been written

    function View(): State
      reads this
    {
      State(init, mutex, root, points, writes)
    }

    ghost predicate Valid()
      reads this
    {
      && Recorded(Tick, schedule, moments)
      && now <= |schedule| && View() == moments[now]
      && Inv(View())
    }

    constructor (threads: nat, schedule: seq<Action>)
      ensures Valid() && now == 0 && View() == Init(threads) && |points| == threads && this.schedule == schedule
    {
      ghost var recorded := Record(Tick, Init(threads), schedule);
      this.schedule, this.moments, this.now := schedule, recorded, 0;
      this.init, this.mutex, this.root, this.writes := false, None, Uninitialised, 0;
      this.points := seq(threads, _ => Away);
    }

    /** Thread t is in try_call from the i-th moment to the j-th. */
    ghost predicate Stays(t: nat, i: nat, j: nat)
      requires j < |moments|
    {
      forall k :: i <= k <= j ==> Trying(moments[k], t)
    }

    /** At the k-th moment thread t acts from the point `p`. */
    ghost predicate Does(t: nat, p: Point, k: nat) {
      && k < |schedule| && k < |moments| && schedule[k].t == t && Enabled(moments[k], schedule[k])
      && t < |moments[k].points| && moments[k].points[t] == p
    }

    /** The next scheduled action happens, leaving these values behind. */
    method Act(init': bool, mutex': Option<nat>, root': Cell, writes': nat, points': seq<Point>)
      requires Valid() && now < |schedule| && Enabled(View(), schedule[now])
      requires Step(View(), schedule[now]) == State(init', mutex', root', points', writes')
      modifies this
      ensures Valid() && now == old(now) + 1 && moments[old(now)] == old(View())
      ensures View() == State(init', mutex', root', points', writes')
    {
      assert StepAt(Tick, schedule, moments, now);
      InvKept(View(), schedule[now]);
      init, mutex, root, writes, points := init', mutex', root', writes', points';
      now := now + 1;
    }

    /** The next scheduled action happens if it can, and is not one of thread t. */
    method Other(t: nat)
      requires Valid() && now < |schedule| && t < |points|
      requires Enabled(View(), schedule[now]) ==> schedule[now].t != t
      modifies this
      ensures Valid() && now == old(now) + 1 && t < |points| && points[t] == old(points[t])
      ensures old(init) ==> init && root == Written && writes == 1
      ensures HasMutex(old(points[t])) ==> root == old(root) && writes == old(writes) && init == old(init)
    {
      if Enabled(View(), schedule[now]) {
        assert PointOk(View(), t, points[t]) && PointOk(View(), schedule[now].t, points[schedule[now].t]);
        if init {
          SuccessIsFinal(View(), schedule[now]);
        }
        var next := Step(View(), schedule[now]);
        Act(next.init, next.mutex, next.root, next.writes, next.points);
      } else {
        assert StepAt(Tick, schedule, moments, now);
        now := now + 1;
      }
    }

    /** The other threads act until it is the turn of thread t; none of them writes the root while t has the
        mutex. */
    method Await(t: nat) returns (ready: bool)
      requires Valid() && t < |points| && !points[t].Away?
      modifies this
      ensures Valid() && old(now) <= now && t < |points| && points[t] == old(points[t])
      ensures Trying(old(View()), t) ==> Stays(t, old(now), now)
      ensures old(init) ==> init && root == Written && writes == 1
      ensures HasMutex(points[t]) ==> root == old(root) && writes == old(writes) && init == old(init)
      ensures !ready ==> now == |schedule|
      ensures ready ==> now < |schedule| && Enabled(View(), schedule[now]) && schedule[now].t == t
    {
      while now < |schedule|
        invariant Valid() && old(now) <= now && t < |points| && points[t] == old(points[t])
        invariant Trying(old(View()), t) ==> Stays(t, old(now), now)
        invariant old(init) ==> init && root == Written && writes == 1
        invariant HasMutex(points[t]) ==> root == old(root) && writes == old(writes) && init == old(init)
        decreases |schedule| - now
      {
        if Enabled(View(), schedule[now]) && schedule[now].t == t {
          return true;
        }
        Other(t);
      }
      return false;
    }

    /** Ok: the root is written, exactly once and for good, and if it was when the call first looked, at the
        moment `first`, then that was all it did. Err: the initialiser failed in this call. Otherwise the
        schedule has ended with the call still going on. */
    method TryCall(t: nat) returns (r: Result, ghost first: nat)
      requires Valid() && t < |points| && points[t] == FastCheck
      modifies this
      ensures Valid() && old(now) <= now && t < |points|
      ensures r == Ok <==> old(now) < now && Stays(t, old(now), now - 1) && points[t] == Getting(true)
      ensures r == Err <==> old(now) < now && Stays(t, old(now), now - 1) && points[t] == Away
      ensures r == Unfinished <==> now == |schedule| && Stays(t, old(now), now)
      ensures r == Ok ==> init && root == Written && writes == 1
      ensures r == Err ==> !init && root == Uninitialised && mutex == None && Does(t, Unlocking(false), now - 1)
      ensures old(now) <= first <= now
      ensures first == now ==> r == Unfinished && points[t] == FastCheck
      ensures first < now ==> Does(t, FastCheck, first) && (moments[first].init <==> r == Ok && now == first + 1)
      ensures first < now && r == Ok && now == first + 1 ==>
        moments[first + 1] == moments[first].(points := moments[first].points[t := Getting(true)])
    {
      first := now;
      var ready := Await(t);
      first := now;
      if !ready {
        return Unfinished, first;
      }
      if init {
        Act(init, mutex, root, writes, points[t := Getting(true)]);
        return Ok, first;
      }
      Act(init, mutex, root, writes, points[t := WantLock]);
      r := CheckAgain(t);
    }

    method LockMutex(t: nat) returns (ready: bool)
      requires Valid() && t < |points| && points[t] == WantLock
      modifies this
      ensures Valid() && old(now) <= now && t < |points| && Stays(t, old(now), now)
      ensures ready ==> points[t] == SlowCheck && mutex == Some(t)
      ensures !ready ==> now == |schedule|
    {
      ready := Await(t);
      if ready {
        Act(init, Some(t), root, writes, points[t := SlowCheck]);
      }
    }

    /** The rest of try_call, from locking the mutex. */
    method CheckAgain(t: nat) returns (r: Result)
      requires Valid() && t < |points| && points[t] == WantLock
      modifies this
      ensures Valid() && old(now) <= now && t < |points|
      ensures r != Unfinished ==>
        && old(now) < now && Stays(t, old(now), now - 1)
        && points[t] == (if r == Ok then Getting(true) else Away)
      ensures r == Unfinished ==> now == |schedule| && Stays(t, old(now), now)
      ensures r == Ok ==> init && root == Written && writes == 1
      ensures r == Err ==> !init && root == Uninitialised && mutex == None && Does(t, Unlocking(false), now - 1)
    {
      var ready := LockMutex(t);
      if !ready {
        return Unfinished;
      }
      ready := Await(t);
      if !ready {
        return Unfinished;
      }
      if init {
        Act(init, mutex, root, writes, points[t := Unlocking(true)]);
        r := DropLock(t, true);
      } else {
        Act(init, mutex, root, writes, points[t := Building]);
        r := CallInitialiser(t);
      }
    }

    /** The closure of `init`, on a root that is not written, and what try_call does with its result: `init`
        is stored only after the root is whole. */
    method CallInitialiser(t: nat) returns (r: Result)
      requires Valid() && t < |points| && points[t] == Building
      modifies this
      ensures old(root) == Uninitialised && old(writes) == 0 && !old(init)
      ensures Valid() && old(now) <= now && t < |points|
      ensures r != Unfinished ==>
        && old(now) < now && Stays(t, old(now), now - 1)
        && points[t] == (if r == Ok then Getting(true) else Away)
      ensures r == Unfinished ==> now == |schedule| && Stays(t, old(now), now)
      ensures r == Ok ==> init && root == Written && writes == 1
      ensures r == Err ==> !init && root == Uninitialised && mutex == None && Does(t, Unlocking(false), now - 1)
    {
      assert PointOk(View(), t, points[t]);
      var ready := Await(t);
      if !ready {
        return Unfinished;
      }
      if schedule[now].Fail? {
        Act(init, mutex, root, writes, points[t := Unlocking(false)]);
        r := DropLock(t, false);
        return;
      }
      Act(init, mutex, root, writes, points[t := Writing]);
      ghost var stored;
      ready, stored := WriteAndStore(t);
      if !ready {
        return Unfinished;
      }
      r := DropLock(t, true);
    }

    /** The write of the root, which takes two steps and which no reader sees half done, and only then the
        store to init, at the moment `stored`. */
    method WriteAndStore(t: nat) returns (ready: bool, ghost stored: nat)
      requires Valid() && t < |points| && points[t] == Writing
      modifies this
      ensures Valid() && old(now) <= now && t < |points| && Stays(t, old(now), now)
      ensures ready ==> points[t] == Unlocking(true) && init && root == Written && writes == 1
      ensures ready ==>
        && old(now) <= stored < now && Does(t, Storing, stored)
        && moments[stored].root == Written && !moments[stored].init
      ensures !ready ==> now == |schedule|
    {
      stored := now;
      ready := Await(t);
      if !ready {
        return;
      }
      Act(init, mutex, Torn, writes + 1, points[t := HalfWritten]);
      ready := Await(t);
      if !ready {
        return;
      }
      Act(init, mutex, Written, writes, points[t := Storing]);
      ready := Await(t);
      if !ready {
        return;
      }
      stored := now;
      assert PointOk(View(), t, points[t]);
      Act(true, mutex, root, writes, points[t := Unlocking(true)]);
    }

    method DropLock(t: nat, ok: bool) returns (r: Result)
      requires Valid() && t < |points| && points[t] == Unlocking(ok) && (ok || !init)
      modifies this
      ensures Valid() && old(now) <= now && t < |points|
      ensures r != Unfinished ==>
        && r == (if ok then Ok else Err) && old(now) < now && Stays(t, old(now), now - 1)
        && points[t] == (if ok then Getting(true) else Away) && Does(t, Unlocking(ok), now - 1)
      ensures r == Unfinished ==> now == |schedule| && Stays(t, old(now), now)
      ensures r == Ok ==> init && root == Written && writes == 1
      ensures r == Err ==> !init && root == Uninitialised && mutex == None
    {
      assert PointOk(View(), t, points[t]);
      var ready := Await(t);
      if !ready {
        return Unfinished;
      }
      assert PointOk(View(), t, points[t]);
      Act(init, None, root, writes, points[t := if ok then Getting(true) else Away]);
      r := if ok then Ok else Err;
    }

    /** get: a reference exactly if init was set when it looked, and then to a written root; `must`: the
        caller unwraps, and may. */
    method Get(t: nat, must: bool) returns (found: Option<bool>)
      requires Valid() && t < |points| && points[t] == Getting(must)
      modifies this
      ensures Valid() && old(now) <= now && t < |points|
      ensures found == None <==> now == |schedule| && points[t] == Getting(must)
      ensures found.Some? ==> old(now) < now && Does(t, Getting(must), now - 1) && found.value == moments[now - 1].init
      ensures found == Some(true) ==> points[t] == Reading && root == Written && writes == 1
      ensures found == Some(false) ==> points[t] == Away && !must
    {
      var ready := Await(t);
      if !ready {
        return None;
      }
      assert PointOk(View(), t, points[t]);
      if init {
        Act(init, mutex, root, writes, points[t := Reading]);
        found := Some(true);
      } else {
        Act(init, mutex, root, writes, points[t := Away]);
        found := Some(false);
      }
    }
  }
}
