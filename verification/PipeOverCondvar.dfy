/** PipeLock over the pipe of the loom tests: the lock's code calls `read` and `write`, and these are the
    several actions of module CondvarPipe on the same bytes. The tests deliver signals only outside it. */
module PipeOverCondvar {
  import opened Wrappers
  import opened Stacks
  import A = AbstractLock
  import C = CondvarPipe
  import P = PipeMachine
  import S = PipeSafety
  import T = PipeTermination

  /** In `code` a call that is anywhere inside `read` is at Read, and inside `write` at Write; where
      inside, its thread's point in `pipe` says. `wakeups`: how many more wakeups will have no reason. */
  datatype State = State(code: P.State, pipe: C.State, wakeups: nat)

  datatype Step = Code(step: P.Step) | Pipe(action: C.Action)

  function Init(threads: nat, calls: nat, spurious: nat, wakeups: nat): State {
    State(P.Init(threads, C.CAPACITY, calls, spurious), C.Init(threads), wakeups)
  }

  predicate InPipe(s: State, t: nat) {
    t < |s.pipe.points| && !s.pipe.points[t].Idle?
  }

  predicate CallsPipe(f: P.Frame) {
    f.Read? || f.Write?
  }

  predicate Enabled(s: State, a: Step) {
    match a
    case Code(m) =>
      && P.Enabled(s.code, m)
      && (match m
          case Call(_) => true
          case Signal(t) => !InPipe(s, t)
          case Run(t) => !CallsPipe(Top(s.code.stacks, t))
          case Misfire(t) => !CallsPipe(Top(s.code.stacks, t)))
    case Pipe(c) =>
      && C.Enabled(s.pipe, c)
      && (match c
          case Read(t) => P.Busy(s.code, t) && Top(s.code.stacks, t) == P.Read
          case Write(t) => P.Busy(s.code, t) && Top(s.code.stacks, t) == P.Write
          case Spurious(_) => s.wakeups > 0
          case Go(_) => true)
  }

  /** The pipe call returns: from `read` to the next try for the lock, from `write` out of the unlock. */
  function Leave(code: P.State, t: nat): P.State {
    if !P.Busy(code, t) then code
    else code.(stacks := if Top(code.stacks, t).Read? then SetTop(code.stacks, t, P.Cas) else Pop(code.stacks, t))
  }

  function Apply(s: State, a: Step): State
    requires Enabled(s, a)
  {
    match a
    case Code(m) => s.(code := P.Apply(s.code, m))
    case Pipe(c) =>
      var pipe := C.Step(s.pipe, c);
      var code := s.code.(shared := s.code.shared.(bytes := pipe.bytes));
      State(if c.Go? && C.Step(s.pipe, c).points[c.t].Idle? then Leave(code, c.t) else code, pipe,
            if c.Spurious? then s.wakeups - 1 else s.wakeups)
  }

  function Exec(s: State, run: seq<Step>): Option<State> {
    if run == [] then Some(s)
    else
      var before := Exec(s, run[..|run| - 1]);
      if before.Some? && Enabled(before.value, run[|run| - 1])
      then Some(Apply(before.value, run[|run| - 1])) else None
  }

  // ---------- the machine over a pipe that this simulates ----------

  /** A writer is done once it has added its byte. */
  function Seen(stack: seq<P.Frame>, p: C.Point): seq<P.Frame> {
    if p.MustNotify? && stack != [] then stack[..|stack| - 1] else stack
  }

  function Shadow(s: State): P.State
    requires |s.code.stacks| == |s.pipe.points|
  {
    s.code.(stacks := seq(|s.code.stacks|,
      t requires 0 <= t < |s.code.stacks| => Seen(s.code.stacks[t], s.pipe.points[t])))
  }

  /** The step of that machine, if the step here is visible to it. */
  function ShadowStep(s: State, a: Step): Option<P.Step>
    requires Enabled(s, a)
  {
    match a
    case Code(m) => Some(m)
    case Pipe(c) => if C.EventOf(s.pipe, c) == C.Nothing then None else Some(P.Run(c.t))
  }

  // ---------- the invariant ----------

  predicate Fits(stack: seq<P.Frame>, p: C.Point) {
    p.Idle? ||
    (stack != [] &&
     match p
     case Reader => stack[|stack| - 1].Read?
     case Queued => stack[|stack| - 1].Read?
     case _ => stack[|stack| - 1].Write?)
  }

  predicate Coupled(s: State) {
    && |s.code.stacks| == |s.pipe.points|
    && s.code.capacity == C.CAPACITY && s.code.shared.bytes == s.pipe.bytes
    && C.Inv(s.pipe)
    && forall t :: 0 <= t < |s.code.stacks| ==> Fits(s.code.stacks[t], s.pipe.points[t])
  }

  /** Only thread t changes. */
  predicate OnlyThread(s: State, s': State, t: nat) {
    && |s.code.stacks| == |s.pipe.points| == |s'.code.stacks| == |s'.pipe.points|
    && forall u :: 0 <= u < |s.code.stacks| && u != t ==>
         s'.code.stacks[u] == s.code.stacks[u] && s'.pipe.points[u] == s.pipe.points[u]
  }

  lemma ShadowOfOne(s: State, s': State, t: nat)
    requires OnlyThread(s, s', t) && t < |s.code.stacks|
    ensures Shadow(s').stacks == Shadow(s).stacks[t := Seen(s'.code.stacks[t], s'.pipe.points[t])]
  {
  }

  lemma {:induction false} FewerLive(stacks: seq<seq<P.Frame>>, seen: seq<seq<P.Frame>>)
    requires |stacks| == |seen|
    requires forall t :: 0 <= t < |stacks| ==>
      seen[t] == stacks[t] || (stacks[t] != [] && seen[t] == stacks[t][..|stacks[t]| - 1])
    ensures Sum(seen, P.Each()) <= Sum(stacks, P.Each())
  {
    if stacks != [] {
      FewerLive(stacks[..|stacks| - 1], seen[..|seen| - 1]);
    }
  }

  lemma LiveInShadow(s: State)
    requires |s.code.stacks| == |s.pipe.points|
    ensures P.Live(Shadow(s)) <= P.Live(s.code)
  {
    FewerLive(s.code.stacks, Shadow(s).stacks);
  }

  lemma CodeSimulates(s: State, m: P.Step)
    requires Coupled(s) && Enabled(s, Code(m))
    ensures Coupled(Apply(s, Code(m)))
    ensures P.Enabled(Shadow(s), m) && Shadow(Apply(s, Code(m))) == P.Apply(Shadow(s), m)
  {
    var s' := Apply(s, Code(m));
    var t := m.t;
    assert Fits(s.code.stacks[t], s.pipe.points[t]);
    assert s.pipe.points[t].Idle?;
    LiveInShadow(s);
    ShadowOfOne(s, s', t);
    assert Shadow(s).stacks[t] == s.code.stacks[t];
  }

  /** Entering the calls, waiting and notifying cannot be seen. */
  lemma UnseenStep(s: State, c: C.Action)
    requires Coupled(s) && Enabled(s, Pipe(c)) && ShadowStep(s, Pipe(c)) == None
    ensures Coupled(Apply(s, Pipe(c))) && Shadow(Apply(s, Pipe(c))) == Shadow(s)
  {
    var s' := Apply(s, Pipe(c));
    C.InvKept(s.pipe, c);
    forall u | 0 <= u < |s.code.stacks|
      ensures Fits(s'.code.stacks[u], s'.pipe.points[u])
      ensures Seen(s'.code.stacks[u], s'.pipe.points[u]) == Seen(s.code.stacks[u], s.pipe.points[u])
    {
      assert Fits(s.code.stacks[u], s.pipe.points[u]);
    }
    assert Shadow(s').stacks == Shadow(s).stacks;
  }

  lemma CallStaysCoupled(s: State, c: C.Action)
    requires Coupled(s) && Enabled(s, Pipe(c)) && ShadowStep(s, Pipe(c)).Some?
    ensures Coupled(Apply(s, Pipe(c)))
  {
    var s' := Apply(s, Pipe(c));
    assert Fits(s.code.stacks[c.t], s.pipe.points[c.t]);
    C.InvKept(s.pipe, c);
    assert Fits(s'.code.stacks[c.t], s'.pipe.points[c.t]);
  }

  /** Taking a byte, adding one and finding the pipe full are the atomic `read` and `write`. */
  lemma CallSimulates(s: State, c: C.Action)
    requires Coupled(s) && Enabled(s, Pipe(c)) && ShadowStep(s, Pipe(c)).Some?
    ensures Coupled(Apply(s, Pipe(c)))
    ensures P.Enabled(Shadow(s), P.Run(c.t)) && Shadow(Apply(s, Pipe(c))) == P.Apply(Shadow(s), P.Run(c.t))
  {
    var s' := Apply(s, Pipe(c));
    CallStaysCoupled(s, c);
    assert Fits(s.code.stacks[c.t], s.pipe.points[c.t]);
    ShadowOfOne(s, s', c.t);
    assert Shadow(s').stacks == P.Apply(Shadow(s), P.Run(c.t)).stacks;
  }

  /** Every step here is a step of PipeLock over a pipe of two bytes, or cannot be seen. */
  lemma StepSimulates(s: State, a: Step)
    requires Coupled(s) && Enabled(s, a)
    ensures Coupled(Apply(s, a))
    ensures
      match ShadowStep(s, a)
      case None => Shadow(Apply(s, a)) == Shadow(s)
      case Some(m) => P.Enabled(Shadow(s), m) && Shadow(Apply(s, a)) == P.Apply(Shadow(s), m)
  {
    match a
    case Code(m) => CodeSimulates(s, m);
    case Pipe(c) =>
      if ShadowStep(s, a) == None {
        UnseenStep(s, c);
      } else {
        CallSimulates(s, c);
      }
  }

  // ---------- whole runs ----------

  /** Every run over the stand-in is a run over a pipe, so that what is proved of those holds. */
  lemma {:induction false} RunsSimulate(threads: nat, calls: nat, spurious: nat, wakeups: nat, run: seq<Step>)
    returns (shadow: seq<P.Step>)
    requires Exec(Init(threads, calls, spurious, wakeups), run).Some?
    ensures Coupled(Exec(Init(threads, calls, spurious, wakeups), run).value)
    ensures P.Exec(P.Init(threads, C.CAPACITY, calls, spurious), shadow)
         == Some(Shadow(Exec(Init(threads, calls, spurious, wakeups), run).value))
  {
    var init := P.Init(threads, C.CAPACITY, calls, spurious);
    if run == [] {
      shadow := [];
      assert Shadow(Init(threads, calls, spurious, wakeups)).stacks == init.stacks;
    } else {
      var before, a := run[..|run| - 1], run[|run| - 1];
      shadow := RunsSimulate(threads, calls, spurious, wakeups, before);
      var s := Exec(Init(threads, calls, spurious, wakeups), before).value;
      StepSimulates(s, a);
      if ShadowStep(s, a).Some? {
        P.OneMoreStep(init, shadow, ShadowStep(s, a).value);
        shadow := shadow + [ShadowStep(s, a).value];
      }
    }
  }

  /** A thread with an unfinished call can go on, unless it is queued. */
  lemma ThreadMoves(s: State, t: nat) returns (a: Step)
    requires Coupled(s) && P.Busy(s.code, t) && !s.pipe.points[t].Queued?
    ensures (a.Code? && a.step.Run?) || (a.Pipe? && !a.action.Spurious?)
    ensures Enabled(s, a)
  {
    assert Fits(s.code.stacks[t], s.pipe.points[t]);
    var f := Top(s.code.stacks, t);
    if !s.pipe.points[t].Idle? {
      a := Pipe(C.Go(t));
    } else if f.Read? {
      a := Pipe(C.Read(t));
    } else if f.Write? {
      a := Pipe(C.Write(t));
    } else {
      a := Code(P.Run(t));
    }
  }

  /** While any call is unfinished, some thread can go on by itself. */
  lemma SomeoneMoves(s: State, lock: A.Lock, t: nat) returns (a: Step)
    requires Coupled(s) && S.Inv(Shadow(s), lock) && P.Busy(s.code, t)
    ensures (a.Code? && a.step.Run?) || (a.Pipe? && !a.action.Spurious?)
    ensures Enabled(s, a)
  {
    var u := t;
    if s.pipe.points[t].Queued? {
      assert P.Busy(Shadow(s), t);
      u := S.UnblockedThread(Shadow(s), lock);
      assert Fits(s.code.stacks[u], s.pipe.points[u]);
      if s.pipe.points[u].Queued? {
        u :| 0 <= u < |s.pipe.points| && s.pipe.points[u].MustNotify?;
        assert Fits(s.code.stacks[u], s.pipe.points[u]);
      }
    }
    a := ThreadMoves(s, u);
  }

  /** Deadlock freedom over the stand-in: in every reachable state with an unfinished call some thread can
      go on. */
  lemma NoDeadlock(threads: nat, calls: nat, spurious: nat, wakeups: nat, run: seq<Step>, t: nat) returns (a: Step)
    requires Exec(Init(threads, calls, spurious, wakeups), run).Some?
    requires P.Busy(Exec(Init(threads, calls, spurious, wakeups), run).value.code, t)
    ensures (a.Code? && a.step.Run?) || (a.Pipe? && !a.action.Spurious?)
    ensures Enabled(Exec(Init(threads, calls, spurious, wakeups), run).value, a)
  {
    var shadow := RunsSimulate(threads, calls, spurious, wakeups, run);
    S.RunsRefine(threads, C.CAPACITY, calls, spurious, shadow);
    var init := P.Init(threads, C.CAPACITY, calls, spurious);
    var lock := A.AfterAll(A.UNLOCKED, P.Trace(init, shadow));
    a := SomeoneMoves(Exec(Init(threads, calls, spurious, wakeups), run).value, lock, t);
  }

  // ---------- termination ----------

  function IdleRank(stack: seq<P.Frame>): nat {
    if stack != [] && CallsPipe(stack[|stack| - 1]) then 2 else 0
  }

  /** How many unseen steps the thread can take, or cause in the others, before its next seen one. */
  function Rank(stack: seq<P.Frame>, p: C.Point, threads: nat): (r: nat)
    ensures r <= threads + 3
  {
    match p
    case Idle => IdleRank(stack)
    case Reader => 1
    case MustNotify => if stack == [] then 0 else threads + 1 + IdleRank(stack[..|stack| - 1])
    case _ => 0
  }

  function Ranks(s: State): seq<nat>
    requires |s.code.stacks| == |s.pipe.points|
  {
    seq(|s.code.stacks|, t requires 0 <= t < |s.code.stacks| =>
      Rank(s.code.stacks[t], s.pipe.points[t], |s.pipe.points|))
  }

  function Times(k: nat, x: nat): nat {
    k * x
  }

  function Measure(s: State): nat
    requires |s.code.stacks| == |s.pipe.points|
  {
    Times(|s.pipe.points| + 4, T.Measure(Shadow(s))) + Total(Ranks(s)) + 2 * s.wakeups
  }

  lemma RanksOfOne(s: State, s': State, t: nat)
    requires OnlyThread(s, s', t) && t < |s.code.stacks|
    ensures Total(Ranks(s')) + Ranks(s)[t] == Total(Ranks(s)) + Ranks(s')[t]
  {
    assert Ranks(s') == Ranks(s)[t := Ranks(s')[t]];
    TotalUpdate(Ranks(s), t, Ranks(s')[t]);
  }

  lemma {:induction false} TotalRises(r: seq<nat>, r': seq<nat>)
    requires |r| == |r'| && forall t :: 0 <= t < |r| ==> r'[t] <= r[t] + 1
    ensures Total(r') <= Total(r) + |r|
  {
    if r != [] {
      TotalRises(r[..|r| - 1], r'[..|r| - 1]);
    }
  }

  /** A notification wakes at most everybody, and is paid for in advance. */
  lemma NotifyDescends(s: State, t: nat)
    requires Coupled(s) && Enabled(s, Pipe(C.Go(t))) && s.pipe.points[t].MustNotify?
    requires Coupled(Apply(s, Pipe(C.Go(t))))
    ensures Total(Ranks(Apply(s, Pipe(C.Go(t))))) < Total(Ranks(s))
  {
    var s' := Apply(s, Pipe(C.Go(t)));
    assert Fits(s.code.stacks[t], s.pipe.points[t]);
    var done := IdleRank(s.code.stacks[t][..|s.code.stacks[t]| - 1]);
    TotalUpdate(Ranks(s), t, done);
    forall u | 0 <= u < |s.code.stacks| ensures Ranks(s')[u] <= Ranks(s)[t := done][u] + 1 {
      assert u != t ==> s'.code.stacks[u] == s.code.stacks[u];
    }
    TotalRises(Ranks(s)[t := done], Ranks(s'));
  }

  lemma UnseenStepDescends(s: State, c: C.Action)
    requires Coupled(s) && Enabled(s, Pipe(c)) && ShadowStep(s, Pipe(c)) == None && Coupled(Apply(s, Pipe(c)))
    ensures
      var s' := Apply(s, Pipe(c));
      Total(Ranks(s')) + 2 * s'.wakeups < Total(Ranks(s)) + 2 * s.wakeups
  {
    var s' := Apply(s, Pipe(c));
    assert Fits(s.code.stacks[c.t], s.pipe.points[c.t]);
    if c.Go? && s.pipe.points[c.t].MustNotify? {
      NotifyDescends(s, c.t);
    } else {
      RanksOfOne(s, s', c.t);
    }
  }

  lemma SeenStepAddsLittle(s: State, a: Step)
    requires Coupled(s) && Enabled(s, a) && ShadowStep(s, a).Some? && Coupled(Apply(s, a))
    ensures Total(Ranks(Apply(s, a))) <= Total(Ranks(s)) + |s.pipe.points| + 3
    ensures Apply(s, a).wakeups == s.wakeups && |Apply(s, a).pipe.points| == |s.pipe.points|
  {
    RanksOfOne(s, Apply(s, a), ShadowStep(s, a).value.t);
  }

  lemma ProductDrops(k: nat, x: nat, y: nat)
    requires x < y
    ensures Times(k, x) + k <= Times(k, y)
  {
    Distribute(k, x, 1);
    Distribute(k, x + 1, y - x - 1);
  }

  lemma SeenStepDescends(s: State, a: Step)
    requires Coupled(s) && Enabled(s, a) && ShadowStep(s, a).Some? && Coupled(Apply(s, a))
    requires T.Measure(Shadow(Apply(s, a))) < T.Measure(Shadow(s))
    ensures Measure(Apply(s, a)) < Measure(s)
  {
    SeenStepAddsLittle(s, a);
    ProductDrops(|s.pipe.points| + 4, T.Measure(Shadow(Apply(s, a))), T.Measure(Shadow(s)));
  }

  lemma MeasureDrops(s: State, lock: A.Lock, a: Step)
    requires Coupled(s) && S.CallsOk(Shadow(s), lock) && Enabled(s, a)
    ensures Coupled(Apply(s, a)) && Measure(Apply(s, a)) < Measure(s)
  {
    StepSimulates(s, a);
    match ShadowStep(s, a)
    case None => UnseenStepDescends(s, a.action);
    case Some(m) =>
      T.MeasureDrops(Shadow(s), lock, m);
      SeenStepDescends(s, a);
  }

  lemma InitialMeasure(threads: nat, calls: nat, spurious: nat, wakeups: nat)
    ensures
      Measure(Init(threads, calls, spurious, wakeups))
      == (threads + 4) * (14 * calls + 3 * spurious) + 2 * wakeups
  {
    var s := Init(threads, calls, spurious, wakeups);
    assert Shadow(s).stacks == s.code.stacks;
    SumIdle(threads, T.Costs());
    TotalOfZeros(Ranks(s));
  }

  /** Over the stand-in too every run is finite, with an explicit bound. */
  lemma {:induction false} RunsAreFinite(threads: nat, calls: nat, spurious: nat, wakeups: nat, run: seq<Step>)
    requires Exec(Init(threads, calls, spurious, wakeups), run).Some?
    ensures Coupled(Exec(Init(threads, calls, spurious, wakeups), run).value)
    ensures
      |run| + Measure(Exec(Init(threads, calls, spurious, wakeups), run).value)
      <= (threads + 4) * (14 * calls + 3 * spurious) + 2 * wakeups
  {
    if run == [] {
      var shadow := RunsSimulate(threads, calls, spurious, wakeups, run);
      InitialMeasure(threads, calls, spurious, wakeups);
    } else {
      var before, a := run[..|run| - 1], run[|run| - 1];
      RunsAreFinite(threads, calls, spurious, wakeups, before);
      var shadow := RunsSimulate(threads, calls, spurious, wakeups, before);
      S.RunsRefine(threads, C.CAPACITY, calls, spurious, shadow);
      MeasureDrops(Exec(Init(threads, calls, spurious, wakeups), before).value,
                   A.AfterAll(A.UNLOCKED, P.Trace(P.Init(threads, C.CAPACITY, calls, spurious), shadow)), a);
    }
  }

  lemma StoppedIsQuiet(s: State, lock: A.Lock)
    requires Coupled(s) && S.Inv(Shadow(s), lock)
    requires forall a: Step :: (a.Code? && a.step.Run?) || (a.Pipe? && !a.action.Spurious?) ==> !Enabled(s, a)
    ensures s.code.shared.holder == P.Zero && Shadow(s) == s.code && |s.code.stacks| == |s.pipe.points|
    ensures forall t :: 0 <= t < |s.code.stacks| ==> s.code.stacks[t] == [] && s.pipe.points[t].Idle?
  {
    forall t: nat | t < |s.code.stacks| ensures s.code.stacks[t] == [] && s.pipe.points[t].Idle? {
      if P.Busy(s.code, t) {
        var a := SomeoneMoves(s, lock, t);
      }
      assert Fits(s.code.stacks[t], s.pipe.points[t]);
    }
    assert Shadow(s).stacks == s.code.stacks;
  }

  /** A run that cannot go on has returned from every call: nobody is in the pipe, the lock is free, and
      the counter is the number of the critical sections of the run over a pipe. */
  lemma StoppedRunsAreComplete(threads: nat, calls: nat, spurious: nat, wakeups: nat, run: seq<Step>)
    returns (shadow: seq<P.Step>)
    requires Exec(Init(threads, calls, spurious, wakeups), run).Some?
    requires
      var s := Exec(Init(threads, calls, spurious, wakeups), run).value;
      forall a: Step :: (a.Code? && a.step.Run?) || (a.Pipe? && !a.action.Spurious?) ==> !Enabled(s, a)
    ensures P.Exec(P.Init(threads, C.CAPACITY, calls, spurious), shadow).Some?
    ensures
      var s := Exec(Init(threads, calls, spurious, wakeups), run).value;
      && s.code.shared.holder == P.Zero && |s.code.stacks| == |s.pipe.points|
      && (forall t :: 0 <= t < |s.code.stacks| ==> s.code.stacks[t] == [] && s.pipe.points[t].Idle?)
      && s.code.shared.counter == A.Releases(P.Trace(P.Init(threads, C.CAPACITY, calls, spurious), shadow))
  {
    shadow := RunsSimulate(threads, calls, spurious, wakeups, run);
    S.RunsRefine(threads, C.CAPACITY, calls, spurious, shadow);
    StoppedIsQuiet(Exec(Init(threads, calls, spurious, wakeups), run).value,
                   A.AfterAll(A.UNLOCKED, P.Trace(P.Init(threads, C.CAPACITY, calls, spurious), shadow)));
    S.NoLostUpdate(threads, C.CAPACITY, calls, spurious, shadow);
  }

  // ---------- what can happen ----------

  lemma LiveStep(s: State, a: Step)
    requires Enabled(s, a)
    ensures P.Live(Apply(s, a).code) + Apply(s, a).code.calls <= P.Live(s.code) + s.code.calls
  {
    match a
    case Code(m) => S.LiveStep(s.code, m);
    case Pipe(c) =>
      if P.Busy(s.code, c.t) {
        SumSetTop(s.code.stacks, c.t, P.Cas, P.Each());
        SumPop(s.code.stacks, c.t, P.Each());
      }
  }

  lemma {:induction false} LiveIsBounded(threads: nat, calls: nat, spurious: nat, wakeups: nat, run: seq<Step>)
    requires Exec(Init(threads, calls, spurious, wakeups), run).Some?
    ensures
      var s := Exec(Init(threads, calls, spurious, wakeups), run).value;
      P.Live(s.code) + s.code.calls <= calls
  {
    if run == [] {
      SumIdle(threads, P.Each());
    } else {
      LiveIsBounded(threads, calls, spurious, wakeups, run[..|run| - 1]);
      LiveStep(Exec(Init(threads, calls, spurious, wakeups), run[..|run| - 1]).value, run[|run| - 1]);
    }
  }

  lemma OneMoreStep(init: State, run: seq<Step>, s: State, a: Step)
    requires Exec(init, run) == Some(s) && Enabled(s, a)
    ensures Exec(init, run + [a]) == Some(Apply(s, a))
  {
    assert (run + [a])[..|run|] == run;
  }

  lemma FirstCall(code: P.State, t: nat)
    requires P.Enabled(code, P.Call(t))
    ensures P.Apply(code, P.Call(t)) == code.(stacks := code.stacks[t := [P.Start]], calls := code.calls - 1)
  {
    PushFirst(code.stacks, t, P.Start);
  }

  /** A thread that is in no call may start one, */
  lemma CallStarts(threads: nat, calls: nat, spurious: nat, wakeups: nat, run: seq<Step>, s: State, t: nat)
    requires calls <= 0xffff_ffff && Exec(Init(threads, calls, spurious, wakeups), run) == Some(s)
    requires t < |s.code.stacks| && s.code.stacks[t] == [] && s.code.calls > 0
    ensures
      Exec(Init(threads, calls, spurious, wakeups), run + [Code(P.Call(t))])
      == Some(s.(code := s.code.(stacks := s.code.stacks[t := [P.Start]], calls := s.code.calls - 1)))
  {
    LiveIsBounded(threads, calls, spurious, wakeups, run);
    FirstCall(s.code, t);
    OneMoreStep(Init(threads, calls, spurious, wakeups), run, s, Code(P.Call(t)));
  }

  /** a signal may interrupt a call anywhere outside the stand-in's own calls, */
  lemma SignalLands(threads: nat, calls: nat, spurious: nat, wakeups: nat, run: seq<Step>, s: State, t: nat)
    requires calls <= 0xffff_ffff && Exec(Init(threads, calls, spurious, wakeups), run) == Some(s)
    requires t < |s.code.stacks| && s.code.stacks[t] != [] && s.code.calls > 0
    requires t < |s.pipe.points| && s.pipe.points[t] == C.Idle
    ensures
      Exec(Init(threads, calls, spurious, wakeups), run + [Code(P.Signal(t))])
      == Some(s.(code :=
           s.code.(stacks := s.code.stacks[t := s.code.stacks[t] + [P.Start]], calls := s.code.calls - 1)))
  {
    LiveIsBounded(threads, calls, spurious, wakeups, run);
    OneMoreStep(Init(threads, calls, spurious, wakeups), run, s, Code(P.Signal(t)));
  }

  /** a weak compare-and-exchange may fail on the value that it expects, */
  lemma WeakExchangeMayFail(init: State, run: seq<Step>, s: State, t: nat, below: seq<P.Frame>, f: P.Frame)
    requires Exec(init, run) == Some(s) && t < |s.code.stacks| && s.code.stacks[t] == below + [f]
    requires (f == P.Start || f == P.Cas) && s.code.shared.holder == P.Zero && s.code.spurious > 0
    ensures
      Exec(init, run + [Code(P.Misfire(t))])
      == Some(s.(code :=
           s.code.(stacks := s.code.stacks[t := below + [if f == P.Start then P.Pre(P.Zero) else P.Eval(P.Zero)]],
                   spurious := s.code.spurious - 1)))
  {
    S.TopOf(s.code, t, below, f);
    OneMoreStep(init, run, s, Code(P.Misfire(t)));
  }

  /** and whoever waits for a byte may wake for no reason. */
  lemma SleeperMayWake(init: State, run: seq<Step>, s: State, t: nat)
    requires Exec(init, run) == Some(s) && s.wakeups > 0 && s.code.shared.bytes == s.pipe.bytes
    requires t < |s.pipe.points| && s.pipe.points[t].Queued?
    ensures
      Exec(init, run + [Pipe(C.Spurious(t))])
      == Some(s.(pipe := s.pipe.(points := s.pipe.points[t := C.Reader]), wakeups := s.wakeups - 1))
  {
    OneMoreStep(init, run, s, Pipe(C.Spurious(t)));
  }
}
