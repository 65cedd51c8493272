/** FutexLock over the futex of the loom tests: the lock's code calls `wait` and `wake_one`, and these are
    the several actions of module CondvarFutex on the same word. The stand-in is not safe in signal
    handlers, and the tests deliver signals only outside it. */
module FutexOverCondvar {
  import opened Wrappers
  import opened Stacks
  import A = AbstractLock
  import C = CondvarFutex
  import M = FutexMachine
  import S = FutexSafety
  import T = FutexTermination

  /** In `code` a call that is anywhere inside `wait` is at Wait, and inside `wake_one` at Wake; where
      inside, its thread's point in `futex` says. */
  datatype State = State(code: M.State, futex: C.State<M.Word>)

  datatype Step = Code(step: M.Step) | Futex(action: C.Action<M.Word>)

  function Init(threads: nat, calls: nat, spurious: nat): State {
    State(M.Init(threads, calls, spurious), C.Init(threads, M.Free))
  }

  predicate InFutex(s: State, t: nat) {
    t < |s.futex.points| && !s.futex.points[t].Idle?
  }

  predicate CallsFutex(f: M.Frame) {
    f.Wait? || f.Wake?
  }

  predicate Enabled(s: State, a: Step) {
    match a
    case Code(m) =>
      && M.Enabled(s.code, m)
      && (match m
          case Call(_) => true
          case Signal(t, _) => !InFutex(s, t)
          case Run(t) => !CallsFutex(Top(s.code.stacks, t))
          case Misfire(t) => !CallsFutex(Top(s.code.stacks, t))
          case WakeOne(_, _) => false)
    case Futex(c) =>
      && C.Enabled(s.futex, c)
      && (match c
          case StartWait(t, val) => M.Busy(s.code, t) && Top(s.code.stacks, t) == M.Wait(val)
          case StartWake(t) => M.Busy(s.code, t) && Top(s.code.stacks, t) == M.Wake
          case ChangeWord(_) => false                      // only by the code
          case Spurious(_) => s.code.spurious > 0
          case _ => true)
  }

  /** The futex call returns: from `wait` to the load of the word, from `wake_one` out of the unlock. */
  function Leave(code: M.State, t: nat): M.State {
    if !M.Busy(code, t) then code
    else
      code.(stacks := if Top(code.stacks, t).Wait? then SetTop(code.stacks, t, M.Reload) else Pop(code.stacks, t))
  }

  function Apply(s: State, a: Step): State
    requires Enabled(s, a)
  {
    match a
    case Code(m) =>
      var code := M.Apply(s.code, m);
      State(code, s.futex.(word := code.word))
    case Futex(c) =>
      var code :=
        match c
        case Go(t) => if s.futex.points[t].Dropping? then Leave(s.code, t) else s.code
        case Spurious(_) => s.code.(spurious := s.code.spurious - 1)
        case _ => s.code;
      State(code, C.Step(s.futex, c))
  }

  function Exec(s: State, run: seq<Step>): Option<State> {
    if run == [] then Some(s)
    else
      var before := Exec(s, run[..|run| - 1]);
      if before.Some? && Enabled(before.value, run[|run| - 1])
      then Some(Apply(before.value, run[|run| - 1])) else None
  }

  // ---------- the machine over an atomic futex that this simulates ----------

  function WithTop(stack: seq<M.Frame>, f: M.Frame): seq<M.Frame> {
    if stack == [] then [] else stack[|stack| - 1 := f]
  }

  /** A waiter sleeps from its check on until it is notified; a waker is done once it has notified. */
  function Seen(stack: seq<M.Frame>, p: C.Point<M.Word>): seq<M.Frame> {
    match p
    case Enqueueing(val) => WithTop(stack, M.Asleep(val))
    case Queued(val) => WithTop(stack, M.Asleep(val))
    case Awake => WithTop(stack, M.Reload)
    case Dropping =>
      if stack == [] then []
      else if stack[|stack| - 1].Wait? then WithTop(stack, M.Reload) else stack[..|stack| - 1]
    case _ => stack
  }

  function Shadow(s: State): M.State
    requires |s.code.stacks| == |s.futex.points|
  {
    s.code.(stacks := seq(|s.code.stacks|,
      t requires 0 <= t < |s.code.stacks| => Seen(s.code.stacks[t], s.futex.points[t])))
  }

  /** The step of that machine, if the step here is visible to it. */
  function ShadowStep(s: State, a: Step): Option<M.Step>
    requires Enabled(s, a)
  {
    match a
    case Code(m) => Some(m)
    case Futex(Go(t)) =>
      if s.futex.points[t].Checking? || s.futex.points[t].Notifying? then Some(M.Run(t)) else None
    case Futex(Notify(t, p)) => Some(M.WakeOne(t, p))
    case Futex(Spurious(t)) => Some(M.Misfire(t))
    case _ => None
  }

  // ---------- the invariant ----------

  predicate Fits(stack: seq<M.Frame>, p: C.Point<M.Word>) {
    && (forall d :: 0 <= d < |stack| ==> !stack[d].Asleep?)
    && (p.Idle? ||
        (stack != [] &&
         var f := stack[|stack| - 1];
         match p
         case WantWait(val) => f == M.Wait(val)
         case Checking(val) => f == M.Wait(val)
         case Enqueueing(val) => f == M.Wait(val)
         case Queued(val) => f == M.Wait(val)
         case Awake => f.Wait?
         case WantWake => f.Wake?
         case Notifying => f.Wake?
         case _ => CallsFutex(f)))
  }

  predicate Coupled(s: State) {
    && |s.code.stacks| == |s.futex.points|
    && s.futex.word == s.code.word
    && C.Inv(s.futex)
    && forall t :: 0 <= t < |s.code.stacks| ==> Fits(s.code.stacks[t], s.futex.points[t])
  }

  /** Only thread t changes. */
  predicate OnlyThread(s: State, s': State, t: nat) {
    && |s.code.stacks| == |s.futex.points| == |s'.code.stacks| == |s'.futex.points|
    && forall u :: 0 <= u < |s.code.stacks| && u != t ==>
         s'.code.stacks[u] == s.code.stacks[u] && s'.futex.points[u] == s.futex.points[u]
  }

  lemma ShadowOfOne(s: State, s': State, t: nat)
    requires OnlyThread(s, s', t) && t < |s.code.stacks|
    ensures Shadow(s').stacks == Shadow(s).stacks[t := Seen(s'.code.stacks[t], s'.futex.points[t])]
  {
  }

  lemma CodeSimulates(s: State, m: M.Step)
    requires Coupled(s) && Enabled(s, Code(m))
    ensures Coupled(Apply(s, Code(m)))
    ensures M.Enabled(Shadow(s), m) && Shadow(Apply(s, Code(m))) == M.Apply(Shadow(s), m)
  {
    var s' := Apply(s, Code(m));
    var t := m.t;
    assert Fits(s.code.stacks[t], s.futex.points[t]);
    assert s.futex.points[t].Idle?;
    ShadowOfOne(s, s', t);
    assert Shadow(s).stacks[t] == s.code.stacks[t];
    assert Fits(s'.code.stacks[t], s'.futex.points[t]);
  }

  /** Entering and leaving the calls, and the mutex, cannot be seen. */
  lemma UnseenStep(s: State, c: C.Action<M.Word>)
    requires Coupled(s) && Enabled(s, Futex(c)) && ShadowStep(s, Futex(c)) == None
    ensures Coupled(Apply(s, Futex(c))) && Shadow(Apply(s, Futex(c))) == Shadow(s)
  {
    var s' := Apply(s, Futex(c));
    var t := c.t;
    assert Fits(s.code.stacks[t], s.futex.points[t]);
    C.StepRefines(s.futex, c);
    ShadowOfOne(s, s', t);
    assert Fits(s'.code.stacks[t], s'.futex.points[t]);
    assert Seen(s'.code.stacks[t], s'.futex.points[t]) == Seen(s.code.stacks[t], s.futex.points[t]);
    assert Shadow(s').stacks == Shadow(s).stacks;
  }

  /** The check of the word is the atomic compare-and-enqueue. */
  lemma CheckSimulates(s: State, t: nat)
    requires Coupled(s) && Enabled(s, Futex(C.Go(t))) && s.futex.points[t].Checking?
    ensures Coupled(Apply(s, Futex(C.Go(t))))
    ensures M.Enabled(Shadow(s), M.Run(t)) && Shadow(Apply(s, Futex(C.Go(t)))) == M.Apply(Shadow(s), M.Run(t))
  {
    var s' := Apply(s, Futex(C.Go(t)));
    assert Fits(s.code.stacks[t], s.futex.points[t]);
    C.StepRefines(s.futex, C.Go(t));
    ShadowOfOne(s, s', t);
    assert Fits(s'.code.stacks[t], s'.futex.points[t]);
    assert Shadow(s').stacks == M.Apply(Shadow(s), M.Run(t)).stacks;
  }

  /** Notifying nobody: the mutex is held, so nobody is between the check and the queue either. */
  lemma NobodySleeps(s: State, t: nat)
    requires Coupled(s) && t < |s.futex.points| && s.futex.points[t].Notifying? && !C.AnyQueued(s.futex)
    ensures !M.AnySleeper(Shadow(s))
  {
    forall p | 0 <= p < |s.code.stacks| ensures !M.Sleeping(Shadow(s), p) {
      assert Fits(s.code.stacks[p], s.futex.points[p]);
      assert p != t ==> !C.HasMutex(s.futex.points[p]);
    }
  }

  lemma WakeNobodySimulates(s: State, t: nat)
    requires Coupled(s) && Enabled(s, Futex(C.Go(t))) && s.futex.points[t].Notifying?
    ensures Coupled(Apply(s, Futex(C.Go(t))))
    ensures M.Enabled(Shadow(s), M.Run(t)) && Shadow(Apply(s, Futex(C.Go(t)))) == M.Apply(Shadow(s), M.Run(t))
  {
    var s' := Apply(s, Futex(C.Go(t)));
    assert Fits(s.code.stacks[t], s.futex.points[t]);
    C.StepRefines(s.futex, C.Go(t));
    NobodySleeps(s, t);
    ShadowOfOne(s, s', t);
    assert Fits(s'.code.stacks[t], s'.futex.points[t]);
    assert Shadow(s').stacks == M.Apply(Shadow(s), M.Run(t)).stacks;
  }

  lemma WithTopTwice(stack: seq<M.Frame>, f: M.Frame, g: M.Frame)
    ensures WithTop(WithTop(stack, f), g) == WithTop(stack, g)
  {
  }

  lemma SpuriousSimulates(s: State, t: nat)
    requires Coupled(s) && Enabled(s, Futex(C.Spurious(t)))
    ensures Coupled(Apply(s, Futex(C.Spurious(t))))
    ensures M.Enabled(Shadow(s), M.Misfire(t))
    ensures Shadow(Apply(s, Futex(C.Spurious(t)))) == M.Apply(Shadow(s), M.Misfire(t))
  {
    var s' := Apply(s, Futex(C.Spurious(t)));
    assert Fits(s.code.stacks[t], s.futex.points[t]);
    C.StepRefines(s.futex, C.Spurious(t));
    ShadowOfOne(s, s', t);
    assert Fits(s'.code.stacks[t], s'.futex.points[t]);
    WithTopTwice(s.code.stacks[t], M.Asleep(s.futex.points[t].val), M.Reload);
    assert Shadow(s').stacks == M.Apply(Shadow(s), M.Misfire(t)).stacks;
  }

  lemma NotifyStaysCoupled(s: State, t: nat, p: nat)
    requires Coupled(s) && Enabled(s, Futex(C.Notify(t, p)))
    ensures Coupled(Apply(s, Futex(C.Notify(t, p))))
  {
    C.StepRefines(s.futex, C.Notify(t, p));
    assert Fits(s.code.stacks[t], s.futex.points[t]) && Fits(s.code.stacks[p], s.futex.points[p]);
  }

  lemma NotifyShadow(s: State, t: nat, p: nat)
    requires Coupled(s) && Enabled(s, Futex(C.Notify(t, p)))
    ensures t != p && |s.code.stacks| == |s.futex.points| && t < |s.code.stacks| && p < |s.code.stacks|
    ensures |Apply(s, Futex(C.Notify(t, p))).code.stacks| == |Apply(s, Futex(C.Notify(t, p))).futex.points|
    ensures s.code.stacks[t] != []
    ensures
      Shadow(Apply(s, Futex(C.Notify(t, p)))).stacks
      == Shadow(s).stacks[p := WithTop(s.code.stacks[p], M.Reload)][t := s.code.stacks[t][..|s.code.stacks[t]| - 1]]
  {
    assert Fits(s.code.stacks[t], s.futex.points[t]) && Fits(s.code.stacks[p], s.futex.points[p]);
    var middle := State(s.code, s.futex.(points := s.futex.points[p := C.Awake]));
    ShadowOfOne(s, middle, p);
    ShadowOfOne(middle, Apply(s, Futex(C.Notify(t, p))), t);
  }

  lemma NotifySimulates(s: State, t: nat, p: nat)
    requires Coupled(s) && Enabled(s, Futex(C.Notify(t, p)))
    ensures |Apply(s, Futex(C.Notify(t, p))).code.stacks| == |Apply(s, Futex(C.Notify(t, p))).futex.points|
    ensures M.Enabled(Shadow(s), M.WakeOne(t, p))
    ensures Shadow(Apply(s, Futex(C.Notify(t, p)))) == M.Apply(Shadow(s), M.WakeOne(t, p))
  {
    NotifyShadow(s, t, p);
    assert Fits(s.code.stacks[t], s.futex.points[t]) && Fits(s.code.stacks[p], s.futex.points[p]);
    WithTopTwice(s.code.stacks[p], M.Asleep(s.futex.points[p].val), M.Reload);
    assert Shadow(Apply(s, Futex(C.Notify(t, p)))).stacks == M.Apply(Shadow(s), M.WakeOne(t, p)).stacks;
  }

  lemma StepSeen(s: State, c: C.Action<M.Word>)
    requires Coupled(s) && Enabled(s, Futex(c)) && ShadowStep(s, Futex(c)).Some?
    ensures Coupled(Apply(s, Futex(c)))
    ensures
      var m := ShadowStep(s, Futex(c)).value;
      M.Enabled(Shadow(s), m) && Shadow(Apply(s, Futex(c))) == M.Apply(Shadow(s), m)
  {
    if c.Notify? {
      NotifyStaysCoupled(s, c.t, c.p);
      NotifySimulates(s, c.t, c.p);
    } else if c.Spurious? {
      SpuriousSimulates(s, c.t);
    } else if s.futex.points[c.t].Checking? {
      CheckSimulates(s, c.t);
    } else {
      WakeNobodySimulates(s, c.t);
    }
  }

  /** Every step here is a step of FutexLock over the atomic futex, or cannot be seen. */
  lemma StepSimulates(s: State, a: Step)
    requires Coupled(s) && Enabled(s, a)
    ensures Coupled(Apply(s, a))
    ensures
      match ShadowStep(s, a)
      case None => Shadow(Apply(s, a)) == Shadow(s)
      case Some(m) => M.Enabled(Shadow(s), m) && Shadow(Apply(s, a)) == M.Apply(Shadow(s), m)
  {
    match a
    case Code(m) => CodeSimulates(s, m);
    case Futex(c) =>
      if ShadowStep(s, a) == None {
        UnseenStep(s, c);
      } else {
        StepSeen(s, c);
      }
  }

  // ---------- whole runs ----------

  /** Every run over the stand-in is a run over the atomic futex, so that what is proved of those holds. */
  lemma {:induction false} RunsSimulate(threads: nat, calls: nat, spurious: nat, run: seq<Step>)
    returns (shadow: seq<M.Step>)
    requires Exec(Init(threads, calls, spurious), run).Some?
    ensures Coupled(Exec(Init(threads, calls, spurious), run).value)
    ensures M.Exec(M.Init(threads, calls, spurious), shadow)
         == Some(Shadow(Exec(Init(threads, calls, spurious), run).value))
  {
    var init := M.Init(threads, calls, spurious);
    if run == [] {
      shadow := [];
      assert Shadow(Init(threads, calls, spurious)).stacks == init.stacks;
    } else {
      var before, a := run[..|run| - 1], run[|run| - 1];
      shadow := RunsSimulate(threads, calls, spurious, before);
      var s := Exec(Init(threads, calls, spurious), before).value;
      StepSimulates(s, a);
      if ShadowStep(s, a).Some? {
        M.OneMoreStep(init, shadow, ShadowStep(s, a).value);
        shadow := shadow + [ShadowStep(s, a).value];
      }
    }
  }

  /** A thread with an unfinished call can go on, unless it is queued or the mutex is another's. */
  lemma ThreadMoves(s: State, t: nat) returns (a: Step)
    requires Coupled(s) && M.Busy(s.code, t) && !s.futex.points[t].Queued?
    requires s.futex.mutex == None || s.futex.mutex == Some(t)
    ensures (a.Code? && a.step.Run?) || (a.Futex? && !a.action.ChangeWord? && !a.action.Spurious?)
    ensures Enabled(s, a)
  {
    assert Fits(s.code.stacks[t], s.futex.points[t]);
    var f := Top(s.code.stacks, t);
    if s.futex.points[t].Notifying? && C.AnyQueued(s.futex) {
      var p :| 0 <= p < |s.futex.points| && s.futex.points[p].Queued?;
      a := Futex(C.Notify(t, p));
    } else if !s.futex.points[t].Idle? {
      a := Futex(C.Go(t));
    } else if f.Wait? {
      a := Futex(C.StartWait(t, f.word));
    } else if f.Wake? {
      a := Futex(C.StartWake(t));
    } else {
      a := Code(M.Run(t));
    }
  }

  /** While any call is unfinished, some thread can go on by itself. */
  lemma SomeoneMoves(s: State, lock: A.Lock, t: nat) returns (a: Step)
    requires Coupled(s) && S.Inv(Shadow(s), lock) && M.Busy(s.code, t)
    ensures (a.Code? && a.step.Run?) || (a.Futex? && !a.action.ChangeWord? && !a.action.Spurious?)
    ensures Enabled(s, a)
  {
    var u := t;
    if s.futex.mutex.Some? {
      u := s.futex.mutex.value;
    } else if s.futex.points[t].Queued? {
      assert Fits(s.code.stacks[t], s.futex.points[t]);
      assert M.Sleeping(Shadow(s), t);
      u := S.AwakeThread(Shadow(s), lock);
    }
    assert Fits(s.code.stacks[u], s.futex.points[u]);
    a := ThreadMoves(s, u);
  }

  /** Deadlock freedom over the stand-in: in every reachable state with an unfinished call some thread can
      go on, whatever its neighbours do. */
  lemma NoDeadlock(threads: nat, calls: nat, spurious: nat, run: seq<Step>, t: nat) returns (a: Step)
    requires Exec(Init(threads, calls, spurious), run).Some?
    requires M.Busy(Exec(Init(threads, calls, spurious), run).value.code, t)
    ensures (a.Code? && a.step.Run?) || (a.Futex? && !a.action.ChangeWord? && !a.action.Spurious?)
    ensures Enabled(Exec(Init(threads, calls, spurious), run).value, a)
  {
    var shadow := RunsSimulate(threads, calls, spurious, run);
    S.RunsRefine(threads, calls, spurious, shadow);
    var lock := A.AfterAll(A.UNLOCKED, M.Trace(M.Init(threads, calls, spurious), shadow));
    a := SomeoneMoves(Exec(Init(threads, calls, spurious), run).value, lock, t);
  }

  // ---------- termination ----------

  function IdleRank(stack: seq<M.Frame>): nat {
    if stack != [] && CallsFutex(stack[|stack| - 1]) then 2 else 0
  }

  /** How many unseen steps the thread can take before its next seen one. */
  function Rank(stack: seq<M.Frame>, p: C.Point<M.Word>): (r: nat)
    ensures r <= 3
  {
    match p
    case Idle => IdleRank(stack)
    case Awake => 2
    case WantWait(_) => 1
    case WantWake => 1
    case Enqueueing(_) => 1
    case Dropping =>
      if stack == [] then 0
      else if stack[|stack| - 1].Wait? then 1 else 1 + IdleRank(stack[..|stack| - 1])
    case _ => 0
  }

  function Ranks(s: State): seq<nat>
    requires |s.code.stacks| == |s.futex.points|
  {
    seq(|s.code.stacks|, t requires 0 <= t < |s.code.stacks| => Rank(s.code.stacks[t], s.futex.points[t]))
  }

  function Measure(s: State): nat
    requires |s.code.stacks| == |s.futex.points|
  {
    7 * T.Measure(Shadow(s)) + Total(Ranks(s))
  }

  lemma RanksOfOne(s: State, s': State, t: nat)
    requires OnlyThread(s, s', t) && t < |s.code.stacks|
    ensures
      Total(Ranks(s')) + Rank(s.code.stacks[t], s.futex.points[t])
      == Total(Ranks(s)) + Rank(s'.code.stacks[t], s'.futex.points[t])
  {
    var r := Rank(s'.code.stacks[t], s'.futex.points[t]);
    assert Ranks(s') == Ranks(s)[t := r];
    TotalUpdate(Ranks(s), t, r);
  }

  lemma UnseenStepDescends(s: State, c: C.Action<M.Word>)
    requires Coupled(s) && Enabled(s, Futex(c)) && ShadowStep(s, Futex(c)) == None
    ensures Total(Ranks(Apply(s, Futex(c)))) < Total(Ranks(s))
  {
    var s' := Apply(s, Futex(c));
    assert Fits(s.code.stacks[c.t], s.futex.points[c.t]);
    RanksOfOne(s, s', c.t);
  }

  lemma SeenStepAddsLittle(s: State, a: Step)
    requires Coupled(s) && Enabled(s, a) && ShadowStep(s, a).Some?
    requires Coupled(Apply(s, a))
    ensures Total(Ranks(Apply(s, a))) <= Total(Ranks(s)) + 6
  {
    var s' := Apply(s, a);
    match a
    case Code(m) => RanksOfOne(s, s', m.t);
    case Futex(c) =>
      if c.Notify? {
        var middle := State(s.code, s.futex.(points := s.futex.points[c.p := C.Awake]));
        RanksOfOne(s, middle, c.p);
        RanksOfOne(middle, s', c.t);
      } else {
        RanksOfOne(s, s', c.t);
      }
  }

  lemma MeasureDrops(s: State, lock: A.Lock, a: Step)
    requires Coupled(s) && S.CallsOk(Shadow(s), lock) && Enabled(s, a)
    ensures Coupled(Apply(s, a)) && Measure(Apply(s, a)) < Measure(s)
  {
    StepSimulates(s, a);
    match ShadowStep(s, a)
    case None => UnseenStepDescends(s, a.action);
    case Some(m) =>
      T.MeasureDrops(Shadow(s), lock, m);
      SeenStepAddsLittle(s, a);
  }

  /** Over the stand-in too every run is finite, with an explicit bound. */
  lemma {:induction false} RunsAreFinite(threads: nat, calls: nat, spurious: nat, run: seq<Step>)
    requires Exec(Init(threads, calls, spurious), run).Some?
    ensures Coupled(Exec(Init(threads, calls, spurious), run).value)
    ensures
      |run| + Measure(Exec(Init(threads, calls, spurious), run).value)
      <= 7 * (5 * (5 * calls + spurious) * (5 * calls + spurious))
  {
    if run == [] {
      var shadow := RunsSimulate(threads, calls, spurious, run);
      T.RunsAreFinite(threads, calls, spurious, []);
      assert Shadow(Init(threads, calls, spurious)) == M.Init(threads, calls, spurious) by {
        assert Shadow(Init(threads, calls, spurious)).stacks == M.Init(threads, calls, spurious).stacks;
      }
      TotalOfZeros(Ranks(Init(threads, calls, spurious)));
    } else {
      var before, a := run[..|run| - 1], run[|run| - 1];
      RunsAreFinite(threads, calls, spurious, before);
      var shadow := RunsSimulate(threads, calls, spurious, before);
      S.RunsRefine(threads, calls, spurious, shadow);
      MeasureDrops(Exec(Init(threads, calls, spurious), before).value,
                   A.AfterAll(A.UNLOCKED, M.Trace(M.Init(threads, calls, spurious), shadow)), a);
    }
  }

  lemma StoppedIsQuiet(s: State, lock: A.Lock)
    requires Coupled(s) && S.Inv(Shadow(s), lock)
    requires forall a: Step ::
      (a.Code? && a.step.Run?) || (a.Futex? && !a.action.ChangeWord? && !a.action.Spurious?) ==> !Enabled(s, a)
    ensures s.code.word == M.Free && Shadow(s) == s.code && |s.code.stacks| == |s.futex.points|
    ensures forall t :: 0 <= t < |s.code.stacks| ==> s.code.stacks[t] == [] && s.futex.points[t].Idle?
  {
    forall t: nat | t < |s.code.stacks| ensures s.code.stacks[t] == [] && s.futex.points[t].Idle? {
      if M.Busy(s.code, t) {
        var a := SomeoneMoves(s, lock, t);
      }
      assert Fits(s.code.stacks[t], s.futex.points[t]);
    }
    assert Shadow(s).stacks == s.code.stacks;
  }

  /** A run that cannot go on has returned from every call: nobody is in the futex, the word is 0, and the
      counter is the number of the critical sections of the run over the atomic futex. */
  lemma StoppedRunsAreComplete(threads: nat, calls: nat, spurious: nat, run: seq<Step>) returns (shadow: seq<M.Step>)
    requires Exec(Init(threads, calls, spurious), run).Some?
    requires
      var s := Exec(Init(threads, calls, spurious), run).value;
      forall a: Step ::
        (a.Code? && a.step.Run?) || (a.Futex? && !a.action.ChangeWord? && !a.action.Spurious?) ==> !Enabled(s, a)
    ensures M.Exec(M.Init(threads, calls, spurious), shadow).Some?
    ensures
      var s := Exec(Init(threads, calls, spurious), run).value;
      && s.code.word == M.Free && |s.code.stacks| == |s.futex.points|
      && (forall t :: 0 <= t < |s.code.stacks| ==> s.code.stacks[t] == [] && s.futex.points[t].Idle?)
      && s.code.counter == A.Releases(M.Trace(M.Init(threads, calls, spurious), shadow))
  {
    shadow := RunsSimulate(threads, calls, spurious, run);
    S.RunsRefine(threads, calls, spurious, shadow);
    StoppedIsQuiet(Exec(Init(threads, calls, spurious), run).value,
                   A.AfterAll(A.UNLOCKED, M.Trace(M.Init(threads, calls, spurious), shadow)));
    S.NoLostUpdate(threads, calls, spurious, shadow);
  }

  // ---------- what can happen ----------

  /** A step of the lock's code in the composition. */
  lemma CodeHappens(threads: nat, calls: nat, spurious: nat, run: seq<Step>, s: State, m: M.Step)
    requires Exec(Init(threads, calls, spurious), run) == Some(s) && Enabled(s, Code(m)) && !m.Run?
    ensures Exec(Init(threads, calls, spurious), run + [Code(m)]) == Some(s.(code := M.Apply(s.code, m)))
  {
    var shadow := RunsSimulate(threads, calls, spurious, run);
    assert (run + [Code(m)])[..|run|] == run;
    assert s.futex.(word := s.code.word) == s.futex;
  }

  /** A thread that is in no call may start one, */
  lemma CallStarts(threads: nat, calls: nat, spurious: nat, run: seq<Step>, s: State, t: nat)
    requires Exec(Init(threads, calls, spurious), run) == Some(s)
    requires t < |s.code.stacks| && s.code.stacks[t] == [] && s.code.calls > 0
    ensures
      Exec(Init(threads, calls, spurious), run + [Code(M.Call(t))])
      == Some(s.(code := s.code.(stacks := s.code.stacks[t := [M.Start]], calls := s.code.calls - 1)))
  {
    PushFirst(s.code.stacks, t, M.Start);
    CodeHappens(threads, calls, spurious, run, s, M.Call(t));
  }

  /** a signal may interrupt a call anywhere outside the stand-in's own calls, */
  lemma SignalLands(threads: nat, calls: nat, spurious: nat, run: seq<Step>, s: State, t: nat, restart: bool)
    requires Exec(Init(threads, calls, spurious), run) == Some(s)
    requires t < |s.code.stacks| && s.code.stacks[t] != [] && s.code.calls > 0
    requires t < |s.futex.points| && s.futex.points[t] == C.Idle
    ensures
      Exec(Init(threads, calls, spurious), run + [Code(M.Signal(t, restart))])
      == Some(s.(code :=
           s.code.(stacks := s.code.stacks[t := s.code.stacks[t] + [M.Start]], calls := s.code.calls - 1)))
  {
    var shadow := RunsSimulate(threads, calls, spurious, run);
    assert Fits(s.code.stacks[t], s.futex.points[t]);
    SetTopToItself(s.code.stacks, t);
    CodeHappens(threads, calls, spurious, run, s, M.Signal(t, restart));
  }

  /** a weak compare-and-exchange may fail on the value that it expects, */
  lemma WeakExchangeMayFail(threads: nat, calls: nat, spurious: nat, run: seq<Step>, s: State, t: nat,
                            below: seq<M.Frame>, f: M.Frame)
    requires Exec(Init(threads, calls, spurious), run) == Some(s)
    requires t < |s.code.stacks| && s.code.stacks[t] == below + [f] && s.code.spurious > 0
    requires ((f == M.Start || f == M.TakeFree) && s.code.word == M.Free) || f == M.SetFlag(s.code.word)
    ensures
      Exec(Init(threads, calls, spurious), run + [Code(M.Misfire(t))])
      == Some(s.(code := s.code.(stacks := s.code.stacks[t := below + [M.Check(s.code.word)]],
                                 spurious := s.code.spurious - 1)))
  {
    S.TopOf(s.code, t, below, f);
    CodeHappens(threads, calls, spurious, run, s, M.Misfire(t));
  }

  /** whoever waits in the queue may wake for no reason, */
  lemma SleeperMayWake(threads: nat, calls: nat, spurious: nat, run: seq<Step>, s: State, t: nat)
    requires Exec(Init(threads, calls, spurious), run) == Some(s)
    requires t < |s.futex.points| && s.futex.points[t].Queued? && s.code.spurious > 0
    ensures
      Exec(Init(threads, calls, spurious), run + [Futex(C.Spurious(t))])
      == Some(State(s.code.(spurious := s.code.spurious - 1),
                    s.futex.(points := s.futex.points[t := C.Awake])))
  {
    assert (run + [Futex(C.Spurious(t))])[..|run|] == run;
  }

  /** and any of them may be the one that is notified. */
  lemma AnySleeperMayBeNotified(threads: nat, calls: nat, spurious: nat, run: seq<Step>, s: State, t: nat, p: nat)
    requires Exec(Init(threads, calls, spurious), run) == Some(s)
    requires t < |s.futex.points| && s.futex.points[t] == C.Notifying
    requires p < |s.futex.points| && s.futex.points[p].Queued?
    ensures
      Exec(Init(threads, calls, spurious), run + [Futex(C.Notify(t, p))])
      == Some(s.(futex := s.futex.(points := s.futex.points[p := C.Awake][t := C.Dropping])))
  {
    assert (run + [Futex(C.Notify(t, p))])[..|run|] == run;
  }
}
