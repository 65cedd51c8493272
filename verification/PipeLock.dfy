/** PipeLock in the form of its source, as module FutexCode has FutexLock: `holder_tid`, `waiters` and
    the pipe are changed in place, by this thread and by whoever the schedule lets act in between. */
module PipeCode {
  import opened Wrappers
  import opened Stacks
  import opened AbstractLock
  import opened Schedules
  import opened PipeMachine
  import opened PipeSafety

  /** `Unfinished`: the schedule ended while the call was running or blocked. */
  datatype Outcome = Locked(contended: bool) | Recursive | Unfinished

  /** What a weak compare-and-exchange reports; `NoTurn` if the schedule ended first. */
  datatype Exchange = Done | Failed(found: nat) | NoTurn

  predicate ValidTids(tids: seq<nat>) {
    && (forall i :: 0 <= i < |tids| ==> 0 < tids[i] <= U32_MAX)
    && (forall i, j :: 0 <= i < j < |tids| ==> tids[i] != tids[j])
  }

  predicate InRange(tids: seq<nat>, h: Tid) {
    h.Of? ==> h.thread < |tids|
  }

  function Value(tids: seq<nat>, h: Tid): nat
    requires InRange(tids, h)
  {
    if h.Zero? then 0 else tids[h.thread]
  }

  lemma ValueInjective(tids: seq<nat>, g: Tid, h: Tid)
    requires ValidTids(tids) && InRange(tids, g) && InRange(tids, h)
    ensures Value(tids, g) == Value(tids, h) <==> g == h
  {
  }

  // ---------- schedules ----------

  datatype Moment = Moment(world: State, lock: Lock)

  function EventOn(s: State, a: Step): Event {
    if Enabled(s, a) then EventOf(s, a) else Silent
  }

  function Tick(m: Moment, a: Step): Moment {
    if Enabled(m.world, a) then Moment(Apply(m.world, a), After(m.lock, EventOf(m.world, a))) else m
  }

  /** Every moment of a schedule is the end of a run, so what is proved of runs holds of moments. */
  lemma {:induction false} MomentsAreRuns(schedule: seq<Step>, moments: seq<Moment>, k: nat) returns (run: seq<Step>)
    requires Recorded(Tick, schedule, moments) && moments[0].lock == UNLOCKED && k <= |schedule|
    ensures Exec(moments[0].world, run) == Some(moments[k].world)
    ensures AfterAll(UNLOCKED, Trace(moments[0].world, run)) == moments[k].lock
  {
    run := [];
    if k > 0 {
      run := MomentsAreRuns(schedule, moments, k - 1);
      assert StepAt(Tick, schedule, moments, k - 1);
      if Enabled(moments[k - 1].world, schedule[k - 1]) {
        OneMoreStep(moments[0].world, run, schedule[k - 1]);
        AfterOneMore(UNLOCKED, Trace(moments[0].world, run), EventOn(moments[k - 1].world, schedule[k - 1]));
        run := run + [schedule[k - 1]];
      }
    }
  }

  /** Conversely a run, taken as a schedule, has its own states as moments. */
  lemma {:induction false} RunsAreMoments(run: seq<Step>, moments: seq<Moment>, k: nat)
    requires Recorded(Tick, run, moments) && Exec(moments[0].world, run).Some? && k <= |run|
    ensures Exec(moments[0].world, run[..k]) == Some(moments[k].world)
  {
    RunsHavePrefixes(moments[0].world, run, k);
    if k > 0 {
      RunsAreMoments(run, moments, k - 1);
      assert StepAt(Tick, run, moments, k - 1);
      assert run[..k][..k - 1] == run[..k - 1];
    }
  }

  lemma {:induction false} RunsHavePrefixes(s: State, run: seq<Step>, k: nat)
    requires Exec(s, run).Some? && k <= |run|
    ensures Exec(s, run[..k]).Some?
  {
    if k == |run| {
      assert run[..k] == run;
    } else {
      RunsHavePrefixes(s, run[..|run| - 1], k);
      assert run[..|run| - 1][..k] == run[..k];
    }
  }

  predicate OwnTurn(a: Step, t: nat) {
    (a.Run? || a.Misfire?) && a.t == t
  }

  lemma OthersLeaveTheCall(s: State, a: Step, t: nat, below: seq<Frame>)
    requires Enabled(s, a) && Over(s.stacks, t, below)
    requires !(|s.stacks[t]| == |below| + 1 && OwnTurn(a, t))
    ensures |Apply(s, a).stacks| == |s.stacks| && Apply(s, a).capacity == s.capacity
    ensures Over(Apply(s, a).stacks, t, below)
    ensures Apply(s, a).stacks[t][|below|] == s.stacks[t][|below|]
  {
  }

  /** While a call holds the lock, the others change neither the lock nor the counter. */
  lemma OthersLeaveTheLock(s: State, lock: Lock, a: Step, t: nat, d: nat)
    requires CallsOk(s, lock) && Enabled(s, a) && t < |s.stacks| && d < |s.stacks[t]|
    requires lock.owner == Held(t, d) && !(|s.stacks[t]| == d + 1 && OwnTurn(a, t))
    ensures After(lock, EventOf(s, a)) == lock && Apply(s, a).shared.counter == s.shared.counter
  {
    if a.Run? {
      assert FrameOk(lock, s.shared.counter, a.t, |s.stacks[a.t]| - 1, Top(s.stacks, a.t));
    }
  }

  /** A holder beneath depth `d` still holds the lock while the calls beneath are the same. */
  lemma HolderBeneathStays(s: State, lock: Lock, s': State, lock': Lock, t: nat, d: nat)
    requires CallsOk(s, lock) && CallsOk(s', lock') && Beneath(lock.owner, t, d)
    requires t < |s.stacks| && t < |s'.stacks| && d <= |s.stacks[t]| && d <= |s'.stacks[t]|
    requires s.stacks[t][..d] == s'.stacks[t][..d]
    ensures Beneath(lock'.owner, t, d)
  {
    var j := lock.owner.depth;
    assert s'.stacks[t][j] == s'.stacks[t][..d][j] == s.stacks[t][j];
    assert FrameOk(lock, s.shared.counter, t, j, s.stacks[t][j]);
    assert FrameOk(lock', s'.shared.counter, t, j, s'.stacks[t][j]);
  }

  // ---------- the end of a call is determined ----------

  /** 0 before the critical section, 1 inside it, 2 after it. */
  function Phase(f: Frame): nat {
    if f.Begin? || f.Update? || f.End? then 1 else if f.Load? || f.Write? then 2 else 0
  }

  /** From the i-th moment to the j-th the call above `below` goes on. */
  ghost predicate GoesOn(moments: seq<Moment>, t: nat, below: seq<Frame>, i: nat, j: nat)
    requires j < |moments|
  {
    forall k :: i <= k <= j ==> Over(moments[k].world.stacks, t, below)
  }

  /** A call for the lock that was going on at the moment `since` ends at the moment n with `r`. */
  ghost predicate Ends(schedule: seq<Step>, moments: seq<Moment>, t: nat, below: seq<Frame>, since: nat,
                       r: Outcome, n: nat)
    requires |moments| == |schedule| + 1
  {
    && since <= n <= |schedule|
    && match r
       case Locked(contended) =>
         && since < n && GoesOn(moments, t, below, since, n)
         && Over(moments[n - 1].world.stacks, t, below) && Phase(moments[n - 1].world.stacks[t][|below|]) == 0
         && Over(moments[n].world.stacks, t, below) && moments[n].world.stacks[t] == below + [Begin(contended)]
       case Recursive =>
         && since < n && GoesOn(moments, t, below, since, n - 1)
         && t < |moments[n].world.stacks| && moments[n].world.stacks[t] == below
         && EventOn(moments[n - 1].world, schedule[n - 1]) == Refused(t, |below|)
       case Unfinished =>
         && n == |schedule| && GoesOn(moments, t, below, since, n)
         && Over(moments[n].world.stacks, t, below) && Phase(moments[n].world.stacks[t][|below|]) == 0
  }

  lemma PhaseRises(m: Moment, a: Step, t: nat, below: seq<Frame>)
    requires Over(m.world.stacks, t, below) && Over(Tick(m, a).world.stacks, t, below)
    ensures Phase(Tick(m, a).world.stacks[t][|below|]) >= Phase(m.world.stacks[t][|below|])
  {
  }

  lemma {:induction false} PhaseNeverFalls(schedule: seq<Step>, moments: seq<Moment>, t: nat, below: seq<Frame>,
                                           i: nat, j: nat)
    requires Recorded(Tick, schedule, moments) && i <= j <= |schedule| && GoesOn(moments, t, below, i, j)
    ensures Over(moments[i].world.stacks, t, below) && Over(moments[j].world.stacks, t, below)
    ensures Phase(moments[j].world.stacks[t][|below|]) >= Phase(moments[i].world.stacks[t][|below|])
  {
    if i < j {
      assert Over(moments[i].world.stacks, t, below);
      PhaseNeverFalls(schedule, moments, t, below, i, j - 1);
      assert StepAt(Tick, schedule, moments, j - 1) && Over(moments[j].world.stacks, t, below);
      PhaseRises(moments[j - 1], schedule[j - 1], t, below);
    } else {
      assert Over(moments[i].world.stacks, t, below);
    }
  }

  lemma NoLaterEnd(schedule: seq<Step>, moments: seq<Moment>, t: nat, below: seq<Frame>, since: nat,
                   r: Outcome, n: nat, r': Outcome, n': nat)
    requires Recorded(Tick, schedule, moments)
    requires Ends(schedule, moments, t, below, since, r, n) && Ends(schedule, moments, t, below, since, r', n')
    ensures n' <= n
  {
    if n < n' {
      var last := if r' == Unfinished then n' else n' - 1;
      assert Over(moments[n].world.stacks, t, below);
      assert GoesOn(moments, t, below, n, last);
      PhaseNeverFalls(schedule, moments, t, below, n, last);
    }
  }

  /** A call has at most one end, at one moment: two runs of the code from the same state along the same
      schedule give the same answer. */
  lemma OneEnd(schedule: seq<Step>, moments: seq<Moment>, moments': seq<Moment>, t: nat, below: seq<Frame>, since: nat,
               r: Outcome, n: nat, r': Outcome, n': nat)
    requires Recorded(Tick, schedule, moments) && Recorded(Tick, schedule, moments') && moments[0] == moments'[0]
    requires Ends(schedule, moments, t, below, since, r, n) && Ends(schedule, moments', t, below, since, r', n')
    ensures moments == moments' && r == r' && n == n'
  {
    forall k | 0 <= k < |moments| ensures moments[k] == moments'[k] {
      RecordedOnce(Tick, schedule, moments, moments', k);
    }
    assert moments == moments';
    NoLaterEnd(schedule, moments, t, below, since, r, n, r', n');
    NoLaterEnd(schedule, moments, t, below, since, r', n', r, n);
  }

  lemma RefusedAlong(m: Moment, t: nat)
    requires m.world.calls > 0 && Busy(m.world, t) && Live(m.world) < 0xffff_ffff && m.world.shared.holder == Of(t)
    ensures
      var signalled := Tick(m, Signal(t));
      var looked, stack := Tick(signalled, Run(t)), m.world.stacks[t];
      && Over(signalled.world.stacks, t, stack) && Over(looked.world.stacks, t, stack)
      && EventOn(looked.world, Run(t)) == Refused(t, |stack|)
      && t < |Tick(looked, Run(t)).world.stacks| && Tick(looked, Run(t)).world.stacks[t] == stack
  {
    var stack := m.world.stacks[t];
    var signalled := Tick(m, Signal(t));
    assert signalled.world.stacks[t] == stack + [Start];
    assert Tick(signalled, Run(t)).world.stacks[t] == stack + [Pre(Of(t))];
  }

  /** A signal that lands on a holder, on any thread and after any run, is a schedule along which the
      handler's call ends with Recursive: by OneEnd that is what the code answers. */
  lemma HandlerOnHolderIsRefused(threads: nat, capacity: nat, calls: nat, spurious: nat, run: seq<Step>,
                                 t: nat, moments: seq<Moment>)
    requires capacity >= 1 && calls <= 0xffff_ffff
    requires Exec(Init(threads, capacity, calls, spurious), run).Some?
    requires
      var s := Exec(Init(threads, capacity, calls, spurious), run).value;
      s.calls > 0 && Busy(s, t) && (var f := Top(s.stacks, t); f.Sub? || f.Begin? || f.Update? || f.End?)
    requires Recorded(Tick, run + [Signal(t)] + [Run(t)] + [Run(t)], moments)
    requires moments[0] == Moment(Init(threads, capacity, calls, spurious), UNLOCKED)
    ensures |moments| == |run| + 4
    ensures
      var s := Exec(Init(threads, capacity, calls, spurious), run).value;
      Ends(run + [Signal(t)] + [Run(t)] + [Run(t)], moments, t, s.stacks[t], |run| + 1, Recursive, |run| + 3)
  {
    var s, n := Exec(Init(threads, capacity, calls, spurious), run).value, |run|;
    var all := run + [Signal(t)] + [Run(t)] + [Run(t)];
    HolderIsNamed(threads, capacity, calls, spurious, run, t);
    LiveIsBounded(threads, capacity, calls, spurious, run);
    RunIsFollowed(run, all, moments);
    assert StepAt(Tick, all, moments, n) && StepAt(Tick, all, moments, n + 1) && StepAt(Tick, all, moments, n + 2);
    assert all[n] == Signal(t) && all[n + 1] == all[n + 2] == Run(t);
    RefusedAlong(moments[n], t);
    RefusedIsAnEnd(all, moments, t, s.stacks[t], n + 1);
  }

  /** A run at the beginning of a schedule leads to its own last state. */
  lemma RunIsFollowed(run: seq<Step>, schedule: seq<Step>, moments: seq<Moment>)
    requires run <= schedule && Recorded(Tick, schedule, moments) && Exec(moments[0].world, run).Some?
    ensures Exec(moments[0].world, run) == Some(moments[|run|].world)
  {
    var first := moments[..|run| + 1];
    forall k | 0 <= k < |run| ensures StepAt(Tick, run, first, k) {
      assert StepAt(Tick, schedule, moments, k);
    }
    RunsAreMoments(run, first, |run|);
    assert run[..|run|] == run;
  }

  lemma RefusedIsAnEnd(schedule: seq<Step>, moments: seq<Moment>, t: nat, below: seq<Frame>, since: nat)
    requires |moments| == |schedule| + 1 && since + 2 <= |schedule|
    requires Over(moments[since].world.stacks, t, below) && Over(moments[since + 1].world.stacks, t, below)
    requires t < |moments[since + 2].world.stacks| && moments[since + 2].world.stacks[t] == below
    requires EventOn(moments[since + 1].world, schedule[since + 1]) == Refused(t, |below|)
    ensures Ends(schedule, moments, t, below, since, Recursive, since + 2)
  {
  }

  class PipeLock {
    const tids: seq<nat>                // what gettid returns on each thread
    const capacity: nat                 // of the pipe
    const schedule: seq<Step>           // what will happen, in order
    ghost const moments: seq<Moment>    // and what is the case after each of its steps
    var now: nat                        // how many of them have happened
    var holderTid: nat                  // an AtomicU32
    var waiters: nat                    // an AtomicU32
    var bytes: nat                      // in the pipe
    var item: nat                       // the protected item
    var world: State                    // every thread's calls
    ghost var lock: Lock                // the abstract lock

    ghost predicate Valid()
      reads this
    {
      && Recorded(Tick, schedule, moments)
      && now <= |schedule| && Moment(world, lock) == moments[now]
      && Inv(world, lock)
      && ValidTids(tids) && |tids| == |world.stacks| && world.capacity == capacity >= 1
      && InRange(tids, world.shared.holder)
      && Mirrors(world.shared)
    }

    ghost predicate Mirrors(m: Shared)
      reads this
      requires InRange(tids, m.holder)
    {
      holderTid == Value(tids, m.holder) && waiters == m.waiters && bytes == m.bytes && item == m.counter
    }

    constructor (tids: seq<nat>, capacity: nat, calls: nat, spurious: nat, schedule: seq<Step>)
      requires forall i :: 0 <= i < |tids| ==> 0 < tids[i] <= 0xffff_ffff
      requires capacity >= 1 && forall i, j :: 0 <= i < j < |tids| ==> tids[i] != tids[j]
      ensures Valid() && now == 0 && holderTid == 0 && waiters == 0 && this.tids == tids && this.schedule == schedule
      ensures world == Init(|tids|, capacity, calls, spurious) && lock == UNLOCKED
    {
      ghost var first := Moment(Init(|tids|, capacity, calls, spurious), UNLOCKED);
      ghost var recorded := Record(Tick, first, schedule);
      this.tids, this.capacity, this.schedule, this.moments := tids, capacity, schedule, recorded;
      this.now, this.holderTid, this.waiters, this.bytes, this.item := 0, 0, 0, 0, 0;
      this.world, this.lock := Init(|tids|, capacity, calls, spurious), UNLOCKED;
      new;
      RunsRefine(|tids|, capacity, calls, spurious, []);
    }

    /** The call above `below` goes on from the i-th moment to the j-th. */
    ghost predicate Stays(t: nat, below: seq<Frame>, i: nat, j: nat)
      requires j < |moments|
    {
      GoesOn(moments, t, below, i, j)
    }

    /** At the k-th moment the call above `below` does `f`. */
    ghost predicate Does(t: nat, below: seq<Frame>, f: Frame, k: int) {
      && 0 <= k < |schedule| && k < |moments|
      && Enabled(moments[k].world, schedule[k]) && OwnTurn(schedule[k], t)
      && t < |moments[k].world.stacks| && moments[k].world.stacks[t] == below + [f]
    }

    /** What users of the lock see at the k-th moment. */
    ghost function EventAt(k: int): Event
      requires 0 <= k < |schedule| && k < |moments|
    {
      EventOn(moments[k].world, schedule[k])
    }

    /** The schedule has ended, and the call is still going on. */
    ghost predicate CutOff(t: nat, below: seq<Frame>, since: nat)
      reads this
    {
      now == |schedule| < |moments| && Stays(t, below, since, now)
    }

    /** And has not come to its critical section. */
    ghost predicate Waiting(t: nat, below: seq<Frame>, since: nat)
      reads this
    {
      CutOff(t, below, since) && Over(world.stacks, t, below) && Phase(world.stacks[t][|below|]) == 0
    }

    /** The stack of thread t has the calls `below`, and on top a call about to do `f`. */
    ghost predicate At(t: nat, below: seq<Frame>, f: Frame)
      reads this
    {
      t < |world.stacks| && world.stacks[t] == below + [f]
    }

    /** The call above `below` has returned in the last step, having gone on until then. */
    ghost predicate Returned(t: nat, below: seq<Frame>, since: nat)
      reads this
    {
      && since < now <= |moments| && Stays(t, below, since, now - 1)
      && t < |world.stacks| && world.stacks[t] == below
    }

    /** The next scheduled step happens, leaving these values in memory. */
    method Advance(newHolder: nat, newWaiters: nat, newBytes: nat, newItem: nat)
      requires Valid() && now < |schedule| && Enabled(world, schedule[now])
      requires
        var s := Apply(world, schedule[now]);
        && InRange(tids, s.shared.holder) && |s.stacks| == |world.stacks| && s.capacity == capacity
        && newHolder == Value(tids, s.shared.holder) && newWaiters == s.shared.waiters
        && newBytes == s.shared.bytes && newItem == s.shared.counter
      modifies this
      ensures Valid() && now == old(now) + 1 && Mirrors(world.shared)
      ensures world == Apply(old(world), schedule[old(now)])
      ensures lock == After(old(lock), EventOf(old(world), schedule[old(now)]))
    {
      assert StepAt(Tick, schedule, moments, now);
      InvKept(world, lock, schedule[now]);
      lock := After(lock, EventOf(world, schedule[now]));
      world := Apply(world, schedule[now]);
      holderTid, waiters, bytes, item := newHolder, newWaiters, newBytes, newItem;
      now := now + 1;
    }

    /** The next scheduled step happens if it can, and is somebody else's. */
    method Other(t: nat, ghost below: seq<Frame>)
      requires Valid() && now < |schedule| && Over(world.stacks, t, below)
      requires Enabled(world, schedule[now]) ==> !(|world.stacks[t]| == |below| + 1 && OwnTurn(schedule[now], t))
      modifies this
      ensures Valid() && now == old(now) + 1 && Over(world.stacks, t, below)
      ensures world.stacks[t][|below|] == old(world.stacks[t][|below|])
      ensures old(lock.owner) == Held(t, |below|) ==> lock == old(lock) && item == old(item)
    {
      if Enabled(world, schedule[now]) {
        OthersLeaveTheCall(world, schedule[now], t, below);
        if lock.owner == Held(t, |below|) {
          OthersLeaveTheLock(world, lock, schedule[now], t, |below|);
        }
        InvKept(world, lock, schedule[now]);
        var next := Apply(world, schedule[now]).shared;
        Advance(Value(tids, next.holder), next.waiters, next.bytes, next.counter);
      } else {
        assert StepAt(Tick, schedule, moments, now);
        now := now + 1;
      }
    }

    /** Everybody else runs until it is the turn of thread t's running call, about to do `f`. */
    method Await(t: nat, ghost below: seq<Frame>, ghost f: Frame) returns (ready: bool)
      requires Valid() && At(t, below, f)
      modifies this
      ensures Valid() && old(now) <= now && Stays(t, below, old(now), now) && world.stacks[t][|below|] == f
      ensures lock.owner == Held(t, |below|) <==> Holding(f)
      ensures Holding(f) ==> lock == old(lock) && item == old(item)
      ensures !ready ==> now == |schedule|
      ensures ready ==>
        now < |schedule| && Enabled(world, schedule[now]) && OwnTurn(schedule[now], t) && At(t, below, f)
    {
      var d := |world.stacks[t]| - 1;
      ready := false;
      assert FrameOk(lock, world.shared.counter, t, d, world.stacks[t][d]);
      while now < |schedule| && !ready
        invariant Valid() && old(now) <= now && Stays(t, below, old(now), now) && world.stacks[t][d] == f
        invariant Holding(f) ==> lock == old(lock) && item == old(item)
        invariant ready ==>
          now < |schedule| && Enabled(world, schedule[now]) && OwnTurn(schedule[now], t) && |world.stacks[t]| == d + 1
        decreases |schedule| - now, !ready
      {
        if Enabled(world, schedule[now]) && |world.stacks[t]| == d + 1 && OwnTurn(schedule[now], t) {
          ready := true;
        } else {
          assert Over(moments[now].world.stacks, t, below);
          Other(t, below);
        }
      }
      assert FrameOk(lock, world.shared.counter, t, d, world.stacks[t][d]);
      assert ready ==> world.stacks[t] == below + [f];
    }

    /** The running call acts: the new values are what the code computed. */
    method Act(t: nat, ghost below: seq<Frame>, ghost f: Frame,
               newHolder: nat, newWaiters: nat, newBytes: nat, newItem: nat)
      requires Valid() && now < |schedule| && Enabled(world, schedule[now]) && OwnTurn(schedule[now], t)
      requires At(t, below, f)
      requires
        var m := Apply(world, schedule[now]).shared;
        && InRange(tids, m.holder)
        && newHolder == Value(tids, m.holder) && newWaiters == m.waiters
        && newBytes == m.bytes && newItem == m.counter
      modifies this
      ensures Valid() && now == old(now) + 1 && Mirrors(world.shared)
      ensures Does(t, below, f, old(now)) && moments[old(now)] == old(Moment(world, lock))
      ensures lock == After(old(lock), EventAt(old(now)))
      ensures world.shared == Apply(old(world), schedule[old(now)]).shared
      ensures
        if schedule[old(now)].Misfire? then
          At(t, below, Misfired(old(world.shared.holder), f)) && Over(world.stacks, t, below)
        else
          var next := PipeMachine.Act(old(world.shared), capacity, t, f).1;
          if next.Goto? then At(t, below, next.frame) && Over(world.stacks, t, below)
          else t < |world.stacks| && world.stacks[t] == below
    {
      assert below + [f] == world.stacks[t];
      Advance(newHolder, newWaiters, newBytes, newItem);
    }

    /** compare_exchange_weak(0, tid) on holder_tid. */
    method TakeHolder(t: nat, ghost below: seq<Frame>, ghost f: Frame) returns (x: Exchange, ghost h: Tid)
      requires Valid() && At(t, below, f) && (f.Start? || f.Cas?)
      modifies this
      ensures Valid() && old(now) <= now && Stays(t, below, old(now), now)
      ensures x.NoTurn? <==> CutOff(t, below, old(now)) && world.stacks[t][|below|] == f
      ensures !x.NoTurn? ==>
        && old(now) < now && Does(t, below, f, now - 1)
        && h == moments[now - 1].world.shared.holder && InRange(tids, h)
      ensures x.Done? ==>
        && h == Zero && holderTid == tids[t] && At(t, below, if f.Start? then Begin(false) else Sub)
        && EventAt(now - 1) == Acquired(t, |below|) && lock.owner == Held(t, |below|)
      ensures x.Failed? ==>
        && At(t, below, if f.Start? then Pre(h) else Eval(h)) && x.found == Value(tids, h) == holderTid
        && (h == Zero ==> schedule[now - 1].Misfire?)
    {
      var ready := Await(t, below, f);
      h := world.shared.holder;
      if !ready {
        return NoTurn, h;
      }
      ValueInjective(tids, h, Zero);
      var found := holderTid;
      if found == 0 && !schedule[now].Misfire? {
        Act(t, below, f, tids[t], waiters, bytes, item);
        x := Done;
      } else {
        Act(t, below, f, holderTid, waiters, bytes, item);
        x := Failed(found);
      }
    }

    /** Whether a suspended call of this thread holds the lock does not change while this call goes on. */
    lemma HeldFromTheStart(t: nat, below: seq<Frame>, r: Outcome, world0: State, lock0: AbstractLock.Lock)
      requires Valid() && CallsOk(world0, lock0) && Over(world0.stacks, t, below)
      requires r == Recursive ==>
        t < |world.stacks| && world.stacks[t] == below && Beneath(lock.owner, t, |below|)
      requires r.Locked? ==> lock.owner == Held(t, |below|) && Over(world.stacks, t, below)
      ensures r == Recursive ==> Beneath(lock0.owner, t, |below|)
      ensures r.Locked? ==> !Beneath(lock0.owner, t, |below|)
    {
      if r == Recursive {
        HolderBeneathStays(world, lock, world0, lock0, t, |below|);
      } else if r.Locked? && Beneath(lock0.owner, t, |below|) {
        HolderBeneathStays(world0, lock0, world, lock, t, |below|);
      }
    }

    lemma EndsHere(t: nat, below: seq<Frame>, since: nat, r: Outcome)
      requires Valid() && since <= now
      requires r.Locked? ==>
        && since < now && Stays(t, below, since, now) && At(t, below, Begin(r.contended))
        && (Does(t, below, Start, now - 1) || Does(t, below, Sub, now - 1))
      requires r == Recursive ==> Returned(t, below, since) && EventAt(now - 1) == Refused(t, |below|)
      requires r == Unfinished ==> Waiting(t, below, since)
      ensures Ends(schedule, moments, t, below, since, r, now)
      ensures r.Locked? <==>
        && since < now && Stays(t, below, since, now)
        && (At(t, below, Begin(false)) || At(t, below, Begin(true)))
      ensures r == Recursive <==> Returned(t, below, since) && EventAt(now - 1) == Refused(t, |below|)
      ensures r == Unfinished <==> Waiting(t, below, since)
    {
      assert forall c :: At(t, below, Begin(c)) ==>
        |world.stacks[t]| == |below| + 1 && Top(world.stacks, t) == Begin(c);
      if r.Locked? {
        assert Over(moments[now - 1].world.stacks, t, below) && Over(moments[now].world.stacks, t, below);
      }
    }

    /** Locked: the call has taken the lock and is about to use it; the guard is marked contended exactly
        when the loop took it. Recursive: the last step refused, and a suspended call of this thread held
        the lock all along. Otherwise the schedule has ended with the call still going on. */
    method Lock(t: nat, ghost below: seq<Frame>) returns (r: Outcome)
      requires Valid() && At(t, below, Start)
      modifies this
      ensures Valid() && old(now) <= now
      ensures r.Locked? <==>
        && old(now) < now && Stays(t, below, old(now), now)
        && (At(t, below, Begin(false)) || At(t, below, Begin(true)))
      ensures r == Recursive <==> Returned(t, below, old(now)) && EventAt(now - 1) == Refused(t, |below|)
      ensures r == Unfinished <==> Waiting(t, below, old(now))
      ensures Ends(schedule, moments, t, below, old(now), r, now)
      ensures r.Locked? ==> At(t, below, Begin(r.contended)) && lock.owner == Held(t, |below|)
      ensures r.Locked? ==> !old(Beneath(lock.owner, t, |below|))
      ensures r == Recursive ==> old(Beneath(lock.owner, t, |below|)) && Beneath(lock.owner, t, |below|)
    {
      ghost var world0, lock0 := world, lock;
      r := TakeOrContend(t, below);
      EndsHere(t, below, old(now), r);
      HeldFromTheStart(t, below, r, world0, lock0);
    }

    method TakeOrContend(t: nat, ghost below: seq<Frame>) returns (r: Outcome)
      requires Valid() && At(t, below, Start)
      modifies this
      ensures Valid() && old(now) <= now
      ensures r.Locked? ==>
        && old(now) < now && Stays(t, below, old(now), now) && lock.owner == Held(t, |below|)
        && At(t, below, Begin(r.contended)) && Does(t, below, if r.contended then Sub else Start, now - 1)
      ensures r == Recursive ==>
        Returned(t, below, old(now)) && EventAt(now - 1) == Refused(t, |below|) && Beneath(lock.owner, t, |below|)
      ensures r == Unfinished ==> Waiting(t, below, old(now))
    {
      var x, h := TakeHolder(t, below, Start);
      match x {
        case Done => r := Locked(false);
        case Failed(found) => r := LockContended(t, found, below, h);
        case NoTurn => r := Unfinished;
      }
    }

    /** The comparison before the loop. */
    method Compare(t: nat, ghost below: seq<Frame>, ghost h: Tid) returns (ready: bool)
      requires Valid() && At(t, below, Pre(h))
      modifies this
      ensures Valid() && old(now) <= now
      ensures ready && h == Of(t) ==>
        Returned(t, below, old(now)) && EventAt(now - 1) == Refused(t, |below|) && Beneath(lock.owner, t, |below|)
      ensures ready && h != Of(t) ==> old(now) < now && Stays(t, below, old(now), now) && At(t, below, Add)
      ensures !ready ==> Waiting(t, below, old(now))
    {
      ready := Await(t, below, Pre(h));
      if ready {
        Act(t, below, Pre(h), holderTid, waiters, bytes, item);
      }
    }

    /** waiters.fetch_add(1) */
    method Register(t: nat, ghost below: seq<Frame>) returns (ready: bool)
      requires Valid() && At(t, below, Add)
      modifies this
      ensures Valid() && old(now) <= now && Stays(t, below, old(now), now)
      ensures ready ==> old(now) < now && At(t, below, Cas) && Does(t, below, Add, now - 1)
      ensures ready ==> waiters == moments[now - 1].world.shared.waiters + 1
      ensures !ready ==> Waiting(t, below, old(now))
    {
      ready := Await(t, below, Add);
      if ready {
        RoomForOneMore(t, below);
        Act(t, below, Add, holderTid, Increment(waiters), bytes, item);
      }
    }

    /** A call about to register is not counted yet, so the counter does not wrap. */
    lemma RoomForOneMore(t: nat, below: seq<Frame>)
      requires Valid() && At(t, below, Add)
      ensures waiters < U32_MAX
    {
      ReplacedCount(world, t, Cas);
      assert Top(world.stacks, t) == Add;
    }

    method LockContended(t: nat, holder0: nat, ghost below: seq<Frame>, ghost h0: Tid) returns (r: Outcome)
      requires Valid() && At(t, below, Pre(h0)) && InRange(tids, h0) && holder0 == Value(tids, h0)
      modifies this
      ensures Valid() && old(now) <= now
      ensures r.Locked? ==>
        && r.contended && old(now) < now && Stays(t, below, old(now), now)
        && At(t, below, Begin(true)) && lock.owner == Held(t, |below|) && Does(t, below, Sub, now - 1)
      ensures r == Recursive ==>
        Returned(t, below, old(now)) && EventAt(now - 1) == Refused(t, |below|) && Beneath(lock.owner, t, |below|)
      ensures r == Unfinished ==> Waiting(t, below, old(now))
    {
      var tid := tids[t];
      ValueInjective(tids, h0, Of(t));
      var ready := Compare(t, below, h0);
      if !ready {
        return Unfinished;
      }
      if holder0 == tid {
        return Recursive;
      }
      ready := Contend(t, below);
      r := if ready then Locked(true) else Unfinished;
    }

    /** The loop, and the registration before it. */
    method Contend(t: nat, ghost below: seq<Frame>) returns (ready: bool)
      requires Valid() && At(t, below, Add)
      modifies this
      ensures Valid() && old(now) <= now && Stays(t, below, old(now), now)
      ensures ready ==>
        && old(now) < now && At(t, below, Begin(true)) && lock.owner == Held(t, |below|)
        && Does(t, below, Sub, now - 1)
      ensures !ready ==> Waiting(t, below, old(now))
    {
      ready := Register(t, below);
      if ready {
        ready := Retry(t, below);
      }
    }

    /** One pass of the loop: the lock is taken and the call deregistered, or it is time for another try. */
    method Pass(t: nat, ghost below: seq<Frame>) returns (ready: bool, taken: bool)
      requires Valid() && At(t, below, Cas)
      modifies this
      ensures Valid() && old(now) <= now && Stays(t, below, old(now), now)
      ensures ready && taken ==>
        && old(now) < now && At(t, below, Begin(true)) && lock.owner == Held(t, |below|)
        && Does(t, below, Sub, now - 1)
      ensures ready && !taken ==> old(now) < now && At(t, below, Cas)
      ensures !ready ==> Waiting(t, below, old(now))
    {
      var x, h := TakeHolder(t, below, Cas);
      taken := x.Done?;
      match x {
        case Done => ready := Deregister(t, below);
        case Failed(found) => ready := WaitForByte(t, below, h, found);
        case NoTurn => ready := false;
      }
    }

    /** The loop. */
    method Retry(t: nat, ghost below: seq<Frame>) returns (ready: bool)
      requires Valid() && At(t, below, Cas)
      modifies this
      ensures Valid() && old(now) <= now && Stays(t, below, old(now), now)
      ensures ready ==>
        && old(now) < now && At(t, below, Begin(true)) && lock.owner == Held(t, |below|)
        && Does(t, below, Sub, now - 1)
      ensures !ready ==> Waiting(t, below, old(now))
    {
      var taken := false;
      while !taken
        invariant Valid() && old(now) <= now && Stays(t, below, old(now), now)
        invariant if taken then
            && old(now) < now && At(t, below, Begin(true)) && lock.owner == Held(t, |below|)
            && Does(t, below, Sub, now - 1)
          else At(t, below, Cas)
        decreases !taken, |schedule| - now
      {
        ready, taken := Pass(t, below);
        if !ready {
          return;
        }
      }
      ready := true;
    }

    /** The rest of the loop's body, after the compare-and-exchange has failed on `h`. */
    method WaitForByte(t: nat, ghost below: seq<Frame>, ghost h: Tid, found: nat) returns (ready: bool)
      requires Valid() && At(t, below, Eval(h)) && InRange(tids, h) && found == Value(tids, h)
      modifies this
      ensures Valid() && old(now) <= now && Stays(t, below, old(now), now)
      ensures ready ==> old(now) < now && At(t, below, Cas)
      ensures !ready ==> Waiting(t, below, old(now))
    {
      ready := NotRecursive(t, below, h, found);
      if ready && found != 0 {
        ready := ReadByte(t, below);
      }
    }

    /** The lock is taken: waiters.fetch_sub(1). */
    method Deregister(t: nat, ghost below: seq<Frame>) returns (ready: bool)
      requires Valid() && At(t, below, Sub)
      modifies this
      ensures Valid() && old(now) <= now && Stays(t, below, old(now), now)
      ensures lock == old(lock) && lock.owner == Held(t, |below|)
      ensures ready ==> old(now) < now && At(t, below, Begin(true)) && Does(t, below, Sub, now - 1)
      ensures ready ==> waiters == moments[now - 1].world.shared.waiters - 1
      ensures !ready ==> Waiting(t, below, old(now))
    {
      ready := Await(t, below, Sub);
      if ready {
        RegisteredIsCounted(world, t, |below|);
        Act(t, below, Sub, holderTid, Decrement(waiters), bytes, item);
      }
    }

    /** The CAS failed on the holder `h`: it is not this thread, so the in-loop exit is not taken. */
    method NotRecursive(t: nat, ghost below: seq<Frame>, ghost h: Tid, found: nat) returns (ready: bool)
      requires Valid() && At(t, below, Eval(h)) && InRange(tids, h) && found == Value(tids, h)
      modifies this
      ensures Valid() && old(now) <= now && Stays(t, below, old(now), now)
      ensures ready ==> old(now) < now && found != tids[t] && At(t, below, if found == 0 then Cas else Read)
      ensures !ready ==> Waiting(t, below, old(now))
    {
      ready := Await(t, below, Eval(h));
      if ready {
        assert FrameOk(lock, world.shared.counter, t, |below|, world.stacks[t][|below|]);
        ValueInjective(tids, h, Of(t));
        ValueInjective(tids, h, Zero);
        Act(t, below, Eval(h), holderTid, waiters, bytes, item);
      }
    }

    /** read(2): it is no turn of this thread while the pipe is empty; EINTR ends the read without a byte. */
    method ReadByte(t: nat, ghost below: seq<Frame>) returns (ready: bool)
      requires Valid() && At(t, below, Read)
      modifies this
      ensures Valid() && old(now) <= now && Stays(t, below, old(now), now)
      ensures ready ==> old(now) < now && At(t, below, Cas) && Does(t, below, Read, now - 1)
      ensures ready ==> bytes == moments[now - 1].world.shared.bytes - if schedule[now - 1].Misfire? then 0 else 1
      ensures !ready ==> Waiting(t, below, old(now))
    {
      ready := Await(t, below, Read);
      if ready {
        Act(t, below, Read, holderTid, waiters, if schedule[now].Misfire? then bytes else bytes - 1, item);
      }
    }

    /** The critical section: read the item, let anything happen, write it back incremented. Nobody else
        can change it in between. */
    method UpdateItem(t: nat, contended: bool, ghost below: seq<Frame>) returns (ready: bool)
      requires Valid() && At(t, below, Begin(contended))
      modifies this
      ensures Valid() && old(now) <= now && Stays(t, below, old(now), now)
      ensures lock == old(lock) && lock.owner == Held(t, |below|)
      ensures ready ==>
        At(t, below, End(contended)) && item == old(item) + 1 && Does(t, below, Update(contended, old(item)), now - 1)
      ensures !ready ==> CutOff(t, below, old(now)) && item == old(item)
    {
      var seen;
      ready, seen := ReadItem(t, contended, below);
      if !ready {
        return;
      }
      ready := Await(t, below, Update(contended, seen));
      if ready {
        Act(t, below, Update(contended, seen), holderTid, waiters, bytes, seen + 1);
      }
    }

    method ReadItem(t: nat, contended: bool, ghost below: seq<Frame>) returns (ready: bool, seen: nat)
      requires Valid() && At(t, below, Begin(contended))
      modifies this
      ensures Valid() && old(now) <= now && Stays(t, below, old(now), now)
      ensures lock == old(lock) && lock.owner == Held(t, |below|) && item == old(item)
      ensures ready ==> seen == item && At(t, below, Update(contended, seen))
      ensures !ready ==> CutOff(t, below, old(now))
    {
      seen := item;
      ready := Await(t, below, Begin(contended));
      if ready {
        seen := item;
        Act(t, below, Begin(contended), holderTid, waiters, bytes, item);
      }
    }

    /** At the k-th moment the call writes a byte, or finds the pipe full. */
    ghost predicate WritesAt(t: nat, below: seq<Frame>, k: int) {
      && Does(t, below, Write, k) && schedule[k].Run? && k + 1 < |moments|
      && var before, after := moments[k].world.shared.bytes, moments[k + 1].world.shared.bytes;
         after == if before < capacity then before + 1 else before
    }

    /** The swap releases the lock at the moment `swap`; the debug check of the source is proved. The call
        writes exactly if its guard was contended or the load, at the moment `load`, found a waiter. */
    method Unlock(t: nat, contended: bool, ghost below: seq<Frame>)
      returns (ready: bool, ghost swap: nat, ghost load: nat)
      requires Valid() && At(t, below, End(contended))
      modifies this
      ensures Valid() && old(now) <= now
      ensures ready <==> Returned(t, below, old(now))
      ensures !ready ==> CutOff(t, below, old(now))
      ensures ready ==>
        && old(now) <= swap < now && Does(t, below, End(contended), swap) && EventAt(swap) == Released(t, |below|)
        && moments[swap + 1].world.shared.holder == Zero
        && moments[swap + 1].lock == AbstractLock.Lock(Nobody, old(lock.value) + 1)
      ensures ready && contended ==> swap < now - 1 && WritesAt(t, below, now - 1)
      ensures ready && !contended ==>
        && swap < load < now && Does(t, below, Load, load)
        && if moments[load].world.shared.waiters > 0 then load < now - 1 && WritesAt(t, below, now - 1)
           else load == now - 1
    {
      var holder;
      load := now;
      ready, holder, swap := SwapHolder(t, contended, below);
      if !ready {
        return;
      }
      assert holder == tids[t];
      if contended {
        ready := UnlockContended(t, below);
      } else {
        ready, load := WriteIfAnyoneWaits(t, below);
      }
    }

    /** holder_tid.swap(0), at the moment `swap`. */
    method SwapHolder(t: nat, contended: bool, ghost below: seq<Frame>)
      returns (ready: bool, holder: nat, ghost swap: nat)
      requires Valid() && At(t, below, End(contended))
      modifies this
      ensures Valid() && old(now) <= now && Stays(t, below, old(now), now)
      ensures !ready ==> CutOff(t, below, old(now))
      ensures ready ==>
        && holder == tids[t] && swap == now - 1 >= old(now) && Does(t, below, End(contended), swap)
        && EventAt(swap) == Released(t, |below|) && world.shared.holder == Zero
        && lock == AbstractLock.Lock(Nobody, old(lock.value) + 1)
        && At(t, below, if contended then Write else Load)
    {
      holder, swap := holderTid, now;
      ready := Await(t, below, End(contended));
      if ready {
        holder, swap := holderTid, now;
        Act(t, below, End(contended), 0, waiters, bytes, item);
      }
    }

    /** waiters.load(), at the moment `load`, and the byte if it is not 0. */
    method WriteIfAnyoneWaits(t: nat, ghost below: seq<Frame>) returns (ready: bool, ghost load: nat)
      requires Valid() && At(t, below, Load)
      modifies this
      ensures Valid() && old(now) <= now
      ensures ready <==> Returned(t, below, old(now))
      ensures !ready ==> CutOff(t, below, old(now))
      ensures ready ==>
        && old(now) <= load < now && Does(t, below, Load, load)
        && if moments[load].world.shared.waiters > 0 then load < now - 1 && WritesAt(t, below, now - 1)
           else load == now - 1
    {
      load := now;
      ready := Await(t, below, Load);
      if !ready {
        return;
      }
      var w := waiters;
      load := now;
      Act(t, below, Load, holderTid, waiters, bytes, item);
      if w > 0 {
        ready := UnlockContended(t, below);
      }
    }

    /** write(2) of one byte: it may return EINTR, and a full pipe (EAGAIN) passes for a byte written. */
    method WriteByte(t: nat, ghost below: seq<Frame>) returns (ready: bool, interrupted: bool)
      requires Valid() && At(t, below, Write)
      modifies this
      ensures Valid() && old(now) <= now
      ensures !ready ==> CutOff(t, below, old(now))
      ensures ready && interrupted ==>
        old(now) < now && Stays(t, below, old(now), now) && At(t, below, Write) && Does(t, below, Write, now - 1)
      ensures ready && !interrupted ==> Returned(t, below, old(now)) && WritesAt(t, below, now - 1)
    {
      interrupted := false;
      ready := Await(t, below, Write);
      if ready {
        interrupted := schedule[now].Misfire?;
        var written := if !interrupted && bytes < capacity then 1 else 0;
        Act(t, below, Write, holderTid, waiters, bytes + written, item);
      }
    }

    /** EINTR repeats the write; a full pipe ends the loop as a written byte does. */
    method UnlockContended(t: nat, ghost below: seq<Frame>) returns (ready: bool)
      requires Valid() && At(t, below, Write)
      modifies this
      ensures Valid() && old(now) <= now
      ensures ready <==> Returned(t, below, old(now))
      ensures !ready ==> CutOff(t, below, old(now))
      ensures ready ==> WritesAt(t, below, now - 1)
    {
      var interrupted := true;
      while interrupted
        invariant Valid() && old(now) <= now
        invariant interrupted ==> Stays(t, below, old(now), now) && At(t, below, Write)
        invariant !interrupted ==> Returned(t, below, old(now)) && WritesAt(t, below, now - 1)
        decreases interrupted, |schedule| - now
      {
        ready, interrupted := WriteByte(t, below);
        if !ready {
          return;
        }
      }
      ready := true;
    }
  }
}
