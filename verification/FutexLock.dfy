/** FutexLock in the form of its source: loops over a packed word that other threads and handlers change
    between any two actions. Each method is one function of the source, run by one thread while a
    schedule says who acts next. The states along the schedule are those of module FutexMachine, and a
    method can only move along them: by letting others act, and by computing, for each of its own actions,
    the values that the machine prescribes. */
module FutexCode {
  import opened Wrappers
  import opened Bits
  import opened Stacks
  import opened AbstractLock
  import opened Schedules
  import opened FutexMachine
  import opened FutexSafety
  import opened FutexWord

  /** `Unfinished`: the schedule ended while the call was running or asleep. */
  datatype Outcome = Locked | Recursive | Unfinished

  /** What a weak compare-and-exchange reports; `NoTurn` if the schedule ended first. */
  datatype Exchange = Done | Failed(found: nat) | NoTurn

  // ---------- schedules ----------

  datatype Moment = Moment(world: State, lock: Lock)

  function EventOn(s: State, a: Step): Event {
    if Enabled(s, a) then EventOf(s, a) else Silent
  }

  function Tick(m: Moment, a: Step): Moment {
    if Enabled(m.world, a) then Moment(Apply(m.world, a), After(m.lock, EventOf(m.world, a))) else m
  }

  /** Every moment of a schedule is the end of a run, so what is proved of runs holds of moments. */
  lemma {:induction false} MomentsAreRuns(schedule: seq<Step>, moments: seq<Moment>, k: nat) returns (run: seq<Step>)
    requires Recorded(Tick, schedule, moments) && moments[0].lock == UNLOCKED && k <= |schedule|
    ensures Exec(moments[0].world, run) == Some(moments[k].world)
    ensures AfterAll(UNLOCKED, Trace(moments[0].world, run)) == moments[k].lock
  {
    run := [];
    if k > 0 {
      run := MomentsAreRuns(schedule, moments, k - 1);
      assert StepAt(Tick, schedule, moments, k - 1);
      if Enabled(moments[k - 1].world, schedule[k - 1]) {
        OneMoreStep(moments[0].world, run, schedule[k - 1]);
        AfterOneMore(UNLOCKED, Trace(moments[0].world, run), EventOn(moments[k - 1].world, schedule[k - 1]));
        run := run + [schedule[k - 1]];
      }
    }
  }

  /** Conversely a run, taken as a schedule, has its own states as moments. */
  lemma {:induction false} RunsAreMoments(run: seq<Step>, moments: seq<Moment>, k: nat)
    requires Recorded(Tick, run, moments) && Exec(moments[0].world, run).Some? && k <= |run|
    ensures Exec(moments[0].world, run[..k]) == Some(moments[k].world)
  {
    RunsHavePrefixes(moments[0].world, run, k);
    if k > 0 {
      RunsAreMoments(run, moments, k - 1);
      assert StepAt(Tick, run, moments, k - 1);
      assert run[..k][..k - 1] == run[..k - 1];
    }
  }

  lemma {:induction false} RunsHavePrefixes(s: State, run: seq<Step>, k: nat)
    requires Exec(s, run).Some? && k <= |run|
    ensures Exec(s, run[..k]).Some?
  {
    if k == |run| {
      assert run[..k] == run;
    } else {
      RunsHavePrefixes(s, run[..|run| - 1], k);
      assert run[..|run| - 1][..k] == run[..k];
    }
  }

  lemma {:induction false} MomentsKeep(schedule: seq<Step>, moments: seq<Moment>, k: nat)
    requires Recorded(Tick, schedule, moments) && Inv(moments[0].world, moments[0].lock) && k <= |schedule|
    ensures Inv(moments[k].world, moments[k].lock)
  {
    if k > 0 {
      MomentsKeep(schedule, moments, k - 1);
      assert StepAt(Tick, schedule, moments, k - 1);
      if Enabled(moments[k - 1].world, schedule[k - 1]) {
        InvKept(moments[k - 1].world, moments[k - 1].lock, schedule[k - 1]);
      }
    }
  }

  /** A thread falls asleep only while the word has the value it waits on. */
  lemma SleepsOnTheWord(schedule: seq<Step>, moments: seq<Moment>, t: nat, k: nat)
    requires Recorded(Tick, schedule, moments) && Inv(moments[0].world, moments[0].lock) && k < |schedule|
    requires !Sleeping(moments[k].world, t) && Sleeping(moments[k + 1].world, t)
    ensures schedule[k] == Run(t) && Top(moments[k + 1].world.stacks, t) == Asleep(moments[k].world.word)
  {
    MomentsKeep(schedule, moments, k);
    assert StepAt(Tick, schedule, moments, k);
  }

  /** An action of thread t's running call. */
  predicate OwnTurn(a: Step, t: nat) {
    (a.Run? || a.Misfire? || a.WakeOne?) && a.t == t
  }

  /** What others can do to a call: only the kernel moves it, out of the futex queue. */
  predicate Carried(f: Frame, f': Frame) {
    f' == f || (f.Asleep? && (f' == Reload || f' == Wait(f.word)))
  }

  lemma OthersLeaveTheCall(s: State, a: Step, t: nat, below: seq<Frame>)
    requires SleepersOnTop(s) && Enabled(s, a) && Over(s.stacks, t, below)
    requires !(|s.stacks[t]| == |below| + 1 && OwnTurn(a, t))
    ensures |Apply(s, a).stacks| == |s.stacks|
    ensures Over(Apply(s, a).stacks, t, below)
    ensures Carried(s.stacks[t][|below|], Apply(s, a).stacks[t][|below|])
  {
  }

  /** While a call holds the lock, the others change neither the lock nor the counter. */
  lemma OthersLeaveTheLock(s: State, lock: Lock, a: Step, t: nat, d: nat)
    requires CallsOk(s, lock) && Enabled(s, a) && t < |s.stacks| && d < |s.stacks[t]|
    requires lock.owner == Held(t, d) && !(|s.stacks[t]| == d + 1 && OwnTurn(a, t))
    ensures After(lock, EventOf(s, a)) == lock && Apply(s, a).counter == s.counter
  {
    if a.Run? {
      assert FrameOk(lock, s.counter, a.t, |s.stacks[a.t]| - 1, Top(s.stacks, a.t));
    }
  }

  /** A holder beneath depth `d` still holds the lock while the calls beneath are the same. */
  lemma HolderBeneathStays(s: State, lock: Lock, s': State, lock': Lock, t: nat, d: nat)
    requires CallsOk(s, lock) && CallsOk(s', lock') && Beneath(lock.owner, t, d)
    requires t < |s.stacks| && t < |s'.stacks| && d <= |s.stacks[t]| && d <= |s'.stacks[t]|
    requires s.stacks[t][..d] == s'.stacks[t][..d]
    ensures Beneath(lock'.owner, t, d)
  {
    var j := lock.owner.depth;
    assert s'.stacks[t][j] == s'.stacks[t][..d][j] == s.stacks[t][j];
    assert FrameOk(lock, s.counter, t, j, s.stacks[t][j]);
    assert FrameOk(lock', s'.counter, t, j, s'.stacks[t][j]);
  }

  // ---------- the end of a call is determined ----------

  /** 0 before the critical section, 1 inside it, 2 after it. */
  function Phase(f: Frame): nat {
    if Holding(f) then 1 else if f.Wake? then 2 else 0
  }

  /** From the i-th moment to the j-th the call above `below` goes on. */
  ghost predicate GoesOn(moments: seq<Moment>, t: nat, below: seq<Frame>, i: nat, j: nat)
    requires j < |moments|
  {
    forall k :: i <= k <= j ==> Over(moments[k].world.stacks, t, below)
  }

  /** A call for the lock that was going on at the moment `since` ends at the moment n with `r`. */
  ghost predicate Ends(schedule: seq<Step>, moments: seq<Moment>, t: nat, below: seq<Frame>, since: nat,
                       r: Outcome, n: nat)
    requires |moments| == |schedule| + 1
  {
    && since <= n <= |schedule|
    && match r
       case Locked =>
         && since < n && GoesOn(moments, t, below, since, n)
         && Over(moments[n - 1].world.stacks, t, below) && Phase(moments[n - 1].world.stacks[t][|below|]) == 0
         && Over(moments[n].world.stacks, t, below) && moments[n].world.stacks[t] == below + [Begin]
       case Recursive =>
         && since < n && GoesOn(moments, t, below, since, n - 1)
         && t < |moments[n].world.stacks| && moments[n].world.stacks[t] == below
         && EventOn(moments[n - 1].world, schedule[n - 1]) == Refused(t, |below|)
       case Unfinished =>
         && n == |schedule| && GoesOn(moments, t, below, since, n)
         && Over(moments[n].world.stacks, t, below) && Phase(moments[n].world.stacks[t][|below|]) == 0
  }

  lemma PhaseRises(m: Moment, a: Step, t: nat, below: seq<Frame>)
    requires Over(m.world.stacks, t, below) && Over(Tick(m, a).world.stacks, t, below)
    ensures Phase(Tick(m, a).world.stacks[t][|below|]) >= Phase(m.world.stacks[t][|below|])
  {
  }

  lemma {:induction false} PhaseNeverFalls(schedule: seq<Step>, moments: seq<Moment>, t: nat, below: seq<Frame>,
                                           i: nat, j: nat)
    requires Recorded(Tick, schedule, moments) && i <= j <= |schedule| && GoesOn(moments, t, below, i, j)
    ensures Over(moments[i].world.stacks, t, below) && Over(moments[j].world.stacks, t, below)
    ensures Phase(moments[j].world.stacks[t][|below|]) >= Phase(moments[i].world.stacks[t][|below|])
  {
    if i < j {
      assert Over(moments[i].world.stacks, t, below);
      PhaseNeverFalls(schedule, moments, t, below, i, j - 1);
      assert StepAt(Tick, schedule, moments, j - 1) && Over(moments[j].world.stacks, t, below);
      PhaseRises(moments[j - 1], schedule[j - 1], t, below);
    } else {
      assert Over(moments[i].world.stacks, t, below);
    }
  }

  lemma NoLaterEnd(schedule: seq<Step>, moments: seq<Moment>, t: nat, below: seq<Frame>, since: nat,
                   r: Outcome, n: nat, r': Outcome, n': nat)
    requires Recorded(Tick, schedule, moments)
    requires Ends(schedule, moments, t, below, since, r, n) && Ends(schedule, moments, t, below, since, r', n')
    ensures n' <= n
  {
    if n < n' {
      var last := if r' == Unfinished then n' else n' - 1;
      assert Over(moments[n].world.stacks, t, below);
      assert GoesOn(moments, t, below, n, last);
      PhaseNeverFalls(schedule, moments, t, below, n, last);
    }
  }

  /** A call has at most one end, at one moment: two runs of the code from the same state along the same
      schedule give the same answer. */
  lemma OneEnd(schedule: seq<Step>, moments: seq<Moment>, moments': seq<Moment>, t: nat, below: seq<Frame>, since: nat,
               r: Outcome, n: nat, r': Outcome, n': nat)
    requires Recorded(Tick, schedule, moments) && Recorded(Tick, schedule, moments') && moments[0] == moments'[0]
    requires Ends(schedule, moments, t, below, since, r, n) && Ends(schedule, moments', t, below, since, r', n')
    ensures moments == moments' && r == r' && n == n'
  {
    forall k | 0 <= k < |moments| ensures moments[k] == moments'[k] {
      RecordedOnce(Tick, schedule, moments, moments', k);
    }
    assert moments == moments';
    NoLaterEnd(schedule, moments, t, below, since, r, n, r', n');
    NoLaterEnd(schedule, moments, t, below, since, r', n', r, n);
  }

  lemma RefusedAlong(m: Moment, t: nat, restart: bool)
    requires m.world.calls > 0 && Busy(m.world, t) && !Sleeping(m.world, t)
    requires m.world.word.Taken? && m.world.word.holder == t
    ensures
      var signalled := Tick(m, Signal(t, restart));
      var looked, stack := Tick(signalled, Run(t)), m.world.stacks[t];
      && Over(signalled.world.stacks, t, stack) && Over(looked.world.stacks, t, stack)
      && EventOn(looked.world, Run(t)) == Refused(t, |stack|)
      && t < |Tick(looked, Run(t)).world.stacks| && Tick(looked, Run(t)).world.stacks[t] == stack
  {
    var stack := m.world.stacks[t];
    assert stack[|stack| - 1 := Top(m.world.stacks, t)] == stack;
    var signalled := Tick(m, Signal(t, restart));
    assert signalled.world.stacks[t] == stack + [Start];
    assert Tick(signalled, Run(t)).world.stacks[t] == stack + [Check(m.world.word)];
  }

  /** A signal that lands on a holder, on any thread and after any run, is a schedule along which the
      handler's call ends with Recursive: by OneEnd that is what the code answers. */
  lemma HandlerOnHolderIsRefused(threads: nat, calls: nat, spurious: nat, run: seq<Step>,
                                 t: nat, restart: bool, moments: seq<Moment>)
    requires Exec(Init(threads, calls, spurious), run).Some?
    requires
      var s := Exec(Init(threads, calls, spurious), run).value;
      s.calls > 0 && Busy(s, t) && (var f := Top(s.stacks, t); f.Begin? || f.Update? || f.End?)
    requires Recorded(Tick, run + [Signal(t, restart)] + [Run(t)] + [Run(t)], moments)
    requires moments[0] == Moment(Init(threads, calls, spurious), UNLOCKED)
    ensures |moments| == |run| + 4
    ensures
      var s := Exec(Init(threads, calls, spurious), run).value;
      Ends(run + [Signal(t, restart)] + [Run(t)] + [Run(t)], moments, t, s.stacks[t], |run| + 1, Recursive, |run| + 3)
  {
    var s, n := Exec(Init(threads, calls, spurious), run).value, |run|;
    var all := run + [Signal(t, restart)] + [Run(t)] + [Run(t)];
    HolderIsNamed(threads, calls, spurious, run, t);
    RunIsFollowed(run, all, moments);
    assert StepAt(Tick, all, moments, n) && StepAt(Tick, all, moments, n + 1) && StepAt(Tick, all, moments, n + 2);
    assert all[n] == Signal(t, restart) && all[n + 1] == all[n + 2] == Run(t);
    RefusedAlong(moments[n], t, restart);
    RefusedIsAnEnd(all, moments, t, s.stacks[t], n + 1);
  }

  /** A run at the beginning of a schedule leads to its own last state. */
  lemma RunIsFollowed(run: seq<Step>, schedule: seq<Step>, moments: seq<Moment>)
    requires run <= schedule && Recorded(Tick, schedule, moments) && Exec(moments[0].world, run).Some?
    ensures Exec(moments[0].world, run) == Some(moments[|run|].world)
  {
    var first := moments[..|run| + 1];
    forall k | 0 <= k < |run| ensures StepAt(Tick, run, first, k) {
      assert StepAt(Tick, schedule, moments, k);
    }
    RunsAreMoments(run, first, |run|);
    assert run[..|run|] == run;
  }

  lemma RefusedIsAnEnd(schedule: seq<Step>, moments: seq<Moment>, t: nat, below: seq<Frame>, since: nat)
    requires |moments| == |schedule| + 1 && since + 2 <= |schedule|
    requires Over(moments[since].world.stacks, t, below) && Over(moments[since + 1].world.stacks, t, below)
    requires t < |moments[since + 2].world.stacks| && moments[since + 2].world.stacks[t] == below
    requires EventOn(moments[since + 1].world, schedule[since + 1]) == Refused(t, |below|)
    ensures Ends(schedule, moments, t, below, since, Recursive, since + 2)
  {
  }

  class FutexLock {
    const tids: seq<nat>                // what gettid returns on each thread
    const schedule: seq<Step>           // what will happen, in order
    ghost const moments: seq<Moment>    // and what is the case after each of its steps
    var now: nat                        // how many of them have happened
    var word: nat                       // the AtomicU32
    var item: nat                       // the protected item
    var world: State                    // every thread's calls, the kernel's queue among them
    ghost var lock: Lock                // the abstract lock

    ghost predicate Valid()
      reads this
    {
      && Recorded(Tick, schedule, moments)
      && now <= |schedule| && Moment(world, lock) == moments[now]
      && Inv(world, lock)
      && ValidTids(tids) && |tids| == |world.stacks|
      && InRange(tids, world.word)
      && word == Pack(tids, world.word)
      && item == world.counter
    }

    constructor (tids: seq<nat>, calls: nat, spurious: nat, schedule: seq<Step>)
      requires forall i :: 0 <= i < |tids| ==> 0 < tids[i] < 0x4000_0000
      requires forall i, j :: 0 <= i < j < |tids| ==> tids[i] != tids[j]
      ensures Valid() && now == 0 && word == 0 && this.tids == tids && this.schedule == schedule
      ensures world == Init(|tids|, calls, spurious) && lock == UNLOCKED
    {
      ghost var first := Moment(Init(|tids|, calls, spurious), UNLOCKED);
      ghost var recorded := Record(Tick, first, schedule);
      this.tids, this.schedule, this.moments := tids, schedule, recorded;
      this.now, this.word, this.item := 0, 0, 0;
      this.world, this.lock := Init(|tids|, calls, spurious), UNLOCKED;
      new;
      RunsRefine(|tids|, calls, spurious, []);
    }

    /** The call above `below` goes on from the i-th moment to the j-th. */
    ghost predicate Stays(t: nat, below: seq<Frame>, i: nat, j: nat)
      requires j < |moments|
    {
      GoesOn(moments, t, below, i, j)
    }

    /** At the k-th moment the call above `below` does `f`. */
    ghost predicate Does(t: nat, below: seq<Frame>, f: Frame, k: int) {
      && 0 <= k < |schedule| && k < |moments|
      && Enabled(moments[k].world, schedule[k]) && OwnTurn(schedule[k], t)
      && t < |moments[k].world.stacks| && moments[k].world.stacks[t] == below + [f]
    }

    /** What users of the lock see at the k-th moment. */
    ghost function EventAt(k: int): Event
      requires 0 <= k < |schedule| && k < |moments|
    {
      EventOn(moments[k].world, schedule[k])
    }

    /** The schedule has ended, and the call is still going on. */
    ghost predicate CutOff(t: nat, below: seq<Frame>, since: nat)
      reads this
    {
      now == |schedule| < |moments| && Stays(t, below, since, now)
    }

    /** And has not come to its critical section. */
    ghost predicate Waiting(t: nat, below: seq<Frame>, since: nat)
      reads this
    {
      && CutOff(t, below, since) && lock.owner != Held(t, |below|)
      && Over(world.stacks, t, below) && Phase(world.stacks[t][|below|]) == 0
    }

    /** The stack of thread t has the calls `below`, and on top a call about to do `f`. */
    ghost predicate At(t: nat, below: seq<Frame>, f: Frame)
      reads this
    {
      t < |world.stacks| && world.stacks[t] == below + [f]
    }

    /** The call above `below` has returned in the last step, having gone on until then. */
    ghost predicate Returned(t: nat, below: seq<Frame>, since: nat)
      reads this
    {
      && since < now <= |moments| && Stays(t, below, since, now - 1)
      && t < |world.stacks| && world.stacks[t] == below
    }

    /** The next scheduled step happens, leaving these values in memory. */
    method Advance(newWord: nat, newItem: nat)
      requires Valid() && now < |schedule| && Enabled(world, schedule[now])
      requires InRange(tids, Apply(world, schedule[now]).word)
      requires newWord == Pack(tids, Apply(world, schedule[now]).word)
      requires newItem == Apply(world, schedule[now]).counter
      requires |Apply(world, schedule[now]).stacks| == |world.stacks|
      modifies this
      ensures Valid() && now == old(now) + 1 && word == newWord && item == newItem
      ensures world == Apply(old(world), schedule[old(now)])
      ensures lock == After(old(lock), EventOf(old(world), schedule[old(now)]))
    {
      assert StepAt(Tick, schedule, moments, now);
      InvKept(world, lock, schedule[now]);
      lock := After(lock, EventOf(world, schedule[now]));
      world := Apply(world, schedule[now]);
      word, item := newWord, newItem;
      now := now + 1;
    }

    /** The next scheduled step happens if it can, and is somebody else's. */
    method Other(t: nat, ghost below: seq<Frame>)
      requires Valid() && now < |schedule| && Over(world.stacks, t, below)
      requires Enabled(world, schedule[now]) ==> !(|world.stacks[t]| == |below| + 1 && OwnTurn(schedule[now], t))
      modifies this
      ensures Valid() && now == old(now) + 1 && Over(world.stacks, t, below)
      ensures Carried(old(world.stacks[t][|below|]), world.stacks[t][|below|])
      ensures old(lock.owner) == Held(t, |below|) ==> lock == old(lock) && item == old(item)
    {
      if Enabled(world, schedule[now]) {
        OthersLeaveTheCall(world, schedule[now], t, below);
        if lock.owner == Held(t, |below|) {
          OthersLeaveTheLock(world, lock, schedule[now], t, |below|);
        }
        InvKept(world, lock, schedule[now]);
        var next := Apply(world, schedule[now]);
        Advance(Pack(tids, next.word), next.counter);
      } else {
        assert StepAt(Tick, schedule, moments, now);
        now := now + 1;
      }
    }

    /** Everybody else runs until it is the turn of thread t's running call. */
    method Await(t: nat, ghost below: seq<Frame>) returns (ready: bool)
      requires Valid() && Over(world.stacks, t, below) && |world.stacks[t]| == |below| + 1
      modifies this
      ensures Valid() && old(now) <= now && Stays(t, below, old(now), now)
      ensures Carried(old(world.stacks[t][|below|]), world.stacks[t][|below|])
      ensures lock.owner == Held(t, |below|) <==> Holding(world.stacks[t][|below|])
      ensures lock.owner == Held(t, |below|) ==> lock == old(lock) && item == old(item)
      ensures !ready ==> now == |schedule|
      ensures ready ==>
        && now < |schedule| && Enabled(world, schedule[now]) && OwnTurn(schedule[now], t)
        && |world.stacks[t]| == |below| + 1
    {
      var d := |world.stacks[t]| - 1;
      ready := false;
      assert FrameOk(lock, world.counter, t, d, world.stacks[t][d]);
      while now < |schedule| && !ready
        invariant Valid() && old(now) <= now && Stays(t, below, old(now), now)
        invariant Carried(old(world.stacks[t][|below|]), world.stacks[t][|below|])
        invariant Holding(old(world.stacks[t][|below|])) ==> lock == old(lock) && item == old(item)
        invariant ready ==>
          && now < |schedule| && Enabled(world, schedule[now]) && OwnTurn(schedule[now], t)
          && |world.stacks[t]| == d + 1
        decreases |schedule| - now, !ready
      {
        if Enabled(world, schedule[now]) && |world.stacks[t]| == d + 1 && OwnTurn(schedule[now], t) {
          ready := true;
        } else {
          assert Over(moments[now].world.stacks, t, below);
          Other(t, below);
        }
      }
      assert FrameOk(lock, world.counter, t, d, world.stacks[t][d]);
    }

    /** The running call acts: `newWord` is what the code computed. */
    method Act(t: nat, ghost below: seq<Frame>, ghost f: Frame, newWord: nat, newItem: nat)
      requires Valid() && now < |schedule| && Enabled(world, schedule[now]) && OwnTurn(schedule[now], t)
      requires At(t, below, f)
      requires InRange(tids, Apply(world, schedule[now]).word)
      requires newWord == Pack(tids, Apply(world, schedule[now]).word)
      requires newItem == Apply(world, schedule[now]).counter
      modifies this
      ensures Valid() && now == old(now) + 1 && word == newWord && item == newItem
      ensures Does(t, below, f, old(now)) && moments[old(now)] == old(Moment(world, lock))
      ensures lock == After(old(lock), EventAt(old(now)))
      ensures world == Apply(old(world), schedule[old(now)])
      ensures
        match schedule[old(now)]
        case Run(_) =>
          var next := FutexMachine.Act(old(world.word), old(world.counter), t, f).2;
          if next.Goto? then At(t, below, next.frame) && Over(world.stacks, t, below)
          else t < |world.stacks| && world.stacks[t] == below
        case Misfire(_) => At(t, below, Misfired(old(world.word), f)) && Over(world.stacks, t, below)
        case _ => t < |world.stacks| && world.stacks[t] == below
    {
      assert below + [f] == world.stacks[t];
      Advance(newWord, newItem);
    }

    /** compare_exchange_weak(0, desired), by a call about to take the free lock. */
    method TakeWord(t: nat, ghost below: seq<Frame>, ghost f: Frame, desired: nat)
      returns (x: Exchange, ghost w: Word)
      requires Valid() && At(t, below, f) && (f.Start? || f.TakeFree?)
      requires desired == Pack(tids, Taken(t, f.TakeFree?))
      modifies this
      ensures Valid() && old(now) <= now && Stays(t, below, old(now), now)
      ensures x.NoTurn? <==> CutOff(t, below, old(now)) && world.stacks[t][|below|] == f
      ensures !x.NoTurn? ==>
        && old(now) < now && Does(t, below, f, now - 1)
        && w == moments[now - 1].world.word && InRange(tids, w)
      ensures x.Done? ==>
        && w == Free && word == desired
        && At(t, below, Begin) && EventAt(now - 1) == Acquired(t, |below|) && lock.owner == Held(t, |below|)
      ensures x.Failed? ==>
        && At(t, below, Check(w)) && x.found == Pack(tids, w) == word
        && (w == Free ==> schedule[now - 1].Misfire?)
    {
      var ready := Await(t, below);
      w := world.word;
      if !ready {
        return NoTurn, w;
      }
      assert At(t, below, f);
      TestsOnPackedWords(tids, w, t);
      var found := word;
      if found == 0 && !schedule[now].Misfire? {
        Act(t, below, f, desired, item);
        x := Done;
      } else {
        Act(t, below, f, word, item);
        x := Failed(found);
      }
    }

    /** compare_exchange_weak(seen, desired), setting the WAITERS bit and leaving the holder. */
    method FlagWord(t: nat, ghost below: seq<Frame>, ghost v: Word, seen: nat, desired: nat)
      returns (x: Exchange, ghost w: Word)
      requires Valid() && At(t, below, SetFlag(v)) && v.Taken? && InRange(tids, v)
      requires seen == Pack(tids, v) && desired == Pack(tids, Taken(v.holder, true))
      modifies this
      ensures Valid() && old(now) <= now && Stays(t, below, old(now), now)
      ensures x.NoTurn? <==> CutOff(t, below, old(now)) && world.stacks[t][|below|] == SetFlag(v)
      ensures !x.NoTurn? ==>
        && old(now) < now && Does(t, below, SetFlag(v), now - 1)
        && w == moments[now - 1].world.word && InRange(tids, w)
      ensures x.Done? ==>
        w == v && word == desired && world.word == Taken(v.holder, true) && At(t, below, Wait(Taken(v.holder, true)))
      ensures x.Failed? ==>
        && At(t, below, Check(w)) && x.found == Pack(tids, w) == word
        && (w == v ==> schedule[now - 1].Misfire?)
    {
      var ready := Await(t, below);
      w := world.word;
      if !ready {
        return NoTurn, w;
      }
      assert At(t, below, SetFlag(v));
      PackInjective(tids, v, w);
      var found := word;
      if found == seen && !schedule[now].Misfire? {
        Act(t, below, SetFlag(v), desired, item);
        x := Done;
      } else {
        Act(t, below, SetFlag(v), word, item);
        x := Failed(found);
      }
    }

    /** Whether a suspended call of this thread holds the lock does not change while this call goes on. */
    lemma HeldFromTheStart(t: nat, below: seq<Frame>, r: Outcome, world0: State, lock0: AbstractLock.Lock)
      requires Valid() && CallsOk(world0, lock0) && Over(world0.stacks, t, below)
      requires r == Recursive ==>
        t < |world.stacks| && world.stacks[t] == below && Beneath(lock.owner, t, |below|)
      requires r == Locked ==> lock.owner == Held(t, |below|) && Over(world.stacks, t, below)
      ensures r == Recursive ==> Beneath(lock0.owner, t, |below|)
      ensures r == Locked ==> !Beneath(lock0.owner, t, |below|)
    {
      if r == Recursive {
        HolderBeneathStays(world, lock, world0, lock0, t, |below|);
      } else if r == Locked && Beneath(lock0.owner, t, |below|) {
        HolderBeneathStays(world0, lock0, world, lock, t, |below|);
      }
    }

    lemma EndsHere(t: nat, below: seq<Frame>, since: nat, r: Outcome)
      requires Valid() && since <= now
      requires r == Locked ==>
        && since < now && Stays(t, below, since, now)
        && At(t, below, Begin) && EventAt(now - 1) == Acquired(t, |below|)
      requires r == Recursive ==> Returned(t, below, since) && EventAt(now - 1) == Refused(t, |below|)
      requires r == Unfinished ==> Waiting(t, below, since)
      ensures Ends(schedule, moments, t, below, since, r, now)
      ensures r == Locked <==>
        && since < now && Stays(t, below, since, now)
        && At(t, below, Begin) && EventAt(now - 1) == Acquired(t, |below|)
      ensures r == Recursive <==> Returned(t, below, since) && EventAt(now - 1) == Refused(t, |below|)
      ensures r == Unfinished <==> Waiting(t, below, since)
    {
      if At(t, below, Begin) {
        HolderIsNotWaiting(t, below);
      }
      if r == Locked {
        assert Over(moments[now - 1].world.stacks, t, below) && Over(moments[now].world.stacks, t, below);
      }
    }

    lemma HolderIsNotWaiting(t: nat, below: seq<Frame>)
      requires Valid() && At(t, below, Begin)
      ensures lock.owner == Held(t, |below|) && world.stacks[t] != below
    {
      assert FrameOk(lock, world.counter, t, |below|, world.stacks[t][|below|]);
      assert |world.stacks[t]| == |below| + 1;
    }

    /** Locked: the last step took the lock. Recursive: the last step refused, and a suspended call of this
        thread held the lock all along. Otherwise the schedule has ended with the call still going on. */
    method RawLock(t: nat, ghost below: seq<Frame>) returns (r: Outcome)
      requires Valid() && At(t, below, Start)
      modifies this
      ensures Valid() && old(now) <= now
      ensures r == Locked <==>
        && old(now) < now && Stays(t, below, old(now), now)
        && At(t, below, Begin) && EventAt(now - 1) == Acquired(t, |below|)
      ensures r == Recursive <==> Returned(t, below, old(now)) && EventAt(now - 1) == Refused(t, |below|)
      ensures r == Unfinished <==> Waiting(t, below, old(now))
      ensures Ends(schedule, moments, t, below, old(now), r, now)
      ensures r == Locked ==> !old(Beneath(lock.owner, t, |below|)) && lock.owner == Held(t, |below|)
      ensures r == Recursive ==> old(Beneath(lock.owner, t, |below|)) && Beneath(lock.owner, t, |below|)
    {
      ghost var world0, lock0 := world, lock;
      r := TakeOrContend(t, below);
      EndsHere(t, below, old(now), r);
      HeldFromTheStart(t, below, r, world0, lock0);
    }

    method TakeOrContend(t: nat, ghost below: seq<Frame>) returns (r: Outcome)
      requires Valid() && At(t, below, Start)
      modifies this
      ensures Valid() && old(now) <= now
      ensures r == Locked ==>
        && old(now) < now && Stays(t, below, old(now), now) && lock.owner == Held(t, |below|)
        && At(t, below, Begin) && EventAt(now - 1) == Acquired(t, |below|)
      ensures r == Recursive ==>
        Returned(t, below, old(now)) && EventAt(now - 1) == Refused(t, |below|) && Beneath(lock.owner, t, |below|)
      ensures r == Unfinished ==> Waiting(t, below, old(now))
    {
      var tid := tids[t];
      var x, w := TakeWord(t, below, Start, tid);
      match x {
        case Done => r := Locked;
        case Failed(found) => r := RawLockContended(t, found, below, w);
        case NoTurn => r := Unfinished;
      }
    }

    /** The futex wait system call: sleep if the word still has the value `val`, until woken, interrupted
        or spuriously awake. A handler can make the kernel start the wait again. `tried` is when the wait
        was last started: SleepsOnTheWord says that it slept only on `val`. */
    method FutexWait(t: nat, val: nat, ghost below: seq<Frame>, ghost w: Word)
      returns (ready: bool, ghost tried: nat)
      requires Valid() && At(t, below, Wait(w)) && InRange(tids, w) && val == Pack(tids, w)
      modifies this
      ensures Valid() && old(now) <= now && Stays(t, below, old(now), now)
      ensures !ready ==> Waiting(t, below, old(now))
      ensures ready ==>
        && At(t, below, Reload) && now < |schedule| && Enabled(world, schedule[now]) && OwnTurn(schedule[now], t)
        && old(now) <= tried < now && Does(t, below, Wait(w), tried)
    {
      tried := now;
      while true
        invariant Valid() && old(now) <= now && Stays(t, below, old(now), now)
        invariant At(t, below, Wait(w)) || At(t, below, Asleep(w)) || At(t, below, Reload)
        invariant At(t, below, Wait(w)) || (old(now) <= tried < now && Does(t, below, Wait(w), tried))
        decreases |schedule| - now
      {
        ready := Await(t, below);
        if !ready {
          return;
        }
        assert At(t, below, Wait(w)) || At(t, below, Asleep(w)) || At(t, below, Reload);
        var f := Top(world.stacks, t);
        if f == Reload {
          return;
        }
        assert At(t, below, f);
        PackInjective(tids, w, world.word);
        assert f.Wait? && schedule[now].Run? ==> (word == val <==> world.word == w);
        if f.Wait? {
          tried := now;
        }
        Act(t, below, f, word, item);
      }
    }

    /** wait(val), last started at the moment `tried`, and the load after it: `w` is the word loaded. */
    method WaitAndReload(t: nat, val: nat, ghost below: seq<Frame>, ghost v: Word)
      returns (x: Exchange, ghost w: Word, ghost tried: nat)
      requires Valid() && At(t, below, Wait(v)) && InRange(tids, v) && val == Pack(tids, v)
      modifies this
      ensures Valid() && old(now) <= now && Stays(t, below, old(now), now) && !x.Done?
      ensures x.NoTurn? ==> Waiting(t, below, old(now))
      ensures x.Failed? ==>
        && old(now) < now && Does(t, below, Reload, now - 1) && w == moments[now - 1].world.word
        && At(t, below, Check(w)) && InRange(tids, w) && x.found == Pack(tids, w) == word
        && old(now) <= tried < now - 1 && Does(t, below, Wait(v), tried)
    {
      var ready;
      ready, tried := FutexWait(t, val, below, v);
      w := world.word;
      if !ready {
        return NoTurn, w, tried;
      }
      x := Failed(word);
      Act(t, below, Reload, word, item);
    }

    /** The head of the loop, branching on the local copy of the word. */
    method Branch(t: nat, ghost below: seq<Frame>, ghost w: Word) returns (ready: bool)
      requires Valid() && At(t, below, Check(w))
      modifies this
      ensures Valid() && old(now) <= now
      ensures !ready ==> Waiting(t, below, old(now))
      ensures ready && w.Taken? && w.holder == t ==>
        Returned(t, below, old(now)) && EventAt(now - 1) == Refused(t, |below|) && Beneath(lock.owner, t, |below|)
      ensures ready && !(w.Taken? && w.holder == t) ==>
        && old(now) < now && Stays(t, below, old(now), now)
        && At(t, below, if w == Free then TakeFree else if w.waiters then Wait(w) else SetFlag(w))
    {
      ready := Await(t, below);
      if ready {
        assert At(t, below, Check(w));
        Act(t, below, Check(w), word, item);
      }
    }

    /** The exchange at the moment k sets WAITERS in the word `w`, leaving its holder. */
    ghost predicate FlagsAt(t: nat, below: seq<Frame>, w: Word, k: nat)
      requires w.Taken?
    {
      && Does(t, below, SetFlag(w), k) && k + 1 < |moments|
      && moments[k].world.word == w && moments[k + 1].world.word == Taken(w.holder, true)
    }

    /** The rest of the loop's body, when another thread holds the lock. It waits, from the moment `tried`
        on, for a word with WAITERS set, having set it at the moment `flagged` unless it was; and comes back
        with the word as it then is, or with the one that made the exchange fail. */
    method FlagAndWait(t: nat, seen: nat, ghost below: seq<Frame>, ghost w: Word)
      returns (x: Exchange, ghost v: Word, ghost waited: bool, ghost flagged: nat, ghost tried: nat)
      requires Valid() && w.Taken? && At(t, below, if w.waiters then Wait(w) else SetFlag(w))
      requires InRange(tids, w) && seen == Pack(tids, w)
      modifies this
      ensures Valid() && old(now) <= now && Stays(t, below, old(now), now) && !x.Done?
      ensures x.NoTurn? ==> Waiting(t, below, old(now))
      ensures x.Failed? ==>
        && old(now) < now && At(t, below, Check(v)) && InRange(tids, v) && x.found == Pack(tids, v) == word
        && v == moments[now - 1].world.word
      ensures x.Failed? && waited ==>
        && Does(t, below, Reload, now - 1)
        && old(now) <= tried < now - 1 && Does(t, below, Wait(Taken(w.holder, true)), tried)
        && (!w.waiters ==> old(now) <= flagged < tried && FlagsAt(t, below, w, flagged))
      ensures x.Failed? && !waited ==> !w.waiters && Does(t, below, SetFlag(w), now - 1)
    {
      TestsOnPackedWords(tids, w, w.holder);
      SettingTheBit(tids, w.holder, w.waiters);
      var val := seen;
      waited, flagged, tried := false, now, now;
      if And(seen, FUTEX_WAITERS) == 0 {
        x, v := FlagWord(t, below, w, seen, Or(seen, FUTEX_WAITERS));
        if !x.Done? {
          return;
        }
        flagged := now - 1;
        val := Or(seen, FUTEX_WAITERS);
      }
      waited := true;
      x, v, tried := WaitAndReload(t, val, below, Taken(w.holder, true));
    }

    /** The loop's body after its head. */
    method TakeOrWait(t: nat, seen: nat, ghost below: seq<Frame>, ghost w: Word) returns (x: Exchange, ghost v: Word)
      requires Valid() && At(t, below, if w == Free then TakeFree else if w.waiters then Wait(w) else SetFlag(w))
      requires InRange(tids, w) && seen == Pack(tids, w) && t < |tids|
      modifies this
      ensures Valid() && old(now) <= now && Stays(t, below, old(now), now)
      ensures x.NoTurn? ==> Waiting(t, below, old(now))
      ensures x.Done? ==>
        && w == Free && old(now) < now && lock.owner == Held(t, |below|)
        && At(t, below, Begin) && EventAt(now - 1) == Acquired(t, |below|)
      ensures x.Failed? ==>
        && old(now) < now && At(t, below, Check(v)) && InRange(tids, v) && x.found == Pack(tids, v) == word
    {
      TestsOnPackedWords(tids, w, t);
      if seen == 0 {
        SettingTheBit(tids, t, false);
        x, v := TakeWord(t, below, TakeFree, Or(tids[t], FUTEX_WAITERS));
      } else {
        ghost var waited, flagged, tried;
        x, v, waited, flagged, tried := FlagAndWait(t, seen, below, w);
      }
    }

    method RawLockContended(t: nat, word0: nat, ghost below: seq<Frame>, ghost w0: Word) returns (r: Outcome)
      requires Valid() && At(t, below, Check(w0)) && InRange(tids, w0) && word0 == Pack(tids, w0)
      modifies this
      ensures Valid() && old(now) <= now
      ensures r == Locked ==>
        && old(now) < now && Stays(t, below, old(now), now) && lock.owner == Held(t, |below|)
        && At(t, below, Begin) && EventAt(now - 1) == Acquired(t, |below|)
      ensures r == Recursive ==>
        Returned(t, below, old(now)) && EventAt(now - 1) == Refused(t, |below|) && Beneath(lock.owner, t, |below|)
      ensures r == Unfinished ==> Waiting(t, below, old(now))
    {
      var tid := tids[t];
      var seen := word0;
      ghost var w := w0;
      while true
        invariant Valid() && old(now) <= now && Stays(t, below, old(now), now)
        invariant At(t, below, Check(w)) && InRange(tids, w) && seen == Pack(tids, w)
        decreases |schedule| - now
      {
        TestsOnPackedWords(tids, w, t);
        var ready := Branch(t, below, w);
        if !ready {
          return Unfinished;
        }
        if And(seen, FUTEX_TID_MASK) == tid {
          return Recursive;
        }
        var x, v := TakeOrWait(t, seen, below, w);
        match x {
          case Done => return Locked;
          case Failed(found) => seen, w := found, v;
          case NoTurn => return Unfinished;
        }
      }
    }

    /** The critical section: read the item, let anything happen, write it back incremented. Nobody else
        can change it in between. */
    method Increment(t: nat, ghost below: seq<Frame>) returns (ready: bool)
      requires Valid() && At(t, below, Begin)
      modifies this
      ensures Valid() && old(now) <= now && Stays(t, below, old(now), now)
      ensures lock == old(lock) && lock.owner == Held(t, |below|)
      ensures ready ==> At(t, below, End) && item == old(item) + 1 && Does(t, below, Update(old(item)), now - 1)
      ensures !ready ==> CutOff(t, below, old(now)) && item == old(item)
    {
      ready := Await(t, below);
      if !ready {
        return;
      }
      assert At(t, below, Begin);
      var seen := item;
      Act(t, below, Begin, word, item);
      ready := Await(t, below);
      if !ready {
        return;
      }
      assert At(t, below, Update(seen));
      Act(t, below, Update(seen), word, seen + 1);
    }

    /** The swap releases the lock at the moment `swap`; both debug checks of the source are proved. The
        call wakes exactly if the word that it swapped out had WAITERS set. */
    method RawUnlock(t: nat, ghost below: seq<Frame>) returns (ready: bool, ghost swap: nat)
      requires Valid() && At(t, below, End)
      modifies this
      ensures Valid() && old(now) <= now
      ensures ready <==> Returned(t, below, old(now))
      ensures !ready ==> CutOff(t, below, old(now))
      ensures ready ==>
        && old(now) <= swap < now && Does(t, below, End, swap) && EventAt(swap) == Released(t, |below|)
        && moments[swap].world.word.Taken? && moments[swap + 1].world.word == Free
        && moments[swap + 1].lock == Lock(Nobody, old(lock.value) + 1)
        && if moments[swap].world.word.waiters then swap < now - 1 && WakesAt(t, below, now - 1) else swap == now - 1
    {
      var tid := tids[t];
      swap := now;
      ready := Await(t, below);
      if !ready {
        return;
      }
      assert At(t, below, End);
      TestsOnPackedWords(tids, world.word, t);
      var prev := word;
      swap := now;
      Act(t, below, End, 0, item);
      assert And(prev, FUTEX_TID_MASK) == tid;
      if prev != tid {
        SettingTheBit(tids, t, false);
        assert prev == Or(tid, FUTEX_WAITERS);
        ready := RawUnlockWake(t, below);
      }
    }

    /** At the k-th moment the call's futex wake takes a sleeper off the queue, if there is one. */
    ghost predicate WakesAt(t: nat, below: seq<Frame>, k: int) {
      && Does(t, below, Wake, k)
      && match schedule[k]
         case WakeOne(_, p) => Sleeping(moments[k].world, p) && k + 1 < |moments| && !Sleeping(moments[k + 1].world, p)
         case _ => !AnySleeper(moments[k].world)
    }

    /** The owed wake, however many handlers run and sleep before it is issued. */
    method RawUnlockWake(t: nat, ghost below: seq<Frame>) returns (ready: bool)
      requires Valid() && At(t, below, Wake)
      modifies this
      ensures Valid() && old(now) <= now
      ensures ready <==> Returned(t, below, old(now))
      ensures !ready ==> CutOff(t, below, old(now))
      ensures ready ==> WakesAt(t, below, now - 1)
    {
      ready := Await(t, below);
      if !ready {
        return;
      }
      assert At(t, below, Wake);
      Act(t, below, Wake, word, item);
    }
  }
}
