/** Why PipeLock's two fences are enough under weak memory. Executions are those allowed by section 31.4
    [atomics.order] of ISO/IEC 14882:2020 (C++20): each atomic object has a modification order, each load
    reads from one place in it, and the sequentially consistent fences have a single total order S that
    must agree with happens-before and coherence-ordered-before as paragraphs 3 and 4 say. */
module FenceOrder {
  import opened Wrappers

  datatype Object = HolderTid | Waiters

  /** Place 0 of a modification order is the initial value, place k the k-th modification.
      `Modify` is a successful read-modify-write: it reads place `at - 1`. */
  datatype Op =
    | Load(obj: Object, from: nat)
    | Modify(obj: Object, at: nat)
    | Fence(rank: nat)                // its place in S

  /** What the k-th modification of `waiters` is: fetch_add or fetch_sub of a locker. */
  datatype Change = Registers(locker: nat) | Deregisters(locker: nat)

  /** A call of lock_contended: fetch_add, fence, the CASes that fail, and the fetch_sub if it gets there. */
  datatype Locker = Locker(add: nat, fence: nat, cases: seq<nat>, sub: Option<nat>)

  /** From the CAS that takes the lock to the swap that frees it; an uncontended holder then fences and
      loads `waiters`, a contended one writes a byte without looking. */
  datatype Hold = Hold(take: nat, free: nat, contended: bool, fence: nat, load: nat)

  datatype Execution = Execution(
    ops: seq<Op>,
    happensBefore: set<(nat, nat)>,
    changes: seq<Change>,             // the modification order of `waiters`
    lockers: seq<Locker>,
    holds: seq<Hold>)

  ghost predicate HB(x: Execution, a: nat, b: nat) {
    a < |x.ops| && b < |x.ops| && (a, b) in x.happensBefore
  }

  /** The first three cases of paragraph 3; leaving out the closure under transitivity only lets more
      executions through. */
  ghost predicate CoherenceOrderedBefore(x: Execution, a: nat, b: nat) {
    && a < |x.ops| && b < |x.ops| && a != b
    && !x.ops[a].Fence? && !x.ops[b].Fence? && x.ops[a].obj == x.ops[b].obj
    && match (x.ops[a], x.ops[b])
       case (Modify(_, i), Load(_, j)) => i == j
       case (Modify(_, i), Modify(_, j)) => i < j
       case (Load(_, i), Modify(_, j)) => i < j
       case _ => false
  }

  /** Paragraph 4: a fence before `a` precedes in S a fence after `b`. */
  ghost predicate FencesAgree(x: Execution) {
    forall f: nat, a: nat, b: nat, g: nat ::
      HB(x, f, a) && CoherenceOrderedBefore(x, a, b) && HB(x, b, g) && x.ops[f].Fence? && x.ops[g].Fence? ==>
        x.ops[f].rank < x.ops[g].rank
  }

  /** Write-write coherence ([intro.races]): modifications of an object happen in modification order. */
  ghost predicate WritesAgree(x: Execution) {
    forall a: nat, b: nat :: HB(x, a, b) && x.ops[a].Modify? && x.ops[b].Modify? && x.ops[a].obj == x.ops[b].obj ==>
      x.ops[a].at < x.ops[b].at
  }

  /** Event `e` is the modification of `waiters` labelled `c`. */
  ghost predicate Changes(x: Execution, e: nat, c: Change) {
    && e < |x.ops| && x.ops[e].Modify? && x.ops[e].obj == Waiters
    && 1 <= x.ops[e].at <= |x.changes| && x.changes[x.ops[e].at - 1] == c
  }

  ghost predicate LockerRuns(x: Execution, l: nat)
    requires l < |x.lockers|
  {
    var k := x.lockers[l];
    && Changes(x, k.add, Registers(l))
    && HB(x, k.add, k.fence) && x.ops[k.fence].Fence?
    && (forall c <- k.cases :: HB(x, k.fence, c) && x.ops[c].Load? && x.ops[c].obj == HolderTid)
    && (k.sub.Some? ==> Changes(x, k.sub.value, Deregisters(l)) && HB(x, k.add, k.sub.value))
  }

  ghost predicate HoldRuns(x: Execution, h: nat)
    requires h < |x.holds|
  {
    var k := x.holds[h];
    && HB(x, k.take, k.free)
    && x.ops[k.take].Modify? && x.ops[k.take].obj == HolderTid
    && x.ops[k.free].Modify? && x.ops[k.free].obj == HolderTid
    && (!k.contended ==>
        && HB(x, k.free, k.fence) && x.ops[k.fence].Fence?
        && HB(x, k.fence, k.load) && x.ops[k.load].Load? && x.ops[k.load].obj == Waiters
        && x.ops[k.load].from <= |x.changes|)
  }

  /** Every change of `waiters` is made by the code of one locker, which adds once and subtracts once. */
  ghost predicate ChangesAreTheLockers(x: Execution) {
    forall i :: 0 <= i < |x.changes| ==>
      var l := x.changes[i].locker;
      && l < |x.lockers|
      && match x.changes[i]
         case Registers(_) => At(x, x.lockers[l].add) == i + 1
         case Deregisters(_) => x.lockers[l].sub.Some? && At(x, x.lockers[l].sub.value) == i + 1
  }

  function At(x: Execution, e: nat): nat {
    if e < |x.ops| && x.ops[e].Modify? then x.ops[e].at else 0
  }

  /** What the program and the other axioms demand, whatever the fences do. */
  ghost predicate Plausible(x: Execution) {
    && WritesAgree(x) && ChangesAreTheLockers(x)
    && (forall l :: 0 <= l < |x.lockers| ==> LockerRuns(x, l))
    && (forall h :: 0 <= h < |x.holds| ==> HoldRuns(x, h))
  }

  ghost predicate Allowed(x: Execution) {
    Plausible(x) && FencesAgree(x)
  }

  // ---------- the value of `waiters` ----------

  /** The sum of the changes, in modification order. */
  function Value(changes: seq<Change>): int {
    if changes == [] then 0
    else Value(changes[..|changes| - 1]) + if changes[|changes| - 1].Registers? then 1 else -1
  }

  /** The lockers between their fetch_add and their fetch_sub. */
  function Registered(changes: seq<Change>): set<nat> {
    if changes == [] then {}
    else
      var before, last := Registered(changes[..|changes| - 1]), changes[|changes| - 1];
      if last.Registers? then before + {last.locker} else before - {last.locker}
  }

  /** A locker's changes have one place each, the fetch_sub after the fetch_add. */
  lemma Places(x: Execution, l: nat, k: nat)
    requires Plausible(x) && l < |x.lockers| && 1 <= k <= |x.changes|
    ensures At(x, x.lockers[l].add) == k <==> x.changes[k - 1] == Registers(l)
    ensures Subtracted(x, l, k) && !Subtracted(x, l, k - 1) <==> x.changes[k - 1] == Deregisters(l)
    ensures Subtracted(x, l, k) ==> 1 <= At(x, x.lockers[l].add) < k
  {
    assert LockerRuns(x, l);
  }

  ghost predicate Subtracted(x: Execution, l: nat, k: nat)
    requires l < |x.lockers|
  {
    x.lockers[l].sub.Some? && At(x, x.lockers[l].sub.value) <= k
  }

  ghost predicate Open(x: Execution, l: nat, k: nat)
    requires l < |x.lockers|
  {
    At(x, x.lockers[l].add) <= k && !Subtracted(x, l, k)
  }

  ghost predicate OpenAfter(x: Execution, l: nat, k: nat)
    requires l < |x.lockers| && 1 <= k <= |x.changes|
  {
    x.changes[k - 1] == Registers(l) || (Open(x, l, k - 1) && x.changes[k - 1] != Deregisters(l))
  }

  lemma OpenSteps(x: Execution, l: nat, k: nat)
    requires Plausible(x) && l < |x.lockers| && 1 <= k <= |x.changes|
    ensures Open(x, l, k) <==> OpenAfter(x, l, k)
    ensures x.changes[k - 1] == Registers(l) ==> !Open(x, l, k - 1)
    ensures x.changes[k - 1] == Deregisters(l) ==> Open(x, l, k - 1)
  {
    Places(x, l, k);
  }

  /** At the k-th place of the modification order, which lockers are registered. */
  lemma {:induction false} RegisteredAreOpen(x: Execution, k: nat, l: nat)
    requires Plausible(x) && k <= |x.changes|
    ensures l in Registered(x.changes[..k]) <==> l < |x.lockers| && Open(x, l, k)
  {
    if k == 0 {
      if l < |x.lockers| {
        assert LockerRuns(x, l);
      }
    } else {
      RegisteredAreOpen(x, k - 1, l);
      assert x.changes[..k][..k - 1] == x.changes[..k - 1];
      assert x.changes[k - 1].locker < |x.lockers|;
      if l < |x.lockers| {
        OpenSteps(x, l, k);
      }
    }
  }

  lemma OneMore(s: set<nat>, l: nat)
    ensures l !in s ==> |s + {l}| == |s| + 1
    ensures l in s ==> |s - {l}| == |s| - 1
  {
  }

  /** A change adds a locker that is not registered, or removes one that is. */
  lemma ChangeCounts(x: Execution, k: nat)
    requires Plausible(x) && 1 <= k <= |x.changes|
    ensures |Registered(x.changes[..k])| - |Registered(x.changes[..k - 1])|
         == if x.changes[k - 1].Registers? then 1 else -1
  {
    var l := x.changes[k - 1].locker;
    assert x.changes[..k][..k - 1] == x.changes[..k - 1];
    RegisteredAreOpen(x, k - 1, l);
    OpenSteps(x, l, k);
    OneMore(Registered(x.changes[..k - 1]), l);
  }

  lemma {:induction false} ValueIsTheirNumber(x: Execution, k: nat)
    requires Plausible(x) && k <= |x.changes|
    ensures Value(x.changes[..k]) == |Registered(x.changes[..k])|
  {
    if k > 0 {
      ValueIsTheirNumber(x, k - 1);
      assert x.changes[..k][..k - 1] == x.changes[..k - 1];
      ChangeCounts(x, k);
    }
  }

  /** At every place of its modification order `waiters` is the number of the lockers registered there. */
  lemma ValueCountsTheRegistered(x: Execution, k: nat)
    requires Plausible(x) && k <= |x.changes|
    ensures forall l: nat :: l in Registered(x.changes[..k]) <==> l < |x.lockers| && Open(x, l, k)
    ensures Value(x.changes[..k]) == |Registered(x.changes[..k])|
  {
    ValueIsTheirNumber(x, k);
    forall l: nat ensures l in Registered(x.changes[..k]) <==> l < |x.lockers| && Open(x, l, k) {
      RegisteredAreOpen(x, k, l);
    }
  }

  // ---------- the theorem ----------

  /** The `B` of a locker reads the `X` of a hold: the CAS fails on that holder's tid. */
  ghost predicate FailsOn(x: Execution, l: nat, c: nat, h: nat)
    requires Plausible(x) && l < |x.lockers| && h < |x.holds|
  {
    c in x.lockers[l].cases && c < |x.ops| && x.ops[c].Load? && x.ops[c].from == At(x, x.holds[h].take)
  }

  /** The unlocker writes a byte. */
  ghost predicate Wakes(x: Execution, h: nat)
    requires Plausible(x) && h < |x.holds|
  {
    assert HoldRuns(x, h);
    x.holds[h].contended || Value(x.changes[..x.ops[x.holds[h].load].from]) > 0
  }

  /** The load of an uncontended unlocker reads the locker's fetch_add or a later value. */
  lemma LoadSeesTheLocker(x: Execution, l: nat, c: nat, h: nat)
    requires Allowed(x) && l < |x.lockers| && h < |x.holds| && FailsOn(x, l, c, h) && !x.holds[h].contended
    ensures x.holds[h].load < |x.ops| && x.ops[x.holds[h].load].Load?
    ensures x.ops[x.holds[h].load].from >= At(x, x.lockers[l].add)
  {
    var locker, hold := x.lockers[l], x.holds[h];
    assert LockerRuns(x, l) && HoldRuns(x, h);
    assert HB(x, locker.fence, c) && CoherenceOrderedBefore(x, c, hold.free) && HB(x, hold.free, hold.fence);
    if x.ops[hold.load].from < At(x, locker.add) {
      assert HB(x, hold.fence, hold.load) && CoherenceOrderedBefore(x, hold.load, locker.add);
    }
  }

  /** No missed waiter, for any number of lockers and unlockers: if a locker is about to wait because of a
      hold, the end of that hold wakes, unless it already sees that the locker has stopped waiting. */
  lemma NoMissedWaiter(x: Execution, l: nat, c: nat, h: nat)
    requires Allowed(x) && l < |x.lockers| && h < |x.holds| && FailsOn(x, l, c, h)
    ensures
      || Wakes(x, h)
      || (x.lockers[l].sub.Some? && !x.holds[h].contended
          && x.holds[h].load < |x.ops| && x.ops[x.holds[h].load].Load?
          && x.ops[x.holds[h].load].from >= At(x, x.lockers[l].sub.value))
  {
    if !x.holds[h].contended {
      LoadSeesTheLocker(x, l, c, h);
      assert HoldRuns(x, h);
      var k := x.ops[x.holds[h].load].from;
      ValueCountsTheRegistered(x, k);
      assert Open(x, l, k) ==> l in Registered(x.changes[..k]);
    }
  }

  /** One locker and one uncontended unlocker; the CAS fails on the hold, and the unlocker's load reads
      place `from` of `waiters`. The two fences are ordered in S as given. */
  function OneOfEach(from: nat, lockerFence: nat, holderFence: nat): Execution {
    Execution(
      [Modify(Waiters, 1), Fence(lockerFence), Load(HolderTid, 1),
       Modify(HolderTid, 1), Modify(HolderTid, 2), Fence(holderFence), Load(Waiters, from)],
      {(0, 1), (1, 2), (0, 2), (3, 4), (4, 5), (3, 5), (5, 6), (4, 6), (3, 6)},
      [Registers(0)],
      [Locker(0, 1, [2], None)],
      [Hold(3, 4, false, 5, 6)])
  }

  lemma OneOfEachIsPlausible(from: nat, lockerFence: nat, holderFence: nat)
    requires from <= 1
    ensures Plausible(OneOfEach(from, lockerFence, holderFence))
  {
  }

  /** Without the rule for fences the wake is missed; with it, exactly the execution that sees the
      locker remains. */
  lemma TheFencesDecide(from: nat, lockerFence: nat, holderFence: nat)
    requires from <= 1
    ensures Plausible(OneOfEach(from, lockerFence, holderFence))
    ensures FailsOn(OneOfEach(from, lockerFence, holderFence), 0, 2, 0)
    ensures Wakes(OneOfEach(from, lockerFence, holderFence), 0) <==> from == 1
    ensures Allowed(OneOfEach(from, lockerFence, holderFence)) <==> from == 1 && lockerFence < holderFence
  {
    OneOfEachIsPlausible(from, lockerFence, holderFence);
    var x := OneOfEach(from, lockerFence, holderFence);
    assert Value([Registers(0)]) == 1 && Value([]) == 0;
    assert x.changes[..from] == if from == 1 then [Registers(0)] else [];
    assert HB(x, 1, 2) && CoherenceOrderedBefore(x, 2, 4) && HB(x, 4, 5);
    if from == 0 {
      assert HB(x, 5, 6) && CoherenceOrderedBefore(x, 6, 0) && HB(x, 0, 1);
    }
  }

  /** All is done in one order, that of the positions: loads read the latest modification before them. */
  ghost predicate Sequential(x: Execution) {
    && (forall a: nat, b: nat :: HB(x, a, b) ==> a < b)
    && (forall a: nat, b: nat :: a < b < |x.ops| ==> InOrder(x.ops[a], x.ops[b]))
  }

  predicate InOrder(earlier: Op, later: Op) {
    match (earlier, later)
    case (Fence(r), Fence(s)) => r < s
    case (Modify(o, i), Modify(p, j)) => o == p ==> i < j
    case (Modify(o, i), Load(p, j)) => o == p ==> i <= j
    case (Load(o, i), Modify(p, j)) => o == p ==> i < j
    case (Load(o, i), Load(p, j)) => o == p ==> i <= j
    case _ => true
  }

  /** The axioms forbid no sequentially consistent execution, of any length. */
  lemma SequentialIsAllowed(x: Execution)
    requires Sequential(x)
    ensures WritesAgree(x) && FencesAgree(x)
  {
    forall f: nat, a: nat, b: nat, g: nat |
      HB(x, f, a) && CoherenceOrderedBefore(x, a, b) && HB(x, b, g) && x.ops[f].Fence? && x.ops[g].Fence?
      ensures x.ops[f].rank < x.ops[g].rank
    {
      assert InOrder(x.ops[f], x.ops[g]);
    }
    forall a: nat, b: nat | HB(x, a, b) && x.ops[a].Modify? && x.ops[b].Modify? && x.ops[a].obj == x.ops[b].obj
      ensures x.ops[a].at < x.ops[b].at
    {
      assert InOrder(x.ops[a], x.ops[b]);
    }
  }

  /** Locker 0 fails on hold 0, takes the lock when that is over, and deregisters before the unlocker
      looks; locker 1 then fails on the contended hold of locker 0. */
  function TwoOfEach(): Execution {
    Execution(
      [Modify(HolderTid, 1), Modify(Waiters, 1), Fence(0), Load(HolderTid, 1), Modify(HolderTid, 2),
       Modify(HolderTid, 3), Modify(Waiters, 2), Fence(1), Load(Waiters, 2),
       Modify(Waiters, 3), Fence(2), Load(HolderTid, 3), Modify(HolderTid, 4)],
      {(0, 4), (4, 7), (7, 8), (1, 2), (2, 3), (1, 6), (9, 10), (10, 11), (5, 12)},
      [Registers(0), Deregisters(0), Registers(1)],
      [Locker(1, 2, [3], Some(6)), Locker(9, 10, [11], None)],
      [Hold(0, 4, false, 7, 8), Hold(5, 12, true, 0, 0)])
  }

  lemma TwoOfEachIsSequential()
    ensures Sequential(TwoOfEach())
  {
    var x := TwoOfEach();
    forall a: nat, b: nat | a < b < |x.ops| ensures InOrder(x.ops[a], x.ops[b]) {
      TwoOfEachInOrder(a, b);
    }
  }

  lemma TwoOfEachInOrder(a: nat, b: nat)
    requires a < b < |TwoOfEach().ops|
    ensures InOrder(TwoOfEach().ops[a], TwoOfEach().ops[b])
  {
  }

  lemma TwoOfEachLock()
    ensures forall l :: 0 <= l < |TwoOfEach().lockers| ==> LockerRuns(TwoOfEach(), l)
    ensures forall h :: 0 <= h < |TwoOfEach().holds| ==> HoldRuns(TwoOfEach(), h)
  {
  }

  lemma TwoOfEachCount()
    ensures ChangesAreTheLockers(TwoOfEach())
  {
  }

  /** Both ways out of NoMissedWaiter are real: the end of hold 0 wakes nobody, having seen that locker 0
      waits no more, and the end of hold 1 wakes without looking. */
  lemma BothWaysOut()
    ensures Allowed(TwoOfEach())
    ensures FailsOn(TwoOfEach(), 0, 3, 0) && !Wakes(TwoOfEach(), 0)
    ensures FailsOn(TwoOfEach(), 1, 11, 1) && Wakes(TwoOfEach(), 1)
  {
    var x := TwoOfEach();
    TwoOfEachIsSequential();
    SequentialIsAllowed(x);
    TwoOfEachLock();
    TwoOfEachCount();
    assert x.changes[..2] == [Registers(0)] + [Deregisters(0)];
    assert ([Registers(0)] + [Deregisters(0)])[..1] == [Registers(0)] && Value([Registers(0)]) == 1;
  }
}
