/** The registry of mappings: a map from start address to entry, searched through one predecessor only. */
module IntervalIndex {
  import opened Wrappers
  import opened Bits

  datatype Entry<S> = Entry(start: nat, len: nat, prot: int, state: S)

  /** `range(..=a).next_back()`: the greatest key up to `a`. */
  function Predecessor(keys: set<nat>, a: nat): Option<nat> {
    if a in keys then Some(a) else if a == 0 then None else Predecessor(keys, a - 1)
  }

  lemma {:induction false} PredecessorIsGreatest(keys: set<nat>, a: nat)
    ensures match Predecessor(keys, a)
            case None => forall k <- keys :: k > a
            case Some(p) => p in keys && p <= a && forall k <- keys :: k <= a ==> k <= p
  {
    if a !in keys && a > 0 {
      PredecessorIsGreatest(keys, a - 1);
    }
  }

  predicate Contains<S>(e: Entry<S>, addr: nat) {
    e.start <= addr < e.start + e.len
  }

  predicate Intersects<S>(e: Entry<S>, addr: nat, len: nat) {
    e.start < addr + len && addr < e.start + e.len
  }

  /** Entries are filed under their start, are not empty, do not overflow, and do not overlap. */
  predicate WellFormed<S>(m: map<nat, Entry<S>>) {
    && (forall k <- m :: m[k].start == k && m[k].len > 0 && k + m[k].len <= USIZE_MAX)
    && (forall j, k :: j in m && k in m && j < k ==> j + m[j].len <= k)
  }

  /** The key of the mapping that includes `addr`. */
  function LookupAddr<S>(m: map<nat, Entry<S>>, addr: nat): Option<nat> {
    match Predecessor(m.Keys, addr)
    case Some(k) => if k in m && addr >= k && addr < k + m[k].len then Some(k) else None
    case None => None
  }

  /** The key of a mapping that would overlap with (addr, len). */
  function LookupOverlap<S>(m: map<nat, Entry<S>>, addr: nat, len: nat): Option<nat>
    requires len > 0
  {
    var endAddr := addr + len - 1;
    match Predecessor(m.Keys, endAddr)
    case Some(k) => if k in m && addr < k + m[k].len && addr + len > k then Some(k) else None
    case None => None
  }

  /** Looking at one entry finds the entry, whenever there is one; and there is at most one. */
  lemma LookupAddrIsAFullScan<S>(m: map<nat, Entry<S>>, addr: nat)
    requires WellFormed(m)
    ensures forall k :: k in m && Contains(m[k], addr) <==> LookupAddr(m, addr) == Some(k)
    ensures forall k :: k in m && m[k].start <= addr < m[k].start + m[k].len <==> LookupAddr(m, addr) == Some(k)
  {
    PredecessorIsGreatest(m.Keys, addr);
  }

  /** Looking at one entry finds an overlap, the one that starts last, exactly when any entry overlaps. */
  lemma LookupOverlapIsAFullScan<S>(m: map<nat, Entry<S>>, addr: nat, len: nat)
    requires WellFormed(m) && len > 0
    ensures LookupOverlap(m, addr, len) == None <==> forall k <- m :: !Intersects(m[k], addr, len)
    ensures
      LookupOverlap(m, addr, len).Some? ==>
        var p := LookupOverlap(m, addr, len).value;
        p in m && Intersects(m[p], addr, len) && forall k <- m :: Intersects(m[k], addr, len) ==> k <= p
    ensures forall k <- m ::
      Intersects(m[k], addr, len) <==> exists a: nat :: addr <= a < addr + len && Contains(m[k], a)
  {
    PredecessorIsGreatest(m.Keys, addr + len - 1);
    forall k <- m
      ensures Intersects(m[k], addr, len) <==> exists a: nat :: addr <= a < addr + len && Contains(m[k], a)
    {
      var a := if m[k].start < addr then addr else m[k].start;
      assert Intersects(m[k], addr, len) ==> addr <= a < addr + len && Contains(m[k], a);
    }
  }

  /** Why one predecessor would not be enough without disjointness: a long mapping can hide behind a short
      one that starts later. */
  lemma OnePredecessorNeedsDisjointness<S>(state: S)
    ensures
      var m := map[10 := Entry(10, 100, 0, state), 20 := Entry(20, 5, 0, state)];
      !WellFormed(m) && Contains(m[10], 50) && LookupAddr(m, 50) == None
  {
    var m := map[10 := Entry(10, 100, 0, state), 20 := Entry(20, 5, 0, state)];
    PredecessorIsGreatest(m.Keys, 50);
    assert 10 in m && 20 in m && 10 + m[10].len > 20;
    assert forall k <- m.Keys :: k == 10 || k == 20;
  }

  lemma InsertKeeps<S>(m: map<nat, Entry<S>>, e: Entry<S>)
    requires WellFormed(m) && e.len > 0 && e.start + e.len <= USIZE_MAX
    requires LookupOverlap(m, e.start, e.len) == None
    ensures e.start !in m && WellFormed(m[e.start := e])
  {
    LookupOverlapIsAFullScan(m, e.start, e.len);
    assert e.start in m ==> Intersects(m[e.start], e.start, e.len);
    forall k <- m ensures k + m[k].len <= e.start || e.start + e.len <= k {
      assert !Intersects(m[k], e.start, e.len);
    }
  }
}
