/** The arithmetic of the SIGBUS handler: which part of a mapping is replaced by anonymous pages. */
module PageRepair {
  import opened Bits

  const WIDTH: nat := 64

  lemma WordSize()
    ensures Pow2(WIDTH) == USIZE_MAX + 1 == 0x1_0000_0000_0000_0000
  {
    assert Pow2(4) == 0x10;
    Doublings(4);
  }

  lemma Doublings(k: nat)
    requires Pow2(k) == 0x10
    ensures Pow2(16 * k) == 0x1_0000_0000_0000_0000
  {
    Pow2Square(k, 0x10);
    Pow2Square(2 * k, 0x100);
    Pow2Square(4 * k, 0x1_0000);
    Pow2Square(8 * k, 0x1_0000_0000);
  }

  /** The handler's debug check on the page size. */
  predicate PageSize(page: nat) {
    CountOnes(page) == 1 && page <= USIZE_MAX
  }

  /** It lets exactly the powers of two through that fit a word. */
  lemma PageSizesArePowers(page: nat)
    ensures PageSize(page) <==> exists k :: 0 <= k < 64 && page == Pow2(k)
  {
    WordSize();
    if PageSize(page) {
      var k := OneBitIsPowerOfTwo(page);
      if k >= WIDTH {
        Pow2Grows(WIDTH, k);
      }
    }
    if k :| 0 <= k < 64 && page == Pow2(k) {
      PowerOfTwoHasOneBit(k);
      Pow2Grows(k, WIDTH - 1);
      assert Pow2(WIDTH) == 2 * Pow2(WIDTH - 1);
    }
  }

  predicate Aligned(a: nat, page: nat)
    requires page > 0
  {
    a % page == 0
  }

  /** `addr & !(page - 1)` on 64-bit words. */
  function FixStart(addr: nat, page: nat): nat
    requires 1 <= page <= USIZE_MAX
  {
    And(addr, USIZE_MAX - (page - 1))
  }

  function FixLen(start: nat, len: nat, fixStart: nat): int {
    len - (fixStart - start)
  }

  /** The first page boundary at or after `a`: mmap maps whole pages. */
  function RoundUp(a: nat, page: nat): nat
    requires page > 0
  {
    page * ((a + page - 1) / page)
  }

  lemma PageIsPositive(page: nat)
    requires PageSize(page)
    ensures page >= 1
  {
    assert CountOnes(0) == 0;
  }

  lemma MaskInWords(addr: nat, page: nat, k: nat, width: nat)
    requires page == Pow2(k) <= USIZE_MAX && Pow2(width) == USIZE_MAX + 1 && addr <= USIZE_MAX
    ensures FixStart(addr, page) == addr - addr % page
  {
    if k >= width {
      Pow2Grows(width, k);
    }
    AndHighMask(addr, k, width);
  }

  lemma MaskIsRemainder(addr: nat, page: nat)
    requires PageSize(page) && page >= 1 && addr <= USIZE_MAX
    ensures FixStart(addr, page) == addr - addr % page
  {
    WordSize();
    var k := OneBitIsPowerOfTwo(page);
    MaskInWords(addr, page, k, WIDTH);
  }

  /** The mask rounds down to the page that contains the address. */
  lemma MaskRoundsDown(addr: nat, page: nat)
    requires PageSize(page) && addr <= USIZE_MAX
    ensures page >= 1
    ensures FixStart(addr, page) == addr - addr % page
    ensures Aligned(FixStart(addr, page), page) && FixStart(addr, page) <= addr < FixStart(addr, page) + page
  {
    PageIsPositive(page);
    MaskIsRemainder(addr, page);
    DivMod(addr, page);
    MultipleIsAligned(addr / page, page);
  }

  lemma MultipleIsAligned(q: nat, page: nat)
    requires page > 0
    ensures Aligned(page * q, page)
  {
    Quotient(page * q, page, q, 0);
  }

  /** No multiple of the page size lies between an address and the address rounded down. */
  lemma NoBoundaryBetween(b: nat, addr: nat, page: nat)
    requires page > 0 && Aligned(b, page) && b <= addr
    ensures b <= addr - addr % page
  {
    DivMod(b, page);
    DivMod(addr, page);
    Gap(page, addr / page, b / page);
  }

  /** The replaced area of one fault is the part of the mapping from the fault's page on: neither
      subtraction wraps, it is not empty, and it ends where the mapping ends. */
  lemma RepairIsASuffix(start: nat, len: nat, addr: nat, page: nat)
    requires PageSize(page) && page > 0 && Aligned(start, page) && addr <= USIZE_MAX
    requires start <= addr < start + len
    ensures
      var fix := FixStart(addr, page);
      && start <= fix <= addr < fix + page
      && FixLen(start, len, fix) > 0 && fix + FixLen(start, len, fix) == start + len
  {
    MaskRoundsDown(addr, page);
    NoBoundaryBetween(start, addr, page);
  }

  lemma RoundUpIsAligned(a: nat, page: nat)
    requires page > 0
    ensures a <= RoundUp(a, page) && Aligned(RoundUp(a, page), page)
  {
    DivMod(a + page - 1, page);
    MultipleIsAligned((a + page - 1) / page, page);
  }

  lemma RoundUpIsNext(a: nat, b: nat, page: nat)
    requires page > 0 && Aligned(b, page) && a <= b
    ensures a <= RoundUp(a, page) <= b
  {
    DivMod(a + page - 1, page);
    DivMod(b, page);
    Gap(page, b / page, (a + page - 1) / page);
  }

  /** Even rounded up to whole pages, the repair touches no other page-aligned mapping. */
  lemma RepairTouchesNoOther(start: nat, len: nat, addr: nat, page: nat, otherStart: nat, otherLen: nat)
    requires PageSize(page) && page > 0 && Aligned(start, page) && Aligned(otherStart, page) && addr <= USIZE_MAX
    requires start <= addr < start + len
    requires otherStart + otherLen <= start || start + len <= otherStart
    ensures 1 <= page <= USIZE_MAX
    ensures
      var fix := FixStart(addr, page);
      otherStart + otherLen <= fix || RoundUp(start + len, page) <= otherStart
  {
    RepairIsASuffix(start, len, addr, page);
    if start + len <= otherStart {
      RoundUpIsNext(start + len, otherStart, page);
    }
  }

  // ---------- sequences of faults on one mapping ----------

  predicate Faults(start: nat, len: nat, faults: seq<nat>) {
    forall i :: 0 <= i < |faults| ==> start <= faults[i] < start + len
  }

  /** Whether `a` has been replaced by the faults, each replacing [fix_start, fix_start + fix_len). */
  predicate Replaced(start: nat, len: nat, page: nat, faults: seq<nat>, a: nat)
    requires 1 <= page <= USIZE_MAX
  {
    faults != [] &&
    (Replaced(start, len, page, faults[..|faults| - 1], a) ||
     (var fix := FixStart(faults[|faults| - 1], page); fix <= a < fix + FixLen(start, len, fix)))
  }

  /** The least fix_start so far, or the end of the mapping if there was no fault. */
  function LeastFix(start: nat, len: nat, page: nat, faults: seq<nat>): nat
    requires 1 <= page <= USIZE_MAX
  {
    if faults == [] then start + len
    else
      var before, fix := LeastFix(start, len, page, faults[..|faults| - 1]), FixStart(faults[|faults| - 1], page);
      if fix < before then fix else before
  }

  /** After any faults, in any order, the replaced area is exactly the mapping from the least fix_start on. */
  lemma {:induction false} ReplacedIsASuffix(start: nat, len: nat, page: nat, faults: seq<nat>)
    requires PageSize(page) && page > 0 && Aligned(start, page) && start + len <= USIZE_MAX
    requires Faults(start, len, faults)
    ensures 1 <= page <= USIZE_MAX
    ensures start <= LeastFix(start, len, page, faults) <= start + len
    ensures forall a: nat :: Replaced(start, len, page, faults, a) <==>
      LeastFix(start, len, page, faults) <= a < start + len
  {
    PageIsPositive(page);
    if faults != [] {
      var n := |faults| - 1;
      ReplacedIsASuffix(start, len, page, faults[..n]);
      RepairIsASuffix(start, len, faults[n], page);
    }
  }

  /** Each fault is on memory that earlier faults have not replaced. */
  predicate OnUnreplaced(start: nat, len: nat, page: nat, faults: seq<nat>)
    requires 1 <= page <= USIZE_MAX
  {
    forall i :: 0 <= i < |faults| ==> !Replaced(start, len, page, faults[..i], faults[i])
  }

  /** A fault below `bound`, an aligned address, is repaired from at least one page below it. */
  lemma FallsByAPage(start: nat, len: nat, page: nat, addr: nat, bound: nat)
    requires PageSize(page) && page >= 1 && Aligned(start, page) && start + len <= USIZE_MAX
    requires start <= addr < start + len && addr < bound && Aligned(bound, page)
    ensures start <= FixStart(addr, page) && FixStart(addr, page) + page <= bound
    ensures Aligned(FixStart(addr, page), page) && FixStart(addr, page) < start + len
  {
    RepairIsASuffix(start, len, addr, page);
    MaskRoundsDown(addr, page);
    OnePageApart(FixStart(addr, page), bound, page);
  }

  /** The last fault is below everything replaced before it. */
  lemma BeforeTheLast(start: nat, len: nat, page: nat, faults: seq<nat>)
    requires PageSize(page) && 1 <= page <= USIZE_MAX && Aligned(start, page) && start + len <= USIZE_MAX
    requires faults != [] && Faults(start, len, faults) && OnUnreplaced(start, len, page, faults)
    ensures OnUnreplaced(start, len, page, faults[..|faults| - 1])
    ensures faults[|faults| - 1] < LeastFix(start, len, page, faults[..|faults| - 1])
  {
    var n := |faults| - 1;
    forall i | 0 <= i < n ensures faults[..n][..i] == faults[..i] {}
    ReplacedIsASuffix(start, len, page, faults[..n]);
    assert !Replaced(start, len, page, faults[..n], faults[n]);
  }

  /** Where the next repair must start below. */
  function Bound(start: nat, len: nat, page: nat, faults: seq<nat>): nat
    requires 1 <= page <= USIZE_MAX
  {
    if faults == [] then RoundUp(start + len, page) else FixStart(faults[|faults| - 1], page)
  }

  lemma {:induction false} LeastIsLast(start: nat, len: nat, page: nat, faults: seq<nat>)
    requires PageSize(page) && 1 <= page <= USIZE_MAX && Aligned(start, page) && start + len <= USIZE_MAX
    requires Faults(start, len, faults) && OnUnreplaced(start, len, page, faults)
    ensures faults != [] ==> LeastFix(start, len, page, faults) == Bound(start, len, page, faults)
    ensures LeastFix(start, len, page, faults) <= Bound(start, len, page, faults)
    ensures Aligned(Bound(start, len, page, faults), page)
    ensures faults != [] ==>
      start <= Bound(start, len, page, faults)
      && Bound(start, len, page, faults) + page <= Bound(start, len, page, faults[..|faults| - 1])
  {
    if faults == [] {
      RoundUpIsAligned(start + len, page);
    } else {
      var n := |faults| - 1;
      BeforeTheLast(start, len, page, faults);
      LeastIsLast(start, len, page, faults[..n]);
      FallsByAPage(start, len, page, faults[n], Bound(start, len, page, faults[..n]));
    }
  }

  lemma {:induction false} BoundFalls(start: nat, len: nat, page: nat, faults: seq<nat>)
    requires PageSize(page) && 1 <= page <= USIZE_MAX && Aligned(start, page) && start + len <= USIZE_MAX
    requires Faults(start, len, faults) && OnUnreplaced(start, len, page, faults)
    ensures Bound(start, len, page, faults) + page * |faults| <= RoundUp(start + len, page)
  {
    if faults != [] {
      var n := |faults| - 1;
      BeforeTheLast(start, len, page, faults);
      LeastIsLast(start, len, page, faults);
      BoundFalls(start, len, page, faults[..n]);
      Distributes(page, n, 1);
    }
  }

  /** If no fault is on replaced memory, fix_addr falls with every fault. */
  lemma FixAddressFalls(start: nat, len: nat, page: nat, faults: seq<nat>, i: nat)
    requires PageSize(page) && 1 <= page <= USIZE_MAX && Aligned(start, page) && start + len <= USIZE_MAX
    requires Faults(start, len, faults) && OnUnreplaced(start, len, page, faults) && 0 < i < |faults|
    ensures FixStart(faults[i], page) + page <= FixStart(faults[i - 1], page)
  {
    var prefix := faults[..i + 1];
    assert prefix[..i] == faults[..i];
    forall j | 0 <= j < |prefix| ensures prefix[..j] == faults[..j] {}
    LeastIsLast(start, len, page, prefix);
  }

  /** And the mapping faults at most once per page. */
  lemma FaultsAreBounded(start: nat, len: nat, page: nat, faults: seq<nat>)
    requires PageSize(page) && 1 <= page <= USIZE_MAX && Aligned(start, page) && start + len <= USIZE_MAX
    requires Faults(start, len, faults) && OnUnreplaced(start, len, page, faults)
    ensures |faults| <= (len + page - 1) / page
  {
    BoundFalls(start, len, page, faults);
    LeastIsLast(start, len, page, faults);
    if faults == [] {
      DivMod(len + page - 1, page);
    } else {
      PagesInMapping(start, len, page, Bound(start, len, page, faults), |faults|);
    }
  }

  function PageAt(start: nat, page: nat, i: nat): int {
    start + page * i
  }

  /** One fault on each of the mapping's pages from the last back to the one numbered `lo`. */
  function PagesDown(start: nat, page: nat, lo: nat, pages: nat): (faults: seq<int>)
    ensures |faults| == if lo <= pages then pages - lo else 0
    decreases pages - lo
  {
    if lo >= pages then [] else PagesDown(start, page, lo + 1, pages) + [PageAt(start, page, lo)]
  }

  /** Where the i-th page of a mapping begins. */
  predicate PageBegins(start: nat, len: nat, page: nat, i: nat)
    requires 1 <= page <= USIZE_MAX
  {
    && start <= PageAt(start, page, i) < start + len && PageAt(start, page, i) < PageAt(start, page, i + 1)
    && FixStart(PageAt(start, page, i), page) == PageAt(start, page, i)
  }

  lemma StartsInside(len: nat, page: nat, i: nat)
    requires page > 0 && i < (len + page - 1) / page
    ensures 0 <= page * i < len && page * i < page * (i + 1)
  {
    DivMod(len + page - 1, page);
    Gap(page, (len + page - 1) / page, i + 1);
    Distributes(page, i, 1);
  }

  lemma StartIsFix(start: nat, page: nat, i: nat)
    requires PageSize(page) && 1 <= page <= USIZE_MAX && Aligned(start, page)
    requires 0 <= PageAt(start, page, i) <= USIZE_MAX
    ensures FixStart(PageAt(start, page, i), page) == PageAt(start, page, i)
  {
    MaskRoundsDown(PageAt(start, page, i), page);
    DivMod(start, page);
    Distributes(page, start / page, i);
    MultipleIsAligned(start / page + i, page);
  }

  lemma OneMoreFault(start: nat, len: nat, page: nat, before: seq<nat>, addr: nat)
    requires PageSize(page) && 1 <= page <= USIZE_MAX && Aligned(start, page) && start + len <= USIZE_MAX
    requires Faults(start, len, before) && OnUnreplaced(start, len, page, before)
    requires start <= addr < start + len && addr < LeastFix(start, len, page, before)
    ensures Faults(start, len, before + [addr]) && OnUnreplaced(start, len, page, before + [addr])
    ensures FixStart(addr, page) == addr ==> LeastFix(start, len, page, before + [addr]) == addr
  {
    var faults := before + [addr];
    ReplacedIsASuffix(start, len, page, before);
    assert faults[..|before|] == before;
    forall i | 0 <= i < |before| ensures faults[..i] == before[..i] && faults[i] == before[i] {}
  }

  lemma {:induction false} PagesDownFault(start: nat, len: nat, page: nat, lo: nat, pages: nat)
    requires PageSize(page) && 1 <= page <= USIZE_MAX && Aligned(start, page) && start + len <= USIZE_MAX
    requires lo <= pages && forall i: nat :: i < pages ==> PageBegins(start, len, page, i)
    ensures
      var faults := PagesDown(start, page, lo, pages);
      && (forall i :: 0 <= i < |faults| ==> faults[i] >= 0)
      && Faults(start, len, faults) && OnUnreplaced(start, len, page, faults)
      && (lo < pages ==> LeastFix(start, len, page, faults) == PageAt(start, page, lo))
    decreases pages - lo
  {
    if lo < pages {
      PagesDownFault(start, len, page, lo + 1, pages);
      assert PageBegins(start, len, page, lo);
      OneMoreFault(start, len, page, PagesDown(start, page, lo + 1, pages), PageAt(start, page, lo));
    }
  }

  /** The bound is reached: a mapping can fault on each of its pages, none of them replaced before. */
  lemma EveryPageMayFault(start: nat, len: nat, page: nat) returns (faults: seq<nat>)
    requires PageSize(page) && page >= 1 && Aligned(start, page) && start + len <= USIZE_MAX
    ensures 1 <= page <= USIZE_MAX
    ensures |faults| == (len + page - 1) / page
    ensures Faults(start, len, faults) && OnUnreplaced(start, len, page, faults)
  {
    var pages := (len + page - 1) / page;
    forall i: nat | i < pages ensures PageBegins(start, len, page, i) {
      StartsInside(len, page, i);
      StartIsFix(start, page, i);
    }
    PagesDownFault(start, len, page, 0, pages);
    faults := PagesDown(start, page, 0, pages);
  }

  lemma OnePageApart(a: nat, b: nat, page: nat)
    requires page > 0 && Aligned(a, page) && Aligned(b, page) && a < b
    ensures a + page <= b
  {
    DivMod(a, page);
    DivMod(b, page);
    Gap(page, a / page, b / page);
  }

  lemma PagesInMapping(start: nat, len: nat, page: nat, least: nat, n: nat)
    requires page > 0 && Aligned(start, page)
    requires start <= least && least + page * n <= RoundUp(start + len, page)
    ensures n <= (len + page - 1) / page
  {
    var q, c := (len + page - 1) / page, start / page;
    DivMod(start, page);
    DivMod(len + page - 1, page);
    Distributes(page, c, q);
    Quotient(start + len + page - 1, page, c + q, (len + page - 1) % page);
    Gap(page, q, n);
  }
}
