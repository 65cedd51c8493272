/** The registry of file-backed mappings and the SIGBUS handler that repairs them. Each method runs with
    the registry's lock held. */
module Mmapcatch {
  import opened Wrappers
  import opened Bits
  import opened IntervalIndex
  import opened PageRepair

  // Linux
  const SIGBUS := 7
  const BUS_ADRERR := 2
  const BUS_OBJERR := 3

  datatype SigInfo = SigInfo(signo: int, code: int, addr: nat)

  /** The signal comes from an invalid memory access of this thread. */
  predicate Genuine(info: SigInfo) {
    info.signo == SIGBUS && (info.code == BUS_ADRERR || info.code == BUS_OBJERR) && info.addr != 0
  }

  datatype Outcome =
    | Repaired(key: nat, fixStart: nat, fixLen: nat, fixProt: int)
    | AbortOtherSigbus
    | AbortRecursiveSigbus
    | AbortUnfixable            // no page size, page zero, or mmap failed

  class State {
    var err: bool
    var errAddr: nat
    var fixAddr: nat
    var siCode: int

    constructor ()
      ensures !err && errAddr == 0 && fixAddr == 0 && siCode == 0
    {
      err, errAddr, fixAddr, siCode := false, 0, 0, 0;
    }

    method Record(info: SigInfo, fixStart: nat)
      modifies this
      ensures err && errAddr == info.addr && fixAddr == fixStart && siCode == info.code
    {
      siCode := info.code;
      fixAddr := fixStart;
      errAddr := info.addr;
      err := true;
    }
  }

  class Guard {
    const addr: nat
    const state: State

    constructor (addr: nat, state: State)
      ensures this.addr == addr && this.state == state
    {
      this.addr, this.state := addr, state;
    }
  }

  datatype Registration = Registered(guard: Guard) | Overlap(addr: nat, len: nat)

  /** Live guards correspond to entries one to one, each pair sharing a state that no other pair has. */
  ghost predicate Matched(index: map<nat, Entry<State>>, guards: set<Guard>) {
    && (forall g <- guards :: g.addr in index && index[g.addr].state == g.state)
    && (forall k <- index :: exists g :: g in guards && g.addr == k)
    && (forall g, h :: g in guards && h in guards && g.addr == h.addr ==> g == h)
    && (forall j, k :: j in index && k in index && j != k ==> index[j].state != index[k].state)
  }

  lemma MatchedInsert(index: map<nat, Entry<State>>, guards: set<Guard>, e: Entry<State>, guard: Guard)
    requires Matched(index, guards) && e.start !in index && guard.addr == e.start && guard.state == e.state
    requires forall k <- index :: index[k].state != e.state
    ensures Matched(index[e.start := e], guards + {guard})
  {
    var after := index[e.start := e];
    forall k <- after ensures exists g :: g in guards + {guard} && g.addr == k {
      var g :| if k == e.start then g == guard else g in guards && g.addr == k;
      assert g in guards + {guard};
    }
  }

  lemma MatchedRemove(index: map<nat, Entry<State>>, guards: set<Guard>, guard: Guard)
    requires Matched(index, guards) && guard in guards
    ensures Matched(index - {guard.addr}, guards - {guard})
  {
    forall k <- index - {guard.addr} ensures exists g :: g in guards - {guard} && g.addr == k {
      var g :| g in guards && g.addr == k;
      assert g in guards - {guard};
    }
  }

  /** Within a well-formed index of page-aligned mappings, a repair replaces the rest of the mapping that
      faulted and touches no other. */
  lemma RepairInIndex<S>(m: map<nat, Entry<S>>, key: nat, addr: nat, page: nat)
    requires WellFormed(m) && key in m && Contains(m[key], addr) && addr <= USIZE_MAX
    requires PageSize(page) && page >= 1 && forall k <- m :: Aligned(k, page)
    ensures
      var fix := FixStart(addr, page);
      && fix == addr - addr % page && key <= fix && (fix == 0 <==> addr < page)
      && FixLen(key, m[key].len, fix) > 0 && fix + FixLen(key, m[key].len, fix) == key + m[key].len
      && forall k <- m :: k != key ==> k + m[k].len <= fix || RoundUp(key + m[key].len, page) <= k
  {
    RepairIsASuffix(key, m[key].len, addr, page);
    MaskRoundsDown(addr, page);
    DivMod(addr, page);
    Gap(page, 0, addr / page);
    forall k <- m | k != key
      ensures k + m[k].len <= FixStart(addr, page) || RoundUp(key + m[key].len, page) <= k
    {
      RepairTouchesNoOther(key, m[key].len, addr, page, k, m[k].len);
    }
  }

  /** What sysconf says of the system's pages: a power of two, or failure. A debug build checks it. */
  predicate PageSizeOk(pageSize: Option<nat>) {
    pageSize.Some? ==> PageSize(pageSize.value)
  }

  /** What the handler's outcome must be: it repairs exactly the genuine faults on a registered mapping that
      it can repair, from the page of the fault to the end of the mapping, and disturbs no other mapping.
      The signal is SIGBUS (7) and the fault BUS_ADRERR (2) or BUS_OBJERR (3). A page size with another
      number of bits than one makes a debug build abort. */
  ghost predicate Faithful<S>(index: map<nat, Entry<S>>, info: SigInfo, initialised: bool, reentrant: bool, debug: bool,
                              pageSize: Option<nat>, mapped: int, o: Outcome)
  {
    var hit := exists k :: k in index && index[k].start <= info.addr < index[k].start + index[k].len;
    if info.signo != 7 || !(info.code == 2 || info.code == 3) || info.addr == 0 || !initialised then
      o == AbortOtherSigbus
    else if reentrant then o == AbortRecursiveSigbus
    else if !hit then o == AbortOtherSigbus
    else if pageSize == None || (debug && !PageSizeOk(pageSize)) then o == AbortUnfixable
    else PageSizeOk(pageSize) && pageSize.value >= 1 && FaithfulRepair(index, info, pageSize.value, mapped, o)
  }

  ghost predicate FaithfulRepair<S>(index: map<nat, Entry<S>>, info: SigInfo, page: nat, mapped: int, o: Outcome)
    requires page >= 1
  {
    if info.addr < page || mapped != info.addr - info.addr % page then o == AbortUnfixable
    else
      && o.Repaired? && o.key in index
      && index[o.key].start <= info.addr < index[o.key].start + index[o.key].len
      && o.fixStart == info.addr - info.addr % page && o.fixProt == index[o.key].prot
      && index[o.key].start <= o.fixStart && o.fixLen > 0
      && o.fixStart + o.fixLen == index[o.key].start + index[o.key].len
      && forall k <- index :: k != o.key ==>
           k + index[k].len <= o.fixStart || RoundUp(o.fixStart + o.fixLen, page) <= k
  }

  /** Which answer a signal gets, without the repair. */
  lemma AnswersInLiterals<S>(index: map<nat, Entry<S>>, info: SigInfo, initialised: bool, reentrant: bool, debug: bool,
                             pageSize: Option<nat>, mapped: int, o: Outcome)
    requires Faithful(index, info, initialised, reentrant, debug, pageSize, mapped, o)
    ensures o == AbortRecursiveSigbus <==>
      info.signo == 7 && info.code in {2, 3} && info.addr != 0 && initialised && reentrant
    ensures o.Repaired? ==> info.signo == 7 && info.code in {2, 3} && info.addr != 0 && initialised && !reentrant
    ensures
      && info.signo == 7 && info.code in {2, 3} && info.addr != 0 && initialised && !reentrant
      && (exists k :: k in index && index[k].start <= info.addr < index[k].start + index[k].len)
      ==> o.Repaired? || o == AbortUnfixable
  {
  }

  /** The ways out with the lock held: no mapping, no page size that can be used, and the repair. */
  lemma NothingFound<S>(index: map<nat, Entry<S>>, info: SigInfo, debug: bool, pageSize: Option<nat>, mapped: int)
    requires WellFormed(index) && LookupAddr(index, info.addr) == None
    ensures Faithful(index, info, true, false, debug, pageSize, mapped, AbortOtherSigbus)
  {
    LookupAddrIsAFullScan(index, info.addr);
  }

  lemma NoPageSize<S>(index: map<nat, Entry<S>>, info: SigInfo, debug: bool, pageSize: Option<nat>, mapped: int)
    requires Genuine(info) && WellFormed(index) && LookupAddr(index, info.addr).Some?
    requires pageSize == None || (debug && !PageSizeOk(pageSize))
    ensures Faithful(index, info, true, false, debug, pageSize, mapped, AbortUnfixable)
  {
    LookupAddrIsAFullScan(index, info.addr);
    assert LookupAddr(index, info.addr).value in index;
  }

  lemma FoundAndRepaired<S>(index: map<nat, Entry<S>>, info: SigInfo, debug: bool, page: nat, mapped: int, o: Outcome)
    requires Genuine(info) && WellFormed(index) && LookupAddr(index, info.addr).Some?
    requires PageSize(page) && page >= 1 && FaithfulRepair(index, info, page, mapped, o)
    ensures Faithful(index, info, true, false, debug, Some(page), mapped, o)
  {
    LookupAddrIsAFullScan(index, info.addr);
    assert LookupAddr(index, info.addr).value in index;
  }

  class Root {
    var index: map<nat, Entry<State>>
    var cleanlyUnlocked: bool
    ghost var guards: set<Guard>    // the guards that have not been dropped

    /** Between operations. */
    ghost predicate Valid()
      reads this
    {
      && cleanlyUnlocked
      && WellFormed(index)
      && Matched(index, guards)
    }

    constructor ()
      ensures Valid() && index == map[] && guards == {}
    {
      index, cleanlyUnlocked, guards := map[], true, {};
    }

    /** Registers unless some live mapping intersects, and then names the one of them that starts last. */
    method RegisterMmap(addr: nat, len: nat, prot: int) returns (r: Registration)
      requires Valid() && len > 0 && addr + len <= USIZE_MAX
      modifies this
      ensures Valid()
      ensures r.Overlap? <==>
        exists k ::
          && k in old(index) && old(index)[k].start < addr + len
          && addr < old(index)[k].start + old(index)[k].len
      ensures r.Overlap? ==>
        && r.addr in index && index[r.addr].len == r.len && r.addr < addr + len && addr < r.addr + r.len
        && (forall k <- index :: index[k].start < addr + len && addr < index[k].start + index[k].len ==> k <= r.addr)
        && index == old(index) && guards == old(guards)
      ensures r.Registered? ==>
        && fresh(r.guard) && fresh(r.guard.state) && r.guard.addr == addr
        && !r.guard.state.err && r.guard.state.fixAddr == 0
        && addr !in old(index) && index == old(index)[addr := Entry(addr, len, prot, r.guard.state)]
        && guards == old(guards) + {r.guard}
    {
      assert cleanlyUnlocked;    // otherwise: poisoned
      cleanlyUnlocked := false;
      LookupOverlapIsAFullScan(index, addr, len);
      var overlap := LookupOverlap(index, addr, len);
      if overlap.Some? {
        var m := index[overlap.value];
        r := Overlap(m.start, m.len);
      } else {
        var state := new State();
        var guard := new Guard(addr, state);
        InsertKeeps(index, Entry(addr, len, prot, state));
        MatchedInsert(index, guards, Entry(addr, len, prot, state), guard);
        index := index[addr := Entry(addr, len, prot, state)];
        guards := guards + {guard};
        r := Registered(guard);
      }
      cleanlyUnlocked := true;
    }

    /** Dropping a live guard removes its own mapping and nothing else: neither the `expect` nor the
        pointer comparison in the source can fail. */
    method DropGuard(guard: Guard)
      requires Valid() && guard in guards
      modifies this
      ensures Valid()
      ensures guard.addr in old(index) && old(index)[guard.addr].state == guard.state
      ensures index == old(index) - {guard.addr} && guards == old(guards) - {guard}
    {
      assert cleanlyUnlocked;
      cleanlyUnlocked := false;
      assert guard.addr in index;                           // expect("addr in ROOT")
      var mapping := index[guard.addr];
      MatchedRemove(index, guards, guard);
      index := index - {guard.addr};
      assert mapping.state == guard.state;                  // Arc::ptr_eq
      guards := guards - {guard};
      cleanlyUnlocked := true;
    }

    /** handle_sigbus. `initialised`: ROOT has been initialised; `reentrant`: the fault happened while this
        thread held the registry's lock; `debug`: a debug build; `pageSize` is what sysconf returned, None
        being failure, and `mapped` what mmap returned, -1 being failure. A release build relies on the
        page size being a power of two. */
    method HandleSigbus(info: SigInfo, initialised: bool, reentrant: bool, debug: bool,
                        pageSize: Option<nat>, mapped: int)
      returns (o: Outcome)
      requires Valid() && info.addr <= USIZE_MAX && (initialised || index == map[])
      requires pageSize.Some? ==> pageSize.value <= USIZE_MAX
      requires debug || PageSizeOk(pageSize)
      requires pageSize.Some? && PageSize(pageSize.value) && pageSize.value >= 1 ==>
        forall k <- index :: Aligned(k, pageSize.value)
      modifies set k | k in index :: index[k].state
      ensures Valid() && index == old(index) && guards == old(guards)
      ensures Faithful(index, info, initialised, reentrant, debug, pageSize, mapped, o)
      ensures o == AbortRecursiveSigbus <==>
        info.signo == 7 && info.code in {2, 3} && info.addr != 0 && initialised && reentrant
      ensures o.Repaired? ==> info.signo == 7 && info.code in {2, 3} && info.addr != 0 && initialised && !reentrant
      ensures
        && info.signo == 7 && info.code in {2, 3} && info.addr != 0 && initialised && !reentrant
        && (exists k :: k in index && index[k].start <= info.addr < index[k].start + index[k].len)
        ==> o.Repaired? || o == AbortUnfixable
      ensures o.Repaired? ==>
        var s := index[o.key].state;
        s.err && s.errAddr == info.addr && s.fixAddr == o.fixStart && s.siCode == info.code
      ensures forall k <- index :: (o.Repaired? ==> k != o.key) ==> unchanged(index[k].state)
    {
      if !Genuine(info) {
        return AbortOtherSigbus;
      }
      if !initialised {
        return AbortOtherSigbus;
      }
      if reentrant {
        return AbortRecursiveSigbus;
      }
      o := HandleGenuine(info, debug, pageSize, mapped);
      AnswersInLiterals(index, info, initialised, reentrant, debug, pageSize, mapped, o);
    }

    /** With the lock held: finds the mapping and the page size. */
    method HandleGenuine(info: SigInfo, debug: bool, pageSize: Option<nat>, mapped: int) returns (o: Outcome)
      requires Valid() && info.addr <= USIZE_MAX && Genuine(info)
      requires pageSize.Some? ==> pageSize.value <= USIZE_MAX
      requires debug || PageSizeOk(pageSize)
      requires pageSize.Some? && PageSize(pageSize.value) && pageSize.value >= 1 ==>
        forall k <- index :: Aligned(k, pageSize.value)
      modifies set k | k in index :: index[k].state
      ensures Valid() && index == old(index) && guards == old(guards)
      ensures Faithful(index, info, true, false, debug, pageSize, mapped, o)
      ensures o.Repaired? ==>
        var s := index[o.key].state;
        s.err && s.errAddr == info.addr && s.fixAddr == o.fixStart && s.siCode == info.code
      ensures forall k <- index :: (o.Repaired? ==> k != o.key) ==> unchanged(index[k].state)
    {
      var found := LookupAddr(index, info.addr);
      if found == None {
        NothingFound(index, info, debug, pageSize, mapped);
        return AbortOtherSigbus;
      }
      if pageSize == None {
        NoPageSize(index, info, debug, pageSize, mapped);
        return AbortUnfixable;
      }
      if debug {
        if CountOnes(pageSize.value) != 1 {
          NoPageSize(index, info, debug, pageSize, mapped);
          return AbortUnfixable;
        }
      }
      PageIsPositive(pageSize.value);
      LookupAddrIsAFullScan(index, info.addr);
      o := Repair(info, found.value, pageSize.value, mapped);
      FoundAndRepaired(index, info, debug, pageSize.value, mapped, o);
    }

    /** The rest of the handler, on the mapping that it found. */
    method Repair(info: SigInfo, key: nat, page: nat, mapped: int) returns (o: Outcome)
      requires Valid() && info.addr <= USIZE_MAX && key in index && Contains(index[key], info.addr)
      requires PageSize(page) && page >= 1 && forall k <- index :: Aligned(k, page)
      modifies index[key].state
      ensures Valid() && index == old(index) && guards == old(guards)
      ensures FaithfulRepair(index, info, page, mapped, o)
      ensures o.Repaired? ==>
        var s := index[key].state;
        o.key == key && s.err && s.errAddr == info.addr && s.fixAddr == o.fixStart && s.siCode == info.code
      ensures !o.Repaired? ==> unchanged(index[key].state)
    {
      var mapping := index[key];
      RepairInIndex(index, key, info.addr, page);
      var fixStart := FixStart(info.addr, page);
      if fixStart == 0 {
        return AbortUnfixable;
      }
      var fixOffset := fixStart - mapping.start;
      var fixLen := mapping.len - fixOffset;
      if mapped == -1 || mapped != fixStart {
        return AbortUnfixable;
      }
      var state := mapping.state;
      state.Record(info, fixStart);
      o := Repaired(key, fixStart, fixLen, mapping.prot);
    }
  }
}
