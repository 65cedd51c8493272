/** The packed futex word: the holder's tid in FUTEX_TID_MASK and the FUTEX_WAITERS bit. */
module FutexWord {
  import opened Bits
  import opened FutexMachine

  const FUTEX_TID_MASK: nat := 0x3fff_ffff
  const FUTEX_WAITERS: nat := 0x8000_0000

  /** What the kernel guarantees of thread ids: they are not zero, fit the mask, and differ. */
  predicate ValidTid(tid: nat) {
    0 < tid <= FUTEX_TID_MASK
  }

  predicate ValidTids(tids: seq<nat>) {
    && (forall i :: 0 <= i < |tids| ==> ValidTid(tids[i]))
    && (forall i, j :: 0 <= i < j < |tids| ==> tids[i] != tids[j])
  }

  predicate InRange(tids: seq<nat>, w: Word) {
    w.Taken? ==> w.holder < |tids|
  }

  function Pack(tids: seq<nat>, w: Word): nat
    requires InRange(tids, w)
  {
    if w.Free? then 0 else tids[w.holder] + if w.waiters then FUTEX_WAITERS else 0
  }

  lemma Powers()
    ensures Pow2(30) == 0x4000_0000 && Pow2(31) == 0x8000_0000
  {
    assert Pow2(5) == 0x20;
    assert Pow2(10) == 0x400;
    assert Pow2(15) == 0x8000;
    Pow2Square(15, 0x8000);
    assert Pow2(31) == 2 * Pow2(30);
  }

  /** The bit operations of the code, as arithmetic. */
  lemma BitTests(word: nat)
    ensures And(word, FUTEX_TID_MASK) == word % 0x4000_0000
    ensures And(word, FUTEX_WAITERS) == if word / 0x8000_0000 % 2 == 1 then 0x8000_0000 else 0
    ensures Or(word, FUTEX_WAITERS) == if word / 0x8000_0000 % 2 == 1 then word else word + 0x8000_0000
  {
    Powers();
    AndLowMask(word, 30);
    AndBit(word, 31);
    OrBit(word, 31);
  }

  /** Every test that the code makes on a packed word answers a question about the pair. */
  lemma TestsOnPackedWords(tids: seq<nat>, w: Word, t: nat)
    requires ValidTids(tids) && InRange(tids, w) && t < |tids|
    ensures And(Pack(tids, w), FUTEX_TID_MASK) == tids[t] <==> w.Taken? && w.holder == t
    ensures And(Pack(tids, w), FUTEX_WAITERS) == 0 <==> w == Free || !w.waiters
    ensures Pack(tids, w) == 0 <==> w == Free
    ensures Pack(tids, w) == tids[t] <==> w == Taken(t, false)
    ensures Pack(tids, w) < 0x1_0000_0000
  {
    BitTests(Pack(tids, w));
  }

  /** Or-ing the bit in keeps the holder. */
  lemma SettingTheBit(tids: seq<nat>, holder: nat, waiters: bool)
    requires ValidTids(tids) && holder < |tids|
    ensures Or(Pack(tids, Taken(holder, waiters)), FUTEX_WAITERS) == Pack(tids, Taken(holder, true))
  {
    BitTests(Pack(tids, Taken(holder, waiters)));
  }

  /** Comparing packed words compares pairs. */
  lemma PackInjective(tids: seq<nat>, v: Word, w: Word)
    requires ValidTids(tids) && InRange(tids, v) && InRange(tids, w)
    ensures Pack(tids, v) == Pack(tids, w) <==> v == w
  {
  }
}
