/** Fibtex::m_word and WaitGroup::m_word: a bundle's address with flag bits in the low end, which are
    free because bundles are aligned. Words are naturals; &, | and & ~ are those of Bits. What is
    common to both is here, with the packing of Fibtex's word; WaitGroup's is in its own module. */
module PackedWords {
  import opened Bits
  import opened Options
  import opened WaiterList
  import F = FibtexMachine

  // The three masks the source uses.
  lemma LowBits(m: nat)
    ensures BitAnd(m, 1) == m % 2 && BitAnd(m, 2) == m % 4 - m % 2 && BitAnd(m, 3) == m % 4
  {
    LowBit(m);
    LowBit(m / 2);
    assert BitAnd(m, 2) == 2 * BitAnd(m / 2, 1);
    assert BitAnd(m, 3) == m % 2 + 2 * BitAnd(m / 2, 1);
    QuarterSplits(m);
  }

  lemma LowBit(m: nat)
    ensures BitAnd(m, 1) == m % 2
  {
  }

  lemma QuarterSplits(m: nat)
    ensures m % 4 == m % 2 + 2 * ((m / 2) % 2)
  {
  }

  // An address has none of them.
  lemma AddressApart(m: nat, a: nat)
    requires m < 4 && a % 4 == 0
    ensures BitAnd(m, a) == 0
  {
    assert a % 2 == 0 && (a / 2) % 2 == 0;
    assert m / 2 / 2 == 0;
    assert BitAnd(m / 2, a / 2) == 0;
  }

  // m & 1, m & 2 and m & ~3, as arithmetic.
  method Masks(m: nat) returns (bit0: nat, bit1: nat, rest: nat)
    ensures bit0 == m % 2 && bit1 == m % 4 - m % 2 && rest == m - m % 4
  {
    LowBits(m);
    AndNotPlusAnd(m, 3);
    bit0, bit1, rest := BitAnd(m, 1), BitAnd(m, 2), BitAndNot(m, 3);
  }

  // m | 1, m | 2, m & ~1 and m & ~2.
  method SetBit0(m: nat) returns (r: nat)
    ensures r == m - m % 2 + 1
  {
    LowBits(m);
    OrPlusAnd(m, 1);
    r := BitOr(m, 1);
  }

  method SetBit1(m: nat) returns (r: nat)
    ensures r == m - m % 4 + m % 2 + 2
  {
    LowBits(m);
    OrPlusAnd(m, 2);
    r := BitOr(m, 2);
  }

  method ClearBit0(m: nat) returns (r: nat)
    ensures r == m - m % 2
  {
    LowBits(m);
    AndNotPlusAnd(m, 1);
    r := BitAndNot(m, 1);
  }

  method ClearBit1(m: nat) returns (r: nat)
    ensures r == m - m % 4 + m % 2
  {
    LowBits(m);
    AndNotPlusAnd(m, 2);
    r := BitAndNot(m, 2);
  }

  // m | a, for an address a and flags m.
  method OrAddress(m: nat, a: nat) returns (r: nat)
    requires m < 4 && a % 4 == 0
    ensures r == m + a
  {
    AddressApart(m, a);
    OrPlusAnd(m, a);
    r := BitOr(m, a);
  }

  // ---- Addresses ----

  // Where the bundles are: aligned, not null, and each in its own place.
  ghost predicate AddressesOk(address: seq<nat>) {
    && (forall i | 0 <= i < |address| :: address[i] != 0 && address[i] % 4 == 0)
    && (forall i, j | 0 <= i < j < |address| :: address[i] != address[j])
  }

  predicate Fits(address: seq<nat>, l: Link) {
    l.Some? ==> l.value < |address|
  }

  function AddressOf(address: seq<nat>, l: Link): nat
    requires Fits(address, l)
  {
    if l.Some? then address[l.value] else 0
  }

  // The bundle at a, if any.
  function BundleAt(address: seq<nat>, a: nat): (l: Link)
    ensures Fits(address, l) && (l.Some? ==> address[l.value] == a)
  {
    if address == [] then None
    else if address[|address| - 1] == a then Some(|address| - 1)
    else BundleAt(address[..|address| - 1], a)
  }

  lemma {:induction false} AddressRoundTrip(address: seq<nat>, l: Link)
    requires AddressesOk(address) && Fits(address, l)
    ensures BundleAt(address, AddressOf(address, l)) == l
    ensures AddressOf(address, l) % 4 == 0 && (AddressOf(address, l) == 0 <==> l == None)
    decreases |address|
  {
    if address != [] && l != Some(|address| - 1) { AddressRoundTrip(address[..|address| - 1], l); }
  }

  // ---- Fibtex ----

  const kIsLockedBit: nat := 1
  const kIsQueueLockedBit: nat := 2
  const kQueueHeadMask: nat := 3

  function Pack(address: seq<nat>, w: F.Word): nat
    requires Fits(address, w.head)
  {
    AddressOf(address, w.head) + (if w.locked then kIsLockedBit else 0)
    + (if w.queueLocked then kIsQueueLockedBit else 0)
  }

  function Unpack(address: seq<nat>, m: nat): (w: F.Word)
    ensures Fits(address, w.head)
  {
    F.Word(m % 2 == 1, m % 4 >= 2, BundleAt(address, m - m % 4))
  }

  lemma LowFlags(a: nat, bit0: nat, bit1: nat)
    requires a % 4 == 0 && bit0 < 2 && (bit1 == 0 || bit1 == 2)
    ensures var m := a + bit0 + bit1; m % 2 == bit0 && m % 4 - m % 2 == bit1 && m - m % 4 == a
  {
  }

  // What the source's masks find in m_word.
  lemma WordParts(address: seq<nat>, w: F.Word)
    requires AddressesOk(address) && Fits(address, w.head)
    ensures Pack(address, w) % 2 == (if w.locked then 1 else 0)
    ensures Pack(address, w) % 4 - Pack(address, w) % 2 == (if w.queueLocked then 2 else 0)
    ensures Pack(address, w) - Pack(address, w) % 4 == AddressOf(address, w.head)
    ensures AddressOf(address, w.head) == 0 <==> w.head == None
  {
    AddressRoundTrip(address, w.head);
    LowFlags(AddressOf(address, w.head), if w.locked then kIsLockedBit else 0,
             if w.queueLocked then kIsQueueLockedBit else 0);
  }

  lemma UnpackPack(address: seq<nat>, w: F.Word)
    requires AddressesOk(address) && Fits(address, w.head)
    ensures Unpack(address, Pack(address, w)) == w
  {
    WordParts(address, w);
    AddressRoundTrip(address, w.head);
  }

  lemma PackIsInjective(address: seq<nat>, v: F.Word, w: F.Word)
    requires AddressesOk(address) && Fits(address, v.head) && Fits(address, w.head)
    ensures Pack(address, v) == Pack(address, w) <==> v == w
  {
    UnpackPack(address, v);
    UnpackPack(address, w);
  }

  // currentWordValue & kIsLockedBit, & kIsQueueLockedBit, and & ~kQueueHeadMask.
  method Test(address: seq<nat>, currentWordValue: nat, ghost w: F.Word)
      returns (locked: bool, queueLocked: bool, queued: bool)
    requires AddressesOk(address) && Fits(address, w.head) && currentWordValue == Pack(address, w)
    ensures locked == w.locked && queueLocked == w.queueLocked && queued == w.head.Some?
  {
    WordParts(address, w);
    var bit0, bit1, rest := Masks(currentWordValue);
    locked, queueLocked, queued := bit0 == kIsLockedBit, bit1 == kIsQueueLockedBit, rest != 0;
  }

  // The updates: currentWordValue | kIsLockedBit,
  method WithLock(address: seq<nat>, currentWordValue: nat, ghost w: F.Word) returns (newWordValue: nat)
    requires AddressesOk(address) && Fits(address, w.head) && currentWordValue == Pack(address, w)
    ensures newWordValue == Pack(address, w.(locked := true))
  {
    WordParts(address, w);
    newWordValue := SetBit0(currentWordValue);
  }

  // | kIsQueueLockedBit,
  method WithQueueLock(address: seq<nat>, currentWordValue: nat, ghost w: F.Word) returns (newWordValue: nat)
    requires AddressesOk(address) && Fits(address, w.head) && currentWordValue == Pack(address, w)
    ensures newWordValue == Pack(address, w.(queueLocked := true))
  {
    WordParts(address, w);
    newWordValue := SetBit1(currentWordValue);
  }

  // & ~kIsQueueLockedBit,
  method WithoutQueueLock(address: seq<nat>, currentWordValue: nat, ghost w: F.Word) returns (newWordValue: nat)
    requires AddressesOk(address) && Fits(address, w.head) && currentWordValue == Pack(address, w)
    ensures newWordValue == Pack(address, w.(queueLocked := false))
  {
    WordParts(address, w);
    newWordValue := ClearBit1(currentWordValue);
  }

  // installing the first waiter,
  method WithFirst(address: seq<nat>, currentWordValue: nat, f: nat, ghost w: F.Word) returns (newWordValue: nat)
    requires AddressesOk(address) && w.head.None? && f < |address| && currentWordValue == Pack(address, w)
    ensures newWordValue == Pack(address, w.(queueLocked := false, head := Some(f)))
  {
    newWordValue := OrAddress(currentWordValue, address[f]);
    ghost var queued := w.(head := Some(f));
    WordParts(address, queued);
    newWordValue := ClearBit1(newWordValue);
  }

  // and releasing both locks with the next head.
  method Released(address: seq<nat>, currentWordValue: nat, head: Link) returns (newWordValue: nat)
    requires AddressesOk(address) && Fits(address, head)
    ensures newWordValue == Pack(address, F.Word(false, false, head))
  {
    AddressRoundTrip(address, head);
    newWordValue := ClearFlagsAndHead(currentWordValue);
    newWordValue := OrAddress(newWordValue, AddressOf(address, head));
  }

  // Clearing both flags and masking with kQueueHeadMask leaves nothing.
  method ClearFlagsAndHead(currentWordValue: nat) returns (newWordValue: nat)
    ensures newWordValue == 0
  {
    newWordValue := ClearBit0(currentWordValue);
    newWordValue := ClearBit1(newWordValue);
    LowBits(newWordValue);
    newWordValue := BitAnd(newWordValue, kQueueHeadMask);
  }
}
