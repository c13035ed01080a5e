/**
 Identifiers of the posting-list engines (id_types.go).

 A conjunction id packs, from the most significant bits down,
 size (8) | index (8) | sign (1) | document magnitude (43), and an entry id is a
 conjunction id shifted left by four with the polarity in the lowest bit.  The
 fields never overlap, so the source's `|` is addition; module `IdBits` shows
 it on 64-bit words.
 */
module IdTypes {

  const MAX_DOC_ID := 0x7FF_FFFF_FFFF
  const NULLENTRY: EntryID := 0xFFFF_FFFF_FFFF_FFFF

  const SIZE_UNIT := 0x10_0000_0000_0000
  const INDEX_UNIT := 0x1000_0000_0000
  const SIGN_UNIT := 0x800_0000_0000

  type DocID = int

  type ConjID = c: int | 0 <= c < 0x1000_0000_0000_0000

  type EntryID = e: int | 0 <= e <= 0xFFFF_FFFF_FFFF_FFFF

  predicate ValidDocID(id: DocID) {
    -MAX_DOC_ID <= id <= MAX_DOC_ID
  }

  predicate ValidIdxOrSize(v: int) {
    0 <= v < 256
  }

  /** What `NewConjID` checks before it panics. */
  predicate InRange(docID: DocID, index: int, size: int) {
    ValidDocID(docID) && ValidIdxOrSize(index) && ValidIdxOrSize(size)
  }

  function NewConjID(docID: DocID, index: int, size: int): ConjID
    requires InRange(docID, index, size)
  {
    var negSign := if docID < 0 then 1 else 0;
    var magnitude := if docID < 0 then -docID else docID;
    size * SIZE_UNIT + index * INDEX_UNIT + negSign * SIGN_UNIT + magnitude
  }

  function SizeOf(id: ConjID): nat {
    id / SIZE_UNIT % 256
  }

  function IndexOf(id: ConjID): nat {
    id / INDEX_UNIT % 256
  }

  function DocOf(id: ConjID): DocID {
    var magnitude := id % SIGN_UNIT;
    if id / SIGN_UNIT % 2 > 0 then -magnitude else magnitude
  }

  function NewEntryID(id: ConjID, incl: bool): EntryID {
    id * 16 + if incl then 1 else 0
  }

  predicate IsInclude(entry: EntryID) {
    entry % 2 == 1
  }

  function ConjOf(entry: EntryID): ConjID {
    entry / 16
  }

  /** Entries made by `NewEntryID`: the three bits above the polarity are empty. */
  predicate WellFormed(entry: EntryID) {
    entry % 16 <= 1
  }

  /** The number of fields that must agree on a conjunction before it is collected. */
  function NeedFor(id: ConjID): nat {
    if SizeOf(id) > 1 then SizeOf(id) else 1
  }

  // ----- conjunction ids

  /** An id exists exactly for a 43-bit document id and a position and a size of a byte each, and decodes to them. */
  lemma ConjIDRoundTrip(docID: DocID, index: int, size: int)
    ensures InRange(docID, index, size) <==>
            -0x7FF_FFFF_FFFF <= docID <= 0x7FF_FFFF_FFFF && 0 <= index <= 255 && 0 <= size <= 255
    ensures InRange(docID, index, size) ==>
              var c := NewConjID(docID, index, size);
              DocOf(c) == docID && IndexOf(c) == index && SizeOf(c) == size
  {
    if InRange(docID, index, size) {
      ConjIDParts(docID, index, size);
    }
  }

  lemma ConjIDParts(docID: DocID, index: int, size: int)
    requires InRange(docID, index, size)
    ensures var c := NewConjID(docID, index, size);
            DocOf(c) == docID && IndexOf(c) == index && SizeOf(c) == size
  {
    var c := NewConjID(docID, index, size);
    var negSign := if docID < 0 then 1 else 0;
    assert c / SIGN_UNIT == size * 512 + index * 2 + negSign;
    assert c / INDEX_UNIT == size * 256 + index;
    assert c / SIZE_UNIT == size;
  }

  /** The order of ids is (size, index, sign, magnitude), most significant first. */
  predicate Precedes(d1: DocID, i1: int, s1: int, d2: DocID, i2: int, s2: int) {
    || s1 < s2
    || (s1 == s2 && i1 < i2)
    || (s1 == s2 && i1 == i2 && d1 >= 0 && d2 < 0)
    || (s1 == s2 && i1 == i2 && 0 <= d1 < d2)
    || (s1 == s2 && i1 == i2 && d2 < d1 < 0)
  }

  lemma ConjIDOrder(d1: DocID, i1: int, s1: int, d2: DocID, i2: int, s2: int)
    requires InRange(d1, i1, s1) && InRange(d2, i2, s2)
    ensures NewConjID(d1, i1, s1) < NewConjID(d2, i2, s2) <==> Precedes(d1, i1, s1, d2, i2, s2)
  {
    ConjIDRoundTrip(d1, i1, s1);
    ConjIDRoundTrip(d2, i2, s2);
  }

  lemma SizeIsMonotone(c: ConjID, d: ConjID)
    requires c <= d
    ensures SizeOf(c) <= SizeOf(d) && NeedFor(c) <= NeedFor(d)
  {
    assert c / SIZE_UNIT < 256 && d / SIZE_UNIT < 256;
  }

  // ----- entry ids

  lemma DivModOf(q: nat, r: nat, d: nat)
    requires r < d && (d == 2 || d == 16)
    ensures (d * q + r) / d == q && (d * q + r) % d == r
  {
  }

  lemma EntryIDRoundTrip(id: ConjID, incl: bool)
    ensures var e := NewEntryID(id, incl);
            ConjOf(e) == id && IsInclude(e) == incl && WellFormed(e) && e != NULLENTRY
  {
    var b := if incl then 1 else 0;
    DivModOf(id, b, 16);
    DivModOf(8 * id, b, 2);
    assert NewEntryID(id, incl) == 16 * id + b == 2 * (8 * id) + b;
  }

  /** Exclude sorts before include, and include + 1 falls strictly between a
      conjunction and its successor, so skipping there loses no later entry. */
  lemma EntryIDOrder(c: ConjID, d: ConjID, p: bool, q: bool)
    ensures NewEntryID(c, p) < NewEntryID(d, q) <==> c < d || (c == d && !p && q)
    ensures c < d ==> NewEntryID(c, true) + 1 < NewEntryID(d, false) < NULLENTRY
    ensures NewEntryID(c, true) + 1 < NULLENTRY
  {
  }

  lemma EntryIDInjective(c: ConjID, p: bool, d: ConjID, q: bool)
    ensures NewEntryID(c, p) == NewEntryID(d, q) <==> c == d && p == q
  {
  }

  lemma WellFormedBelowNull(e: EntryID)
    requires WellFormed(e)
    ensures e < NULLENTRY
  {
  }

  lemma WellFormedIsEncoded(e: EntryID)
    requires WellFormed(e)
    ensures e == NewEntryID(ConjOf(e), IsInclude(e))
  {
    var c := e / 16;
    if e % 16 == 0 {
      assert e == 2 * (8 * c);
    } else {
      assert e == 2 * (8 * c) + 1;
    }
  }
}

/** The packing of `IdTypes` written with machine words, as the source writes it. */
module IdBits {

  function PackConj(size: bv64, index: bv64, negSign: bv64, magnitude: bv64): bv64 {
    (size << 52) | (index << 44) | (negSign << 43) | magnitude
  }

  function PackEntry(conj: bv64, incl: bv64): bv64 {
    (conj << 4) | incl
  }

  lemma PackConjIsAddition(size: bv64, index: bv64, negSign: bv64, magnitude: bv64)
    requires size < 256 && index < 256 && negSign < 2 && magnitude <= 0x7FF_FFFF_FFFF
    ensures var id := PackConj(size, index, negSign, magnitude);
            && id == size * 0x10_0000_0000_0000 + index * 0x1000_0000_0000 + negSign * 0x800_0000_0000 + magnitude
            && (id >> 52) & 0xFF == size && (id >> 44) & 0xFF == index
            && (id >> 43) & 1 == negSign && id & 0x7FF_FFFF_FFFF == magnitude
            && id < 0x1000_0000_0000_0000
  {
  }

  lemma PackEntryIsAddition(conj: bv64, incl: bv64)
    requires conj < 0x1000_0000_0000_0000 && incl < 2
    ensures var entry := PackEntry(conj, incl);
            entry == conj * 16 + incl && entry >> 4 == conj && entry & 1 == incl && entry < 0xFFFF_FFFF_FFFF_FFFF
  {
  }
}
