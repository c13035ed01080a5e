/** The document-level cache format and its replay (doc_idx_cache.go, toCacheResult). */
module DocCache {
  import opened IdTypes
  import opened Utf8
  import opened Documents
  import opened BEIndexes

  /** Serialized token lists: what the codec writes, or anything else an external cache may hand back. */
  datatype Bytes = Wire(values: seq<Token>) | Garbage

  predicate Encodable(tokens: seq<Token>) {
    forall i :: 0 <= i < |tokens| ==> ValidUTF8(tokens[i].text)
  }

  /** Protobuf refuses strings that are not valid UTF-8. */
  function Encode(tokens: seq<Token>): Option<Bytes> {
    if Encodable(tokens) then Some(Wire(tokens)) else None
  }

  function Decode(data: Bytes): Option<seq<Token>> {
    if data.Wire? then Some(data.values) else None
  }

  datatype IdxCacheEntry = IdxCacheEntry(eid: EntryID, data: Bytes)

  datatype FieldIndexes = FieldIndexes(field: BEField, entries: seq<IdxCacheEntry>)

  datatype ConjIdxCache =
    ConjIdxCache(conjIdx: int, conjSize: int, wildcardEID: EntryID, fieldCacheIdx: seq<FieldIndexes>)

  datatype DocIdxCache = DocIdxCache(docID: DocID, version: nat, schemaHash: nat, conjIdxCaches: seq<ConjIdxCache>)

  datatype DocCacheKey = DocCacheKey(docID: DocID, version: nat)

  /** The part of the prepared data that concerns one field, in order. */
  ghost function OnField(txs: seq<FieldIndexingData>, f: BEField): seq<FieldIndexingData> {
    if txs == [] then []
    else OnField(txs[..|txs| - 1], f) + if txs[|txs| - 1].desc.field == f then [txs[|txs| - 1]] else []
  }

  lemma {:induction false} OnFieldConcat(a: seq<FieldIndexingData>, b: seq<FieldIndexingData>, f: BEField)
    ensures OnField(a + b, f) == OnField(a, f) + OnField(b, f)
  {
    if b == [] {
      assert a + b == a;
    } else {
      assert (a + b)[..|a + b| - 1] == a + b[..|b| - 1];
      OnFieldConcat(a, b[..|b| - 1], f);
    }
  }

  lemma {:induction false} OnFieldOwn(txs: seq<FieldIndexingData>, own: BEField, f: BEField)
    requires forall i :: 0 <= i < |txs| ==> txs[i].desc.field == own
    ensures OnField(txs, f) == if f == own then txs else []
  {
    if txs != [] {
      OnFieldOwn(txs[..|txs| - 1], own, f);
    }
  }

  /** What the cache keeps of prepared data: the entries that could be encoded. */
  ghost function Kept(txs: seq<FieldIndexingData>): seq<IdxCacheEntry> {
    if txs == [] then []
    else
      var last := txs[|txs| - 1];
      Kept(txs[..|txs| - 1]) + if Encodable(last.tokens) then [IdxCacheEntry(last.eid, Wire(last.tokens))] else []
  }

  /** The cached entries of one field, in order. */
  ghost function CachedOn(fis: seq<FieldIndexes>, f: BEField): seq<IdxCacheEntry> {
    if fis == [] then []
    else CachedOn(fis[..|fis| - 1], f) + if fis[|fis| - 1].field == f then fis[|fis| - 1].entries else []
  }

  /** What replaying cached entries of one field gives back. */
  ghost function Replayed(entries: seq<IdxCacheEntry>, desc: FieldDesc, holder: nat): seq<FieldIndexingData> {
    seq(|entries|, i requires 0 <= i < |entries| =>
      FieldIndexingData(desc, holder, entries[i].eid, if entries[i].data.Wire? then entries[i].data.values else []))
  }

  lemma ReplayedConcat(a: seq<IdxCacheEntry>, b: seq<IdxCacheEntry>, desc: FieldDesc, holder: nat)
    ensures Replayed(a + b, desc, holder) == Replayed(a, desc, holder) + Replayed(b, desc, holder)
  {
  }

  lemma {:induction false} KeptDecodes(txs: seq<FieldIndexingData>)
    ensures |Kept(txs)| <= |txs|
    ensures forall i :: 0 <= i < |Kept(txs)| ==> Kept(txs)[i].data.Wire?
  {
    if txs != [] {
      KeptDecodes(txs[..|txs| - 1]);
    }
  }

  /** The cache gives back what was prepared for a field exactly when every token list of it can be encoded. */
  lemma {:induction false} ReplayIffEncodable(txs: seq<FieldIndexingData>, desc: FieldDesc, holder: nat)
    requires forall i :: 0 <= i < |txs| ==> txs[i].desc == desc && txs[i].holder == holder
    ensures Replayed(Kept(txs), desc, holder) == txs <==>
            forall i :: 0 <= i < |txs| ==> Encodable(txs[i].tokens)
    ensures (exists i :: 0 <= i < |txs| && !Encodable(txs[i].tokens)) ==> |Kept(txs)| < |txs|
  {
    if txs != [] {
      var front, last := txs[..|txs| - 1], txs[|txs| - 1];
      ReplayIffEncodable(front, desc, holder);
      KeptDecodes(front);
      assert forall i :: 0 <= i < |front| ==> front[i] == txs[i];
      if Encodable(last.tokens) {
        assert Replayed(Kept(txs), desc, holder) == Replayed(Kept(front), desc, holder) + [last];
        assert txs == front + [last];
        if Replayed(Kept(txs), desc, holder) == txs {
          assert Replayed(Kept(txs), desc, holder)[..|txs| - 1] == txs[..|txs| - 1];
        }
      }
    }
  }

  function EntriesIn(m: map<BEField, seq<IdxCacheEntry>>, f: BEField): seq<IdxCacheEntry> {
    if f in m then m[f] else []
  }

  lemma CachedOnMore(fis: seq<FieldIndexes>, fi: FieldIndexes, f: BEField)
    ensures CachedOn(fis + [fi], f) == CachedOn(fis, f) + if fi.field == f then fi.entries else []
  {
    assert (fis + [fi])[..|fis|] == fis;
  }

  lemma KeptMore(txs: seq<FieldIndexingData>, i: nat, f: BEField)
    requires i < |txs|
    ensures Kept(OnField(txs[..i + 1], f)) == Kept(OnField(txs[..i], f))
            + if txs[i].desc.field == f && Encodable(txs[i].tokens)
              then [IdxCacheEntry(txs[i].eid, Wire(txs[i].tokens))] else []
  {
    assert txs[..i + 1][..i] == txs[..i];
    var own := OnField(txs[..i], f);
    assert (own + [txs[i]])[..|own|] == own;
    assert own + [] == own;
  }

  method GroupByField(txs: seq<FieldIndexingData>) returns (m: map<BEField, seq<IdxCacheEntry>>)
    ensures forall f :: EntriesIn(m, f) == Kept(OnField(txs, f))
  {
    m := map[];
    var i := 0;
    while i < |txs|
      invariant 0 <= i <= |txs|
      invariant forall f :: EntriesIn(m, f) == Kept(OnField(txs[..i], f))
    {
      var field := txs[i].desc.field;
      ghost var before := m;
      var data := Encode(txs[i].tokens);
      m := m[field := EntriesIn(m, field) + if data.Some? then [IdxCacheEntry(txs[i].eid, data.value)] else []];
      forall f
        ensures EntriesIn(m, f) == Kept(OnField(txs[..i + 1], f))
      {
        assert EntriesIn(before, f) == Kept(OnField(txs[..i], f));
        KeptMore(txs, i, f);
      }
      i := i + 1;
    }
    assert txs[..i] == txs;
  }

  method ListField(m: map<BEField, seq<IdxCacheEntry>>, ghost todo: set<BEField>, field: BEField,
                   fis: seq<FieldIndexes>)
    returns (r: seq<FieldIndexes>)
    requires field in todo && todo <= m.Keys
    requires forall f :: CachedOn(fis, f) == if f in todo then [] else EntriesIn(m, f)
    requires forall i :: 0 <= i < |fis| ==> fis[i].entries != []
    ensures forall f :: CachedOn(r, f) == if f in todo - {field} then [] else EntriesIn(m, f)
    ensures forall i :: 0 <= i < |r| ==> r[i].entries != []
  {
    r := fis;
    if |m[field]| > 0 {
      r := fis + [FieldIndexes(field, m[field])];
    }
    forall f
      ensures CachedOn(r, f) == if f in todo - {field} then [] else EntriesIn(m, f)
    {
      assert CachedOn(fis, f) == if f in todo then [] else EntriesIn(m, f);
      CachedOnMore(fis, FieldIndexes(field, m[field]), f);
    }
  }

  /** Turns the grouped entries into a list, in any order of the fields; fields without entries are left out. */
  method ListFields(m: map<BEField, seq<IdxCacheEntry>>) returns (fis: seq<FieldIndexes>)
    ensures forall f :: CachedOn(fis, f) == EntriesIn(m, f)
    ensures forall i :: 0 <= i < |fis| ==> fis[i].entries != []
  {
    fis := [];
    var todo := m.Keys;
    while todo != {}
      invariant todo <= m.Keys
      invariant forall f :: CachedOn(fis, f) == if f in todo then [] else EntriesIn(m, f)
      invariant forall i :: 0 <= i < |fis| ==> fis[i].entries != []
      decreases todo
    {
      var field :| field in todo;
      fis := ListField(m, todo, field, fis);
      todo := todo - {field};
    }
  }

  /** Groups the prepared data of a conjunction by field; the order of the fields is whatever the map gives. */
  method ToCacheResult(cd: ConjIndexingData) returns (r: ConjIdxCache)
    ensures r.conjIdx == cd.idx && r.conjSize == cd.incSize
    ensures r.wildcardEID == if cd.incSize == 0 then NewEntryID(cd.conjID, true) else 0
    ensures forall f :: CachedOn(r.fieldCacheIdx, f) == Kept(OnField(cd.fieldData, f))
    ensures forall i :: 0 <= i < |r.fieldCacheIdx| ==> r.fieldCacheIdx[i].entries != []
  {
    var fieldTxMap := GroupByField(cd.fieldData);
    var fis := ListFields(fieldTxMap);
    r := ConjIdxCache(cd.idx, cd.incSize, if cd.incSize == 0 then NewEntryID(cd.conjID, true) else 0, fis);
  }
}
