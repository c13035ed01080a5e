/** The two-phase index builder with its document-level cache (index_builder.go, doc_idx_cache.go). */
module IndexBuilders {
  import opened IdTypes
  import opened Utf8
  import opened Documents
  import opened BEIndexes
  import opened DocCache

  datatype BadConjBehavior = ErrorBadConj | SkipBadConj | PanicBadConj

  datatype Outcome = Ok | Error | Panic

  type Fields = map<BEField, FieldDesc>

  /** Descriptors sit under their own name, and no two share a field id. */
  ghost predicate FieldsOK(fields: Fields) {
    && (forall f :: f in fields ==> fields[f].field == f)
    && (forall f, h :: f in fields && h in fields && fields[f].id == fields[h].id ==> f == h)
  }

  /** `names` lists the fields in the order of their ids. */
  ghost predicate Listed(fields: Fields, names: seq<BEField>) {
    && (forall i :: 0 <= i < |names| ==> names[i] in fields && fields[names[i]].id == i)
    && (forall f :: f in fields ==> fields[f].id < |names| && names[fields[f].id] == f)
  }

  /** Ids are handed out as the number of fields so far. */
  lemma {:induction false} ListedCount(fields: Fields, names: seq<BEField>)
    requires Listed(fields, names)
    ensures |fields| == |names|
    decreases |names|
  {
    if names == [] {
      assert fields.Keys == {};
    } else {
      var last := names[|names| - 1];
      var rest := fields - {last};
      assert rest.Keys == fields.Keys - {last};
      ListedCount(rest, names[..|names| - 1]);
    }
  }

  ghost predicate Extends(later: Fields, earlier: Fields) {
    forall f :: f in earlier ==> f in later && later[f] == earlier[f]
  }

  /** A new field under the next id keeps ids distinct. */
  lemma AddedField(fields: Fields, names: seq<BEField>, field: BEField)
    requires FieldsOK(fields) && Listed(fields, names) && field !in fields
    ensures var later := fields[field := FieldDesc(|names|, field)];
            FieldsOK(later) && Listed(later, names + [field]) && Extends(later, fields)
  {
  }

  // ----- what a conjunction compiles to

  function TokensOf(v: Values): seq<Token> {
    if v.Parsed? then v.tokens else []
  }

  ghost predicate Tokenizable(conj: Conjunction) {
    forall f :: f in conj.expressions ==>
      forall i :: 0 <= i < |conj.expressions[f]| ==> !conj.expressions[f][i].value.Unsupported?
  }

  /** The default holder panics on any other operator. */
  ghost predicate EqOnly(conj: Conjunction) {
    forall f :: f in conj.expressions ==>
      forall i :: 0 <= i < |conj.expressions[f]| ==> conj.expressions[f][i].operator == EQ
  }

  /** How preparing a list of expressions ends: the first that cannot be built decides. */
  ghost function BuildAll(exprs: seq<BoolValues>): Outcome {
    if exprs == [] then Ok
    else if exprs[0].operator != EQ then Panic
    else if exprs[0].value.Unsupported? then Error
    else BuildAll(exprs[1..])
  }

  lemma {:induction false} BuildAllMeans(exprs: seq<BoolValues>)
    ensures BuildAll(exprs) == Ok <==>
            forall i :: 0 <= i < |exprs| ==> exprs[i].operator == EQ && !exprs[i].value.Unsupported?
    ensures BuildAll(exprs) == Panic ==> exists i :: 0 <= i < |exprs| && exprs[i].operator != EQ
    ensures BuildAll(exprs) == Error ==> exists i :: 0 <= i < |exprs| && exprs[i].value.Unsupported?
  {
    if exprs != [] {
      BuildAllMeans(exprs[1..]);
      assert forall i :: 1 <= i < |exprs| ==> exprs[i] == exprs[1..][i - 1];
      if BuildAll(exprs) != Ok && exprs[0].operator == EQ && !exprs[0].value.Unsupported? {
        var j :| 0 <= j < |exprs| - 1 && (exprs[1..][j].operator != EQ || exprs[1..][j].value.Unsupported?);
        assert exprs[j + 1] == exprs[1..][j];
      }
    }
  }

  lemma BuiltEverywhere(conj: Conjunction)
    requires forall f :: f in conj.expressions ==> BuildAll(conj.expressions[f]) == Ok
    ensures EqOnly(conj) && Tokenizable(conj)
  {
    forall f | f in conj.expressions
      ensures forall i :: 0 <= i < |conj.expressions[f]| ==>
                conj.expressions[f][i].operator == EQ && !conj.expressions[f][i].value.Unsupported?
    {
      BuildAllMeans(conj.expressions[f]);
    }
  }

  ghost function TxsFor(exprs: seq<BoolValues>, desc: FieldDesc, holder: nat, conjID: ConjID): seq<FieldIndexingData> {
    seq(|exprs|, i requires 0 <= i < |exprs| =>
      FieldIndexingData(desc, holder, NewEntryID(conjID, exprs[i].incl), TokensOf(exprs[i].value)))
  }

  ghost function FieldTxs(conj: Conjunction, f: BEField, fields: Fields, holder: nat,
                          conjID: ConjID): seq<FieldIndexingData>
  {
    if f in conj.expressions && f in fields then TxsFor(conj.expressions[f], fields[f], holder, conjID) else []
  }

  /** `txs` prepares every expression of the conjunction, field by field, in some order of the fields. */
  ghost predicate Prepares(txs: seq<FieldIndexingData>, conj: Conjunction, fields: Fields, holder: nat, conjID: ConjID)
  {
    && (forall f :: f in conj.expressions && conj.expressions[f] != [] ==> f in fields)
    && (forall f :: OnField(txs, f) == FieldTxs(conj, f, fields, holder, conjID))
  }

  lemma PreparesLater(txs: seq<FieldIndexingData>, conj: Conjunction, fields: Fields, later: Fields, holder: nat,
                      conjID: ConjID)
    requires Prepares(txs, conj, fields, holder, conjID) && Extends(later, fields)
    ensures Prepares(txs, conj, later, holder, conjID)
  {
    forall f
      ensures OnField(txs, f) == FieldTxs(conj, f, later, holder, conjID)
    {
      assert OnField(txs, f) == FieldTxs(conj, f, fields, holder, conjID);
    }
  }

  /** Every field that an expression is on is known. */
  ghost predicate KnownConj(conj: Conjunction, fields: Fields) {
    forall f :: f in conj.expressions && conj.expressions[f] != [] ==> f in fields
  }

  ghost predicate KnownDoc(doc: Document, fields: Fields) {
    forall i :: 0 <= i < |doc.cons| ==> KnownConj(doc.cons[i], fields)
  }

  ghost function Without(conj: Conjunction, fields: set<BEField>): Conjunction {
    Conjunction(conj.expressions - fields)
  }

  /** Preparing one more field of a conjunction. */
  lemma PreparesMore(txs: seq<FieldIndexingData>, more: seq<FieldIndexingData>, conj: Conjunction, todo: set<BEField>,
                     field: BEField, before: Fields, after: Fields, holder: nat, conjID: ConjID)
    requires field in todo && todo <= conj.expressions.Keys && FieldsOK(after) && Extends(after, before)
    requires Prepares(txs, Without(conj, todo), before, holder, conjID)
    requires conj.expressions[field] != [] ==> field in after
    requires more == if conj.expressions[field] == [] then []
                     else TxsFor(conj.expressions[field], after[field], holder, conjID)
    ensures Prepares(txs + more, Without(conj, todo - {field}), after, holder, conjID)
  {
    var was, now := Without(conj, todo), Without(conj, todo - {field});
    PreparesLater(txs, was, before, after, holder, conjID);
    forall f
      ensures OnField(txs + more, f) == FieldTxs(now, f, after, holder, conjID)
    {
      OnFieldConcat(txs, more, f);
      OnFieldOwn(more, field, f);
      assert OnField(txs, f) == FieldTxs(was, f, after, holder, conjID);
      assert f != field ==> (f in now.expressions <==> f in was.expressions);
    }
  }

  /** A conjunction that made it into the index, with the document and position it came from. */
  datatype Origin = Origin(doc: DocID, idx: nat, conj: Conjunction)

  ghost predicate DistinctOrigins(origins: seq<Origin>) {
    forall i, j :: 0 <= i < j < |origins| ==> origins[i].doc != origins[j].doc || origins[i].idx != origins[j].idx
  }

  ghost function SizeFor(o: Origin): nat {
    |IncludeFields(o.conj)|
  }

  ghost predicate CompiledFrom(cd: ConjIndexingData, o: Origin, fields: Fields, compact: bool) {
    && cd.idx == o.idx && cd.incSize == SizeFor(o)
    && InRange(o.doc, o.idx, SizeFor(o)) && cd.conjID == NewConjID(o.doc, o.idx, SizeFor(o))
    && EqOnly(o.conj) && Prepares(cd.fieldData, o.conj, fields, if compact then 0 else cd.incSize, cd.conjID)
  }

  ghost predicate Represents(cds: seq<ConjIndexingData>, origins: seq<Origin>, fields: Fields, compact: bool) {
    && |cds| == |origins|
    && forall i :: 0 <= i < |cds| ==> CompiledFrom(cds[i], origins[i], fields, compact)
  }

  lemma RepresentsLater(cds: seq<ConjIndexingData>, origins: seq<Origin>, fields: Fields, later: Fields, compact: bool)
    requires Represents(cds, origins, fields, compact) && Extends(later, fields)
    ensures Represents(cds, origins, later, compact)
  {
    forall i | 0 <= i < |cds|
      ensures CompiledFrom(cds[i], origins[i], later, compact)
    {
      assert CompiledFrom(cds[i], origins[i], fields, compact);
      var holder := if compact then 0 else cds[i].incSize;
      PreparesLater(cds[i].fieldData, origins[i].conj, fields, later, holder, cds[i].conjID);
    }
  }

  lemma OneMore(before: seq<ConjIndexingData>, all: seq<ConjIndexingData>, i: nat)
    requires i < |all|
    ensures before + all[..i] + [all[i]] == before + all[..i + 1]
  {
    assert all[..i + 1] == all[..i] + [all[i]];
  }

  lemma ConcatAssoc(a: seq<ConjIndexingData>, b: seq<ConjIndexingData>, c: seq<ConjIndexingData>)
    ensures (a + b) + c == a + (b + c)
  {
  }

  lemma RepresentsConcat(a: seq<ConjIndexingData>, aos: seq<Origin>, b: seq<ConjIndexingData>, bos: seq<Origin>,
                         fields: Fields, compact: bool)
    requires Represents(a, aos, fields, compact) && Represents(b, bos, fields, compact)
    ensures Represents(a + b, aos + bos, fields, compact)
  {
  }

  /** The conjunctions of a document that can be indexed, under their original positions. */
  ghost function GoodConjs(doc: Document, n: nat): seq<Origin>
    requires n <= |doc.cons|
  {
    if n == 0 then []
    else GoodConjs(doc, n - 1) + if Tokenizable(doc.cons[n - 1]) then [Origin(doc.id, n - 1, doc.cons[n - 1])] else []
  }

  // ----- the document cache

  type Cache = Option<map<DocCacheKey, DocIdxCache>>

  /** The later cache is the earlier one, unless it has been cleared. */
  ghost predicate Shrinks(later: Cache, earlier: Cache) {
    later == earlier || (earlier.Some? && later == Some(map[]))
  }

  /** The part of a builder that a new field changes. */
  datatype Schema = Schema(fields: Fields, stamp: nat, cache: Cache)

  /** Fields have been added at most.  As long as none was, the stamp and the cache are as before. */
  ghost predicate Follows(later: Schema, earlier: Schema) {
    && Extends(later.fields, earlier.fields) && Shrinks(later.cache, earlier.cache)
    && (later.fields == earlier.fields ==> later == earlier)
  }

  lemma FollowsOn(a: Schema, b: Schema, c: Schema)
    requires Follows(b, a) && Follows(c, b)
    ensures Follows(c, a)
  {
    if c.fields == a.fields {
      assert b.fields == a.fields;
    }
  }

  ghost predicate FieldEncodable(exprs: seq<BoolValues>) {
    forall i :: 0 <= i < |exprs| ==> Encodable(TokensOf(exprs[i].value))
  }

  ghost predicate ConjEncodable(conj: Conjunction) {
    forall f :: f in conj.expressions ==> FieldEncodable(conj.expressions[f])
  }

  ghost predicate DocEncodable(doc: Document) {
    forall i :: 0 <= i < |doc.cons| ==> ConjEncodable(doc.cons[i])
  }

  /** A cached conjunction holds what compiling its origin again would prepare. */
  ghost predicate HonestConj(c: ConjIdxCache, o: Origin, fields: Fields, compact: bool) {
    && c.conjIdx == o.idx && c.conjSize == SizeFor(o) && InRange(o.doc, o.idx, SizeFor(o))
    && (forall i :: 0 <= i < |c.fieldCacheIdx| ==> c.fieldCacheIdx[i].entries != [])
    && (forall f :: f in o.conj.expressions && o.conj.expressions[f] != [] ==> f in fields)
    && ConjEncodable(o.conj) && EqOnly(o.conj)
    && var holder, id := if compact then 0 else SizeFor(o), NewConjID(o.doc, o.idx, SizeFor(o));
    (forall f :: CachedOn(c.fieldCacheIdx, f) == Kept(FieldTxs(o.conj, f, fields, holder, id)))
  }

  ghost predicate HonestList(cs: seq<ConjIdxCache>, origins: seq<Origin>, fields: Fields, compact: bool) {
    && |cs| == |origins|
    && forall i :: 0 <= i < |cs| ==> HonestConj(cs[i], origins[i], fields, compact)
  }

  lemma HonestListLater(cs: seq<ConjIdxCache>, origins: seq<Origin>, fields: Fields, later: Fields, compact: bool)
    requires HonestList(cs, origins, fields, compact) && Extends(later, fields)
    ensures HonestList(cs, origins, later, compact)
  {
    forall i | 0 <= i < |cs|
      ensures HonestConj(cs[i], origins[i], later, compact)
    {
      var c, o := cs[i], origins[i];
      assert HonestConj(c, o, fields, compact);
      var holder, id := if compact then 0 else SizeFor(o), NewConjID(o.doc, o.idx, SizeFor(o));
      forall f
        ensures CachedOn(c.fieldCacheIdx, f) == Kept(FieldTxs(o.conj, f, later, holder, id))
      {
        assert CachedOn(c.fieldCacheIdx, f) == Kept(FieldTxs(o.conj, f, fields, holder, id));
        assert FieldTxs(o.conj, f, later, holder, id) == FieldTxs(o.conj, f, fields, holder, id);
      }
    }
  }

  /** What capturing a freshly compiled conjunction puts into the cache is honest. */
  lemma CaptureIsHonest(c: ConjIdxCache, cd: ConjIndexingData, o: Origin, fields: Fields, compact: bool)
    requires CompiledFrom(cd, o, fields, compact) && ConjEncodable(o.conj)
    requires c.conjIdx == cd.idx && c.conjSize == cd.incSize
    requires forall f :: CachedOn(c.fieldCacheIdx, f) == Kept(OnField(cd.fieldData, f))
    requires forall i :: 0 <= i < |c.fieldCacheIdx| ==> c.fieldCacheIdx[i].entries != []
    ensures HonestConj(c, o, fields, compact)
  {
    var holder, id := if compact then 0 else SizeFor(o), NewConjID(o.doc, o.idx, SizeFor(o));
    forall f
      ensures CachedOn(c.fieldCacheIdx, f) == Kept(FieldTxs(o.conj, f, fields, holder, id))
    {
      assert OnField(cd.fieldData, f) == FieldTxs(o.conj, f, fields, if compact then 0 else cd.incSize, cd.conjID);
    }
  }

  // ----- replay

  /** The cached conjunction can be replayed: its id is in range, its fields are known, its data decodes. */
  ghost predicate Replayable(docID: DocID, c: ConjIdxCache, fields: Fields) {
    && InRange(docID, c.conjIdx, c.conjSize)
    && forall i :: 0 <= i < |c.fieldCacheIdx| ==> FieldReplayable(c.fieldCacheIdx[i], fields)
  }

  ghost predicate FieldReplayable(fi: FieldIndexes, fields: Fields) {
    && fi.field in fields
    && forall j :: 0 <= j < |fi.entries| ==> fi.entries[j].data.Wire?
  }

  ghost function ReplayOn(fis: seq<FieldIndexes>, f: BEField, fields: Fields, holder: nat): seq<FieldIndexingData> {
    if f in fields then Replayed(CachedOn(fis, f), fields[f], holder) else []
  }

  lemma CachedOnNext(fis: seq<FieldIndexes>, i: nat, f: BEField)
    requires i < |fis|
    ensures CachedOn(fis[..i + 1], f) == CachedOn(fis[..i], f) + if fis[i].field == f then fis[i].entries else []
  {
    assert fis[..i + 1] == fis[..i] + [fis[i]];
    CachedOnMore(fis[..i], fis[i], f);
  }

  lemma ReplayOnMore(txs: seq<FieldIndexingData>, more: seq<FieldIndexingData>, fis: seq<FieldIndexes>, i: nat,
                     f: BEField, fields: Fields, holder: nat)
    requires i < |fis| && FieldsOK(fields) && fis[i].field in fields
    requires OnField(txs, f) == ReplayOn(fis[..i], f, fields, holder)
    requires more == Replayed(fis[i].entries, fields[fis[i].field], holder)
    ensures OnField(txs + more, f) == ReplayOn(fis[..i + 1], f, fields, holder)
  {
    OnFieldConcat(txs, more, f);
    OnFieldOwn(more, fis[i].field, f);
    CachedOnNext(fis, i, f);
    var before := CachedOn(fis[..i], f);
    if fis[i].field == f {
      ReplayedConcat(before, fis[i].entries, fields[f], holder);
    } else {
      assert before + [] == before && OnField(txs, f) + [] == OnField(txs, f);
    }
  }

  ghost predicate ReplayOf(cd: ConjIndexingData, docID: DocID, c: ConjIdxCache, fields: Fields, compact: bool)
    requires Replayable(docID, c, fields)
  {
    && cd.idx == c.conjIdx && cd.incSize == c.conjSize && cd.conjID == NewConjID(docID, c.conjIdx, c.conjSize)
    && forall f :: OnField(cd.fieldData, f) == ReplayOn(c.fieldCacheIdx, f, fields, if compact then 0 else cd.incSize)
  }

  /** `cds` replays the first cached conjunctions. */
  ghost predicate ReplayedFrom(cds: seq<ConjIndexingData>, cached: DocIdxCache, fields: Fields, compact: bool) {
    && |cds| <= |cached.conjIdxCaches|
    && forall i :: 0 <= i < |cds| ==>
         && Replayable(cached.docID, cached.conjIdxCaches[i], fields)
         && ReplayOf(cds[i], cached.docID, cached.conjIdxCaches[i], fields, compact)
  }

  lemma ReplayedFromMore(cds: seq<ConjIndexingData>, cd: ConjIndexingData, cached: DocIdxCache, fields: Fields,
                         compact: bool)
    requires ReplayedFrom(cds, cached, fields, compact) && |cds| < |cached.conjIdxCaches|
    requires Replayable(cached.docID, cached.conjIdxCaches[|cds|], fields)
    requires ReplayOf(cd, cached.docID, cached.conjIdxCaches[|cds|], fields, compact)
    ensures ReplayedFrom(cds + [cd], cached, fields, compact)
  {
  }

  lemma {:induction false} InCachedOn(fis: seq<FieldIndexes>, i: nat, j: nat)
    requires i < |fis| && j < |fis[i].entries|
    ensures fis[i].entries[j] in CachedOn(fis, fis[i].field)
  {
    if i < |fis| - 1 {
      InCachedOn(fis[..|fis| - 1], i, j);
    }
  }

  /** An honest entry always replays, and replays to what compiling the conjunction again would give. */
  lemma HonestReplays(c: ConjIdxCache, o: Origin, fields: Fields, compact: bool)
    requires HonestConj(c, o, fields, compact)
    ensures Replayable(o.doc, c, fields)
  {
    var holder, id := if compact then 0 else SizeFor(o), NewConjID(o.doc, o.idx, SizeFor(o));
    forall i | 0 <= i < |c.fieldCacheIdx|
      ensures FieldReplayable(c.fieldCacheIdx[i], fields)
    {
      var f := c.fieldCacheIdx[i].field;
      assert CachedOn(c.fieldCacheIdx, f) == Kept(FieldTxs(o.conj, f, fields, holder, id));
      KeptDecodes(FieldTxs(o.conj, f, fields, holder, id));
      InCachedOn(c.fieldCacheIdx, i, 0);
      forall j | 0 <= j < |c.fieldCacheIdx[i].entries|
        ensures c.fieldCacheIdx[i].entries[j].data.Wire?
      {
        InCachedOn(c.fieldCacheIdx, i, j);
      }
    }
  }

  lemma HonestReplayCompiles(cd: ConjIndexingData, c: ConjIdxCache, o: Origin, fields: Fields, compact: bool)
    requires FieldsOK(fields) && HonestConj(c, o, fields, compact) && Replayable(o.doc, c, fields)
    requires ReplayOf(cd, o.doc, c, fields, compact)
    ensures CompiledFrom(cd, o, fields, compact)
  {
    var holder := if compact then 0 else cd.incSize;
    forall f
      ensures OnField(cd.fieldData, f) == FieldTxs(o.conj, f, fields, holder, cd.conjID)
    {
      var txs := FieldTxs(o.conj, f, fields, holder, cd.conjID);
      assert CachedOn(c.fieldCacheIdx, f) == Kept(txs);
      if f in fields {
        ReplayIffEncodable(txs, fields[f], holder);
      }
    }
  }

  /** Captured and replayed, a conjunction comes back as it was compiled exactly when every value of it can be
      encoded; the expressions that cannot be are dropped. */
  lemma ReplayCompilesIffEncodable(cd: ConjIndexingData, c: ConjIdxCache, cd': ConjIndexingData, o: Origin,
                                   fields: Fields, compact: bool)
    requires FieldsOK(fields) && CompiledFrom(cd, o, fields, compact)
    requires c.conjIdx == cd.idx && c.conjSize == cd.incSize
    requires forall f :: CachedOn(c.fieldCacheIdx, f) == Kept(OnField(cd.fieldData, f))
    requires Replayable(o.doc, c, fields) && ReplayOf(cd', o.doc, c, fields, compact)
    ensures CompiledFrom(cd', o, fields, compact) <==> ConjEncodable(o.conj)
  {
    var holder := if compact then 0 else cd.incSize;
    forall f | f in fields
      ensures OnField(cd'.fieldData, f) == FieldTxs(o.conj, f, fields, holder, cd.conjID) <==>
              (f in o.conj.expressions ==> FieldEncodable(o.conj.expressions[f]))
    {
      FieldReplayIff(cd, c, cd', o, fields, compact, f);
    }
    if CompiledFrom(cd', o, fields, compact) {
      forall f | f in o.conj.expressions
        ensures FieldEncodable(o.conj.expressions[f])
      {
        if o.conj.expressions[f] != [] {
          assert OnField(cd'.fieldData, f) == FieldTxs(o.conj, f, fields, holder, cd.conjID);
        }
      }
    }
    if ConjEncodable(o.conj) {
      forall f
        ensures OnField(cd'.fieldData, f) == FieldTxs(o.conj, f, fields, holder, cd.conjID)
      {
        if f !in fields {
          assert OnField(cd'.fieldData, f) == ReplayOn(c.fieldCacheIdx, f, fields, holder);
        }
      }
    }
  }

  /** A value with the single byte 0x80: the expression on it is lost between capture and replay. */
  lemma LoneByteIsLost(cd: ConjIndexingData, c: ConjIdxCache, cd': ConjIndexingData, o: Origin, fields: Fields,
                       compact: bool, f: BEField)
    requires o.conj == Conjunction(map[f := [BoolValues(true, Parsed([Token([0x80])]), EQ)]])
    requires FieldsOK(fields) && CompiledFrom(cd, o, fields, compact)
    requires c.conjIdx == cd.idx && c.conjSize == cd.incSize
    requires forall h :: CachedOn(c.fieldCacheIdx, h) == Kept(OnField(cd.fieldData, h))
    requires Replayable(o.doc, c, fields) && ReplayOf(cd', o.doc, c, fields, compact)
    ensures !CompiledFrom(cd', o, fields, compact)
  {
    ReplayCompilesIffEncodable(cd, c, cd', o, fields, compact);
    assert !ValidUTF8([0x80]);
    var exprs := o.conj.expressions[f];
    assert TokensOf(exprs[0].value)[0] == Token([0x80]);
    assert !FieldEncodable(exprs);
  }

  lemma FieldReplayIff(cd: ConjIndexingData, c: ConjIdxCache, cd': ConjIndexingData, o: Origin, fields: Fields,
                       compact: bool, f: BEField)
    requires CompiledFrom(cd, o, fields, compact) && f in fields
    requires c.conjIdx == cd.idx && c.conjSize == cd.incSize
    requires CachedOn(c.fieldCacheIdx, f) == Kept(OnField(cd.fieldData, f))
    requires Replayable(o.doc, c, fields) && ReplayOf(cd', o.doc, c, fields, compact)
    ensures OnField(cd'.fieldData, f)
            == FieldTxs(o.conj, f, fields, if compact then 0 else cd.incSize, cd.conjID) <==>
            (f in o.conj.expressions ==> FieldEncodable(o.conj.expressions[f]))
  {
    var holder := if compact then 0 else cd.incSize;
    var txs := FieldTxs(o.conj, f, fields, holder, cd.conjID);
    assert OnField(cd.fieldData, f) == txs;
    assert OnField(cd'.fieldData, f) == ReplayOn(c.fieldCacheIdx, f, fields, holder);
    ReplayIffEncodable(txs, fields[f], holder);
    if f in o.conj.expressions {
      assert forall i :: 0 <= i < |txs| ==> txs[i].tokens == TokensOf(o.conj.expressions[f][i].value);
    }
  }

  /** No conjunction of the document would be dropped. */
  ghost predicate AllGood(doc: Document) {
    |GoodConjs(doc, |doc.cons|)| == |doc.cons|
  }

  /** The document id takes 43 bits and a sign, position and size take a byte each, and only EQ reaches the default
      holder. */
  ghost predicate NoPanic(doc: Document) {
    forall i :: 0 <= i < |doc.cons| ==> EqOnly(doc.cons[i]) && Fits(doc.id, i, |IncludeFields(doc.cons[i])|)
  }

  ghost predicate Fits(docID: DocID, index: int, size: int) {
    -0x7FF_FFFF_FFFF <= docID <= 0x7FF_FFFF_FFFF && 0 <= index <= 255 && 0 <= size <= 255
  }

  lemma {:induction false} GoodCount(doc: Document, n: nat)
    requires n <= |doc.cons|
    ensures |GoodConjs(doc, n)| <= n
    ensures |GoodConjs(doc, n)| == n <==> forall i :: 0 <= i < n ==> Tokenizable(doc.cons[i])
  {
    if n > 0 {
      GoodCount(doc, n - 1);
    }
  }

  /** What the bad-conjunction policy makes of a document. */
  ghost function PolicyOutcome(doc: Document, behavior: BadConjBehavior): Outcome {
    if behavior == SkipBadConj || AllGood(doc) then Ok else if behavior == ErrorBadConj then Error else Panic
  }

  /** How adding the document ends, if nothing panics: with 0 or more than 255 conjunctions it is refused, and
      otherwise the policy decides. */
  ghost function RefusalOf(doc: Document, behavior: BadConjBehavior): Outcome {
    if 1 <= |doc.cons| <= 255 then PolicyOutcome(doc, behavior) else Error
  }

  /** The policy lets the document in: it has 1 to 255 conjunctions, and bad ones among them only to be skipped. */
  ghost predicate Admits(doc: Document, behavior: BadConjBehavior) {
    1 <= |doc.cons| <= 255 && (behavior == SkipBadConj || AllGood(doc))
  }

  /** The policy lets the first `n` documents in. */
  ghost predicate AdmitsTo(docs: seq<Document>, n: nat, behavior: BadConjBehavior)
    requires n <= |docs|
  {
    forall i :: 0 <= i < n ==> Admits(docs[i], behavior)
  }

  lemma AdmitsMore(docs: seq<Document>, n: nat, behavior: BadConjBehavior)
    requires n < |docs| && AdmitsTo(docs, n, behavior) && Admits(docs[n], behavior)
    ensures AdmitsTo(docs, n + 1, behavior)
  {
  }

  ghost function AllGoodConjs(docs: seq<Document>, n: nat): seq<Origin>
    requires n <= |docs|
  {
    if n == 0 then [] else AllGoodConjs(docs, n - 1) + GoodConjs(docs[n - 1], |docs[n - 1].cons|)
  }

  lemma {:induction false} GoodOrigins(doc: Document, n: nat)
    requires n <= |doc.cons|
    ensures forall i :: 0 <= i < |GoodConjs(doc, n)| ==>
              var o := GoodConjs(doc, n)[i];
              o.doc == doc.id && o.idx < n && o.conj == doc.cons[o.idx] && Tokenizable(o.conj)
  {
    if n > 0 {
      GoodOrigins(doc, n - 1);
    }
  }

  lemma GoodEncodable(doc: Document, n: nat)
    requires n <= |doc.cons| && DocEncodable(doc)
    ensures forall i :: 0 <= i < |GoodConjs(doc, n)| ==> ConjEncodable(GoodConjs(doc, n)[i].conj)
  {
    GoodOrigins(doc, n);
  }

  lemma AllGoodMeans(doc: Document)
    ensures AllGood(doc) <==> forall i :: 0 <= i < |doc.cons| ==> Tokenizable(doc.cons[i])
  {
    GoodCount(doc, |doc.cons|);
  }

  ghost predicate HonestEntry(e: DocIdxCache, doc: Document, fields: Fields, compact: bool, behavior: BadConjBehavior) {
    && e.docID == doc.id
    && HonestList(e.conjIdxCaches, GoodConjs(doc, |doc.cons|), fields, compact)
    && (behavior == SkipBadConj || AllGood(doc))
  }

  /** Every entry replays the content that its (id, version) names. */
  ghost predicate CacheOK(cache: Cache, content: DocCacheKey -> Document, fields: Fields, compact: bool,
                          behavior: BadConjBehavior)
  {
    cache.Some? ==>
      forall key :: key in cache.value ==> HonestEntry(cache.value[key], content(key), fields, compact, behavior)
  }

  /** The document would be replayed: it is cached under the stamp. */
  ghost predicate Hit(cache: Cache, doc: Document, stamp: nat) {
    && doc.version > 0 && cache.Some? && DocCacheKey(doc.id, doc.version) in cache.value
    && cache.value[DocCacheKey(doc.id, doc.version)].schemaHash == stamp
  }

  /** What was cached under the stamp still is. */
  ghost predicate Keeps(later: Cache, earlier: Cache, stamp: nat) {
    && later.Some? == earlier.Some?
    && (earlier.Some? ==>
          forall key :: key in earlier.value && earlier.value[key].schemaHash == stamp ==>
            key in later.value && later.value[key].schemaHash == stamp)
  }

  /** The document is one that the cache is for: it has a version and a conjunction to cache. */
  ghost predicate Cachable(doc: Document) {
    doc.version > 0 && GoodConjs(doc, |doc.cons|) != []
  }

  /** What adding a document does to the schema and the cache: a document that is not in the cache is cached, and as
      long as no field was added it can be replayed from then on, like everything that could be before. */
  ghost predicate Caches(doc: Document, hit: bool, ok: bool, before: Schema, after: Schema) {
    && Extends(after.fields, before.fields) && after.cache.Some? == before.cache.Some?
    && (hit <==> Hit(before.cache, doc, before.stamp)) && (hit ==> after == before)
    && (ok && before.cache.Some? && Cachable(doc) ==> Hit(after.cache, doc, before.stamp))
    && (after.fields == before.fields ==>
          after.stamp == before.stamp && Keeps(after.cache, before.cache, before.stamp))
    && (KnownDoc(doc, before.fields) ==> after.fields == before.fields)
  }

  /** A document that was cached is replayed the next time, if the stamp is still the one it was cached under. */
  lemma NextTimeHits(doc: Document, hit: bool, hit': bool, ok': bool, before: Schema, after: Schema, last: Schema)
    requires Caches(doc, hit, true, before, after) && before.cache.Some? && Cachable(doc)
    requires after.stamp == before.stamp && Caches(doc, hit', ok', after, last)
    ensures hit' && last == after
  {
  }

  /** The first `n` documents have been added, some of them from the cache: all that could be replayed at the start
      were, and all that the cache is for can be replayed now, unless a field was added. */
  ghost predicate HitsTo(docs: seq<Document>, n: nat, hits: seq<bool>, start: Schema, now: Schema) {
    && n <= |docs| && |hits| == n && Extends(now.fields, start.fields) && now.cache.Some? == start.cache.Some?
    && (now.fields == start.fields ==>
          && now.stamp == start.stamp && Keeps(now.cache, start.cache, start.stamp)
          && (forall i :: 0 <= i < n && Hit(start.cache, docs[i], start.stamp) ==> hits[i])
          && (forall i :: 0 <= i < n && start.cache.Some? && Cachable(docs[i]) ==>
                Hit(now.cache, docs[i], start.stamp)))
    && ((forall i :: 0 <= i < |docs| ==> KnownDoc(docs[i], start.fields)) ==> now.fields == start.fields)
  }

  lemma HitsNone(docs: seq<Document>, start: Schema)
    ensures HitsTo(docs, 0, [], start, start)
  {
  }

  /** One more document, or one that was refused. */
  lemma HitsMore(docs: seq<Document>, n: nat, hits: seq<bool>, hit: bool, ok: bool, start: Schema, before: Schema,
                 after: Schema)
    requires n < |docs| && HitsTo(docs, n, hits, start, before) && Caches(docs[n], hit, ok, before, after)
    ensures if ok then HitsTo(docs, n + 1, hits + [hit], start, after) else HitsTo(docs, n, hits, start, after)
  {
    if after.fields == start.fields {
      assert before.fields == start.fields;
      forall i | 0 <= i < n && start.cache.Some? && Cachable(docs[i])
        ensures Hit(after.cache, docs[i], start.stamp)
      {
        assert Hit(before.cache, docs[i], start.stamp);
      }
    }
    if forall i :: 0 <= i < |docs| ==> KnownDoc(docs[i], start.fields) {
      assert KnownDoc(docs[n], start.fields);
    }
  }

  lemma CacheOKLater(cache: Cache, later: Cache, content: DocCacheKey -> Document, fields: Fields, after: Fields,
                     compact: bool, behavior: BadConjBehavior)
    requires CacheOK(cache, content, fields, compact, behavior) && Shrinks(later, cache) && Extends(after, fields)
    ensures CacheOK(later, content, after, compact, behavior)
  {
    if later.Some? {
      forall key | key in later.value
        ensures HonestEntry(later.value[key], content(key), after, compact, behavior)
      {
        var doc := content(key);
        assert HonestEntry(cache.value[key], doc, fields, compact, behavior);
        HonestListLater(cache.value[key].conjIdxCaches, GoodConjs(doc, |doc.cons|), fields, after, compact);
      }
    }
  }

  lemma HonestEntryReplays(e: DocIdxCache, doc: Document, fields: Fields, compact: bool, behavior: BadConjBehavior)
    requires HonestEntry(e, doc, fields, compact, behavior)
    ensures forall i :: 0 <= i < |e.conjIdxCaches| ==> Replayable(e.docID, e.conjIdxCaches[i], fields)
  {
    var origins := GoodConjs(doc, |doc.cons|);
    GoodOrigins(doc, |doc.cons|);
    forall i | 0 <= i < |e.conjIdxCaches|
      ensures Replayable(e.docID, e.conjIdxCaches[i], fields)
    {
      HonestReplays(e.conjIdxCaches[i], origins[i], fields, compact);
    }
  }

  lemma HonestEntryCompiles(cds: seq<ConjIndexingData>, e: DocIdxCache, doc: Document, fields: Fields, compact: bool,
                            behavior: BadConjBehavior)
    requires FieldsOK(fields) && HonestEntry(e, doc, fields, compact, behavior)
    requires |cds| == |e.conjIdxCaches| && ReplayedFrom(cds, e, fields, compact)
    ensures Represents(cds, GoodConjs(doc, |doc.cons|), fields, compact)
  {
    var origins := GoodConjs(doc, |doc.cons|);
    GoodOrigins(doc, |doc.cons|);
    forall i | 0 <= i < |cds|
      ensures CompiledFrom(cds[i], origins[i], fields, compact)
    {
      HonestReplayCompiles(cds[i], e.conjIdxCaches[i], origins[i], fields, compact);
    }
  }

  // ----- the builder

  class IndexerBuilder {
    const compact: bool
    const badConjBehavior: BadConjBehavior
    ghost const content: DocCacheKey -> Document
    var indexer: BEIndex
    var fieldsData: Fields
    var docLevelCache: Cache
    var schemaHash: nat
    ghost var names: seq<BEField>

    ghost function State(): Schema
      reads this
    {
      Schema(fieldsData, schemaHash, docLevelCache)
    }

    /** Field ids are handed out in order, one per field. */
    ghost predicate FieldsKept()
      reads this
    {
      FieldsOK(fieldsData) && Listed(fieldsData, names)
    }

    /** What preparing needs and keeps. */
    ghost predicate Sound()
      reads this, indexer`containers
    {
      FieldsKept() && indexer.compact == compact && indexer.Shaped()
    }

    ghost predicate Valid()
      reads this, indexer
    {
      && Sound() && indexer.Valid()
      && CacheOK(docLevelCache, content, fieldsData, compact, badConjBehavior)
    }

    constructor (compact: bool, badConjBehavior: BadConjBehavior, caching: bool, ghost content: DocCacheKey -> Document)
      ensures Valid() && this.compact == compact && this.badConjBehavior == badConjBehavior && this.content == content
      ensures fresh(indexer) && fieldsData == map[] && indexer.committed == []
      ensures docLevelCache == if caching then Some(map[]) else None
    {
      this.compact := compact;
      this.badConjBehavior := badConjBehavior;
      this.content := content;
      indexer := new BEIndex(compact);
      fieldsData := map[];
      docLevelCache := if caching then Some(map[]) else None;
      schemaHash, names := 0, [];
    }

    /** Starts an empty index; fields and cache stay. */
    method Reset()
      requires Valid()
      modifies this`indexer
      ensures Valid() && fresh(indexer) && indexer.committed == []
    {
      indexer := new BEIndex(compact);
    }

    /** Adding a field restamps the schema and clears the cache.  The stamp folds over a map in
        iteration order, so nothing is known about its value. */
    method ConfigureField(field: BEField) returns (desc: Option<FieldDesc>)
      requires FieldsKept()
      modifies this`fieldsData, this`names, this`schemaHash, this`docLevelCache
      ensures FieldsKept() && Follows(State(), old(State()))
      ensures desc.None? <==> field in old(fieldsData)
      ensures desc.None? ==> State() == old(State())
      ensures desc.Some? ==> desc.value.field == field && fieldsData == old(fieldsData)[field := desc.value]
      ensures desc.Some? && docLevelCache.Some? ==> docLevelCache.value == map[]
    {
      if field in fieldsData {
        return None;
      }
      var d := FieldDesc(|fieldsData|, field);
      ListedCount(fieldsData, names);
      AddedField(fieldsData, names, field);
      fieldsData := fieldsData[field := d];
      names := names + [field];
      schemaHash := *;
      if docLevelCache.Some? {
        docLevelCache := Some(map[]);
      }
      desc := Some(d);
    }

    method CreateFieldData(field: BEField) returns (desc: FieldDesc)
      requires FieldsKept()
      modifies this`fieldsData, this`names, this`schemaHash, this`docLevelCache
      ensures FieldsKept() && Follows(State(), old(State()))
      ensures field in fieldsData && desc == fieldsData[field]
      ensures field in old(fieldsData) ==> fieldsData == old(fieldsData)
    {
      if field in fieldsData {
        return fieldsData[field];
      }
      var created := ConfigureField(field);
      desc := created.value;
    }

    /** Prepares the expressions of one field; the first one creates the field if need be. */
    method IndexingField(field: BEField, exprs: seq<BoolValues>, holder: nat, conjID: ConjID)
      returns (outcome: Outcome, txs: seq<FieldIndexingData>)
      requires FieldsKept()
      modifies this`fieldsData, this`names, this`schemaHash, this`docLevelCache
      ensures FieldsKept() && Follows(State(), old(State()))
      ensures exprs == [] || field in old(fieldsData) ==> fieldsData == old(fieldsData)
      ensures exprs != [] ==> field in fieldsData
      ensures outcome == BuildAll(exprs)
      ensures outcome.Ok? ==> txs == if exprs == [] then [] else TxsFor(exprs, fieldsData[field], holder, conjID)
    {
      txs := [];
      if exprs == [] {
        return Ok, [];
      }
      var desc := CreateFieldData(field);
      var i := 0;
      while i < |exprs|
        invariant 0 <= i <= |exprs| && |txs| == i
        invariant BuildAll(exprs) == BuildAll(exprs[i..])
        invariant forall j :: 0 <= j < i ==> txs[j] == TxsFor(exprs, desc, holder, conjID)[j]
      {
        if exprs[i].operator != EQ {
          return Panic, [];
        }
        var values := Tokenize(exprs[i].value);
        if values.None? {
          return Error, [];
        }
        txs := txs + [FieldIndexingData(desc, holder, NewEntryID(conjID, exprs[i].incl), values.value)];
        i := i + 1;
      }
      outcome := Ok;
    }

    /** Prepares all fields of a conjunction, visiting them in any order. */
    method PrepareFields(holder: nat, conjID: ConjID, conj: Conjunction)
      returns (outcome: Outcome, txs: seq<FieldIndexingData>)
      requires FieldsKept()
      modifies this`fieldsData, this`names, this`schemaHash, this`docLevelCache
      ensures FieldsKept() && Follows(State(), old(State()))
      ensures outcome.Ok? ==> EqOnly(conj) && Tokenizable(conj) && Prepares(txs, conj, fieldsData, holder, conjID)
      ensures outcome.Ok? ==> forall tx :: tx in txs ==> tx.holder == holder
      ensures outcome.Error? ==> !Tokenizable(conj)
      ensures outcome.Panic? ==> !EqOnly(conj)
      ensures KnownConj(conj, old(fieldsData)) ==> fieldsData == old(fieldsData)
    {
      txs := [];
      var todo := conj.expressions.Keys;
      while todo != {}
        invariant FieldsKept() && Follows(State(), old(State()))
        invariant KnownConj(conj, old(fieldsData)) ==> fieldsData == old(fieldsData)
        invariant todo <= conj.expressions.Keys
        invariant Prepares(txs, Without(conj, todo), fieldsData, holder, conjID)
        invariant forall f :: f in conj.expressions && f !in todo ==> BuildAll(conj.expressions[f]) == Ok
        invariant forall tx :: tx in txs ==> tx.holder == holder
        decreases todo
      {
        var field :| field in todo;
        var more;
        ghost var before := State();
        outcome, more := IndexingField(field, conj.expressions[field], holder, conjID);
        FollowsOn(old(State()), before, State());
        if !outcome.Ok? {
          BuildAllMeans(conj.expressions[field]);
          return outcome, [];
        }
        PreparesMore(txs, more, conj, todo, field, before.fields, fieldsData, holder, conjID);
        txs := txs + more;
        todo := todo - {field};
      }
      BuiltEverywhere(conj);
      assert Without(conj, {}) == conj;
      outcome := Ok;
    }

    /** Phase one for a conjunction: nothing is committed, whatever the outcome. */
    method IndexingConjunction(conjID: ConjID, incSize: nat, conj: Conjunction)
      returns (outcome: Outcome, txs: seq<FieldIndexingData>)
      requires Sound()
      modifies this`fieldsData, this`names, this`schemaHash, this`docLevelCache, indexer`containers
      ensures Sound() && Follows(State(), old(State()))
      ensures Padded(indexer.containers, old(indexer.containers))
      ensures indexer.ContainerOf(incSize) < |indexer.containers|
      ensures outcome.Ok? ==> EqOnly(conj) && Tokenizable(conj)
      ensures outcome.Ok? ==> Prepares(txs, conj, fieldsData, indexer.ContainerOf(incSize), conjID)
      ensures outcome.Ok? ==> forall tx :: tx in txs ==> tx.holder == indexer.ContainerOf(incSize)
      ensures outcome.Error? ==> !Tokenizable(conj)
      ensures outcome.Panic? ==> !EqOnly(conj)
      ensures KnownConj(conj, old(fieldsData)) ==> fieldsData == old(fieldsData)
    {
      var holder := indexer.NewContainer(incSize);
      outcome, txs := PrepareFields(holder, conjID, conj);
    }

    /** `cds` is prepared data for `origins`, ready to commit. */
    ghost predicate Prepared(cds: seq<ConjIndexingData>, origins: seq<Origin>)
      reads this, indexer`containers
    {
      && Represents(cds, origins, fieldsData, compact)
      && forall i :: 0 <= i < |cds| ==> indexer.Fits(cds[i])
    }

    /** Prepares one conjunction of a document, keeping what has been prepared so far. */
    method PrepareConj(docID: DocID, idx: nat, conj: Conjunction, ghost cds: seq<ConjIndexingData>,
                       ghost origins: seq<Origin>)
      returns (outcome: Outcome, cd: ConjIndexingData)
      requires Sound() && Prepared(cds, origins)
      modifies this`fieldsData, this`names, this`schemaHash, this`docLevelCache, indexer`containers
      ensures Sound() && Follows(State(), old(State()))
              && Prepared(cds, origins)
      ensures Padded(indexer.containers, old(indexer.containers))
      ensures outcome.Ok? ==> CompiledFrom(cd, Origin(docID, idx, conj), fieldsData, compact) && indexer.Fits(cd)
      ensures outcome.Ok? ==> Tokenizable(conj)
      ensures outcome.Error? ==> !Tokenizable(conj)
      ensures outcome.Panic? ==> !EqOnly(conj) || !Fits(docID, idx, |IncludeFields(conj)|)
      ensures KnownConj(conj, old(fieldsData)) ==> fieldsData == old(fieldsData)
    {
      var incSize := CalcConjSize(conj);
      if !InRange(docID, idx, incSize) {
        return Panic, ConjIndexingData(idx, incSize, 0, []);
      }
      var conjID := NewConjID(docID, idx, incSize);
      var txs;
      ghost var before := fieldsData;
      outcome, txs := IndexingConjunction(conjID, incSize, conj);
      RepresentsLater(cds, origins, before, fieldsData, compact);
      cd := ConjIndexingData(idx, incSize, conjID, txs);
    }

    lemma PreparedMore(cds: seq<ConjIndexingData>, origins: seq<Origin>, cd: ConjIndexingData, o: Origin)
      requires Prepared(cds, origins) && CompiledFrom(cd, o, fieldsData, compact) && indexer.Fits(cd)
      ensures Prepared(cds + [cd], origins + [o])
    {
    }

    /** One step of phase one: the bad-conjunction policy decides whether to go on. */
    method PrepareNext(doc: Document, idx: nat, cds: seq<ConjIndexingData>)
      returns (outcome: Outcome, cds': seq<ConjIndexingData>)
      requires idx < |doc.cons| && Sound() && Prepared(cds, GoodConjs(doc, idx))
      modifies this`fieldsData, this`names, this`schemaHash, this`docLevelCache, indexer`containers
      ensures Sound() && Follows(State(), old(State()))
      ensures Padded(indexer.containers, old(indexer.containers))
      ensures outcome.Ok? ==> Prepared(cds', GoodConjs(doc, idx + 1))
      ensures outcome.Ok? ==> badConjBehavior == SkipBadConj || |GoodConjs(doc, idx + 1)| == |GoodConjs(doc, idx)| + 1
      ensures outcome.Error? ==> badConjBehavior == ErrorBadConj && !AllGood(doc)
      ensures outcome.Panic? ==> !NoPanic(doc) || (badConjBehavior == PanicBadConj && !AllGood(doc))
      ensures KnownDoc(doc, old(fieldsData)) ==> fieldsData == old(fieldsData)
    {
      var cd;
      outcome, cd := PrepareConj(doc.id, idx, doc.cons[idx], cds, GoodConjs(doc, idx));
      cds' := cds;
      if outcome.Ok? {
        PreparedMore(cds, GoodConjs(doc, idx), cd, Origin(doc.id, idx, doc.cons[idx]));
        cds' := cds + [cd];
      } else if outcome.Error? {
        AllGoodMeans(doc);
        outcome := match badConjBehavior
          case SkipBadConj => Ok
          case ErrorBadConj => Error
          case PanicBadConj => Panic;
      }
    }

    /** Preparing has added fields and empty containers at most, and cleared the cache at most. */
    ghost predicate Since(doc: Document, state: Schema, containers: seq<Postings>)
      reads this, indexer`containers
    {
      && Sound() && Follows(State(), state) && (KnownDoc(doc, state.fields) ==> fieldsData == state.fields)
      && Padded(indexer.containers, containers)
    }

    /** The first `idx` conjunctions of the document are prepared, as the policy wants them. */
    ghost predicate PreparedTo(doc: Document, idx: nat, cds: seq<ConjIndexingData>)
      requires idx <= |doc.cons|
      reads this, indexer`containers
    {
      Prepared(cds, GoodConjs(doc, idx)) && (badConjBehavior == SkipBadConj || |GoodConjs(doc, idx)| == idx)
    }

    method PrepareStep(doc: Document, idx: nat, cds: seq<ConjIndexingData>, ghost state: Schema,
                       ghost containers: seq<Postings>)
      returns (outcome: Outcome, cds': seq<ConjIndexingData>)
      requires idx < |doc.cons| && Since(doc, state, containers) && PreparedTo(doc, idx, cds)
      modifies this`fieldsData, this`names, this`schemaHash, this`docLevelCache, indexer`containers
      ensures Since(doc, state, containers)
      ensures outcome.Ok? ==> PreparedTo(doc, idx + 1, cds')
      ensures outcome.Error? ==> badConjBehavior == ErrorBadConj && !AllGood(doc)
      ensures outcome.Panic? ==> !NoPanic(doc) || (badConjBehavior == PanicBadConj && !AllGood(doc))
    {
      ghost var before := State();
      outcome, cds' := PrepareNext(doc, idx, cds);
      FollowsOn(state, before, State());
    }

    /** Phase one for a document: prepares its conjunctions under their own positions. */
    method PrepareDoc(doc: Document) returns (outcome: Outcome, allConjData: seq<ConjIndexingData>)
      requires Sound()
      modifies this`fieldsData, this`names, this`schemaHash, this`docLevelCache, indexer`containers
      ensures Sound() && Follows(State(), old(State()))
      ensures Padded(indexer.containers, old(indexer.containers))
      ensures outcome.Ok? ==> Prepared(allConjData, GoodConjs(doc, |doc.cons|))
      ensures outcome.Ok? ==> badConjBehavior == SkipBadConj || AllGood(doc)
      ensures outcome.Error? ==> badConjBehavior == ErrorBadConj && !AllGood(doc)
      ensures outcome.Panic? ==> !NoPanic(doc) || (badConjBehavior == PanicBadConj && !AllGood(doc))
      ensures KnownDoc(doc, old(fieldsData)) ==> fieldsData == old(fieldsData)
    {
      allConjData := [];
      outcome := Ok;
      ghost var state, containers := State(), indexer.containers;
      var idx := 0;
      while idx < |doc.cons|
        invariant 0 <= idx <= |doc.cons| && outcome.Ok?
        invariant Since(doc, state, containers)
        invariant PreparedTo(doc, idx, allConjData)
      {
        outcome, allConjData := PrepareStep(doc, idx, allConjData, state, containers);
        if !outcome.Ok? {
          return;
        }
        idx := idx + 1;
      }
    }

    /** Phase two: commits everything prepared. */
    method CommitDoc(allConjData: seq<ConjIndexingData>)
      requires indexer.Valid() && forall i :: 0 <= i < |allConjData| ==> indexer.Fits(allConjData[i])
      modifies indexer`containers, indexer`wildcardEntries, indexer`committed
      ensures indexer.Valid() && indexer.committed == old(indexer.committed) + allConjData
    {
      var i := 0;
      while i < |allConjData|
        invariant 0 <= i <= |allConjData| && indexer == old(indexer)
        invariant |indexer.containers| == old(|indexer.containers|)
        invariant indexer.Valid() && indexer.committed == old(indexer.committed) + allConjData[..i]
      {
        OneMore(old(indexer.committed), allConjData, i);
        indexer.CommitConjIndexingData(allConjData[i]);
        i := i + 1;
      }
      assert allConjData[..i] == allConjData;
    }

    /** Captures what was committed for the cache. */
    static method CaptureDoc(allConjData: seq<ConjIndexingData>, ghost origins: seq<Origin>, ghost fields: Fields,
                             ghost compact: bool)
      returns (caches: seq<ConjIdxCache>)
      requires Represents(allConjData, origins, fields, compact)
      requires forall i :: 0 <= i < |origins| ==> ConjEncodable(origins[i].conj)
      ensures HonestList(caches, origins, fields, compact)
    {
      caches := [];
      var i := 0;
      while i < |allConjData|
        invariant 0 <= i <= |allConjData| && |caches| == i
        invariant forall j :: 0 <= j < i ==> HonestConj(caches[j], origins[j], fields, compact)
      {
        var c := ToCacheResult(allConjData[i]);
        CaptureIsHonest(c, allConjData[i], origins[i], fields, compact);
        caches := caches + [c];
        i := i + 1;
      }
    }

    // ----- replaying the cache

    /** Decodes the cached expressions of one field. */
    static method DecodeField(entries: seq<IdxCacheEntry>, desc: FieldDesc, holder: nat)
      returns (ok: bool, txs: seq<FieldIndexingData>)
      ensures ok <==> forall j :: 0 <= j < |entries| ==> entries[j].data.Wire?
      ensures ok ==> txs == Replayed(entries, desc, holder)
    {
      txs := [];
      var j := 0;
      while j < |entries|
        invariant 0 <= j <= |entries| && |txs| == j
        invariant forall i :: 0 <= i < j ==> entries[i].data.Wire? && txs[i] == Replayed(entries, desc, holder)[i]
      {
        var values := Decode(entries[j].data);
        if values.None? {
          return false, [];
        }
        txs := txs + [FieldIndexingData(desc, holder, entries[j].eid, values.value)];
        j := j + 1;
      }
      ok := true;
    }

    static method DecodeFields(fis: seq<FieldIndexes>, fields: Fields, holder: nat)
      returns (ok: bool, txs: seq<FieldIndexingData>)
      requires FieldsOK(fields)
      ensures ok <==> forall i :: 0 <= i < |fis| ==> FieldReplayable(fis[i], fields)
      ensures ok ==> forall f :: OnField(txs, f) == ReplayOn(fis, f, fields, holder)
      ensures ok ==> forall i :: 0 <= i < |txs| ==> txs[i].holder == holder
    {
      txs := [];
      var i := 0;
      while i < |fis|
        invariant 0 <= i <= |fis|
        invariant forall j :: 0 <= j < i ==> FieldReplayable(fis[j], fields)
        invariant forall f :: OnField(txs, f) == ReplayOn(fis[..i], f, fields, holder)
        invariant forall j :: 0 <= j < |txs| ==> txs[j].holder == holder
      {
        if fis[i].field !in fields {
          return false, [];
        }
        var decoded, more := DecodeField(fis[i].entries, fields[fis[i].field], holder);
        if !decoded {
          return false, [];
        }
        forall f
          ensures OnField(txs + more, f) == ReplayOn(fis[..i + 1], f, fields, holder)
        {
          assert OnField(txs, f) == ReplayOn(fis[..i], f, fields, holder);
          ReplayOnMore(txs, more, fis, i, f, fields, holder);
        }
        txs := txs + more;
        i := i + 1;
      }
      assert fis[..i] == fis;
      ok := true;
    }

    method ToConjIndexingData(docID: DocID, c: ConjIdxCache) returns (outcome: Outcome, cd: ConjIndexingData)
      requires Sound()
      modifies indexer`containers
      ensures Sound() && Padded(indexer.containers, old(indexer.containers))
      ensures outcome.Ok? <==> Replayable(docID, c, fieldsData)
      ensures outcome.Panic? <==> !Fits(docID, c.conjIdx, c.conjSize)
      ensures outcome.Ok? ==> ReplayOf(cd, docID, c, fieldsData, compact) && indexer.Fits(cd)
    {
      if !InRange(docID, c.conjIdx, c.conjSize) {
        return Panic, ConjIndexingData(0, 0, 0, []);
      }
      var holder := indexer.NewContainer(c.conjSize);
      var ok, txs := DecodeFields(c.fieldCacheIdx, fieldsData, holder);
      cd := ConjIndexingData(c.conjIdx, c.conjSize, NewConjID(docID, c.conjIdx, c.conjSize), txs);
      outcome := if ok then Ok else Error;
    }

    /** Replays one cached conjunction and commits it at once. */
    method ReplayNext(docID: DocID, c: ConjIdxCache) returns (outcome: Outcome, cd: ConjIndexingData)
      requires Sound() && indexer.Valid()
      modifies indexer`containers, indexer`wildcardEntries, indexer`committed
      ensures Sound() && indexer.Valid()
      ensures outcome.Ok? <==> Replayable(docID, c, fieldsData)
      ensures outcome.Panic? <==> !Fits(docID, c.conjIdx, c.conjSize)
      ensures outcome.Ok? ==> ReplayOf(cd, docID, c, fieldsData, compact)
      ensures indexer.committed == old(indexer.committed) + if outcome.Ok? then [cd] else []
    {
      outcome, cd := ToConjIndexingData(docID, c);
      indexer.StillHolds();
      if outcome.Ok? {
        indexer.CommitConjIndexingData(cd);
      }
    }

    /** Replays a cached document, whatever the cache holds.  Conjunctions are committed one by one, so a
        conjunction that cannot be replayed leaves exactly the ones before it in the index. */
    method AddDocIndexingData(cached: DocIdxCache) returns (outcome: Outcome, ghost replayed: seq<ConjIndexingData>)
      requires Sound() && indexer.Valid()
      modifies indexer`containers, indexer`wildcardEntries, indexer`committed
      ensures Sound() && indexer.Valid() && indexer.committed == old(indexer.committed) + replayed
      ensures ReplayedFrom(replayed, cached, fieldsData, compact)
      ensures outcome.Ok? <==> |replayed| == |cached.conjIdxCaches|
      ensures !outcome.Ok? ==>
                var c := cached.conjIdxCaches[|replayed|];
                && !Replayable(cached.docID, c, fieldsData)
                && (outcome.Panic? <==> !Fits(cached.docID, c.conjIdx, c.conjSize))
    {
      replayed := [];
      var i := 0;
      while i < |cached.conjIdxCaches|
        invariant 0 <= i <= |cached.conjIdxCaches| && |replayed| == i
        invariant indexer.Valid() && indexer.committed == old(indexer.committed) + replayed
        invariant ReplayedFrom(replayed, cached, fieldsData, compact)
      {
        var cd;
        outcome, cd := ReplayNext(cached.docID, cached.conjIdxCaches[i]);
        if !outcome.Ok? {
          return;
        }
        ReplayedFromMore(replayed, cd, cached, fieldsData, compact);
        replayed := replayed + [cd];
        i := i + 1;
      }
      outcome := Ok;
    }

    /** A cache hit: the replay cannot fail and adds what compiling the document would add. */
    method ReplayDoc(cached: DocIdxCache, ghost doc: Document) returns (ghost added: seq<ConjIndexingData>)
      requires Valid() && HonestEntry(cached, doc, fieldsData, compact, badConjBehavior)
      modifies indexer`containers, indexer`wildcardEntries, indexer`committed
      ensures Valid() && indexer.committed == old(indexer.committed) + added
      ensures Represents(added, GoodConjs(doc, |doc.cons|), fieldsData, compact)
    {
      HonestEntryReplays(cached, doc, fieldsData, compact, badConjBehavior);
      var outcome;
      outcome, added := AddDocIndexingData(cached);
      HonestEntryCompiles(added, cached, doc, fieldsData, compact, badConjBehavior);
    }

    /** Remembers what was committed for a document, under the stamp from before it was prepared. */
    method Remember(doc: Document, stamp: nat, allConjData: seq<ConjIndexingData>)
      requires Valid() && docLevelCache.Some? && content(DocCacheKey(doc.id, doc.version)) == doc && DocEncodable(doc)
      requires Represents(allConjData, GoodConjs(doc, |doc.cons|), fieldsData, compact)
      requires badConjBehavior == SkipBadConj || AllGood(doc)
      modifies this`docLevelCache
      ensures Valid() && docLevelCache.Some?
      ensures var key := DocCacheKey(doc.id, doc.version);
              if GoodConjs(doc, |doc.cons|) == [] then docLevelCache == old(docLevelCache)
              else
                && key in docLevelCache.value
                && docLevelCache.value == old(docLevelCache.value)[key := docLevelCache.value[key]]
                && docLevelCache.value[key].schemaHash == stamp
                && |docLevelCache.value[key].conjIdxCaches| == |GoodConjs(doc, |doc.cons|)|
    {
      GoodEncodable(doc, |doc.cons|);
      var caches := CaptureDoc(allConjData, GoodConjs(doc, |doc.cons|), fieldsData, compact);
      if |caches| > 0 {
        var entry := DocIdxCache(doc.id, doc.version, stamp, caches);
        assert HonestEntry(entry, doc, fieldsData, compact, badConjBehavior);
        docLevelCache := Some(docLevelCache.value[DocCacheKey(doc.id, doc.version) := entry]);
      }
    }

    /** Whether the document takes part in caching. */
    predicate UsesCache(doc: Document)
      reads this`docLevelCache
    {
      docLevelCache.Some? && doc.version > 0
    }

    /** A cache miss: prepare everything, then commit everything. */
    method CompileDoc(doc: Document) returns (outcome: Outcome, ghost added: seq<ConjIndexingData>)
      requires Valid()
      requires UsesCache(doc) ==> content(DocCacheKey(doc.id, doc.version)) == doc && DocEncodable(doc)
      modifies this`fieldsData, this`names, this`schemaHash, this`docLevelCache
      modifies indexer`containers, indexer`wildcardEntries, indexer`committed
      ensures Valid() && Extends(fieldsData, old(fieldsData)) && docLevelCache.Some? == old(docLevelCache).Some?
      ensures indexer.committed == old(indexer.committed) + added
      ensures outcome.Ok? ==> Represents(added, GoodConjs(doc, |doc.cons|), fieldsData, compact)
      ensures !outcome.Ok? ==> added == [] && indexer.wildcardEntries == old(indexer.wildcardEntries)
      ensures !outcome.Ok? ==> forall k: nat, term :: indexer.ListAt(k, term) == old(indexer.ListAt(k, term))
      ensures outcome.Ok? ==> badConjBehavior == SkipBadConj || AllGood(doc)
      ensures outcome.Error? ==> badConjBehavior == ErrorBadConj && !AllGood(doc)
      ensures outcome.Panic? ==> !NoPanic(doc) || (badConjBehavior == PanicBadConj && !AllGood(doc))
      ensures !old(Hit(docLevelCache, doc, schemaHash)) ==> Caches(doc, false, outcome.Ok?, old(State()), State())
    {
      var stamp := schemaHash;
      var allConjData;
      outcome, allConjData := PrepareDoc(doc);
      CacheOKLater(old(docLevelCache), docLevelCache, content, old(fieldsData), fieldsData, compact, badConjBehavior);
      indexer.StillHolds();
      if !outcome.Ok? {
        added := [];
        return;
      }
      added := allConjData;
      CommitDoc(allConjData);
      if docLevelCache.Some? && doc.version > 0 {
        Remember(doc, stamp, allConjData);
      }
    }

    /** Adds one document, all of it or none of it, and the same with or without the cache. */
    method BuildDocEntries(doc: Document)
      returns (outcome: Outcome, ghost added: seq<ConjIndexingData>, ghost hit: bool)
      requires Valid()
      requires UsesCache(doc) ==> content(DocCacheKey(doc.id, doc.version)) == doc && DocEncodable(doc)
      modifies this`fieldsData, this`names, this`schemaHash, this`docLevelCache
      modifies indexer`containers, indexer`wildcardEntries, indexer`committed
      ensures Valid() && Extends(fieldsData, old(fieldsData)) && docLevelCache.Some? == old(docLevelCache).Some?
      ensures indexer.committed == old(indexer.committed) + added
      ensures outcome.Ok? ==> Represents(added, GoodConjs(doc, |doc.cons|), fieldsData, compact)
      ensures !outcome.Ok? ==> added == [] && indexer.wildcardEntries == old(indexer.wildcardEntries)
      ensures !outcome.Ok? ==> forall k: nat, term :: indexer.ListAt(k, term) == old(indexer.ListAt(k, term))
      ensures outcome.Ok? ==> badConjBehavior == SkipBadConj || AllGood(doc)
      ensures NoPanic(doc) ==> outcome == PolicyOutcome(doc, badConjBehavior)
      ensures Caches(doc, hit, outcome.Ok?, old(State()), State())
    {
      if docLevelCache.Some? && doc.version > 0 {
        var cacheKey := DocCacheKey(doc.id, doc.version);
        if cacheKey in docLevelCache.value && docLevelCache.value[cacheKey].schemaHash == schemaHash {
          outcome, hit := Ok, true;
          added := ReplayDoc(docLevelCache.value[cacheKey], doc);
          return;
        }
      }
      hit := false;
      outcome, added := CompileDoc(doc);
    }

    /** `AddDocument` for one document, on top of what represents `origins`. */
    method AddNext(doc: Document, ghost start: seq<ConjIndexingData>, ghost added: seq<ConjIndexingData>,
                   ghost origins: seq<Origin>)
      returns (outcome: Outcome, ghost added': seq<ConjIndexingData>, ghost origins': seq<Origin>, ghost hit: bool)
      requires Valid() && indexer.committed == start + added && Represents(added, origins, fieldsData, compact)
      requires UsesCache(doc) ==> content(DocCacheKey(doc.id, doc.version)) == doc && DocEncodable(doc)
      modifies this`fieldsData, this`names, this`schemaHash, this`docLevelCache
      modifies indexer`containers, indexer`wildcardEntries, indexer`committed
      ensures Valid() && Extends(fieldsData, old(fieldsData)) && docLevelCache.Some? == old(docLevelCache).Some?
      ensures indexer.committed == start + added' && Represents(added', origins', fieldsData, compact)
      ensures origins' == if outcome.Ok? then origins + GoodConjs(doc, |doc.cons|) else origins
      ensures outcome.Ok? ==> Admits(doc, badConjBehavior)
      ensures 1 <= |doc.cons| <= 255 && NoPanic(doc) ==> outcome == PolicyOutcome(doc, badConjBehavior)
      ensures !(1 <= |doc.cons| <= 255) ==> outcome == Error && State() == old(State())
      ensures 1 <= |doc.cons| <= 255 ==> Caches(doc, hit, outcome.Ok?, old(State()), State())
    {
      if |doc.cons| == 0 || |doc.cons| > 0xFF {
        return Error, added, origins, false;
      }
      ghost var more;
      ghost var before := fieldsData;
      outcome, more, hit := BuildDocEntries(doc);
      RepresentsLater(added, origins, before, fieldsData, compact);
      if outcome.Ok? {
        ghost var good := GoodConjs(doc, |doc.cons|);
        RepresentsConcat(added, origins, more, good, fieldsData, compact);
        ConcatAssoc(start, added, more);
        added', origins' := added + more, origins + good;
      } else {
        assert start + added + [] == start + added;
        added', origins' := added, origins;
      }
    }

    /** Every cached document is what its (id, version) names, and can be encoded. */
    ghost predicate Cacheable(docs: seq<Document>, caching: bool) {
      forall i :: 0 <= i < |docs| && caching && docs[i].version > 0 ==>
        content(DocCacheKey(docs[i].id, docs[i].version)) == docs[i] && DocEncodable(docs[i])
    }

    /** What adding the first `n` documents on top of `start` has led to. */
    ghost predicate Added(docs: seq<Document>, n: nat, start: seq<ConjIndexingData>, added: seq<ConjIndexingData>,
                          hits: seq<bool>, state: Schema)
      requires n <= |docs|
      reads this, indexer
    {
      && Valid() && HitsTo(docs, n, hits, state, State())
      && indexer.committed == start + added
      && Represents(added, AllGoodConjs(docs, n), fieldsData, compact)
    }

    method AddStep(docs: seq<Document>, n: nat, ghost start: seq<ConjIndexingData>, ghost added: seq<ConjIndexingData>,
                   ghost hits: seq<bool>, ghost state: Schema)
      returns (outcome: Outcome, ghost added': seq<ConjIndexingData>, ghost hits': seq<bool>)
      requires n < |docs| && Added(docs, n, start, added, hits, state) && Cacheable(docs, docLevelCache.Some?)
      requires AdmitsTo(docs, n, badConjBehavior)
      modifies this`fieldsData, this`names, this`schemaHash, this`docLevelCache
      modifies indexer`containers, indexer`wildcardEntries, indexer`committed
      ensures docLevelCache.Some? == old(docLevelCache.Some?)
      ensures Added(docs, if outcome.Ok? then n + 1 else n, start, added', hits', state)
      ensures AdmitsTo(docs, if outcome.Ok? then n + 1 else n, badConjBehavior)
      ensures outcome == RefusalOf(docs[n], badConjBehavior) || !NoPanic(docs[n])
      ensures !(1 <= |docs[n].cons| <= 255) ==> outcome == Error
    {
      ghost var origins, hit;
      ghost var before := State();
      outcome, added', origins, hit := AddNext(docs[n], start, added, AllGoodConjs(docs, n));
      hits' := hits;
      if 1 <= |docs[n].cons| <= 255 {
        HitsMore(docs, n, hits, hit, outcome.Ok?, state, before, State());
        hits' := if outcome.Ok? then hits + [hit] else hits;
      }
      if outcome.Ok? {
        AdmitsMore(docs, n, badConjBehavior);
      }
    }

    /** Adds documents in order, up to the first that is refused. */
    method AddDocument(docs: seq<Document>)
      returns (outcome: Outcome, n: nat, ghost added: seq<ConjIndexingData>, ghost hits: seq<bool>)
      requires Valid() && Cacheable(docs, docLevelCache.Some?)
      modifies this`fieldsData, this`names, this`schemaHash, this`docLevelCache
      modifies indexer`containers, indexer`wildcardEntries, indexer`committed
      ensures n <= |docs| && Added(docs, n, old(indexer.committed), added, hits, old(State()))
      ensures docLevelCache.Some? == old(docLevelCache.Some?) && AdmitsTo(docs, n, badConjBehavior)
      ensures outcome.Ok? <==> n == |docs|
      ensures !outcome.Ok? && NoPanic(docs[n]) ==> outcome == RefusalOf(docs[n], badConjBehavior)
      ensures !outcome.Ok? && !(1 <= |docs[n].cons| <= 255) ==> outcome == Error
    {
      added, hits, n, outcome := [], [], 0, Ok;
      ghost var start, state := indexer.committed, State();
      HitsNone(docs, state);
      assert start + added == start;
      while n < |docs|
        invariant 0 <= n <= |docs| && outcome.Ok? && docLevelCache.Some? == old(docLevelCache.Some?)
        invariant Added(docs, n, start, added, hits, state) && AdmitsTo(docs, n, badConjBehavior)
      {
        outcome, added, hits := AddStep(docs, n, start, added, hits, state);
        if !outcome.Ok? {
          return;
        }
        n := n + 1;
      }
    }

    /** Hands the fields to the index and sorts every list. */
    method BuildIndex() returns (index: BEIndex)
      requires Valid()
      modifies indexer`containers, indexer`wildcardEntries, indexer`fieldsData
      ensures Valid() && index == indexer && index.Valid() && index.Compiled() && index.fieldsData == fieldsData
      ensures forall k: nat, term :: multiset(index.ListAt(k, term)) == old(multiset(indexer.ListAt(k, term)))
    {
      indexer.fieldsData := fieldsData;
      indexer.CompileIndexer();
      index := indexer;
    }
  }
}
