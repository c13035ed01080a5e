/** Retrieval by the two posting-list engines from an index with number fields behind it. */
module MixedRetrieval {
  import opened IdTypes
  import opened Documents
  import opened IndexScanner
  import opened Merge
  import opened BEIndexes
  import opened IndexBuilders
  import opened Matching
  import opened Retrieval
  import opened RangeIdxs
  import opened RangeHolders
  import opened MixedDocuments
  import opened MixedIndexes

  /** The queried numbers are 64-bit and below the largest one. */
  ghost predicate Askable(q: MixedQuery) {
    forall f, j :: f in q.numbers && 0 <= j < |Numbers(q, f)| ==> MIN_INT64 <= Numbers(q, f)[j] < MAX_INT64
  }

  /** The value for the field is of a type its holder does not take; `held` are the number fields with a holder. */
  ghost predicate FieldBad(fields: Fields, held: set<BEField>, q: MixedQuery, f: BEField)
    requires f in q.values || f in q.numbers
  {
    if f in q.values then f in fields && q.values[f].Unsupported? else f in held && q.numbers[f].None?
  }

  ghost predicate BadHere(fields: Fields, held: set<BEField>, q: MixedQuery) {
    exists f :: f in q.values.Keys + q.numbers.Keys && FieldBad(fields, held, q, f)
  }

  // ----- reading one container

  /** A yardstick for a container: posting lists, wildcards, fields and a query, all of values. */
  datatype Measure = Measure(pl: Postings, wild: set<EntryID>, fields: Fields, q: Assignments)

  ghost function Entries(m: Measure, key: CursorKey): set<EntryID> {
    EntriesFor(key, m.pl, m.wild, m.fields, m.q)
  }

  /** Cursors gathered from a container, measured by the yardstick. */
  ghost predicate GatheredFrom(m: Measure, cs: seq<FieldCursor>, world: set<object>, done: set<CursorKey>)
    reads world
  {
    Gathered(cs, world, done, m.pl, m.wild, m.fields, m.q)
  }

  /** The value fields of the query hit the same in the posting lists and in the yardstick. */
  ghost predicate ValuesMeasured(m: Measure, pl: Postings, q: MixedQuery) {
    && AllAscending(pl)
    && forall f :: f in q.values && f in m.fields ==>
         HitSet(pl, m.fields[f], TokenSet(q.values[f])) == Entries(m, OfField(f))
  }

  /** The yardstick has, for a number field, what a holder that was told `told[f]` is asked for. */
  ghost predicate NumbersMeasured(m: Measure, told: map<BEField, seq<NumPosting>>, q: MixedQuery) {
    forall f :: f in q.numbers ==> f in told && NumberMeasured(m, told[f], q, f)
  }

  ghost predicate NumberMeasured(m: Measure, ps: seq<NumPosting>, q: MixedQuery, f: BEField) {
    && (forall p :: 0 <= p < |ps| ==> Faithful(ps[p].expr))
    && (forall e :: e in Entries(m, OfField(f)) <==> Asked(ps, Numbers(q, f), e))
  }

  /** The holders of a container have been told; a field without a holder has nothing there. */
  ghost predicate HoldersTold(hs: map<BEField, RangeHolder>, told: map<BEField, seq<NumPosting>>)
    reads hs.Values, set h | h in hs.Values :: h.rangeIdx
  {
    && (forall f :: f in hs ==> f in told && HolderReady(hs[f], told[f]))
    && (forall f :: f in told && f !in hs ==> told[f] == [])
  }

  /** The cursor of a holder that was told `ps`, if it finds anything. */
  method HolderCursor(h: RangeHolder, ids: Option<seq<int>>, field: BEField, ghost ps: seq<NumPosting>)
    returns (ok: bool, fc: FieldCursor?, ghost found: set<EntryID>)
    requires HolderReady(h, ps) && forall p :: 0 <= p < |ps| ==> Faithful(ps[p].expr)
    requires ids.Some? ==> forall j :: 0 <= j < |ids.value| ==> MIN_INT64 <= ids.value[j] < MAX_INT64
    ensures ok <==> ids.Some?
    ensures ok ==> forall e :: e in found <==> Asked(ps, ids.value, e)
    ensures ok && fc == null ==> found == {}
    ensures ok && fc != null ==> fresh(fc) && fresh(fc.Repr) && Reads(fc, OfField(field), found)
  {
    fc, found := null, {};
    var entries := h.GetEntries(ids);
    ok := entries.Some?;
    if ok {
      var cs := entries.value;
      found := AllEntries(cs);
      forall e
        ensures e in found <==> Asked(ps, ids.value, e)
      {
        FoundIffAsked(h.committed, ps, ids.value, e);
      }
      if |cs| > 0 {
        assert cs[0].entries[0] in cs[0].entries;
        assert cs[0].entries[0] in AllEntries(cs);
        assert forall i :: 0 <= i < |cs| ==> cs[i] in cs;
        fc := new FieldCursor(OfField(field), cs);
      }
    }
  }

  /** The cursor of a value field, if it hits anything. */
  method OpenValues(pl: Postings, fields: Fields, q: MixedQuery, field: BEField, ghost m: Measure)
    returns (ok: bool, fc: FieldCursor?)
    requires ValuesMeasured(m, pl, q) && m.fields == fields && field in q.values
    ensures ok <==> !(field in fields && q.values[field].Unsupported?)
    ensures ok && fc == null ==> Entries(m, OfField(field)) == {}
    ensures ok && fc != null ==> fresh(fc) && fresh(fc.Repr) && Reads(fc, OfField(field), Entries(m, OfField(field)))
  {
    ok, fc := true, null;
    if field in fields {
      ok, fc := FieldHit(pl, fields[field], q.values[field], field);
    }
  }

  /** The cursor of a number field, if it hits anything. */
  method OpenNumbers(hs: map<BEField, RangeHolder>, q: MixedQuery, field: BEField, ghost m: Measure,
                     ghost told: map<BEField, seq<NumPosting>>)
    returns (ok: bool, fc: FieldCursor?)
    requires HoldersTold(hs, told) && NumbersMeasured(m, told, q) && Askable(q) && field in q.numbers
    ensures ok <==> !(field in hs && q.numbers[field].None?)
    ensures ok && fc == null ==> Entries(m, OfField(field)) == {}
    ensures ok && fc != null ==> fresh(fc) && fresh(fc.Repr) && Reads(fc, OfField(field), Entries(m, OfField(field)))
  {
    assert NumberMeasured(m, told[field], q, field);
    assert q.numbers[field].Some? ==> q.numbers[field].value == Numbers(q, field);
    ok, fc := true, null;
    if field in hs {
      ghost var found;
      ok, fc, found := HolderCursor(hs[field], q.numbers[field], field, told[field]);
      assert ok ==> found == Entries(m, OfField(field));
    } else {
      assert Entries(m, OfField(field)) == {};
    }
  }

  /** Adds the cursor of a field, if it hits anything. */
  lemma GatheredField(m: Measure, cs: seq<FieldCursor>, world: set<object>, done: set<CursorKey>, key: CursorKey,
                      fc: FieldCursor?)
    requires GatheredFrom(m, cs, world, done) && key !in done
    requires if fc == null then Entries(m, key) == {} else fc.Repr !! world && Reads(fc, key, Entries(m, key))
    ensures fc == null ==> GatheredFrom(m, cs, world, done + {key})
    ensures fc != null ==> GatheredFrom(m, cs + [fc], world + fc.Repr, done + {key})
  {
    if fc != null {
      GatheredMore(cs, world, done, fc, key, m.pl, m.wild, m.fields, m.q);
    }
  }

  /** What reading a container needs. */
  ghost predicate Readable(pl: Postings, hs: map<BEField, RangeHolder>, q: MixedQuery, m: Measure,
                           told: map<BEField, seq<NumPosting>>)
    reads hs.Values, set h | h in hs.Values :: h.rangeIdx
  {
    && ValuesMeasured(m, pl, q) && NumbersMeasured(m, told, q) && HoldersTold(hs, told) && Askable(q)
  }

  /** The cursor of a field of either kind, if it hits anything. */
  method OpenEither(pl: Postings, fields: Fields, hs: map<BEField, RangeHolder>, q: MixedQuery, field: BEField,
                    ghost m: Measure, ghost told: map<BEField, seq<NumPosting>>)
    returns (ok: bool, fc: FieldCursor?)
    requires Readable(pl, hs, q, m, told) && m.fields == fields && (field in q.values || field in q.numbers)
    ensures ok <==> !FieldBad(fields, hs.Keys, q, field)
    ensures ok && fc == null ==> Entries(m, OfField(field)) == {}
    ensures ok && fc != null ==> fresh(fc) && fresh(fc.Repr) && Reads(fc, OfField(field), Entries(m, OfField(field)))
  {
    if field in q.values {
      ok, fc := OpenValues(pl, fields, q, field, m);
    } else {
      ok, fc := OpenNumbers(hs, q, field, m, told);
    }
  }

  method OpenMixed(pl: Postings, fields: Fields, hs: map<BEField, RangeHolder>, q: MixedQuery, field: BEField,
                   cs: seq<FieldCursor>, ghost world: set<object>, ghost done: set<CursorKey>, ghost m: Measure,
                   ghost told: map<BEField, seq<NumPosting>>)
    returns (ok: bool, cs': seq<FieldCursor>, ghost world': set<object>)
    requires Readable(pl, hs, q, m, told) && m.fields == fields && (field in q.values || field in q.numbers)
    requires OfField(field) !in done && GatheredFrom(m, cs, world, done)
    ensures ok <==> !FieldBad(fields, hs.Keys, q, field)
    ensures ok ==> fresh(world' - world) && GatheredFrom(m, cs', world', done + {OfField(field)})
  {
    cs', world' := cs, world;
    var fc;
    ok, fc := OpenEither(pl, fields, hs, q, field, m, told);
    if ok {
      GatheredField(m, cs, world, done, OfField(field), fc);
      if fc != null {
        cs', world' := cs + [fc], world + fc.Repr;
      }
    }
  }

  ghost function MixedKeysDone(all: set<BEField>, todo: set<BEField>): set<CursorKey> {
    {Wildcard} + set f | f in all && f !in todo :: OfField(f)
  }

  lemma MixedKeysMore(all: set<BEField>, todo: set<BEField>, field: BEField)
    requires field in todo && todo <= all
    ensures OfField(field) !in MixedKeysDone(all, todo)
    ensures MixedKeysDone(all, todo - {field}) == MixedKeysDone(all, todo) + {OfField(field)}
  {
  }

  lemma MixedKeysNone(all: set<BEField>)
    ensures MixedKeysDone(all, all) == {Wildcard}
  {
  }

  lemma MixedKeys(q: MixedQuery)
    ensures MixedKeysDone(q.values.Keys + q.numbers.Keys, {}) == KeySet(LowerQuery(q))
  {
    assert LowerQuery(q).Keys == q.values.Keys + q.numbers.Keys;
  }

  /** The cursor over the wildcards, if there are any. */
  method OpenWildcards(wildcards: IndexScanner.Entries, ghost m: Measure)
    returns (cs: seq<FieldCursor>, ghost world: set<object>)
    requires Ascending(wildcards) && m.wild == SetOf(wildcards)
    ensures fresh(world) && GatheredFrom(m, cs, world, {Wildcard})
  {
    cs, world := [], {};
    assert {} + {Wildcard} == {Wildcard};
    if |wildcards| > 0 {
      var fc := WildcardCursor(wildcards);
      GatheredField(m, [], {}, {}, Wildcard, fc);
      cs, world := [] + [fc], {} + fc.Repr;
    }
  }

  /** Opens the cursors of a query on a container, visiting its fields in any order. */
  method InitMixed(pl: Postings, wildcards: IndexScanner.Entries, fields: Fields, hs: map<BEField, RangeHolder>,
                   q: MixedQuery, ghost m: Measure, ghost told: map<BEField, seq<NumPosting>>)
    returns (ok: bool, cs: seq<FieldCursor>, ghost world: set<object>)
    requires Readable(pl, hs, q, m, told) && m.fields == fields && m.q == LowerQuery(q)
    requires Ascending(wildcards) && m.wild == SetOf(wildcards)
    ensures ok <==> !BadHere(fields, hs.Keys, q)
    ensures ok ==> fresh(world) && GatheredFrom(m, cs, world, KeySet(m.q))
  {
    cs, world := OpenWildcards(wildcards, m);
    ok, cs, world := OpenFields(pl, fields, hs, q, cs, world, m, told);
    MixedKeys(q);
  }

  method OpenFields(pl: Postings, fields: Fields, hs: map<BEField, RangeHolder>, q: MixedQuery, first: seq<FieldCursor>,
                    ghost before: set<object>, ghost m: Measure, ghost told: map<BEField, seq<NumPosting>>)
    returns (ok: bool, cs: seq<FieldCursor>, ghost world: set<object>)
    requires Readable(pl, hs, q, m, told) && m.fields == fields && GatheredFrom(m, first, before, {Wildcard})
    ensures ok <==> !BadHere(fields, hs.Keys, q)
    ensures ok ==> fresh(world - before)
    ensures ok ==> GatheredFrom(m, cs, world, MixedKeysDone(q.values.Keys + q.numbers.Keys, {}))
  {
    cs, world := first, before;
    var all := q.values.Keys + q.numbers.Keys;
    var todo := all;
    MixedKeysNone(all);
    ok := true;
    while todo != {}
      invariant todo <= all && ok && fresh(world - before)
      invariant forall f :: f in all && f !in todo ==> !FieldBad(fields, hs.Keys, q, f)
      invariant Readable(pl, hs, q, m, told) && GatheredFrom(m, cs, world, MixedKeysDone(all, todo))
      decreases todo
    {
      var field :| field in todo;
      MixedKeysMore(all, todo, field);
      ok, cs, world := OpenMixed(pl, fields, hs, q, field, cs, world, MixedKeysDone(all, todo), m, told);
      if !ok {
        return;
      }
      todo := todo - {field};
    }
  }

  // ----- a container of a mixed index

  /** The holders of the number fields in a container. */
  function HoldersAt(index: MixedIndex, k: nat): map<BEField, RangeHolder> {
    map f | f in index.numFields && NumKey(k, f) in index.holders :: index.holders[NumKey(k, f)]
  }

  ghost function ToldAt(index: MixedIndex, k: nat): map<BEField, seq<NumPosting>>
    requires forall i :: 0 <= i < |index.added| ==> HasRoom(index.added[i])
    reads index
  {
    map f | f in index.numFields :: HolderPostings(index.added, index.base.compact, k, f)
  }

  ghost function MeasureOf(index: MixedIndex, q: MixedQuery, k: nat): Measure
    requires Identified(LowerOrigins(index.added, q))
    reads index, index.base
  {
    Measure(index.Mirrored(q, k), SetOf(WildcardsAt(index.base, k)), index.base.fieldsData, LowerQuery(q))
  }

  ghost predicate Served(index: MixedIndex, q: MixedQuery)
    reads index, index.base, index.holders.Values, set h | h in index.holders.Values :: h.rangeIdx
  {
    index.ValuesReady() && index.NumbersReady() && QueryApart(q, index.numFields) && Askable(q)
  }

  lemma ValuesAreMeasured(index: MixedIndex, q: MixedQuery, k: nat)
    requires index.ValuesReady() && QueryApart(q, index.numFields) && k < |index.base.containers|
    requires Identified(LowerOrigins(index.added, q))
    ensures ValuesMeasured(MeasureOf(index, q, k), index.base.containers[k], q)
    ensures Ascending(WildcardsAt(index.base, k))
  {
    forall term
      ensures Ascending(ListOf(index.base.containers[k], term))
    {
      assert Ascending(index.base.ListAt(k, term));
    }
    forall f | f in q.values && f in index.base.fieldsData
      ensures HitSet(index.base.containers[k], index.base.fieldsData[f], TokenSet(q.values[f]))
              == Entries(MeasureOf(index, q, k), OfField(f))
    {
      index.ValueHits(q, k, f);
    }
  }

  lemma NumbersAreMeasured(index: MixedIndex, q: MixedQuery, k: nat)
    requires index.ValuesReady() && QueryApart(q, index.numFields) && k < |index.base.containers|
    requires Identified(LowerOrigins(index.added, q)) && AllFaithful(index.added)
    ensures forall i :: 0 <= i < |index.added| ==> HasRoom(index.added[i])
    ensures NumbersMeasured(MeasureOf(index, q, k), ToldAt(index, k), q)
  {
    forall f | f in q.numbers
      ensures NumberMeasured(MeasureOf(index, q, k), ToldAt(index, k)[f], q, f)
    {
      var ps := ToldAt(index, k)[f];
      forall p | 0 <= p < |ps|
        ensures Faithful(ps[p].expr)
      {
        PostingsFaithful(index.added, index.base.compact, k, f, p);
      }
      forall e
        ensures e in Entries(MeasureOf(index, q, k), OfField(f)) <==> Asked(ps, Numbers(q, f), e)
      {
        index.NumberHits(q, k, f, e);
      }
    }
  }

  lemma HoldersAreTold(index: MixedIndex, k: nat)
    requires index.NumbersReady()
    ensures HoldersTold(HoldersAt(index, k), ToldAt(index, k))
  {
    var hs, told := HoldersAt(index, k), ToldAt(index, k);
    forall f | f in hs
      ensures f in told && HolderReady(hs[f], told[f])
    {
      assert NumKey(k, f) in index.holders && hs[f] == index.holders[NumKey(k, f)];
    }
  }

  lemma ReadableAt(index: MixedIndex, q: MixedQuery, k: nat)
    requires Served(index, q) && k < |index.base.containers|
    ensures Identified(LowerOrigins(index.added, q)) && Ascending(WildcardsAt(index.base, k))
    ensures Readable(index.base.containers[k], HoldersAt(index, k), q, MeasureOf(index, q, k), ToldAt(index, k))
    ensures var m := MeasureOf(index, q, k);
            Contains(m.pl, m.wild, k, LowerOrigins(index.added, q), m.fields, index.base.compact)
  {
    index.MirroredContains(q, k);
    ValuesAreMeasured(index, q, k);
    NumbersAreMeasured(index, q, k);
    HoldersAreTold(index, k);
  }

  /** What a merge of a container has collected: its satisfied conjunctions, in order. */
  ghost predicate CollectedAt(found: seq<ConjID>, origins: seq<Origin>, compact: bool, k: nat, q: Assignments) {
    && DocsOf(found) == MatchedIn(origins, compact, k, q)
    && (forall i, j :: 0 <= i < j < |found| ==> found[i] < found[j])
    && (!compact ==> forall c :: c in found ==> SizeOf(c) == k)
  }

  lemma CollectedIs(m: Measure, k: nat, origins: seq<Origin>, compact: bool, found: seq<ConjID>)
    requires Contains(m.pl, m.wild, k, origins, m.fields, compact)
    requires Collected(found, GroupsOf(m.pl, m.wild, m.fields, m.q), ALL_CONJS)
    ensures CollectedAt(found, origins, compact, k, m.q)
  {
    CollectedDocs(m.pl, m.wild, k, origins, m.fields, compact, m.q, found);
    if !compact {
      forall c | c in found
        ensures SizeOf(c) == k
      {
        SelectedHasOrigin(m.pl, m.wild, k, origins, m.fields, compact, m.q, c);
        var i :| 0 <= i < |origins| && HolderOf(origins[i], compact) == k && Matching.IdOf(origins[i]) == c;
        ConjIDRoundTrip(origins[i].doc, origins[i].idx, SizeFor(origins[i]));
      }
    }
  }

  /** Reads one container and merges it, the K-groups way or the compact way. */
  method ReadContainer(pl: Postings, wildcards: IndexScanner.Entries, fields: Fields, hs: map<BEField, RangeHolder>,
                       q: MixedQuery, k: nat, compact: bool, collector: DocIDCollector, ghost m: Measure,
                       ghost told: map<BEField, seq<NumPosting>>, ghost origins: seq<Origin>)
    returns (ok: bool, ghost found: seq<ConjID>)
    requires Readable(pl, hs, q, m, told) && m.fields == fields && m.q == LowerQuery(q)
    requires Ascending(wildcards) && m.wild == SetOf(wildcards)
    requires Contains(m.pl, m.wild, k, origins, m.fields, compact)
    modifies collector
    ensures ok <==> !BadHere(fields, hs.Keys, q)
    ensures ok ==> CollectedAt(found, origins, compact, k, m.q)
    ensures ok ==> Holds(collector, old(collector.docBits), old(collector.log), found)
  {
    found := [];
    var cs;
    ghost var world;
    ok, cs, world := InitMixed(pl, wildcards, fields, hs, q, m, told);
    if ok {
      EncodedGroups(m.pl, m.wild, k, origins, m.fields, compact, m.q);
      NoSurplusGroups(m.pl, m.wild, k, origins, m.fields, compact, m.q);
      if compact {
        found := MergeCompact(cs, collector, world, m.pl, m.wild, m.fields, m.q);
      } else {
        var needMatchCnt := if k > 1 then k else 1;
        UniformGroups(m.pl, m.wild, k, origins, m.fields, m.q, needMatchCnt);
        found := MergeK(cs, needMatchCnt, collector, world, m.pl, m.wild, m.fields, m.q);
      }
      CollectedIs(m, k, origins, compact, found);
    }
  }

  /** Some value of the query cannot be read in the container. */
  ghost predicate BadAt(index: MixedIndex, fields: Fields, q: MixedQuery, k: nat) {
    BadHere(fields, HoldersAt(index, k).Keys, q)
  }

  /** The query can be read in the containers from `k` up to `top`. */
  ghost predicate NoneBad(index: MixedIndex, fields: Fields, q: MixedQuery, k: nat, top: int)
    decreases top - k
  {
    k <= top ==> !BadAt(index, fields, q, k) && NoneBad(index, fields, q, k + 1, top)
  }

  lemma NoneBadMore(index: MixedIndex, fields: Fields, q: MixedQuery, k: nat, top: int)
    requires !BadAt(index, fields, q, k) && NoneBad(index, fields, q, k + 1, top)
    ensures NoneBad(index, fields, q, k, top)
  {
  }

  lemma {:induction false} OneBad(index: MixedIndex, fields: Fields, q: MixedQuery, k: nat, top: int, j: nat)
    requires k <= j <= top && BadAt(index, fields, q, j)
    ensures !NoneBad(index, fields, q, k, top)
    decreases top - k
  {
    if k < j {
      OneBad(index, fields, q, k + 1, top, j);
    }
  }

  lemma {:induction false} NoneBadMeans(index: MixedIndex, fields: Fields, q: MixedQuery, k: nat, top: int)
    ensures NoneBad(index, fields, q, k, top) <==> forall j: nat :: k <= j <= top ==> !BadAt(index, fields, q, j)
    decreases top - k
  {
    if k <= top {
      NoneBadMeans(index, fields, q, k + 1, top);
    }
  }

  method ReadAt(index: MixedIndex, q: MixedQuery, k: nat, collector: DocIDCollector)
    returns (ok: bool, ghost found: seq<ConjID>)
    requires Served(index, q) && k < |index.base.containers|
    modifies collector
    ensures ok <==> !BadAt(index, index.base.fieldsData, q, k)
    ensures ok ==> CollectedAt(found, LowerOrigins(index.added, q), index.base.compact, k, LowerQuery(q))
    ensures ok ==> Holds(collector, old(collector.docBits), old(collector.log), found)
  {
    ReadableAt(index, q, k);
    ok, found := ReadContainer(index.base.containers[k], WildcardsAt(index.base, k), index.base.fieldsData,
                               HoldersAt(index, k), q, k, index.base.compact, collector, MeasureOf(index, q, k),
                               ToldAt(index, k), LowerOrigins(index.added, q));
  }

  // ----- the engines

  /** The documents with a satisfied conjunction. */
  ghost function MixedMatched(added: seq<MixedOrigin>, q: MixedQuery): set<DocID> {
    set i | 0 <= i < |added| && MixedHolds(added[i].conj, q) :: added[i].doc
  }

  lemma LowerMatched(added: seq<MixedOrigin>, q: MixedQuery, fields: Fields, nf: set<BEField>)
    requires Settled(added, fields, nf) && QueryApart(q, nf)
    ensures Matched(LowerOrigins(added, q), LowerQuery(q)) == MixedMatched(added, q)
  {
    var low := LowerOrigins(added, q);
    forall i | 0 <= i < |added|
      ensures ConjHolds(low[i].conj, LowerQuery(q)) <==> MixedHolds(added[i].conj, q)
    {
      assert MixedKnown(added[i], fields, nf);
      LowerHolds(added[i].conj, q, nf);
    }
  }

  lemma CountBoth(a: set<BEField>, b: set<BEField>)
    requires a !! b
    ensures |a + b| == |a| + |b|
  {
  }

  lemma LowerNonNil(q: MixedQuery, nf: set<BEField>, f: BEField)
    requires QueryApart(q, nf)
    ensures f in NonNil(LowerQuery(q)) <==> f in NonNil(q.values) || f in q.numbers
  {
  }

  lemma NonNilSets(q: MixedQuery, nf: set<BEField>)
    requires QueryApart(q, nf)
    ensures NonNil(LowerQuery(q)) == NonNil(q.values) + q.numbers.Keys && NonNil(q.values) !! q.numbers.Keys
  {
    forall f
      ensures f in NonNil(LowerQuery(q)) <==> f in NonNil(q.values) + q.numbers.Keys
    {
      LowerNonNil(q, nf, f);
    }
  }

  lemma NonNilLower(q: MixedQuery, nf: set<BEField>)
    requires QueryApart(q, nf)
    ensures |NonNil(LowerQuery(q))| == |NonNil(q.values)| + |q.numbers.Keys|
  {
    NonNilSets(q, nf);
    CountBoth(NonNil(q.values), q.numbers.Keys);
  }

  /** No conjunction is larger than the containers or the query. */
  lemma NothingLarger(index: MixedIndex, q: MixedQuery, k: nat)
    requires index.ValuesReady() && QueryApart(q, index.numFields) && !index.base.compact
    requires k >= |index.base.containers| || k > |NonNil(LowerQuery(q))|
    ensures MatchedFrom(LowerOrigins(index.added, q), k, LowerQuery(q)) == {}
  {
    LowerOriginsAre(index.added, q, index.base.fieldsData, index.numFields);
    var low := LowerOrigins(index.added, q);
    forall i | 0 <= i < |low| && SizeFor(low[i]) >= k
      ensures !ConjHolds(low[i].conj, LowerQuery(q))
    {
      assert CommittedAs(index.base.committed[i], index.added[i], index.base.fieldsData, index.base.compact);
      assert index.base.committed[i] in index.base.committed;
      if ConjHolds(low[i].conj, LowerQuery(q)) {
        HoldsNeedsFields(low[i].conj, LowerQuery(q));
      }
    }
  }

  ghost function MixedQuerySize(q: MixedQuery): nat {
    |NonNil(q.values)| + |q.numbers.Keys|
  }

  /** The query is read in the container: compact has one, and K-groups goes down from the size of the query. */
  ghost predicate Visited(index: MixedIndex, q: MixedQuery, k: nat)
    reads index, index.base
  {
    if index.base.compact then k == 0 else k < |index.base.containers| && k <= MixedQuerySize(q)
  }

  /** The query can be read in every container it visits. */
  ghost predicate ReadableWhereVisited(index: MixedIndex, fields: Fields, q: MixedQuery)
    reads index, index.base
  {
    forall k :: Visited(index, q, k) ==> !BadAt(index, fields, q, k)
  }

  ghost predicate VisitedUpTo(index: MixedIndex, q: MixedQuery, top: int)
    reads index, index.base
  {
    forall k: nat :: k <= top <==> Visited(index, q, k)
  }

  lemma NoneBadIsReadable(index: MixedIndex, fields: Fields, q: MixedQuery, top: int)
    requires VisitedUpTo(index, q, top)
    ensures NoneBad(index, fields, q, 0, top) <==> ReadableWhereVisited(index, fields, q)
  {
    NoneBadMeans(index, fields, q, 0, top);
  }

  lemma CompactReadable(index: MixedIndex, fields: Fields, q: MixedQuery)
    requires index.base.compact
    ensures ReadableWhereVisited(index, fields, q) <==> !BadAt(index, fields, q, 0)
  {
    assert Visited(index, q, 0);
  }

  method LargestMixed(index: MixedIndex, q: MixedQuery) returns (k: int)
    requires index.ValuesReady() && QueryApart(q, index.numFields) && !index.base.compact
    ensures -1 <= k < |index.base.containers| && VisitedUpTo(index, q, k)
    ensures MatchedFrom(LowerOrigins(index.added, q), k + 1, LowerQuery(q)) == {}
  {
    var values := QuerySize(q.values);
    var size := values + |q.numbers.Keys|;
    NonNilLower(q, index.numFields);
    k := if size < |index.base.containers| - 1 then size else |index.base.containers| - 1;
    NothingLarger(index, q, k + 1);
  }

  method MixedStep(index: MixedIndex, q: MixedQuery, k: nat, collector: DocIDCollector, ghost origins: seq<Origin>,
                   ghost docs: set<DocID>, ghost log: seq<ConjID>, ghost mine: seq<ConjID>, ghost fields: Fields,
                   ghost top: int)
    returns (ok: bool, ghost mine': seq<ConjID>)
    requires Served(index, q) && !index.base.compact && k < |index.base.containers| && index.base.fieldsData == fields
    requires origins == LowerOrigins(index.added, q) && k <= top && NoneBad(index, fields, q, k + 1, top)
    requires DoneFrom(collector, docs, log, mine, origins, k + 1, LowerQuery(q))
    modifies collector
    ensures if ok then NoneBad(index, fields, q, k, top) else !NoneBad(index, fields, q, 0, top)
    ensures ok ==> DoneFrom(collector, docs, log, mine', origins, k, LowerQuery(q))
  {
    ghost var found;
    ok, found := ReadAt(index, q, k, collector);
    mine' := mine + found;
    if ok {
      NoneBadMore(index, fields, q, k, top);
      NoRepeatsConcat(mine, found, k);
      DoneStep(docs, log, mine, found, origins, k, LowerQuery(q));
    } else {
      OneBad(index, fields, q, 0, top, k);
    }
  }

  method MixedDescend(index: MixedIndex, q: MixedQuery, top: int, collector: DocIDCollector, ghost origins: seq<Origin>,
                      ghost docs: set<DocID>, ghost log: seq<ConjID>, ghost fields: Fields)
    returns (ok: bool, ghost mine: seq<ConjID>)
    requires Served(index, q) && !index.base.compact && -1 <= top < |index.base.containers|
    requires origins == LowerOrigins(index.added, q) && index.base.fieldsData == fields
    requires DoneFrom(collector, docs, log, [], origins, top + 1, LowerQuery(q))
    modifies collector
    ensures ok <==> NoneBad(index, fields, q, 0, top)
    ensures ok ==> DoneFrom(collector, docs, log, mine, origins, 0, LowerQuery(q))
  {
    ok, mine := true, [];
    var n := top + 1;
    while n > 0
      invariant 0 <= n <= top + 1 && ok && Served(index, q) && index.base.fieldsData == fields
      invariant NoneBad(index, fields, q, n, top)
      invariant DoneFrom(collector, docs, log, mine, origins, n, LowerQuery(q))
    {
      n := n - 1;
      ok, mine := MixedStep(index, q, n, collector, origins, docs, log, mine, fields, top);
      if !ok {
        return;
      }
    }
  }

  /** K-groups over a mixed index: from the largest size that can match down to the wildcards. */
  method MixedKGroups(index: MixedIndex, q: MixedQuery, collector: DocIDCollector, ghost origins: seq<Origin>)
    returns (ok: bool, ghost mine: seq<ConjID>)
    requires Served(index, q) && !index.base.compact && origins == LowerOrigins(index.added, q)
    modifies collector
    ensures ok <==> ReadableWhereVisited(index, index.base.fieldsData, q)
    ensures ok ==> collector.docBits == old(collector.docBits) + Matched(origins, LowerQuery(q))
    ensures ok ==> collector.log == old(collector.log) + mine && NoRepeats(mine)
  {
    var top := LargestMixed(index, q);
    NothingYet(collector.docBits, collector.log);
    ghost var fields := index.base.fieldsData;
    ok, mine := MixedDescend(index, q, top, collector, origins, collector.docBits, collector.log, fields);
    NoneBadIsReadable(index, fields, q, top);
    MatchedFromZero(origins, LowerQuery(q));
  }

  lemma MatchedInWhole(origins: seq<Origin>, q: Assignments)
    ensures MatchedIn(origins, true, 0, q) == Matched(origins, q)
  {
  }

  /** Compact over a mixed index: one merge over everything. */
  method MixedCompact(index: MixedIndex, q: MixedQuery, collector: DocIDCollector, ghost origins: seq<Origin>)
    returns (ok: bool, ghost mine: seq<ConjID>)
    requires Served(index, q) && index.base.compact && origins == LowerOrigins(index.added, q)
    modifies collector
    ensures ok <==> ReadableWhereVisited(index, index.base.fieldsData, q)
    ensures ok ==> collector.docBits == old(collector.docBits) + Matched(origins, LowerQuery(q))
    ensures ok ==> collector.log == old(collector.log) + mine && NoRepeats(mine)
  {
    ok, mine := ReadAt(index, q, 0, collector);
    CompactReadable(index, index.base.fieldsData, q);
    MatchedInWhole(origins, LowerQuery(q));
  }

  /** Either engine, over documents that mix values and numbers, collects exactly the documents with a satisfied
      conjunction, each conjunction once. */
  method RetrieveMixed(index: MixedIndex, q: MixedQuery, collector: DocIDCollector)
    returns (ok: bool, ghost mine: seq<ConjID>)
    requires Served(index, q)
    modifies collector
    ensures ok <==> ReadableWhereVisited(index, index.base.fieldsData, q)
    ensures ok ==> collector.docBits == old(collector.docBits) + MixedMatched(index.added, q)
    ensures ok ==> collector.log == old(collector.log) + mine && NoRepeats(mine)
  {
    ghost var origins := LowerOrigins(index.added, q);
    LowerMatched(index.added, q, index.base.fieldsData, index.numFields);
    if index.base.compact {
      ok, mine := MixedCompact(index, q, collector, origins);
    } else {
      ok, mine := MixedKGroups(index, q, collector, origins);
    }
  }
}
