/** Retrieval by the two posting-list engines (be_indexer_kgroups.go, be_indexer_compact.go). */
module Retrieval {
  import opened IdTypes
  import opened Documents
  import opened IndexScanner
  import opened Merge
  import opened BEIndexes
  import opened IndexBuilders
  import opened Matching

  // ----- from a query to cursors

  ghost predicate AllAscending(pl: Postings) {
    forall term :: Ascending(ListOf(pl, term))
  }

  /** The posting lists a value hits, one cursor each; a value that cannot be tokenized is an error. */
  method GetEntries(pl: Postings, desc: FieldDesc, values: Values) returns (r: Option<seq<EntriesCursor>>)
    requires AllAscending(pl)
    ensures r.None? <==> values.Unsupported?
    ensures r.Some? ==> forall i :: 0 <= i < |r.value| ==>
              fresh(r.value[i]) && r.value[i].slot == i && r.value[i].Leading(0) && r.value[i].entries != []
    ensures r.Some? ==> AllEntries(r.value) == HitSet(pl, desc, TokenSet(values))
  {
    var tokens := Tokenize(values);
    if tokens.None? {
      return None;
    }
    var cs: seq<EntriesCursor> := [];
    ghost var seen: set<Token> := {};
    var i := 0;
    while i < |tokens.value|
      invariant 0 <= i <= |tokens.value|
      invariant forall j :: 0 <= j < |cs| ==> fresh(cs[j]) && cs[j].slot == j && cs[j].Leading(0) && cs[j].entries != []
      invariant seen == set t | t in tokens.value[..i]
      invariant AllEntries(cs) == HitSet(pl, desc, seen)
    {
      var token := tokens.value[i];
      var entries := ListOf(pl, Term(desc.id, token));
      ghost var before := cs;
      if |entries| > 0 {
        var cursor := new EntriesCursor(entries, |cs|);
        cs := cs + [cursor];
      }
      AllEntriesMore(before, cs, entries);
      HitSetMore(pl, desc, seen, token);
      assert tokens.value[..i + 1] == tokens.value[..i] + [token];
      seen := seen + {token};
      i := i + 1;
    }
    assert tokens.value[..i] == tokens.value;
    assert seen == TokenSet(values);
    r := Some(cs);
  }

  lemma AllEntriesMore(before: seq<EntriesCursor>, after: seq<EntriesCursor>, entries: Entries)
    requires if entries == [] then after == before
             else |after| == |before| + 1 && after[..|before|] == before && after[|before|].entries == entries
    ensures AllEntries(after) == AllEntries(before) + SetOf(entries)
  {
    if |after| == |before| + 1 {
      assert forall i :: 0 <= i < |before| ==> after[i] == before[i];
      forall e | e in AllEntries(before)
        ensures e in AllEntries(after)
      {
        var i :| 0 <= i < |before| && e in before[i].entries;
        assert e in after[i].entries;
      }
    }
  }

  lemma HitSetMore(pl: Postings, desc: FieldDesc, tokens: set<Token>, t: Token)
    ensures HitSet(pl, desc, tokens + {t}) == HitSet(pl, desc, tokens) + SetOf(ListOf(pl, Term(desc.id, t)))
  {
  }

  /** A cursor that reads exactly one group, standing at its least entry. */
  ghost predicate Reads(fc: FieldCursor, key: CursorKey, all: set<EntryID>)
    reads fc, fc.Repr
  {
    fc.Valid() && fc.key == key && fc.all == all && all != {} && IsLeast(all, 0, fc.GetCurEntryID())
  }

  /** The cursor of one query field, if it hits anything. */
  method FieldHit(pl: Postings, desc: FieldDesc, values: Values, field: BEField) returns (ok: bool, fc: FieldCursor?)
    requires AllAscending(pl)
    ensures ok <==> !values.Unsupported?
    ensures ok && fc == null ==> HitSet(pl, desc, TokenSet(values)) == {}
    ensures ok && fc != null ==>
            fresh(fc) && fresh(fc.Repr) && Reads(fc, OfField(field), HitSet(pl, desc, TokenSet(values)))
  {
    fc := null;
    var entriesList := GetEntries(pl, desc, values);
    ok := entriesList.Some?;
    if ok && |entriesList.value| > 0 {
      var cs := entriesList.value;
      assert cs[0].entries[0] in cs[0].entries;
      assert cs[0].entries[0] in AllEntries(cs);
      fc := new FieldCursor(OfField(field), cs);
    }
  }

  method WildcardCursor(wildcardEntries: Entries) returns (fc: FieldCursor)
    requires Ascending(wildcardEntries) && |wildcardEntries| > 0
    ensures fresh(fc) && fresh(fc.Repr) && Reads(fc, Wildcard, SetOf(wildcardEntries))
  {
    var cursor := new EntriesCursor(wildcardEntries, 0);
    AllEntriesMore([], [cursor], wildcardEntries);
    assert AllEntries([cursor]) == SetOf(wildcardEntries);
    assert wildcardEntries[0] in SetOf(wildcardEntries);
    fc := new FieldCursor(Wildcard, [cursor]);
  }

  /** Cursors for the keys done so far: one for each that hits anything, each with objects of its own. */
  ghost predicate Gathered(cs: seq<FieldCursor>, world: set<object>, done: set<CursorKey>,
                           pl: Postings, wild: set<EntryID>, fields: Fields, q: Assignments)
    reads world
  {
    && (forall i :: 0 <= i < |cs| ==>
          && cs[i] in world && cs[i].Repr <= world && cs[i].key in done
          && Reads(cs[i], cs[i].key, EntriesFor(cs[i].key, pl, wild, fields, q)))
    && (forall i, j :: 0 <= i < j < |cs| ==> cs[i].Repr !! cs[j].Repr && cs[i].key != cs[j].key)
    && (forall key :: key in done && EntriesFor(key, pl, wild, fields, q) != {} ==> HasKey(cs, key))
  }

  ghost function Live(cs: seq<FieldCursor>): set<FieldCursor> {
    set fc | fc in cs
  }

  ghost predicate HasKey(cs: seq<FieldCursor>, key: CursorKey) {
    exists i :: 0 <= i < |cs| && cs[i].key == key
  }

  lemma GatheredMore(cs: seq<FieldCursor>, world: set<object>, done: set<CursorKey>, fc: FieldCursor, key: CursorKey,
                     pl: Postings, wild: set<EntryID>, fields: Fields, q: Assignments)
    requires Gathered(cs, world, done, pl, wild, fields, q) && key !in done
    requires fc.Repr !! world && Reads(fc, key, EntriesFor(key, pl, wild, fields, q))
    ensures Gathered(cs + [fc], world + fc.Repr, done + {key}, pl, wild, fields, q)
  {
    var cs' := cs + [fc];
    forall h | h in done + {key} && EntriesFor(h, pl, wild, fields, q) != {}
      ensures HasKey(cs', h)
    {
      HasKeyMore(cs, fc, h);
    }
    GatheredApart(cs, world, done, fc, key, pl, wild, fields, q);
    forall i | 0 <= i < |cs'|
      ensures cs'[i] in world + fc.Repr && cs'[i].Repr <= world + fc.Repr && cs'[i].key in done + {key}
      ensures Reads(cs'[i], cs'[i].key, EntriesFor(cs'[i].key, pl, wild, fields, q))
    {
      assert i < |cs| ==> cs'[i] == cs[i];
    }
  }

  /** A new cursor is apart from those gathered. */
  lemma GatheredApart(cs: seq<FieldCursor>, world: set<object>, done: set<CursorKey>, fc: FieldCursor, key: CursorKey,
                      pl: Postings, wild: set<EntryID>, fields: Fields, q: Assignments)
    requires Gathered(cs, world, done, pl, wild, fields, q) && key !in done && fc.Repr !! world && fc.key == key
    ensures var cs' := cs + [fc];
            forall i, j :: 0 <= i < j < |cs'| ==> cs'[i].Repr !! cs'[j].Repr && cs'[i].key != cs'[j].key
  {
    forall i | 0 <= i < |cs|
      ensures cs[i].Repr !! fc.Repr && cs[i].key != key
    {
    }
  }

  lemma HasKeyMore(cs: seq<FieldCursor>, fc: FieldCursor, h: CursorKey)
    requires HasKey(cs, h) || fc.key == h
    ensures HasKey(cs + [fc], h)
  {
    if HasKey(cs, h) {
      var i :| 0 <= i < |cs| && cs[i].key == h;
      assert (cs + [fc])[i].key == h;
    } else {
      assert (cs + [fc])[|cs|].key == h;
    }
  }

  lemma GatheredSeparate(cs: seq<FieldCursor>, world: set<object>, done: set<CursorKey>,
                         pl: Postings, wild: set<EntryID>, fields: Fields, q: Assignments)
    requires Gathered(cs, world, done, pl, wild, fields, q)
    ensures Enumerates(cs, Live(cs)) && Separate(Live(cs), world)
  {
    forall i, j | 0 <= i < j < |cs|
      ensures cs[i] != cs[j]
    {
      assert cs[i].key != cs[j].key;
    }
  }

  lemma GatheredStands(cs: seq<FieldCursor>, world: set<object>, pl: Postings, wild: set<EntryID>, fields: Fields,
                       q: Assignments)
    requires Gathered(cs, world, KeySet(q), pl, wild, fields, q) && Separate(Live(cs), world)
    ensures Standing(Live(cs), world, GroupsOf(pl, wild, fields, q), 0)
  {
    forall fc | fc in cs
      ensures fc.Valid() && fc.key in GroupsOf(pl, wild, fields, q) && GroupsOf(pl, wild, fields, q)[fc.key] == fc.all
      ensures IsLeast(fc.all, 0, fc.GetCurEntryID())
    {
      var i :| 0 <= i < |cs| && cs[i] == fc;
      assert Reads(cs[i], fc.key, EntriesFor(fc.key, pl, wild, fields, q));
    }
  }

  lemma GatheredAll(cs: seq<FieldCursor>, world: set<object>, pl: Postings, wild: set<EntryID>, fields: Fields,
                    q: Assignments)
    requires Gathered(cs, world, KeySet(q), pl, wild, fields, q)
    ensures OthersEnded(Live(cs), GroupsOf(pl, wild, fields, q), 0)
  {
    var live := Live(cs);
    forall key | key in GroupsOf(pl, wild, fields, q)
      ensures exists fc :: fc in live && fc.key == key
    {
      assert HasKey(cs, key);
      var i :| 0 <= i < |cs| && cs[i].key == key;
      assert cs[i] in live;
    }
  }

  /** What the merge starts from. */
  lemma GatheredMerges(cs: seq<FieldCursor>, world: set<object>, pl: Postings, wild: set<EntryID>, fields: Fields,
                       q: Assignments)
    requires Gathered(cs, world, KeySet(q), pl, wild, fields, q)
    ensures Enumerates(cs, Live(cs)) && Separate(Live(cs), world)
    ensures Standing(Live(cs), world, GroupsOf(pl, wild, fields, q), 0)
    ensures OthersEnded(Live(cs), GroupsOf(pl, wild, fields, q), 0)
  {
    GatheredSeparate(cs, world, KeySet(q), pl, wild, fields, q);
    GatheredStands(cs, world, pl, wild, fields, q);
    GatheredAll(cs, world, pl, wild, fields, q);
  }

  lemma NotAtEnd(fc: FieldCursor, key: CursorKey, pl: Postings, wild: set<EntryID>, fields: Fields, q: Assignments)
    requires Reads(fc, key, EntriesFor(key, pl, wild, fields, q)) && Encoded(GroupsOf(pl, wild, fields, q))
    ensures fc.GetCurEntryID() != NULLENTRY
  {
    var e :| e in fc.all;
    GroupMeaning(pl, wild, fields, q, key, e);
    WellFormedBelowNull(e);
  }

  lemma NoneAtEnd(cs: seq<FieldCursor>, world: set<object>, pl: Postings, wild: set<EntryID>, fields: Fields,
                  q: Assignments)
    requires Gathered(cs, world, KeySet(q), pl, wild, fields, q) && Encoded(GroupsOf(pl, wild, fields, q))
    ensures forall fc :: fc in cs ==> fc.GetCurEntryID() != NULLENTRY
  {
    forall fc | fc in cs
      ensures fc.GetCurEntryID() != NULLENTRY
    {
      var i :| 0 <= i < |cs| && cs[i] == fc;
      NotAtEnd(fc, fc.key, pl, wild, fields, q);
    }
  }

  /** Some queried field known to the index has a value that cannot be tokenized. */
  ghost predicate BadQuery(fields: Fields, q: Assignments) {
    exists f :: f in q && f in fields && q[f].Unsupported?
  }

  /** Opens the cursor of one query field. */
  method OpenField(field: BEField, cs: seq<FieldCursor>, ghost world: set<object>, ghost done: set<CursorKey>,
                   pl: Postings, ghost wild: set<EntryID>, fields: Fields, q: Assignments)
    returns (ok: bool, cs': seq<FieldCursor>, ghost world': set<object>)
    requires AllAscending(pl) && field in q && OfField(field) !in done
    requires Gathered(cs, world, done, pl, wild, fields, q)
    ensures ok <==> !(field in fields && q[field].Unsupported?)
    ensures ok ==> fresh(world' - world) && Gathered(cs', world', done + {OfField(field)}, pl, wild, fields, q)
  {
    ok, cs', world' := true, cs, world;
    if field in fields {
      var fc;
      ok, fc := FieldHit(pl, fields[field], q[field], field);
      if ok && fc != null {
        GatheredMore(cs, world, done, fc, OfField(field), pl, wild, fields, q);
        cs', world' := cs + [fc], world + fc.Repr;
      }
    }
  }

  ghost function KeysDone(q: Assignments, todo: set<BEField>): set<CursorKey> {
    {Wildcard} + set f | f in q && f !in todo :: OfField(f)
  }

  /** Opens the cursors of a query, visiting its fields in any order. */
  method InitCursors(pl: Postings, wildcards: Entries, fields: Fields, q: Assignments)
    returns (ok: bool, fCursors: seq<FieldCursor>, ghost world: set<object>)
    requires AllAscending(pl) && Ascending(wildcards)
    ensures ok <==> !BadQuery(fields, q)
    ensures ok ==> fresh(world) && Gathered(fCursors, world, KeySet(q), pl, SetOf(wildcards), fields, q)
  {
    fCursors, world := [], {};
    ghost var wild := SetOf(wildcards);
    if |wildcards| > 0 {
      var fc := WildcardCursor(wildcards);
      GatheredMore(fCursors, world, {}, fc, Wildcard, pl, wild, fields, q);
      fCursors, world := [] + [fc], {} + fc.Repr;
    }
    var todo := q.Keys;
    assert KeysDone(q, todo) == {} + {Wildcard};
    while todo != {}
      invariant todo <= q.Keys
      invariant forall f :: f in q && f in fields && f !in todo ==> !q[f].Unsupported?
      invariant fresh(world) && Gathered(fCursors, world, KeysDone(q, todo), pl, wild, fields, q)
      decreases todo
    {
      var field :| field in todo;
      assert KeysDone(q, todo - {field}) == KeysDone(q, todo) + {OfField(field)};
      ok, fCursors, world := OpenField(field, fCursors, world, KeysDone(q, todo), pl, wild, fields, q);
      if !ok {
        return;
      }
      todo := todo - {field};
    }
    assert KeysDone(q, {}) == KeySet(q);
    ok := true;
  }

  // ----- a compiled index and what it was built from

  /** The index is compiled and holds exactly `origins`, whose (document, position) pairs are distinct. */
  ghost predicate Ready(index: BEIndex, origins: seq<Origin>)
    reads index
  {
    && index.Valid() && index.Compiled() && FieldsOK(index.fieldsData)
    && Represents(index.committed, origins, index.fieldsData, index.compact)
    && DistinctOrigins(origins)
  }

  /** The documents with a satisfied conjunction. */
  ghost function Matched(origins: seq<Origin>, q: Assignments): set<DocID> {
    set i | 0 <= i < |origins| && ConjHolds(origins[i].conj, q) :: origins[i].doc
  }

  function WildcardsAt(index: BEIndex, k: nat): Entries
    reads index
  {
    if k == 0 then index.wildcardEntries else []
  }

  lemma SameMembers(a: Entries, b: Entries, e: EntryID)
    requires multiset(a) == multiset(b)
    ensures e in a <==> e in b
  {
    assert e in a <==> e in multiset(a);
    assert e in b <==> e in multiset(b);
  }

  lemma RepresentsIdentified(cds: seq<ConjIndexingData>, origins: seq<Origin>, fields: Fields, compact: bool)
    requires Represents(cds, origins, fields, compact) && DistinctOrigins(origins)
    ensures Identified(origins) && Known(origins, fields)
  {
    forall i | 0 <= i < |origins|
      ensures InRange(origins[i].doc, origins[i].idx, SizeFor(origins[i]))
      ensures KnownConj(origins[i].conj, fields) && EqOnly(origins[i].conj)
    {
      assert CompiledFrom(cds[i], origins[i], fields, compact);
    }
  }

  lemma ReadyLists(index: BEIndex, origins: seq<Origin>, k: nat)
    requires Ready(index, origins) && k < |index.containers| && Identified(origins)
    ensures ListsMean(index.containers[k], k, origins, index.fieldsData, index.compact)
  {
    forall f, t, e | f in index.fieldsData
      ensures e in ListOf(index.containers[k], Term(index.fieldsData[f].id, t)) <==>
              PostedBySome(origins, index.compact, k, f, t, e)
    {
      var term := Term(index.fieldsData[f].id, t);
      SameMembers(index.ListAt(k, term), Expected(index.committed, k, term), e);
      ListMeaning(index.committed, origins, index.fieldsData, index.compact, k, f, t, e);
    }
  }

  lemma ReadyWild(index: BEIndex, origins: seq<Origin>, k: nat, e: EntryID)
    requires Ready(index, origins) && k < |index.containers| && Identified(origins)
    ensures e in SetOf(WildcardsAt(index, k)) <==> WildBySome(origins, index.compact, k, e)
  {
    SameMembers(index.wildcardEntries, Wildcards(index.committed), e);
    InWildcards(index.committed, e);
    forall i | 0 <= i < |origins|
      ensures index.committed[i].incSize == SizeFor(origins[i]) && index.committed[i].conjID == IdOf(origins[i])
    {
      assert CompiledFrom(index.committed[i], origins[i], index.fieldsData, index.compact);
    }
  }

  lemma ReadyContains(index: BEIndex, origins: seq<Origin>, k: nat)
    requires Ready(index, origins) && k < |index.containers|
    ensures Contains(index.containers[k], SetOf(WildcardsAt(index, k)), k, origins, index.fieldsData, index.compact)
    ensures AllAscending(index.containers[k]) && Ascending(WildcardsAt(index, k))
  {
    RepresentsIdentified(index.committed, origins, index.fieldsData, index.compact);
    ReadyLists(index, origins, k);
    forall e
      ensures e in SetOf(WildcardsAt(index, k)) <==> WildBySome(origins, index.compact, k, e)
    {
      ReadyWild(index, origins, k, e);
    }
    forall term
      ensures Ascending(ListOf(index.containers[k], term))
    {
      assert Ascending(index.ListAt(k, term));
    }
  }

  // ----- the engines

  /** Nothing is listed twice. */
  ghost predicate NoRepeats(log: seq<ConjID>) {
    forall i, j :: 0 <= i < j < |log| ==> log[i] != log[j]
  }

  function NonNil(q: Assignments): set<BEField> {
    set f | f in q && !q[f].Nil?
  }

  /** The number of query fields that carry a value. */
  method QuerySize(q: Assignments) returns (size: nat)
    ensures size == |NonNil(q)|
  {
    size := 0;
    var todo := q.Keys;
    while todo != {}
      invariant todo <= q.Keys && size == |NonNil(q) - todo|
      decreases todo
    {
      var f :| f in todo;
      var done := NonNil(q) - todo;
      assert NonNil(q) - (todo - {f}) == if q[f].Nil? then done else done + {f};
      if !q[f].Nil? {
        size := size + 1;
      }
      todo := todo - {f};
    }
    assert NonNil(q) - {} == NonNil(q);
  }

  /** A satisfied conjunction has no more include fields than the query has fields. */
  lemma HoldsNeedsFields(conj: Conjunction, q: Assignments)
    requires ConjHolds(conj, q)
    ensures |IncludeFields(conj)| <= |NonNil(q)|
  {
    HoldsByFields(conj, q);
    forall f | f in IncludeFields(conj)
      ensures f in NonNil(q)
    {
      var j :| 0 <= j < |conj.expressions[f]| && HitsExpr(conj.expressions[f][j], q, f, true);
      var t :| t in TokenSet(conj.expressions[f][j].value) * QueryTokens(q, f);
    }
    SubsetCount(IncludeFields(conj), NonNil(q));
  }

  /** `found` is what the query selects from a container, in order. */
  ghost predicate CollectedFrom(index: BEIndex, k: nat, q: Assignments, found: seq<ConjID>)
    requires k < |index.containers|
    reads index
  {
    Collected(found, GroupsOf(index.containers[k], SetOf(WildcardsAt(index, k)), index.fieldsData, q), ALL_CONJS)
  }

  /** Opens the cursors of one container and merges it the K-groups way. */
  method RetrieveContainer(index: BEIndex, k: nat, q: Assignments, collector: DocIDCollector,
                           ghost origins: seq<Origin>)
    returns (ok: bool, ghost found: seq<ConjID>)
    requires Ready(index, origins) && !index.compact && k < |index.containers|
    modifies collector
    ensures ok <==> !BadQuery(index.fieldsData, q)
    ensures ok ==> CollectedFrom(index, k, q, found)
    ensures ok ==> Holds(collector, old(collector.docBits), old(collector.log), found)
    ensures !ok ==> collector.docBits == old(collector.docBits) && collector.log == old(collector.log)
  {
    found := [];
    ghost var pl, wild := index.containers[k], SetOf(WildcardsAt(index, k));
    ReadyContains(index, origins, k);
    var cs;
    ghost var world;
    ok, cs, world := InitCursors(index.containers[k], WildcardsAt(index, k), index.fieldsData, q);
    if ok {
      var needMatchCnt := if k > 1 then k else 1;
      EncodedGroups(pl, wild, k, origins, index.fieldsData, false, q);
      UniformGroups(pl, wild, k, origins, index.fieldsData, q, needMatchCnt);
      NoSurplusGroups(pl, wild, k, origins, index.fieldsData, false, q);
      found := MergeK(cs, needMatchCnt, collector, world, pl, wild, index.fieldsData, q);
    }
  }

  /** Merges the opened cursors of one container the K-groups way. */
  method MergeK(cs: seq<FieldCursor>, needMatchCnt: nat, collector: DocIDCollector, ghost world: set<object>,
                ghost pl: Postings, ghost wild: set<EntryID>, ghost fields: Fields, ghost q: Assignments)
    returns (ghost found: seq<ConjID>)
    requires Gathered(cs, world, KeySet(q), pl, wild, fields, q) && collector !in world && needMatchCnt >= 1
    requires Encoded(GroupsOf(pl, wild, fields, q)) && NoSurplus(GroupsOf(pl, wild, fields, q))
    requires Uniform(GroupsOf(pl, wild, fields, q), needMatchCnt)
    modifies world, collector
    ensures Collected(found, GroupsOf(pl, wild, fields, q), ALL_CONJS)
    ensures Holds(collector, old(collector.docBits), old(collector.log), found)
  {
    GatheredMerges(cs, world, pl, wild, fields, q);
    var fieldCursors := new FieldCursor[|cs|](i requires 0 <= i < |cs| => cs[i]);
    assert fieldCursors[..] == cs;
    found := RetrieveK(fieldCursors, needMatchCnt, collector, Live(cs), world, GroupsOf(pl, wild, fields, q));
  }

  ghost function MatchedFrom(origins: seq<Origin>, k: nat, q: Assignments): set<DocID> {
    set i | 0 <= i < |origins| && SizeFor(origins[i]) >= k && ConjHolds(origins[i].conj, q) :: origins[i].doc
  }

  /** The conjunctions of size at least `k` have been dealt with; `mine` is what this retrieval collected. */
  ghost predicate DoneFrom(collector: DocIDCollector, docs: set<DocID>, log: seq<ConjID>, mine: seq<ConjID>,
                           origins: seq<Origin>, k: nat, q: Assignments)
    reads collector
  {
    && collector.docBits == docs + MatchedFrom(origins, k, q)
    && collector.log == log + mine && NoRepeats(mine)
    && forall c :: c in mine ==> SizeOf(c) >= k
  }

  lemma NothingYet(docs: set<DocID>, log: seq<ConjID>)
    ensures docs + {} == docs && log + [] == log
  {
  }

  lemma MatchedFromZero(origins: seq<Origin>, q: Assignments)
    ensures MatchedFrom(origins, 0, q) == Matched(origins, q)
  {
  }

  lemma MatchedFromStep(origins: seq<Origin>, k: nat, q: Assignments)
    ensures MatchedFrom(origins, k, q) == MatchedFrom(origins, k + 1, q) + MatchedIn(origins, false, k, q)
  {
  }

  lemma DoneStep(docs: set<DocID>, log: seq<ConjID>, mine: seq<ConjID>, found: seq<ConjID>, origins: seq<Origin>,
                 k: nat, q: Assignments)
    requires DocsOf(found) == MatchedIn(origins, false, k, q)
    ensures docs + MatchedFrom(origins, k + 1, q) + DocsOf(found) == docs + MatchedFrom(origins, k, q)
    ensures log + mine + found == log + (mine + found)
  {
    MatchedFromStep(origins, k, q);
  }

  lemma FoundSizes(index: BEIndex, k: nat, q: Assignments, origins: seq<Origin>, found: seq<ConjID>)
    requires Ready(index, origins) && !index.compact && k < |index.containers|
    requires CollectedFrom(index, k, q, found)
    ensures forall c :: c in found ==> SizeOf(c) == k
    ensures DocsOf(found) == MatchedIn(origins, false, k, q)
  {
    var pl, wild := index.containers[k], SetOf(WildcardsAt(index, k));
    ReadyContains(index, origins, k);
    CollectedDocs(pl, wild, k, origins, index.fieldsData, false, q, found);
    forall c | c in found
      ensures SizeOf(c) == k
    {
      SelectedHasOrigin(pl, wild, k, origins, index.fieldsData, false, q, c);
      var i :| 0 <= i < |origins| && HolderOf(origins[i], false) == k && IdOf(origins[i]) == c;
      ConjIDRoundTrip(origins[i].doc, origins[i].idx, SizeFor(origins[i]));
    }
  }

  lemma NoRepeatsConcat(mine: seq<ConjID>, found: seq<ConjID>, k: nat)
    requires NoRepeats(mine) && forall i, j :: 0 <= i < j < |found| ==> found[i] < found[j]
    requires forall c :: c in mine ==> SizeOf(c) >= k + 1
    requires forall c :: c in found ==> SizeOf(c) == k
    ensures NoRepeats(mine + found) && forall c :: c in mine + found ==> SizeOf(c) >= k
  {
    var all := mine + found;
    forall i, j | 0 <= i < j < |all|
      ensures all[i] != all[j]
    {
      if i < |mine| <= j {
        assert all[i] in mine && all[j] in found;
      } else if |mine| <= i {
        assert found[i - |mine|] < found[j - |mine|];
      }
    }
  }

  method RetrieveStep(index: BEIndex, k: nat, q: Assignments, collector: DocIDCollector, ghost origins: seq<Origin>,
                      ghost docs: set<DocID>, ghost log: seq<ConjID>, ghost mine: seq<ConjID>)
    returns (ok: bool, ghost mine': seq<ConjID>)
    requires Ready(index, origins) && !index.compact && k < |index.containers|
    requires DoneFrom(collector, docs, log, mine, origins, k + 1, q)
    modifies collector
    ensures ok <==> !BadQuery(index.fieldsData, q)
    ensures ok ==> DoneFrom(collector, docs, log, mine', origins, k, q)
  {
    ghost var found;
    ok, found := RetrieveContainer(index, k, q, collector, origins);
    mine' := mine + found;
    if ok {
      FoundSizes(index, k, q, origins, found);
      NoRepeatsConcat(mine, found, k);
      DoneStep(docs, log, mine, found, origins, k, q);
    }
  }

  /** No conjunction is larger than the containers or the query. */
  lemma NothingAbove(index: BEIndex, origins: seq<Origin>, q: Assignments, k: nat)
    requires Ready(index, origins) && !index.compact && (k >= |index.containers| || k > |NonNil(q)|)
    ensures MatchedFrom(origins, k, q) == {}
  {
    forall i | 0 <= i < |origins| && SizeFor(origins[i]) >= k
      ensures !ConjHolds(origins[i].conj, q)
    {
      assert CompiledFrom(index.committed[i], origins[i], index.fieldsData, index.compact);
      assert index.committed[i] in index.committed;
      if ConjHolds(origins[i].conj, q) {
        HoldsNeedsFields(origins[i].conj, q);
      }
    }
  }

  /** The largest container worth reading. */
  method LargestSize(index: BEIndex, q: Assignments, ghost origins: seq<Origin>) returns (k: int)
    requires Ready(index, origins) && !index.compact
    ensures -1 <= k < |index.containers| && (k == -1 <==> |index.containers| == 0)
    ensures MatchedFrom(origins, k + 1, q) == {}
  {
    var size := QuerySize(q);
    k := if size < |index.containers| - 1 then size else |index.containers| - 1;
    NothingAbove(index, origins, q, k + 1);
  }

  /** K-groups: from the largest size that can match down to the wildcards. */
  method RetrieveKGroups(index: BEIndex, q: Assignments, collector: DocIDCollector, ghost origins: seq<Origin>)
    returns (ok: bool, ghost mine: seq<ConjID>)
    requires Ready(index, origins) && !index.compact
    modifies collector
    ensures ok <==> |index.containers| == 0 || !BadQuery(index.fieldsData, q)
    ensures ok ==> collector.docBits == old(collector.docBits) + Matched(origins, q)
    ensures ok ==> collector.log == old(collector.log) + mine && NoRepeats(mine)
  {
    ok, mine := true, [];
    var k := LargestSize(index, q, origins);
    ghost var top := k;
    NothingYet(collector.docBits, collector.log);
    while k >= 0
      invariant -1 <= k <= top && ok
      invariant k < top ==> !BadQuery(index.fieldsData, q)
      invariant DoneFrom(collector, old(collector.docBits), old(collector.log), mine, origins, k + 1, q)
    {
      ok, mine := RetrieveStep(index, k, q, collector, origins, old(collector.docBits), old(collector.log), mine);
      if !ok {
        return;
      }
      k := k - 1;
    }
    MatchedFromZero(origins, q);
  }

  /** Opens the cursors of the one container and merges it the compact way. */
  method RetrieveWhole(index: BEIndex, q: Assignments, collector: DocIDCollector, ghost origins: seq<Origin>)
    returns (ok: bool, ghost found: seq<ConjID>)
    requires Ready(index, origins) && index.compact && |index.containers| == 1
    modifies collector
    ensures ok <==> !BadQuery(index.fieldsData, q)
    ensures ok ==> CollectedFrom(index, 0, q, found)
    ensures ok ==> Holds(collector, old(collector.docBits), old(collector.log), found)
  {
    found := [];
    ghost var pl, wild := index.containers[0], SetOf(index.wildcardEntries);
    ReadyContains(index, origins, 0);
    var cs;
    ghost var world;
    ok, cs, world := InitCursors(index.containers[0], index.wildcardEntries, index.fieldsData, q);
    if ok {
      EncodedGroups(pl, wild, 0, origins, index.fieldsData, true, q);
      NoSurplusGroups(pl, wild, 0, origins, index.fieldsData, true, q);
      found := MergeCompact(cs, collector, world, pl, wild, index.fieldsData, q);
    }
  }

  /** Merges the opened cursors the compact way. */
  method MergeCompact(cs: seq<FieldCursor>, collector: DocIDCollector, ghost world: set<object>, ghost pl: Postings,
                      ghost wild: set<EntryID>, ghost fields: Fields, ghost q: Assignments)
    returns (ghost found: seq<ConjID>)
    requires Gathered(cs, world, KeySet(q), pl, wild, fields, q) && collector !in world
    requires Encoded(GroupsOf(pl, wild, fields, q)) && NoSurplus(GroupsOf(pl, wild, fields, q))
    modifies world, collector
    ensures Collected(found, GroupsOf(pl, wild, fields, q), ALL_CONJS)
    ensures Holds(collector, old(collector.docBits), old(collector.log), found)
  {
    GatheredMerges(cs, world, pl, wild, fields, q);
    NoneAtEnd(cs, world, pl, wild, fields, q);
    var fieldCursors := new FieldCursor[|cs|](i requires 0 <= i < |cs| => cs[i]);
    assert fieldCursors[..] == cs;
    found := RetrieveCompact(fieldCursors, collector, Live(cs), world, GroupsOf(pl, wild, fields, q));
  }

  lemma CompactDocs(index: BEIndex, q: Assignments, origins: seq<Origin>, found: seq<ConjID>)
    requires Ready(index, origins) && index.compact && |index.containers| == 1
    requires CollectedFrom(index, 0, q, found)
    ensures DocsOf(found) == Matched(origins, q) && NoRepeats(found)
  {
    ReadyContains(index, origins, 0);
    CollectedDocs(index.containers[0], SetOf(index.wildcardEntries), 0, origins, index.fieldsData, true, q, found);
    assert MatchedIn(origins, true, 0, q) == Matched(origins, q);
  }

  /** Compact: one merge over everything. */
  method RetrieveCompacted(index: BEIndex, q: Assignments, collector: DocIDCollector, ghost origins: seq<Origin>)
    returns (ok: bool, ghost mine: seq<ConjID>)
    requires Ready(index, origins) && index.compact
    modifies collector
    ensures ok <==> !BadQuery(index.fieldsData, q)
    ensures ok ==> collector.docBits == old(collector.docBits) + Matched(origins, q)
    ensures ok ==> collector.log == old(collector.log) + mine && NoRepeats(mine)
  {
    ok, mine := RetrieveWhole(index, q, collector, origins);
    if ok {
      CompactDocs(index, q, origins, mine);
    }
  }
}
