/**
 The posting-list engines over documents that mix values and numbers: build an index, ask it a query.  The answer is
 the documents with a satisfied conjunction, numbers read through range holders and values through posting lists.
 */
module MixedEngines {
  import opened IdTypes
  import opened Documents
  import opened Merge
  import opened BEIndexes
  import opened IndexBuilders
  import opened Retrieval
  import opened RangeIdxs
  import opened RangeHolders
  import opened MixedDocuments
  import opened MixedIndexes
  import opened MixedRetrieval
  import opened MixedBuilders

  // ----- what is added, document by document

  ghost predicate DistinctDocs(docs: seq<MixedDoc>) {
    forall i, j :: 0 <= i < j < |docs| ==> docs[i].id != docs[j].id
  }

  ghost function GoodsTo(docs: seq<MixedDoc>, n: nat, good: MixedOrigin -> bool): seq<MixedOrigin>
    requires n <= |docs|
  {
    if n == 0 then [] else Goods(GoodsTo(docs, n - 1, good), docs[n - 1], |docs[n - 1].cons|, good)
  }

  lemma {:induction false} GoodsHave(before: seq<MixedOrigin>, doc: MixedDoc, n: nat, good: MixedOrigin -> bool, j: nat)
    requires j < n <= |doc.cons| && GoodAt(doc, j, good)
    ensures OriginAt(doc, j) in Goods(before, doc, n, good)
  {
    if j < n - 1 {
      GoodsHave(before, doc, n - 1, good, j);
    }
  }

  /** What is added are good conjunctions of the documents. */
  lemma {:induction false} GoodsToFrom(docs: seq<MixedDoc>, n: nat, good: MixedOrigin -> bool, p: nat)
    returns (i: nat, j: nat)
    requires n <= |docs| && p < |GoodsTo(docs, n, good)|
    ensures i < n && GoodAt(docs[i], j, good) && GoodsTo(docs, n, good)[p] == OriginAt(docs[i], j)
  {
    var before := GoodsTo(docs, n - 1, good);
    i := n - 1;
    j := GoodsFrom(before, docs[i], |docs[i].cons|, good, p);
    if p < |before| {
      i, j := GoodsToFrom(docs, n - 1, good, p);
    }
  }

  lemma {:induction false} GoodsToHave(docs: seq<MixedDoc>, n: nat, good: MixedOrigin -> bool, i: nat, j: nat)
    requires i < n <= |docs| && GoodAt(docs[i], j, good)
    ensures OriginAt(docs[i], j) in GoodsTo(docs, n, good)
  {
    var before, last := GoodsTo(docs, n - 1, good), docs[n - 1];
    if i < n - 1 {
      GoodsToHave(docs, n - 1, good, i, j);
      GoodsKeep(before, last, |last.cons|, good);
    } else {
      GoodsHave(before, last, |last.cons|, good, j);
    }
  }

  /** The document has a good conjunction that is satisfied. */
  ghost predicate MixedMatches(doc: MixedDoc, good: MixedOrigin -> bool, q: MixedQuery) {
    exists j: nat :: GoodAt(doc, j, good) && MixedHolds(doc.cons[j], q)
  }

  ghost function MixedMatching(docs: seq<MixedDoc>, good: MixedOrigin -> bool, q: MixedQuery): set<DocID> {
    set i | 0 <= i < |docs| && MixedMatches(docs[i], good, q) :: docs[i].id
  }

  lemma {:induction false} MatchedIsMatching(docs: seq<MixedDoc>, good: MixedOrigin -> bool, q: MixedQuery, p: nat)
    requires p < |GoodsTo(docs, |docs|, good)| && MixedHolds(GoodsTo(docs, |docs|, good)[p].conj, q)
    ensures GoodsTo(docs, |docs|, good)[p].doc in MixedMatching(docs, good, q)
  {
    var i, j := GoodsToFrom(docs, |docs|, good, p);
    assert MixedMatches(docs[i], good, q);
  }

  lemma {:induction false} MatchingIsMatched(docs: seq<MixedDoc>, good: MixedOrigin -> bool, q: MixedQuery, i: nat)
    requires i < |docs| && MixedMatches(docs[i], good, q)
    ensures docs[i].id in MixedMatched(GoodsTo(docs, |docs|, good), q)
  {
    var added := GoodsTo(docs, |docs|, good);
    var j: nat :| GoodAt(docs[i], j, good) && MixedHolds(docs[i].cons[j], q);
    GoodsToHave(docs, |docs|, good, i, j);
    var p :| 0 <= p < |added| && added[p] == OriginAt(docs[i], j);
  }

  /** Documents with a satisfied conjunction among those added are the documents that match. */
  lemma {:induction false} MatchedAreMatching(docs: seq<MixedDoc>, good: MixedOrigin -> bool, q: MixedQuery)
    ensures MixedMatched(GoodsTo(docs, |docs|, good), q) == MixedMatching(docs, good, q)
  {
    var added := GoodsTo(docs, |docs|, good);
    forall d | d in MixedMatched(added, q)
      ensures d in MixedMatching(docs, good, q)
    {
      var p :| 0 <= p < |added| && MixedHolds(added[p].conj, q) && added[p].doc == d;
      MatchedIsMatching(docs, good, q, p);
    }
    forall d | d in MixedMatching(docs, good, q)
      ensures d in MixedMatched(added, q)
    {
      var i :| 0 <= i < |docs| && MixedMatches(docs[i], good, q) && docs[i].id == d;
      MatchingIsMatched(docs, good, q, i);
    }
  }

  lemma {:induction false} NewDocUnseen(docs: seq<MixedDoc>, n: nat, good: MixedOrigin -> bool)
    requires n < |docs| && DistinctDocs(docs)
    ensures Unseen(GoodsTo(docs, n, good), docs[n].id, 0)
  {
    var added := GoodsTo(docs, n, good);
    forall p | 0 <= p < |added|
      ensures added[p].doc != docs[n].id
    {
      var i, j := GoodsToFrom(docs, n, good, p);
    }
  }

  // ----- building

  ghost predicate AllFit(docs: seq<MixedDoc>, nf: set<BEField>) {
    forall i :: 0 <= i < |docs| ==> DocFits(docs[i], nf)
  }

  /** The document has 1 to 255 conjunctions, all of them good. */
  ghost predicate AllAre(doc: MixedDoc, good: MixedOrigin -> bool) {
    1 <= |doc.cons| <= 255 && AllTo(doc, |doc.cons|, good)
  }

  method AddDoc(builder: IndexerBuilder, holders: map<NumKey, RangeHolder>, docs: seq<MixedDoc>, n: nat,
                small: Range -> bool, ghost nf: set<BEField>, ghost added: seq<MixedOrigin>, ghost parts: set<object>)
    returns (ok: bool, hs: map<NumKey, RangeHolder>, ghost added': seq<MixedOrigin>, ghost mine: set<object>)
    requires Building(builder, holders, nf, added) && MadeOf(parts, holders, builder)
    requires DistinctDocs(docs) && AllFit(docs, nf) && n < |docs| && added == GoodsTo(docs, n, Fit(small))
    modifies builder`fieldsData, builder`names, builder`schemaHash, builder`docLevelCache
    modifies builder.indexer`containers, builder.indexer`wildcardEntries, builder.indexer`committed, parts
    ensures Building(builder, hs, nf, added') && MadeOf(mine, hs, builder) && Grown(parts, mine)
    ensures ok ==> added' == GoodsTo(docs, n + 1, Fit(small))
    ensures if ok then AllAre(docs[n], Passable(small)) else !AllAre(docs[n], Calm(small))
  {
    if |docs[n].cons| == 0 || |docs[n].cons| > 0xFF {
      return false, holders, added, parts;
    }
    NewDocUnseen(docs, n, Fit(small));
    ok, hs, added', mine := AddConjs(builder, holders, docs[n], small, nf, added, parts);
  }

  /** Adds documents one by one, until one is refused. */
  method AddDocs(builder: IndexerBuilder, docs: seq<MixedDoc>, small: Range -> bool, ghost nf: set<BEField>)
    returns (ok: bool, hs: map<NumKey, RangeHolder>, ghost added: seq<MixedOrigin>, ghost mine: set<object>)
    requires Building(builder, map[], nf, []) && DistinctDocs(docs) && AllFit(docs, nf)
    modifies builder`fieldsData, builder`names, builder`schemaHash, builder`docLevelCache
    modifies builder.indexer`containers, builder.indexer`wildcardEntries, builder.indexer`committed
    ensures Building(builder, hs, nf, added) && MadeOf(mine, hs, builder) && Grown({}, mine)
    ensures ok ==> added == GoodsTo(docs, |docs|, Fit(small))
    ensures if ok then forall i :: 0 <= i < |docs| ==> AllAre(docs[i], Passable(small))
            else exists i :: 0 <= i < |docs| && !AllAre(docs[i], Calm(small))
  {
    ok, hs, added, mine := true, map[], [], {};
    var n := 0;
    while n < |docs| && ok
      invariant 0 <= n <= |docs| && builder.indexer == old(builder.indexer)
      invariant Building(builder, hs, nf, added) && MadeOf(mine, hs, builder) && Grown({}, mine)
      invariant if ok then added == GoodsTo(docs, n, Fit(small)) else n > 0 && !AllAre(docs[n - 1], Calm(small))
      invariant ok ==> forall i :: 0 <= i < n ==> AllAre(docs[i], Passable(small))
    {
      ok, hs, added, mine := AddDoc(builder, hs, docs, n, small, nf, added, mine);
      n := n + 1;
    }
  }

  /** Configures the number fields, in any order, before any document is added. */
  method ConfigureNumbers(builder: IndexerBuilder, nf: set<BEField>)
    requires builder.Valid() && builder.indexer.committed == []
    modifies builder`fieldsData, builder`names, builder`schemaHash, builder`docLevelCache
    ensures Building(builder, map[], nf, [])
  {
    var todo := nf;
    while todo != {}
      invariant todo <= nf && builder.FieldsKept() && nf - todo <= builder.fieldsData.Keys
      decreases todo
    {
      var field :| field in todo;
      var _ := builder.ConfigureField(field);
      todo := todo - {field};
    }
  }

  // ----- compiling

  /** The holders in `todo` are still being filled, the others are ready. */
  ghost predicate Sorting(holders: map<NumKey, RangeHolder>, added: seq<MixedOrigin>, compact: bool, todo: set<NumKey>)
    requires AllRoom(added)
    reads holders.Values, set h | h in holders.Values :: h.rangeIdx
  {
    forall key :: key in holders ==>
      var ps := HolderPostings(added, compact, key.k, key.field);
      if key in todo then HolderFilling(holders[key], ps) else HolderReady(holders[key], ps)
  }

  method CompileHolder(holders: map<NumKey, RangeHolder>, key: NumKey, ghost added: seq<MixedOrigin>,
                       ghost compact: bool, ghost todo: set<NumKey>)
    requires AllRoom(added) && Separated(holders) && key in holders && key in todo
    requires Sorting(holders, added, compact, todo)
    modifies holders[key], holders[key].rangeIdx
    ensures Sorting(holders, added, compact, todo - {key})
  {
    holders[key].CompileEntries();
    forall other | other in holders && other != key
      ensures var ps := HolderPostings(added, compact, other.k, other.field);
              if other in todo - {key} then HolderFilling(holders[other], ps) else HolderReady(holders[other], ps)
    {
    }
  }

  method CompileHolders(holders: map<NumKey, RangeHolder>, ghost added: seq<MixedOrigin>, ghost compact: bool,
                        ghost mine: set<object>, ghost builder: IndexerBuilder)
    requires AllRoom(added) && Separated(holders) && MadeOf(mine, holders, builder)
    requires Sorting(holders, added, compact, holders.Keys)
    modifies mine
    ensures Sorting(holders, added, compact, {})
  {
    var todo := holders.Keys;
    while todo != {}
      invariant todo <= holders.Keys && Sorting(holders, added, compact, todo)
      decreases todo
    {
      var key :| key in todo;
      CompileHolder(holders, key, added, compact, todo);
      todo := todo - {key};
    }
  }

  /** Compiles the holders, which leaves the values as they are. */
  method CompileNumbers(builder: IndexerBuilder, holders: map<NumKey, RangeHolder>, ghost nf: set<BEField>,
                        ghost added: seq<MixedOrigin>, ghost mine: set<object>)
    requires Building(builder, holders, nf, added) && MadeOf(mine, holders, builder)
    modifies mine
    ensures ValueSide(builder, nf, added) && HoldersReady(holders, nf, added, builder.compact)
  {
    CompileHolders(holders, added, builder.compact, mine, builder);
  }

  /** Hands the fields to the index and sorts every list of values, which leaves the numbers as they are. */
  method CompileValues(builder: IndexerBuilder, ghost holders: map<NumKey, RangeHolder>, ghost nf: set<BEField>,
                       ghost added: seq<MixedOrigin>)
    requires ValueSide(builder, nf, added) && HoldersReady(holders, nf, added, builder.compact)
    modifies builder.indexer`containers, builder.indexer`wildcardEntries, builder.indexer`fieldsData
    ensures ValuesSorted(builder.indexer, nf, added) && HoldersReady(holders, nf, added, builder.indexer.compact)
  {
    builder.indexer.fieldsData := builder.fieldsData;
    builder.indexer.CompileIndexer();
  }

  method Join(base: BEIndex, holders: map<NumKey, RangeHolder>, nf: set<BEField>, ghost added: seq<MixedOrigin>)
    returns (index: MixedIndex)
    requires ValuesSorted(base, nf, added) && HoldersReady(holders, nf, added, base.compact)
    ensures index.numFields == nf && index.added == added && index.ValuesReady() && index.NumbersReady()
    ensures index.base == base
  {
    index := new MixedIndex(base, nf, holders, added);
  }

  /** Compiles both sides into an index. */
  method CompileMixed(builder: IndexerBuilder, holders: map<NumKey, RangeHolder>, nf: set<BEField>,
                      ghost added: seq<MixedOrigin>, ghost mine: set<object>)
    returns (index: MixedIndex)
    requires Building(builder, holders, nf, added) && MadeOf(mine, holders, builder)
    modifies builder.indexer`containers, builder.indexer`wildcardEntries, builder.indexer`fieldsData, mine
    ensures index.numFields == nf && index.added == added && index.ValuesReady() && index.NumbersReady()
    ensures index.base == builder.indexer
  {
    CompileNumbers(builder, holders, nf, added, mine);
    CompileValues(builder, holders, nf, added);
    index := Join(builder.indexer, holders, nf, added);
  }

  /** Builds an index of the documents: those that are added, conjunctions that cannot be indexed left out. */
  method BuildMixed(compact: bool, nf: set<BEField>, docs: seq<MixedDoc>, small: Range -> bool)
    returns (index: Option<MixedIndex>)
    requires DistinctDocs(docs) && AllFit(docs, nf)
    ensures (forall i :: 0 <= i < |docs| ==> AllAre(docs[i], Calm(small))) ==> index.Some?
    ensures index.Some? ==> forall i :: 0 <= i < |docs| ==> AllAre(docs[i], Passable(small))
    ensures index.Some? ==> index.value.ValuesReady() && index.value.NumbersReady() && index.value.numFields == nf
    ensures index.Some? ==> index.value.base.compact == compact
    ensures index.Some? ==> index.value.added == GoodsTo(docs, |docs|, Fit(small))
  {
    ghost var nothing := Document(0, 0, []);
    var builder := new IndexerBuilder(compact, SkipBadConj, false, _ => nothing);
    ConfigureNumbers(builder, nf);
    var ok, hs;
    ghost var added, mine;
    ok, hs, added, mine := AddDocs(builder, docs, small, nf);
    if !ok {
      return None;
    }
    var built := CompileMixed(builder, hs, nf, added, mine);
    index := Some(built);
  }

  // ----- values that cannot be read

  /** The query has a value of a type that no holder takes. */
  ghost predicate Garbled(q: MixedQuery) {
    (exists f :: f in q.values && q.values[f].Unsupported?) || (exists f :: f in q.numbers && q.numbers[f].None?)
  }

  /** The conjunction has an expression on a field for which the query has such a value; number fields are looked at
      only in containers of no more fields than the query has. */
  ghost predicate Clashes(mc: MixedConj, q: MixedQuery, compact: bool) {
    || (exists f :: f in mc.values.expressions && mc.values.expressions[f] != []
                    && f in q.values && q.values[f].Unsupported?)
    || (exists f :: f in mc.numbers && mc.numbers[f] != [] && f in q.numbers && q.numbers[f].None?
                    && (compact || |MixedIncludes(mc)| <= MixedQuerySize(q)))
  }

  lemma ClearIsReadable(index: MixedIndex, fields: Fields, q: MixedQuery)
    requires !Garbled(q)
    ensures ReadableWhereVisited(index, fields, q)
  {
  }

  lemma AddedHasContainer(index: MixedIndex, p: nat)
    requires index.ValuesReady() && p < |index.added|
    ensures MixedHolder(index.added[p], index.base.compact) < |index.base.containers|
  {
    assert CommittedAs(index.base.committed[p], index.added[p], index.base.fieldsData, index.base.compact);
    assert index.base.committed[p] in index.base.committed;
  }

  lemma ValueClash(index: MixedIndex, q: MixedQuery, p: nat, f: BEField)
    requires index.ValuesReady() && p < |index.added|
    requires f in index.added[p].conj.values.expressions && index.added[p].conj.values.expressions[f] != []
    requires f in q.values && q.values[f].Unsupported?
    ensures !ReadableWhereVisited(index, index.base.fieldsData, q)
  {
    AddedHasContainer(index, p);
    assert MixedKnown(index.added[p], index.base.fieldsData, index.numFields);
    assert FieldBad(index.base.fieldsData, HoldersAt(index, 0).Keys, q, f);
    assert f in q.values.Keys + q.numbers.Keys;
    assert Visited(index, q, 0) && BadAt(index, index.base.fieldsData, q, 0);
  }

  lemma NumberClash(index: MixedIndex, q: MixedQuery, p: nat, f: BEField)
    requires index.ValuesReady() && index.NumbersReady() && QueryApart(q, index.numFields) && p < |index.added|
    requires f in index.added[p].conj.numbers && index.added[p].conj.numbers[f] != []
    requires f in q.numbers && q.numbers[f].None?
    requires index.base.compact || MixedSize(index.added[p]) <= MixedQuerySize(q)
    ensures !ReadableWhereVisited(index, index.base.fieldsData, q)
  {
    var o, k := index.added[p], MixedHolder(index.added[p], index.base.compact);
    AddedHasContainer(index, p);
    assert MixedKnown(o, index.base.fieldsData, index.numFields);
    assert OwnPostings(o, f)[0] in OwnPostings(o, f);
    InHolderPostings(index.added, index.base.compact, k, f, OwnPostings(o, f)[0]);
    assert NumKey(k, f) in index.holders;
    assert FieldBad(index.base.fieldsData, HoldersAt(index, k).Keys, q, f);
    assert f in q.values.Keys + q.numbers.Keys;
    assert Visited(index, q, k) && BadAt(index, index.base.fieldsData, q, k);
  }

  lemma ClashIsUnreadable(index: MixedIndex, q: MixedQuery, p: nat)
    requires index.ValuesReady() && index.NumbersReady() && QueryApart(q, index.numFields) && p < |index.added|
    requires Clashes(index.added[p].conj, q, index.base.compact)
    ensures !ReadableWhereVisited(index, index.base.fieldsData, q)
  {
    var mc := index.added[p].conj;
    if f :| f in mc.values.expressions && mc.values.expressions[f] != [] && f in q.values && q.values[f].Unsupported? {
      ValueClash(index, q, p, f);
    } else {
      var f :| f in mc.numbers && mc.numbers[f] != [] && f in q.numbers && q.numbers[f].None?
               && (index.base.compact || |MixedIncludes(mc)| <= MixedQuerySize(q));
      NumberClash(index, q, p, f);
    }
  }

  /** Some conjunction that is indexed clashes with the query. */
  ghost predicate DocsClash(docs: seq<MixedDoc>, good: MixedOrigin -> bool, q: MixedQuery, compact: bool) {
    exists i, j: nat :: 0 <= i < |docs| && GoodAt(docs[i], j, good) && Clashes(docs[i].cons[j], q, compact)
  }

  lemma DocsClashIsUnreadable(index: MixedIndex, docs: seq<MixedDoc>, good: MixedOrigin -> bool, q: MixedQuery)
    requires index.ValuesReady() && index.NumbersReady() && QueryApart(q, index.numFields)
    requires index.added == GoodsTo(docs, |docs|, good) && DocsClash(docs, good, q, index.base.compact)
    ensures !ReadableWhereVisited(index, index.base.fieldsData, q)
  {
    var i, j: nat :| 0 <= i < |docs| && GoodAt(docs[i], j, good) && Clashes(docs[i].cons[j], q, index.base.compact);
    GoodsToHave(docs, |docs|, good, i, j);
    var p :| 0 <= p < |index.added| && index.added[p] == OriginAt(docs[i], j);
    ClashIsUnreadable(index, q, p);
  }

  lemma WhenReadable(index: MixedIndex, docs: seq<MixedDoc>, good: MixedOrigin -> bool, q: MixedQuery)
    requires Served(index, q) && index.added == GoodsTo(docs, |docs|, good)
    ensures !Garbled(q) ==> ReadableWhereVisited(index, index.base.fieldsData, q)
    ensures DocsClash(docs, good, q, index.base.compact) ==> !ReadableWhereVisited(index, index.base.fieldsData, q)
  {
    if !Garbled(q) {
      ClearIsReadable(index, index.base.fieldsData, q);
    }
    if DocsClash(docs, good, q, index.base.compact) {
      DocsClashIsUnreadable(index, docs, good, q);
    }
  }

  /** Asks an index of the documents. */
  method AskMixed(index: MixedIndex, q: MixedQuery, ghost docs: seq<MixedDoc>, ghost good: MixedOrigin -> bool)
    returns (ok: bool, result: set<DocID>)
    requires Served(index, q) && index.added == GoodsTo(docs, |docs|, good)
    ensures !Garbled(q) ==> ok
    ensures DocsClash(docs, good, q, index.base.compact) ==> !ok
    ensures result == if ok then MixedMatching(docs, good, q) else {}
  {
    var collector := new DocIDCollector();
    ghost var found;
    ok, found := RetrieveMixed(index, q, collector);
    result := if ok then collector.docBits else {};
    MatchedAreMatching(docs, good, q);
    WhenReadable(index, docs, good, q);
  }

  /** Builds an index of the documents and asks it a query: the answer is the documents with a conjunction that
      can be indexed and is satisfied. */
  method AnswerMixed(compact: bool, nf: set<BEField>, docs: seq<MixedDoc>, small: Range -> bool, q: MixedQuery)
    returns (built: bool, ok: bool, result: set<DocID>)
    requires DistinctDocs(docs) && AllFit(docs, nf) && QueryApart(q, nf) && Askable(q)
    ensures (forall i :: 0 <= i < |docs| ==> AllAre(docs[i], Calm(small))) ==> built
    ensures built ==> forall i :: 0 <= i < |docs| ==> AllAre(docs[i], Passable(small))
    ensures built && !Garbled(q) ==> ok
    ensures built && DocsClash(docs, Fit(small), q, compact) ==> !ok
    ensures result == if built && ok then MixedMatching(docs, Fit(small), q) else {}
  {
    ok, result := false, {};
    var index := BuildMixed(compact, nf, docs, small);
    built := index.Some?;
    if built {
      ok, result := AskMixed(index.value, q, docs, Fit(small));
    }
  }
}
