/**
 The three engines side by side: build an index from documents, ask it a query.  Each answers with
 the documents that match in the sense of `Documents.DocMatches`, so they answer alike.
 */
module Engines {
  import opened IdTypes
  import opened Documents
  import opened Merge
  import opened BEIndexes
  import opened IndexBuilders
  import opened Retrieval
  import opened Matching
  import opened IndexScanner
  import Roaring

  ghost predicate DistinctIds(docs: seq<Document>) {
    forall i, j :: 0 <= i < j < |docs| ==> docs[i].id != docs[j].id
  }

  /** The documents that match the query. */
  ghost function MatchingDocs(docs: seq<Document>, q: Assignments): set<DocID> {
    set i | 0 <= i < |docs| && DocMatches(docs[i], q) :: docs[i].id
  }

  /** The document can be compiled whole: 1 to 255 conjunctions, id and sizes in range, only EQ and no value of an
      unsupported type. */
  ghost predicate Compilable(doc: Document) {
    && 1 <= |doc.cons| <= 255 && -0x7FF_FFFF_FFFF <= doc.id <= 0x7FF_FFFF_FFFF
    && forall i :: 0 <= i < |doc.cons| ==> |IncludeFields(doc.cons[i])| <= 255 && PlainConj(doc.cons[i])
  }

  ghost predicate PlainConj(conj: Conjunction) {
    forall f, i :: f in conj.expressions && 0 <= i < |conj.expressions[f]| ==>
      conj.expressions[f][i].operator == EQ && !conj.expressions[f][i].value.Unsupported?
  }

  /** Some document has an expression on the field. */
  ghost predicate Mentioned(docs: seq<Document>, f: BEField) {
    exists i, j :: 0 <= i < |docs| && 0 <= j < |docs[i].cons|
                   && f in docs[i].cons[j].expressions && docs[i].cons[j].expressions[f] != []
  }

  lemma CompilableIsAdmitted(doc: Document)
    requires Compilable(doc)
    ensures NoPanic(doc) && Admits(doc, ErrorBadConj)
  {
    AllGoodMeans(doc);
  }

  // ----- what the builder commits, document by document

  lemma {:induction false} AllGoodIsAll(doc: Document, n: nat)
    requires n <= |doc.cons| && forall i :: 0 <= i < |doc.cons| ==> Tokenizable(doc.cons[i])
    ensures GoodConjs(doc, n) == Roaring.OriginsOf(doc, n)
  {
    if n > 0 {
      AllGoodIsAll(doc, n - 1);
    }
  }

  /** All conjunctions of the first `n` documents. */
  ghost function OriginsTo(docs: seq<Document>, n: nat): seq<Origin>
    requires n <= |docs|
  {
    if n == 0 then [] else OriginsTo(docs, n - 1) + Roaring.OriginsOf(docs[n - 1], |docs[n - 1].cons|)
  }

  lemma {:induction false} AllGoodConjsIsAll(docs: seq<Document>, n: nat)
    requires n <= |docs| && forall i :: 0 <= i < |docs| ==> Compilable(docs[i])
    ensures AllGoodConjs(docs, n) == OriginsTo(docs, n)
  {
    if n > 0 {
      AllGoodConjsIsAll(docs, n - 1);
      CompilableIsAdmitted(docs[n - 1]);
      AllGoodMeans(docs[n - 1]);
      AllGoodIsAll(docs[n - 1], |docs[n - 1].cons|);
    }
  }

  ghost predicate FromDocs(o: Origin, docs: seq<Document>, n: nat)
    requires n <= |docs|
  {
    exists i :: 0 <= i < n && o.doc == docs[i].id && o.idx < |docs[i].cons| && o.conj == docs[i].cons[o.idx]
  }

  lemma {:induction false} OriginsFrom(docs: seq<Document>, n: nat)
    requires n <= |docs|
    ensures forall p :: 0 <= p < |OriginsTo(docs, n)| ==> FromDocs(OriginsTo(docs, n)[p], docs, n)
  {
    if n > 0 {
      OriginsFrom(docs, n - 1);
      var before, last := OriginsTo(docs, n - 1), docs[n - 1];
      forall p | 0 <= p < |OriginsTo(docs, n)|
        ensures FromDocs(OriginsTo(docs, n)[p], docs, n)
      {
        var o := OriginsTo(docs, n)[p];
        if p < |before| {
          assert o == before[p];
          assert FromDocs(o, docs, n - 1);
          var i :| 0 <= i < n - 1 && o.doc == docs[i].id && o.idx < |docs[i].cons| && o.conj == docs[i].cons[o.idx];
          assert FromDocs(o, docs, n);
        } else {
          assert o == Roaring.OriginsOf(last, |last.cons|)[p - |before|];
          assert o.doc == docs[n - 1].id && o.idx < |docs[n - 1].cons| && o.conj == docs[n - 1].cons[o.idx];
          assert FromDocs(o, docs, n);
        }
      }
    }
  }

  lemma {:induction false} OriginsDistinct(docs: seq<Document>, n: nat)
    requires n <= |docs| && DistinctIds(docs)
    ensures DistinctOrigins(OriginsTo(docs, n))
  {
    if n > 0 {
      OriginsDistinct(docs, n - 1);
      OriginsFrom(docs, n - 1);
      var before, more := OriginsTo(docs, n - 1), Roaring.OriginsOf(docs[n - 1], |docs[n - 1].cons|);
      var all: seq<Origin> := before + more;
      forall i, j | 0 <= i < j < |all|
        ensures all[i].doc != all[j].doc || all[i].idx != all[j].idx
      {
        if i < |before| <= j {
          assert FromDocs(before[i], docs, n - 1);
        }
      }
    }
  }

  lemma {:induction false} InOrigins(docs: seq<Document>, n: nat, i: nat, j: nat)
    requires i < n <= |docs| && j < |docs[i].cons|
    ensures Origin(docs[i].id, j, docs[i].cons[j]) in OriginsTo(docs, n)
  {
    if i == n - 1 {
      assert Roaring.OriginsOf(docs[i], |docs[i].cons|)[j] == Origin(docs[i].id, j, docs[i].cons[j]);
    } else {
      InOrigins(docs, n - 1, i, j);
    }
  }

  /** Documents with a satisfied conjunction are the documents that match. */
  lemma MatchedIsMatching(docs: seq<Document>, q: Assignments)
    ensures Matched(OriginsTo(docs, |docs|), q) == MatchingDocs(docs, q)
  {
    var origins := OriginsTo(docs, |docs|);
    OriginsFrom(docs, |docs|);
    forall d | d in Matched(origins, q)
      ensures d in MatchingDocs(docs, q)
    {
      var p :| 0 <= p < |origins| && ConjHolds(origins[p].conj, q) && origins[p].doc == d;
      assert FromDocs(origins[p], docs, |docs|);
      var i :| 0 <= i < |docs| && origins[p].doc == docs[i].id && origins[p].idx < |docs[i].cons|
               && origins[p].conj == docs[i].cons[origins[p].idx];
      assert DocMatches(docs[i], q);
    }
    forall d | d in MatchingDocs(docs, q)
      ensures d in Matched(origins, q)
    {
      var i :| 0 <= i < |docs| && DocMatches(docs[i], q) && docs[i].id == d;
      var j :| 0 <= j < |docs[i].cons| && ConjHolds(docs[i].cons[j], q);
      InOrigins(docs, |docs|, i, j);
      var p :| 0 <= p < |origins| && origins[p] == Origin(docs[i].id, j, docs[i].cons[j]);
      assert ConjHolds(origins[p].conj, q) && origins[p].doc == d;
    }
  }

  // ----- the posting-list engines, under any policy

  lemma {:induction false} GoodOriginsFrom(docs: seq<Document>, n: nat)
    requires n <= |docs|
    ensures forall p :: 0 <= p < |AllGoodConjs(docs, n)| ==> FromDocs(AllGoodConjs(docs, n)[p], docs, n)
  {
    if n > 0 {
      GoodOriginsFrom(docs, n - 1);
      GoodOrigins(docs[n - 1], |docs[n - 1].cons|);
      var before, last := AllGoodConjs(docs, n - 1), docs[n - 1];
      forall p | 0 <= p < |AllGoodConjs(docs, n)|
        ensures FromDocs(AllGoodConjs(docs, n)[p], docs, n)
      {
        var o := AllGoodConjs(docs, n)[p];
        if p < |before| {
          assert o == before[p];
          assert FromDocs(o, docs, n - 1);
        } else {
          assert o == GoodConjs(last, |last.cons|)[p - |before|];
          assert o.doc == docs[n - 1].id && o.idx < |docs[n - 1].cons| && o.conj == docs[n - 1].cons[o.idx];
        }
      }
    }
  }

  lemma {:induction false} GoodConjsDistinct(doc: Document, n: nat)
    requires n <= |doc.cons|
    ensures DistinctOrigins(GoodConjs(doc, n))
  {
    if n > 0 {
      GoodConjsDistinct(doc, n - 1);
      GoodOrigins(doc, n - 1);
    }
  }

  lemma {:induction false} GoodDistinct(docs: seq<Document>, n: nat)
    requires n <= |docs| && DistinctIds(docs)
    ensures DistinctOrigins(AllGoodConjs(docs, n))
  {
    if n > 0 {
      GoodDistinct(docs, n - 1);
      GoodOriginsFrom(docs, n - 1);
      var last := docs[n - 1];
      GoodConjsDistinct(last, |last.cons|);
      GoodOrigins(last, |last.cons|);
      var before, more := AllGoodConjs(docs, n - 1), GoodConjs(last, |last.cons|);
      var all: seq<Origin> := before + more;
      forall i, j | 0 <= i < j < |all|
        ensures all[i].doc != all[j].doc || all[i].idx != all[j].idx
      {
        if i < |before| <= j {
          assert FromDocs(before[i], docs, n - 1);
          assert all[j] == more[j - |before|];
        }
      }
    }
  }

  /** No conjunction that would be indexed panics. */
  ghost predicate Sane(doc: Document) {
    forall j :: 0 <= j < |doc.cons| && Tokenizable(doc.cons[j]) ==>
      EqOnly(doc.cons[j]) && Fits(doc.id, j, |IncludeFields(doc.cons[j])|)
  }

  lemma {:induction false} InGoodConjs(doc: Document, n: nat, j: nat)
    requires j < n <= |doc.cons| && Tokenizable(doc.cons[j])
    ensures Origin(doc.id, j, doc.cons[j]) in GoodConjs(doc, n)
  {
    if j < n - 1 {
      InGoodConjs(doc, n - 1, j);
    }
  }

  lemma {:induction false} InAllGoodConjs(docs: seq<Document>, n: nat, i: nat, j: nat)
    requires i < n <= |docs| && j < |docs[i].cons| && Tokenizable(docs[i].cons[j])
    ensures Origin(docs[i].id, j, docs[i].cons[j]) in AllGoodConjs(docs, n)
  {
    if i < n - 1 {
      InAllGoodConjs(docs, n - 1, i, j);
    } else {
      InGoodConjs(docs[i], |docs[i].cons|, j);
    }
  }

  /** Documents that were added whole do not panic. */
  lemma AddedAreSane(cds: seq<ConjIndexingData>, docs: seq<Document>, n: nat, fields: Fields, compact: bool)
    requires n <= |docs| && Represents(cds, AllGoodConjs(docs, n), fields, compact)
    ensures forall i :: 0 <= i < n ==> Sane(docs[i])
  {
    var origins := AllGoodConjs(docs, n);
    forall i, j | 0 <= i < n && 0 <= j < |docs[i].cons| && Tokenizable(docs[i].cons[j])
      ensures EqOnly(docs[i].cons[j]) && Fits(docs[i].id, j, |IncludeFields(docs[i].cons[j])|)
    {
      InAllGoodConjs(docs, n, i, j);
      var p :| 0 <= p < |origins| && origins[p] == Origin(docs[i].id, j, docs[i].cons[j]);
      assert CompiledFrom(cds[p], origins[p], fields, compact);
    }
  }

  /** The documents added: all that come before `n` are ones the policy lets in, and the one at `n`, if there is one,
      is not, unless it panics. */
  ghost predicate StopsAt(docs: seq<Document>, n: nat, behavior: BadConjBehavior) {
    && n <= |docs| && AdmitsTo(docs, n, behavior) && (forall i :: 0 <= i < n ==> Sane(docs[i]))
    && (n < |docs| ==> !(NoPanic(docs[n]) && Admits(docs[n], behavior)))
  }

  /** Where adding stops is settled by the documents and the policy, as long as nothing panics. */
  lemma StopsOnce(docs: seq<Document>, n: nat, n': nat, behavior: BadConjBehavior)
    requires StopsAt(docs, n, behavior) && StopsAt(docs, n', behavior)
    requires forall i :: 0 <= i < |docs| ==> NoPanic(docs[i])
    ensures n == n'
  {
  }

  /** Adds documents to a builder that has none, up to the first that is refused. */
  method AddAll(builder: IndexerBuilder, docs: seq<Document>) returns (n: nat, ghost hits: seq<bool>)
    requires builder.Valid() && builder.indexer.committed == []
    requires builder.Cacheable(docs, builder.docLevelCache.Some?)
    modifies builder`fieldsData, builder`names, builder`schemaHash, builder`docLevelCache
    modifies builder.indexer`containers, builder.indexer`wildcardEntries, builder.indexer`committed
    ensures builder.Valid() && builder.docLevelCache.Some? == old(builder.docLevelCache.Some?)
    ensures HitsTo(docs, n, hits, old(builder.State()), builder.State())
    ensures StopsAt(docs, n, builder.badConjBehavior)
    ensures Represents(builder.indexer.committed, AllGoodConjs(docs, n), builder.fieldsData, builder.compact)
  {
    var outcome;
    ghost var added;
    outcome, n, added, hits := builder.AddDocument(docs);
    assert [] + added == added;
    AddedAreSane(added, docs, n, builder.fieldsData, builder.compact);
  }

  /** Starts over and builds an index of the documents, up to the first that is refused; with a cache, documents it
      knows are replayed. */
  method Build(builder: IndexerBuilder, docs: seq<Document>) returns (n: nat, index: BEIndex, ghost hits: seq<bool>)
    requires builder.Valid() && DistinctIds(docs) && builder.Cacheable(docs, builder.docLevelCache.Some?)
    modifies builder
    ensures builder.Valid() && builder.docLevelCache.Some? == old(builder.docLevelCache.Some?)
    ensures HitsTo(docs, n, hits, old(builder.State()), builder.State()) && index.fieldsData == builder.fieldsData
    ensures StopsAt(docs, n, builder.badConjBehavior)
    ensures fresh(index) && index.compact == builder.compact && Ready(index, AllGoodConjs(docs, n))
  {
    builder.Reset();
    n, hits := AddAll(builder, docs);
    GoodDistinct(docs, n);
    index := builder.BuildIndex();
  }

  /** Asks an index of either kind. */
  method Ask(index: BEIndex, q: Assignments, ghost origins: seq<Origin>) returns (ok: bool, result: set<DocID>)
    requires Ready(index, origins)
    ensures ok <==> !BadQuery(index.fieldsData, q) || (!index.compact && |index.containers| == 0)
    ensures result == if ok then Matched(origins, q) else {}
  {
    var collector := new DocIDCollector();
    ghost var mine;
    if index.compact {
      ok, mine := RetrieveCompacted(index, q, collector, origins);
    } else {
      ok, mine := RetrieveKGroups(index, q, collector, origins);
    }
    result := if ok then collector.docBits else {};
  }

  /** Either kind of index, under any policy, with or without a cache, answers with exactly the documents that have
      a satisfied conjunction among those the policy let in. */
  method Answer(builder: IndexerBuilder, docs: seq<Document>, q: Assignments)
    returns (n: nat, ok: bool, result: set<DocID>)
    requires builder.Valid() && DistinctIds(docs) && builder.Cacheable(docs, builder.docLevelCache.Some?)
    modifies builder
    ensures builder.Valid() && StopsAt(docs, n, builder.badConjBehavior)
    ensures Known(AllGoodConjs(docs, n), builder.fieldsData)
    ensures !BadQuery(builder.fieldsData, q) ==> ok
    ensures BadQuery(builder.fieldsData, q) && (builder.compact || AllGoodConjs(docs, n) != []) ==> !ok
    ensures result == if ok then Matched(AllGoodConjs(docs, n), q) else {}
  {
    var index;
    ghost var hits;
    n, index, hits := Build(builder, docs);
    ghost var origins := AllGoodConjs(docs, n);
    ReadyKnown(index, origins);
    ok, result := Ask(index, q, origins);
  }

  /** The fields of what an index holds are known to it, and if it holds anything it has a container. */
  lemma ReadyKnown(index: BEIndex, origins: seq<Origin>)
    requires Ready(index, origins)
    ensures Known(origins, index.fieldsData) && (origins != [] ==> |index.containers| > 0)
  {
    forall i | 0 <= i < |origins|
      ensures KnownConj(origins[i].conj, index.fieldsData) && EqOnly(origins[i].conj) && |index.containers| > 0
    {
      assert CompiledFrom(index.committed[i], origins[i], index.fieldsData, index.compact);
      assert index.committed[i] in index.committed;
    }
  }

  // ----- building again

  lemma LeastComesFirst(a: Entries, b: Entries)
    requires Ascending(a) && Ascending(b) && multiset(a) == multiset(b) && a != [] && b != []
    ensures a[0] <= b[0]
  {
    assert b[0] in multiset(b);
    assert b[0] in a;
  }

  lemma RestOf(a: Entries)
    requires a != []
    ensures multiset(a[1..]) == multiset(a) - multiset{a[0]}
  {
    assert a == [a[0]] + a[1..];
  }

  lemma SameSize(a: Entries, b: Entries)
    requires multiset(a) == multiset(b)
    ensures |a| == |b|
  {
    assert |multiset(a)| == |a| && |multiset(b)| == |b|;
  }

  lemma {:induction false} SortedUnique(a: Entries, b: Entries)
    requires Ascending(a) && Ascending(b) && multiset(a) == multiset(b)
    ensures a == b
    decreases |a|
  {
    SameSize(a, b);
    if a != [] {
      LeastComesFirst(a, b);
      LeastComesFirst(b, a);
      RestOf(a);
      RestOf(b);
      SortedUnique(a[1..], b[1..]);
      assert a == [a[0]] + a[1..] && b == [b[0]] + b[1..];
    }
  }

  /** The two indexes hold the same lists. */
  ghost predicate SameLists(a: BEIndex, b: BEIndex)
    reads a, b
  {
    a.wildcardEntries == b.wildcardEntries && forall k: nat, term :: a.ListAt(k, term) == b.ListAt(k, term)
  }

  lemma RepresentsSame(a: BEIndex, b: BEIndex, origins: seq<Origin>)
    requires Ready(a, origins) && Ready(b, origins) && a.compact == b.compact && Extends(b.fieldsData, a.fieldsData)
    ensures SameLists(a, b)
  {
    RepresentsLater(a.committed, origins, a.fieldsData, b.fieldsData, b.compact);
    forall k: nat, term
      ensures a.ListAt(k, term) == b.ListAt(k, term)
      ensures a.wildcardEntries == b.wildcardEntries
    {
      SamePostings(a.committed, b.committed, origins, b.fieldsData, b.compact, k, term);
      SortedUnique(a.ListAt(k, term), b.ListAt(k, term));
      SortedUnique(a.wildcardEntries, b.wildcardEntries);
    }
    assert a.ListAt(0, Term(0, Token([]))) == b.ListAt(0, Term(0, Token([])));
  }

  /** What the first build has cached, the second one replays, as long as all fields are known from the start. */
  lemma HitsTwice(docs: seq<Document>, n: nat, once: seq<bool>, n': nat, hits: seq<bool>, start: Schema, mid: Schema,
                  end: Schema)
    requires HitsTo(docs, n, once, start, mid) && HitsTo(docs, n', hits, mid, end)
    requires start.cache.Some? && forall i :: 0 <= i < |docs| ==> KnownDoc(docs[i], start.fields)
    ensures forall i :: 0 <= i < n && i < n' && Cachable(docs[i]) ==> hits[i]
  {
    assert mid.fields == start.fields;
    assert forall i :: 0 <= i < |docs| ==> KnownDoc(docs[i], mid.fields);
  }

  method BuildTwice(builder: IndexerBuilder, docs: seq<Document>)
    returns (n: nat, first: BEIndex, n': nat, second: BEIndex, ghost once: seq<bool>, ghost hits: seq<bool>,
             ghost mid: Schema)
    requires builder.Valid() && DistinctIds(docs) && builder.Cacheable(docs, builder.docLevelCache.Some?)
    modifies builder
    ensures builder.Valid()
    ensures StopsAt(docs, n, builder.badConjBehavior) && StopsAt(docs, n', builder.badConjBehavior)
    ensures HitsTo(docs, n, once, old(builder.State()), mid) && HitsTo(docs, n', hits, mid, builder.State())
    ensures first.compact == second.compact == builder.compact
    ensures Ready(first, AllGoodConjs(docs, n)) && Ready(second, AllGoodConjs(docs, n'))
    ensures Extends(second.fieldsData, first.fieldsData)
  {
    n, first, once := Build(builder, docs);
    mid := builder.State();
    n', second, hits := Build(builder, docs);
  }

  /** Building the same documents again, now through what the first build left in the cache, gives the same index,
      list by list. */
  method Rebuild(builder: IndexerBuilder, docs: seq<Document>)
    returns (n: nat, first: BEIndex, n': nat, second: BEIndex, ghost hits: seq<bool>)
    requires builder.Valid() && DistinctIds(docs) && builder.Cacheable(docs, builder.docLevelCache.Some?)
    modifies builder
    ensures builder.Valid()
    ensures StopsAt(docs, n, builder.badConjBehavior) && StopsAt(docs, n', builder.badConjBehavior)
    ensures (forall i :: 0 <= i < |docs| ==> NoPanic(docs[i])) ==> n == n'
    ensures n == n' ==> SameLists(first, second)
    ensures |hits| == n'
    ensures old(builder.docLevelCache.Some?)
            && (forall i :: 0 <= i < |docs| ==> KnownDoc(docs[i], old(builder.fieldsData))) ==>
              forall i :: 0 <= i < n && i < n' && Cachable(docs[i]) ==> hits[i]
  {
    ghost var once, mid;
    ghost var start := builder.State();
    n, first, n', second, once, hits, mid := BuildTwice(builder, docs);
    if start.cache.Some? && forall i :: 0 <= i < |docs| ==> KnownDoc(docs[i], start.fields) {
      HitsTwice(docs, n, once, n', hits, start, mid, builder.State());
    }
    if forall i :: 0 <= i < |docs| ==> NoPanic(docs[i]) {
      StopsOnce(docs, n, n', builder.badConjBehavior);
    }
    if n == n' {
      RepresentsSame(first, second, AllGoodConjs(docs, n));
    }
  }

  // ----- the three engines on documents that can be compiled whole

  /** A new builder of either kind answers with exactly the matching documents. */
  method AnswerWith(compact: bool, docs: seq<Document>, q: Assignments) returns (ok: bool, result: set<DocID>)
    requires DistinctIds(docs) && forall i :: 0 <= i < |docs| ==> Compilable(docs[i])
    ensures (forall f :: f in q ==> !q[f].Unsupported?) ==> ok
    ensures (exists f :: f in q && q[f].Unsupported? && Mentioned(docs, f)) ==> !ok
    ensures result == if ok then MatchingDocs(docs, q) else {}
  {
    ghost var nothing := Document(0, 0, []);
    var builder := new IndexerBuilder(compact, ErrorBadConj, false, _ => nothing);
    var n;
    n, ok, result := Answer(builder, docs, q);
    if n < |docs| {
      CompilableIsAdmitted(docs[n]);
      assert false;
    }
    AllGoodConjsIsAll(docs, |docs|);
    MatchedIsMatching(docs, q);
    if f :| f in q && q[f].Unsupported? && Mentioned(docs, f) {
      MentionedIsKnown(docs, f, builder.fieldsData);
    }
  }

  lemma MentionedIsKnown(docs: seq<Document>, f: BEField, fields: Fields)
    requires Mentioned(docs, f) && Known(OriginsTo(docs, |docs|), fields)
    ensures f in fields && OriginsTo(docs, |docs|) != []
  {
    var origins := OriginsTo(docs, |docs|);
    var i, j :| 0 <= i < |docs| && 0 <= j < |docs[i].cons|
                && f in docs[i].cons[j].expressions && docs[i].cons[j].expressions[f] != [];
    InOrigins(docs, |docs|, i, j);
    var p :| 0 <= p < |origins| && origins[p] == Origin(docs[i].id, j, docs[i].cons[j]);
    assert KnownConj(origins[p].conj, fields);
  }

  /** K-groups answers with exactly the matching documents. */
  method AnswerKGroups(docs: seq<Document>, q: Assignments) returns (ok: bool, result: set<DocID>)
    requires DistinctIds(docs) && forall i :: 0 <= i < |docs| ==> Compilable(docs[i])
    ensures (forall f :: f in q ==> !q[f].Unsupported?) ==> ok
    ensures (exists f :: f in q && q[f].Unsupported? && Mentioned(docs, f)) ==> !ok
    ensures result == if ok then MatchingDocs(docs, q) else {}
  {
    ok, result := AnswerWith(false, docs, q);
  }

  /** So does compact. */
  method AnswerCompact(docs: seq<Document>, q: Assignments) returns (ok: bool, result: set<DocID>)
    requires DistinctIds(docs) && forall i :: 0 <= i < |docs| ==> Compilable(docs[i])
    ensures (forall f :: f in q ==> !q[f].Unsupported?) ==> ok
    ensures (exists f :: f in q && q[f].Unsupported? && Mentioned(docs, f)) ==> !ok
    ensures result == if ok then MatchingDocs(docs, q) else {}
  {
    ok, result := AnswerWith(true, docs, q);
  }

  // ----- the bitmap engine

  /** Configures fields, visiting them in any order. */
  method ConfigureFields(builder: Roaring.IvtBEIndexerBuilder, fields: set<BEField>)
    requires builder.Valid(map[], {}) && builder.containers == map[]
    modifies builder`containers
    ensures builder.Valid(Roaring.Told(fields, []), {}) && builder.containers.Keys == fields
    ensures forall f :: f in fields ==> fresh(builder.containers[f])
  {
    var todo := fields;
    assert Roaring.Told(fields - todo, []) == map[];
    while todo != {}
      invariant todo <= fields && builder.Valid(Roaring.Told(fields - todo, []), {})
      invariant builder.containers.Keys == fields - todo
      invariant forall f :: f in builder.containers ==> fresh(builder.containers[f])
      decreases todo
    {
      var field :| field in todo;
      assert Roaring.Told(fields - (todo - {field}), []) == Roaring.Told(fields - todo, [])[field := []];
      builder.ConfigureField(field, Roaring.Told(fields - todo, []), {});
      todo := todo - {field};
    }
    assert fields - todo == fields;
  }

  /** Adds a document that is accepted to what every field has been told of. */
  method AddAccepted(builder: Roaring.IvtBEIndexerBuilder, doc: Document, ghost fields: set<BEField>,
                     ghost origins: seq<Origin>)
    requires builder.Valid(Roaring.Told(fields, origins), {}) && builder.containers.Keys == fields
    requires Roaring.Accepts(doc, fields)
    modifies builder`docMaxConjSize, builder.containers.Values
    ensures builder.Valid(Roaring.Told(fields, origins + Roaring.OriginsOf(doc, |doc.cons|)), {})
    ensures builder.docMaxConjSize >= |doc.cons| && builder.docMaxConjSize >= old(builder.docMaxConjSize)
  {
    var outcome;
    ghost var n;
    outcome, n := builder.AddDocument(doc, Roaring.Told(fields, origins), {});
    Roaring.AcceptedStops(doc, n, fields);
    Roaring.ToldAfter(fields, origins, doc, n);
  }

  /** Every field has been told of `origins`. */
  ghost predicate Loaded(builder: Roaring.IvtBEIndexerBuilder, fields: set<BEField>, origins: seq<Origin>)
    reads builder, builder.containers.Values
  {
    builder.Valid(Roaring.Told(fields, origins), {}) && builder.containers.Keys == fields
  }

  /** Hints reach every conjunction of the documents. */
  ghost predicate Reaches(size: nat, docs: seq<Document>, n: nat)
    requires n <= |docs|
  {
    forall i :: 0 <= i < n ==> |docs[i].cons| <= size
  }

  method AddAt(builder: Roaring.IvtBEIndexerBuilder, docs: seq<Document>, i: nat, ghost fields: set<BEField>,
               ghost told: seq<Origin>)
    returns (ghost told': seq<Origin>)
    requires i < |docs| && told == OriginsTo(docs, i) && Loaded(builder, fields, told)
    requires Roaring.Accepts(docs[i], fields) && Reaches(builder.docMaxConjSize, docs, i)
    modifies builder`docMaxConjSize, builder.containers.Values
    ensures told' == OriginsTo(docs, i + 1) && Loaded(builder, fields, told')
    ensures Reaches(builder.docMaxConjSize, docs, i + 1)
  {
    AddAccepted(builder, docs[i], fields, told);
    told' := OriginsTo(docs, i + 1);
  }

  /** Adds documents that are all accepted. */
  method AddAllRoaring(builder: Roaring.IvtBEIndexerBuilder, docs: seq<Document>, ghost fields: set<BEField>)
    returns (ghost told: seq<Origin>)
    requires Loaded(builder, fields, [])
    requires forall i :: 0 <= i < |docs| ==> Roaring.Accepts(docs[i], fields)
    modifies builder`docMaxConjSize, builder.containers.Values
    ensures told == OriginsTo(docs, |docs|) && Loaded(builder, fields, told)
    ensures Reaches(builder.docMaxConjSize, docs, |docs|)
  {
    var i := 0;
    told := [];
    while i < |docs|
      invariant 0 <= i <= |docs| && told == OriginsTo(docs, i) && Loaded(builder, fields, told)
      invariant Reaches(builder.docMaxConjSize, docs, i)
    {
      told := AddAt(builder, docs, i, fields, told);
      i := i + 1;
    }
  }

  method BuildRoaring(fields: set<BEField>, docs: seq<Document>) returns (builder: Roaring.IvtBEIndexerBuilder)
    requires forall i :: 0 <= i < |docs| ==> Roaring.Accepts(docs[i], fields)
    ensures fresh(builder) && forall f :: f in builder.containers ==> fresh(builder.containers[f])
    ensures Loaded(builder, fields, OriginsTo(docs, |docs|)) && Reaches(builder.docMaxConjSize, docs, |docs|)
  {
    builder := new Roaring.IvtBEIndexerBuilder();
    ConfigureFields(builder, fields);
    ghost var told := AddAllRoaring(builder, docs, fields);
  }

  lemma ReachedIndexes(docs: seq<Document>, size: nat)
    requires Reaches(size, docs, |docs|)
    ensures forall p :: 0 <= p < |OriginsTo(docs, |docs|)| ==> OriginsTo(docs, |docs|)[p].idx < size
  {
    var origins := OriginsTo(docs, |docs|);
    OriginsFrom(docs, |docs|);
    forall p | 0 <= p < |origins|
      ensures origins[p].idx < size
    {
      assert FromDocs(origins[p], docs, |docs|);
    }
  }

  /** What the bitmap engine answers about documents that were all accepted, as raw ids. */
  lemma AcceptedFacts(fields: set<BEField>, docs: seq<Document>)
    requires DistinctIds(docs) && forall i :: 0 <= i < |docs| ==> Roaring.Accepts(docs[i], fields)
    ensures var origins := OriginsTo(docs, |docs|);
            && DistinctOrigins(origins) && Roaring.AllDistinct(Roaring.Told(fields, origins))
            && Roaring.AllHaveIds(origins) && Roaring.AllConfigured(origins, fields)
  {
    var origins := OriginsTo(docs, |docs|);
    OriginsDistinct(docs, |docs|);
    OriginsFrom(docs, |docs|);
    forall p | 0 <= p < |origins|
      ensures Roaring.HasId(origins[p]) && Roaring.Configured(origins[p].conj, fields)
    {
      assert FromDocs(origins[p], docs, |docs|);
      var i :| 0 <= i < |docs| && origins[p].doc == docs[i].id && origins[p].idx < |docs[i].cons|
               && origins[p].conj == docs[i].cons[origins[p].idx];
      assert Roaring.Accepts(docs[i], fields);
      assert Roaring.AcceptsConj(docs[i], origins[p].idx, fields);
    }
  }

  /** The bitmap engine too answers with exactly the matching documents, once their fields are configured; with no
      field at all it has nothing to scan and finds nothing. */
  method AnswerRoaring(fields: set<BEField>, docs: seq<Document>, q: Assignments) returns (ok: bool, result: set<DocID>)
    requires DistinctIds(docs)
    requires forall i :: 0 <= i < |docs| ==> Roaring.Accepts(docs[i], fields)
    ensures !Roaring.Unreadable(fields, q) ==> ok
    ensures !ok || Roaring.Unreadable(fields, q) ==> result == {}
    ensures ok ==> result == if fields == {} then {} else MatchingDocs(docs, q)
  {
    var builder := BuildRoaring(fields, docs);
    ghost var origins := OriginsTo(docs, |docs|);
    AcceptedFacts(fields, docs);
    var scanner := new Roaring.IvtScanner(builder);
    if fields == {} {
      assert scanner.containers == map[];
      ok, result := scanner.Retrieve(q);
    } else {
      assert Roaring.Told(fields, origins).Keys == fields;
      ok, result := Roaring.RetrieveAfresh(scanner, q, Roaring.Told(fields, origins), {});
      if ok {
        RawIsMatching(fields, docs, q, scanner.conjIDResults);
      }
    }
  }

  lemma RawIsMatching(fields: set<BEField>, docs: seq<Document>, q: Assignments, ids: set<Roaring.ConjunctionID>)
    requires DistinctIds(docs) && fields != {}
    requires forall i :: 0 <= i < |docs| ==> Roaring.Accepts(docs[i], fields)
    requires forall id :: id in ids <==> Roaring.Answers(Roaring.Told(fields, OriginsTo(docs, |docs|)), q, id)
    ensures Roaring.DocsOf(ids) == MatchingDocs(docs, q)
  {
    var origins := OriginsTo(docs, |docs|);
    AcceptedFacts(fields, docs);
    forall id
      ensures id in ids <==> id in Roaring.SatisfiedIds(origins, q)
    {
      Roaring.ToldAnswers(fields, origins, q, id);
    }
    assert ids == Roaring.SatisfiedIds(origins, q);
    Roaring.SatisfiedDocs(origins, q);
    MatchedIsMatching(docs, q);
  }

  /** With hints it answers with the matching documents among the hinted ones. */
  method AnswerHinted(fields: set<BEField>, docs: seq<Document>, hints: seq<int>, q: Assignments)
    returns (ok: bool, result: set<DocID>)
    requires DistinctIds(docs) && fields != {}
    requires forall i :: 0 <= i < |docs| ==> Roaring.Accepts(docs[i], fields)
    ensures !Roaring.Unreadable(fields, q) ==> ok
    ensures !ok || Roaring.Unreadable(fields, q) ==> result == {}
    ensures ok ==> result == set d | d in MatchingDocs(docs, q) && d in hints
  {
    var builder := BuildRoaring(fields, docs);
    ghost var origins := OriginsTo(docs, |docs|);
    AcceptedFacts(fields, docs);
    var scanner := new Roaring.IvtScanner(builder);
    assert Roaring.Told(fields, origins).Keys == fields;
    ok, result := Roaring.RetrieveHinted(scanner, hints, q, Roaring.Told(fields, origins), {});
    if ok {
      ReachedIndexes(docs, scanner.docMaxConjSize);
      Roaring.HintedIsFiltered(fields, origins, q, hints, scanner.docMaxConjSize, scanner.conjIDResults);
      Roaring.SatisfiedDocs(origins, q);
      MatchedIsMatching(docs, q);
    }
  }

  /** The three engines give the same answer to every query on the same documents. */
  method EnginesAgree(fields: set<BEField>, docs: seq<Document>, q: Assignments)
    returns (kGroups: set<DocID>, compact: set<DocID>, roaring: set<DocID>)
    requires DistinctIds(docs) && fields != {} && forall f :: f in q ==> !q[f].Unsupported?
    requires forall i :: 0 <= i < |docs| ==> Compilable(docs[i]) && Roaring.Accepts(docs[i], fields)
    ensures kGroups == compact == roaring == MatchingDocs(docs, q)
  {
    var _, a := AnswerKGroups(docs, q);
    var _, b := AnswerCompact(docs, q);
    var _, c := AnswerRoaring(fields, docs, q);
    kGroups, compact, roaring := a, b, c;
  }

  // ----- after a refusal

  ghost predicate OneHolds(doc: Document, n: nat, q: Assignments)
    requires n <= |doc.cons|
  {
    exists i :: 0 <= i < n && ConjHolds(doc.cons[i], q)
  }

  /** The conjunctions of accepted documents, then those of a new document up to where it was refused. */
  lemma RefusedFacts(fields: set<BEField>, docs: seq<Document>, doc: Document, n: nat)
    requires DistinctIds(docs) && forall i :: 0 <= i < |docs| ==> Roaring.Accepts(docs[i], fields)
    requires (forall i :: 0 <= i < |docs| ==> docs[i].id != doc.id) && Roaring.StopsAt(doc, n, fields)
    ensures var all := OriginsTo(docs, |docs|) + Roaring.OriginsOf(doc, n);
            && DistinctOrigins(all) && Roaring.AllHaveIds(all) && Roaring.AllConfigured(all, fields)
            && Roaring.AllDistinct(Roaring.Told(fields, all))
  {
    var origins, more := OriginsTo(docs, |docs|), Roaring.OriginsOf(doc, n);
    AcceptedFacts(fields, docs);
    OriginsFrom(docs, |docs|);
    forall i | 0 <= i < |origins|
      ensures origins[i].doc != doc.id
    {
      assert FromDocs(origins[i], docs, |docs|);
    }
    forall i | 0 <= i < n
      ensures Roaring.HasId(more[i]) && Roaring.Configured(more[i].conj, fields)
    {
      assert Roaring.AcceptsConj(doc, i, fields);
    }
  }

  /** An answered id belongs to a satisfied conjunction, old or new. */
  lemma SatisfiedAmong(origins: seq<Origin>, doc: Document, n: nat, q: Assignments, id: Roaring.ConjunctionID)
    requires n <= |doc.cons| && Roaring.AllHaveIds(origins + Roaring.OriginsOf(doc, n))
    requires id in Roaring.SatisfiedIds(origins + Roaring.OriginsOf(doc, n), q)
    ensures Roaring.DocOf(id) in Matched(origins, q) || (Roaring.DocOf(id) == doc.id && OneHolds(doc, n, q))
  {
    var all := origins + Roaring.OriginsOf(doc, n);
    var i :| 0 <= i < |all| && ConjHolds(all[i].conj, q) && Roaring.IdOf(all[i]) == id;
    Roaring.ConjunctionIDRoundTrip(all[i].idx, all[i].doc);
    if i < |origins| {
      assert origins[i] == all[i];
    } else {
      assert all[i] == Origin(doc.id, i - |origins|, doc.cons[i - |origins|]);
    }
  }

  lemma AmongSatisfied(origins: seq<Origin>, doc: Document, n: nat, q: Assignments, d: DocID)
    returns (id: Roaring.ConjunctionID)
    requires n <= |doc.cons| && Roaring.AllHaveIds(origins + Roaring.OriginsOf(doc, n))
    requires d in Matched(origins, q) || (d == doc.id && OneHolds(doc, n, q))
    ensures id in Roaring.SatisfiedIds(origins + Roaring.OriginsOf(doc, n), q) && Roaring.DocOf(id) == d
    ensures d !in Matched(origins, q) ==> Roaring.IdxOf(id) < n
  {
    var all := origins + Roaring.OriginsOf(doc, n);
    var k: nat;
    if d in Matched(origins, q) {
      var i :| 0 <= i < |origins| && ConjHolds(origins[i].conj, q) && origins[i].doc == d;
      assert all[i] == origins[i];
      k := i;
    } else {
      var i :| 0 <= i < n && ConjHolds(doc.cons[i], q);
      assert all[|origins| + i] == Origin(doc.id, i, doc.cons[i]);
      k := |origins| + i;
    }
    id := Roaring.IdOf(all[k]);
    Roaring.ConjunctionIDRoundTrip(all[k].idx, all[k].doc);
  }

  /** What is found after a document was refused at its `n`th conjunction. */
  lemma RefusedAnswers(fields: set<BEField>, docs: seq<Document>, doc: Document, n: nat, q: Assignments,
                       ids: set<Roaring.ConjunctionID>, d: DocID)
    requires DistinctIds(docs) && fields != {} && forall i :: 0 <= i < |docs| ==> Roaring.Accepts(docs[i], fields)
    requires (forall i :: 0 <= i < |docs| ==> docs[i].id != doc.id) && Roaring.StopsAt(doc, n, fields)
    requires var all := OriginsTo(docs, |docs|) + Roaring.OriginsOf(doc, n);
             forall id :: id !in Roaring.Blurred({}, doc, n, fields) ==>
               (id in ids <==> Roaring.Answers(Roaring.Told(fields, all), q, id))
    ensures d != doc.id ==> (d in Roaring.DocsOf(ids) <==> d in MatchingDocs(docs, q))
    ensures OneHolds(doc, n, q) ==> doc.id in Roaring.DocsOf(ids)
    ensures Roaring.Whole(doc, n, fields) ==> (doc.id in Roaring.DocsOf(ids) <==> OneHolds(doc, n, q))
  {
    var origins := OriginsTo(docs, |docs|);
    var but := Roaring.Blurred({}, doc, n, fields);
    RefusedFacts(fields, docs, doc, n);
    RefusedRaw(fields, origins, doc, n, q, ids, but);
    BlurredIs(doc, n, fields);
    MatchedIsMatching(docs, q);
    FoundMeans(origins, doc, n, q, ids, but, d);
    FoundMeans(origins, doc, n, q, ids, but, doc.id);
  }

  lemma RefusedRaw(fields: set<BEField>, origins: seq<Origin>, doc: Document, n: nat, q: Assignments,
                   ids: set<Roaring.ConjunctionID>, but: set<Roaring.ConjunctionID>)
    requires fields != {} && n <= |doc.cons|
    requires var all := origins + Roaring.OriginsOf(doc, n);
             && DistinctOrigins(all) && Roaring.AllHaveIds(all) && Roaring.AllConfigured(all, fields)
             && forall id :: id !in but ==> (id in ids <==> Roaring.Answers(Roaring.Told(fields, all), q, id))
    ensures forall id :: id !in but ==>
              (id in ids <==> id in Roaring.SatisfiedIds(origins + Roaring.OriginsOf(doc, n), q))
  {
    var all := origins + Roaring.OriginsOf(doc, n);
    forall id | id !in but
      ensures id in ids <==> id in Roaring.SatisfiedIds(all, q)
    {
      Roaring.ToldAnswers(fields, all, q, id);
    }
  }

  lemma BlurredIs(doc: Document, n: nat, fields: set<BEField>)
    requires n <= |doc.cons|
    ensures forall id :: id in Roaring.Blurred({}, doc, n, fields) ==>
              Roaring.DocOf(id) == doc.id && Roaring.IdxOf(id) == n
    ensures Roaring.Whole(doc, n, fields) ==> Roaring.Blurred({}, doc, n, fields) == {}
  {
    Roaring.ConjunctionIDRoundTrip(n, doc.id);
  }

  lemma FoundMeans(origins: seq<Origin>, doc: Document, n: nat, q: Assignments, ids: set<Roaring.ConjunctionID>,
                   but: set<Roaring.ConjunctionID>, d: DocID)
    requires n <= |doc.cons| && Roaring.AllHaveIds(origins + Roaring.OriginsOf(doc, n))
    requires forall id :: id !in but ==>
               (id in ids <==> id in Roaring.SatisfiedIds(origins + Roaring.OriginsOf(doc, n), q))
    requires forall id :: id in but ==> Roaring.DocOf(id) == doc.id && Roaring.IdxOf(id) == n
    requires doc.id !in Matched(origins, q)
    ensures d in Matched(origins, q) || (d == doc.id && OneHolds(doc, n, q)) ==> d in Roaring.DocsOf(ids)
    ensures d in Roaring.DocsOf(ids) && (d != doc.id || but == {}) ==>
              d in Matched(origins, q) || (d == doc.id && OneHolds(doc, n, q))
  {
    if d in Matched(origins, q) || (d == doc.id && OneHolds(doc, n, q)) {
      var id := AmongSatisfied(origins, doc, n, q, d);
      assert id in ids;
    }
    if d in Roaring.DocsOf(ids) && (d != doc.id || but == {}) {
      var id :| id in ids && Roaring.DocOf(id) == d;
      assert id !in but;
      SatisfiedAmong(origins, doc, n, q, id);
    }
  }

  /** Accepted documents and one that is refused: the others are still answered exactly, the refused one is found by
      any of the conjunctions before the refused one, and by nothing else if it was refused for an id or a field. */
  method AnswerAfterRefusal(fields: set<BEField>, docs: seq<Document>, doc: Document, q: Assignments)
    returns (refused: bool, ghost n: nat, ok: bool, result: set<DocID>)
    requires DistinctIds(docs) && fields != {} && forall i :: 0 <= i < |docs| ==> Roaring.Accepts(docs[i], fields)
    requires (forall i :: 0 <= i < |docs| ==> docs[i].id != doc.id) && !Roaring.Accepts(doc, fields)
    ensures refused && Roaring.StopsAt(doc, n, fields)
    ensures !Roaring.Unreadable(fields, q) ==> ok
    ensures !ok || Roaring.Unreadable(fields, q) ==> result == {}
    ensures ok ==> forall d :: d != doc.id ==> (d in result <==> d in MatchingDocs(docs, q))
    ensures ok && OneHolds(doc, n, q) ==> doc.id in result
    ensures ok && Roaring.Whole(doc, n, fields) ==> (doc.id in result <==> OneHolds(doc, n, q))
  {
    var builder := BuildRoaring(fields, docs);
    ghost var origins := OriginsTo(docs, |docs|);
    var outcome;
    outcome, n := builder.AddDocument(doc, Roaring.Told(fields, origins), {});
    refused := !outcome.Ok?;
    Roaring.ToldAfter(fields, origins, doc, n);
    RefusedFacts(fields, docs, doc, n);
    ghost var all := origins + Roaring.OriginsOf(doc, n);
    var scanner := new Roaring.IvtScanner(builder);
    assert Roaring.Told(fields, all).Keys == fields;
    ok, result := Roaring.RetrieveAfresh(scanner, q, Roaring.Told(fields, all), Roaring.Blurred({}, doc, n, fields));
    if ok {
      forall d {
        RefusedAnswers(fields, docs, doc, n, q, scanner.conjIDResults, d);
      }
    }
  }

  /** A document whose second conjunction is on a field other than the configured one. */
  function HalfKnown(unknown: BEField): Document {
    Document(1, 0, [Conjunction(map[]), Conjunction(map[unknown := [BoolValues(true, Parsed([Token([97])]), EQ)]])])
  }

  lemma HalfAccepted(known: BEField, unknown: BEField)
    requires known != unknown
    ensures Roaring.AcceptsConj(HalfKnown(unknown), 0, {known})
    ensures !Roaring.AcceptsConj(HalfKnown(unknown), 1, {known}) && !Roaring.Addressed(HalfKnown(unknown), 1, {known})
    ensures ConjHolds(HalfKnown(unknown).cons[0], map[])
  {
    assert unknown in HalfKnown(unknown).cons[1].expressions.Keys && unknown !in {known};
  }

  /** A refused document can be found: its first conjunction is in the bitmaps when the second is refused for a
      field that is not configured. */
  method RefusedIsFound(known: BEField, unknown: BEField) returns (refused: bool, ok: bool, found: set<DocID>)
    requires known != unknown
    ensures refused && ok && found == {HalfKnown(unknown).id}
  {
    var doc := HalfKnown(unknown);
    HalfAccepted(known, unknown);
    ghost var n;
    refused, n, ok, found := AnswerAfterRefusal({known}, [], doc, map[]);
    assert n == 1;
    assert OneHolds(doc, n, map[]) by {
      assert ConjHolds(doc.cons[0], map[]);
    }
    assert MatchingDocs([], map[]) == {};
    assert forall d :: d in found <==> d == doc.id;
  }
}
