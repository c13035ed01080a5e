/**
 From posting lists to the meaning of a query: what the merge selects from a compiled
 container is what holds of the conjunctions committed to it.
 */
module Matching {
  import opened IdTypes
  import opened Documents
  import opened IndexScanner
  import opened Merge
  import opened BEIndexes
  import opened DocCache
  import opened IndexBuilders

  ghost function IdOf(o: Origin): ConjID
    requires InRange(o.doc, o.idx, SizeFor(o))
  {
    NewConjID(o.doc, o.idx, SizeFor(o))
  }

  ghost function HolderOf(o: Origin, compact: bool): nat {
    if compact then 0 else SizeFor(o)
  }

  // ----- one posting list

  lemma {:induction false} InOnField(txs: seq<FieldIndexingData>, tx: FieldIndexingData, f: BEField)
    ensures tx in OnField(txs, f) <==> tx in txs && tx.desc.field == f
  {
    if txs != [] {
      InOnField(txs[..|txs| - 1], tx, f);
      assert txs == txs[..|txs| - 1] + [txs[|txs| - 1]];
    }
  }

  /** Some expression of the conjunction puts this entry on the list of this token. */
  ghost predicate PostedConj(conj: Conjunction, id: ConjID, f: BEField, t: Token, e: EntryID) {
    && f in conj.expressions
    && exists j :: 0 <= j < |conj.expressions[f]| && PostedByExpr(conj.expressions[f][j], id, t, e)
  }

  ghost predicate PostedBy(o: Origin, f: BEField, t: Token, e: EntryID)
    requires InRange(o.doc, o.idx, SizeFor(o))
  {
    PostedConj(o.conj, IdOf(o), f, t, e)
  }

  ghost predicate PostedByExpr(bv: BoolValues, id: ConjID, t: Token, e: EntryID) {
    t in TokensOf(bv.value) && e == NewEntryID(id, bv.incl)
  }

  lemma TxOfPrepared(txs: seq<FieldIndexingData>, conj: Conjunction, fields: Fields, holder: nat, id: ConjID,
                     tx: FieldIndexingData)
    requires Prepares(txs, conj, fields, holder, id) && tx in txs
    ensures tx.desc.field in fields && tx.desc == fields[tx.desc.field] && tx.desc.field in conj.expressions
    ensures tx in TxsFor(conj.expressions[tx.desc.field], tx.desc, holder, id)
  {
    var h := tx.desc.field;
    InOnField(txs, tx, h);
    assert OnField(txs, h) == FieldTxs(conj, h, fields, holder, id);
  }

  lemma TxOfConj(cd: ConjIndexingData, o: Origin, fields: Fields, compact: bool, tx: FieldIndexingData)
    requires CompiledFrom(cd, o, fields, compact)
    requires tx in cd.fieldData
    ensures tx.desc.field in fields && tx.desc == fields[tx.desc.field] && tx.desc.field in o.conj.expressions
    ensures tx in TxsFor(o.conj.expressions[tx.desc.field], tx.desc, HolderOf(o, compact), cd.conjID)
  {
    TxOfPrepared(cd.fieldData, o.conj, fields, HolderOf(o, compact), cd.conjID, tx);
  }

  lemma PreparedPostsOnly(txs: seq<FieldIndexingData>, conj: Conjunction, fields: Fields, holder: nat, id: ConjID,
                          k: nat, f: BEField, t: Token, e: EntryID)
    requires FieldsOK(fields) && Prepares(txs, conj, fields, holder, id) && f in fields
    requires e in TxEntries(txs, k, Term(fields[f].id, t))
    ensures holder == k && PostedConj(conj, id, f, t, e)
  {
    var term := Term(fields[f].id, t);
    InTxEntries(txs, k, term, e);
    var i :| 0 <= i < |txs| && Posts(txs[i], k, term) && txs[i].eid == e;
    var tx := txs[i];
    TxOfPrepared(txs, conj, fields, holder, id, tx);
    var exprs := conj.expressions[f];
    var j :| 0 <= j < |exprs| && TxsFor(exprs, tx.desc, holder, id)[j] == tx;
    assert PostedByExpr(exprs[j], id, t, e);
  }

  lemma PreparedPostsAll(txs: seq<FieldIndexingData>, conj: Conjunction, fields: Fields, holder: nat, id: ConjID,
                         f: BEField, t: Token, e: EntryID)
    requires Prepares(txs, conj, fields, holder, id) && f in fields && PostedConj(conj, id, f, t, e)
    ensures e in TxEntries(txs, holder, Term(fields[f].id, t))
  {
    var term := Term(fields[f].id, t);
    var exprs := conj.expressions[f];
    var j :| 0 <= j < |exprs| && PostedByExpr(exprs[j], id, t, e);
    var tx := TxsFor(exprs, fields[f], holder, id)[j];
    assert OnField(txs, f) == FieldTxs(conj, f, fields, holder, id);
    assert tx in OnField(txs, f);
    InOnField(txs, tx, f);
    var i :| 0 <= i < |txs| && txs[i] == tx;
    assert Posts(txs[i], holder, term);
    InTxEntries(txs, holder, term, e);
  }

  /** What the prepared data of a conjunction contributes to a posting list. */
  lemma PreparedPosts(txs: seq<FieldIndexingData>, conj: Conjunction, fields: Fields, holder: nat, id: ConjID,
                      k: nat, f: BEField, t: Token, e: EntryID)
    requires FieldsOK(fields) && Prepares(txs, conj, fields, holder, id) && f in fields
    ensures e in TxEntries(txs, k, Term(fields[f].id, t)) <==> holder == k && PostedConj(conj, id, f, t, e)
  {
    if e in TxEntries(txs, k, Term(fields[f].id, t)) {
      PreparedPostsOnly(txs, conj, fields, holder, id, k, f, t, e);
    }
    if holder == k && PostedConj(conj, id, f, t, e) {
      PreparedPostsAll(txs, conj, fields, holder, id, f, t, e);
    }
  }

  /** After a build, a (field, token) list holds an entry exactly when a committed expression of that
      polarity has the token. */
  lemma ListMeaning(cds: seq<ConjIndexingData>, origins: seq<Origin>, fields: Fields, compact: bool,
                    k: nat, f: BEField, t: Token, e: EntryID)
    requires FieldsOK(fields) && Represents(cds, origins, fields, compact) && f in fields
    ensures e in Expected(cds, k, Term(fields[f].id, t)) <==>
            exists i :: 0 <= i < |origins| && InRange(origins[i].doc, origins[i].idx, SizeFor(origins[i]))
                        && HolderOf(origins[i], compact) == k && PostedBy(origins[i], f, t, e)
  {
    var term := Term(fields[f].id, t);
    InExpected(cds, k, term, e);
    forall i | 0 <= i < |cds|
      ensures e in TxEntries(cds[i].fieldData, k, term) <==>
              HolderOf(origins[i], compact) == k && PostedBy(origins[i], f, t, e)
    {
      assert CompiledFrom(cds[i], origins[i], fields, compact);
      PreparedPosts(cds[i].fieldData, origins[i].conj, fields, HolderOf(origins[i], compact), cds[i].conjID,
                    k, f, t, e);
    }
  }

  // ----- two compilations of the same conjunctions

  /** Only the data of its own field reaches a list, in the order prepared. */
  lemma {:induction false} OneFieldPosts(txs: seq<FieldIndexingData>, f: BEField, k: nat, term: Term)
    requires forall tx :: tx in txs ==> (tx.desc.id == term.fieldID <==> tx.desc.field == f)
    ensures TxEntries(txs, k, term) == TxEntries(OnField(txs, f), k, term)
  {
    if txs != [] {
      var front, last := txs[..|txs| - 1], txs[|txs| - 1];
      assert forall tx :: tx in front ==> tx in txs;
      OneFieldPosts(front, f, k, term);
      var own := OnField(front, f);
      assert (own + [last])[..|own|] == own && own + [] == own;
    }
  }

  lemma {:induction false} NoFieldPosts(txs: seq<FieldIndexingData>, k: nat, term: Term)
    requires forall tx :: tx in txs ==> tx.desc.id != term.fieldID
    ensures TxEntries(txs, k, term) == []
  {
    if txs != [] {
      assert forall tx :: tx in txs[..|txs| - 1] ==> tx in txs;
      NoFieldPosts(txs[..|txs| - 1], k, term);
    }
  }

  /** What a conjunction contributes to a list is settled by the conjunction. */
  lemma ConjPostsList(cd: ConjIndexingData, o: Origin, fields: Fields, compact: bool, k: nat, term: Term)
    requires FieldsOK(fields) && CompiledFrom(cd, o, fields, compact)
    ensures forall f :: f in fields && fields[f].id == term.fieldID ==>
              TxEntries(cd.fieldData, k, term)
              == TxEntries(FieldTxs(o.conj, f, fields, HolderOf(o, compact), cd.conjID), k, term)
    ensures (forall f :: f in fields ==> fields[f].id != term.fieldID) ==> TxEntries(cd.fieldData, k, term) == []
  {
    forall tx | tx in cd.fieldData
      ensures tx.desc.field in fields && tx.desc == fields[tx.desc.field]
    {
      TxOfConj(cd, o, fields, compact, tx);
    }
    if f :| f in fields && fields[f].id == term.fieldID {
      OneFieldPosts(cd.fieldData, f, k, term);
      assert OnField(cd.fieldData, f) == FieldTxs(o.conj, f, fields, HolderOf(o, compact), cd.conjID);
    } else {
      NoFieldPosts(cd.fieldData, k, term);
    }
  }

  lemma SameConjPosts(a: ConjIndexingData, b: ConjIndexingData, o: Origin, fields: Fields, compact: bool, k: nat,
                      term: Term)
    requires FieldsOK(fields) && CompiledFrom(a, o, fields, compact) && CompiledFrom(b, o, fields, compact)
    ensures TxEntries(a.fieldData, k, term) == TxEntries(b.fieldData, k, term)
  {
    ConjPostsList(a, o, fields, compact, k, term);
    ConjPostsList(b, o, fields, compact, k, term);
    if f :| f in fields && fields[f].id == term.fieldID {
      assert TxEntries(a.fieldData, k, term)
          == TxEntries(FieldTxs(o.conj, f, fields, HolderOf(o, compact), a.conjID), k, term);
    }
  }

  /** Two compilations of the same conjunctions, whatever order each visited the fields in and whether it went
      through the cache, fill every list with the same entries in the same order. */
  lemma {:induction false} SamePostings(a: seq<ConjIndexingData>, b: seq<ConjIndexingData>, origins: seq<Origin>,
                                        fields: Fields, compact: bool, k: nat, term: Term)
    requires FieldsOK(fields) && Represents(a, origins, fields, compact) && Represents(b, origins, fields, compact)
    ensures Expected(a, k, term) == Expected(b, k, term) && Wildcards(a) == Wildcards(b)
    decreases |a|
  {
    if a != [] {
      var n := |a| - 1;
      SamePostings(a[..n], b[..n], origins[..n], fields, compact, k, term);
      assert CompiledFrom(a[n], origins[n], fields, compact) && CompiledFrom(b[n], origins[n], fields, compact);
      SameConjPosts(a[n], b[n], origins[n], fields, compact, k, term);
    }
  }

  // ----- the groups a query makes of a container

  /** The entries one query field hits. */
  ghost function HitSet(pl: Postings, desc: FieldDesc, tokens: set<Token>): set<EntryID> {
    set t, e | t in tokens && e in ListOf(pl, Term(desc.id, t)) :: e
  }

  ghost function EntriesFor(key: CursorKey, pl: Postings, wild: set<EntryID>, fields: Fields,
                            q: Assignments): set<EntryID>
  {
    if key.Wildcard? then wild
    else if key.field in fields && key.field in q then HitSet(pl, fields[key.field], QueryTokens(q, key.field))
    else {}
  }

  ghost function KeySet(q: Assignments): set<CursorKey> {
    {Wildcard} + set f | f in q :: OfField(f)
  }

  /** One group per query field that hits something, and one for the wildcards if there are any. */
  ghost function GroupsOf(pl: Postings, wild: set<EntryID>, fields: Fields, q: Assignments): Groups {
    map key | key in KeySet(q) && EntriesFor(key, pl, wild, fields, q) != {} :: EntriesFor(key, pl, wild, fields, q)
  }

  lemma GroupMeaning(pl: Postings, wild: set<EntryID>, fields: Fields, q: Assignments, key: CursorKey, e: EntryID)
    ensures (key in GroupsOf(pl, wild, fields, q) && e in GroupsOf(pl, wild, fields, q)[key])
            <==> e in EntriesFor(key, pl, wild, fields, q)
  {
    if e in EntriesFor(key, pl, wild, fields, q) && key.OfField? {
      assert key == OfField(key.field);
    }
  }

  /** The origin has an id, and no other origin has the same. */
  ghost predicate Identified(origins: seq<Origin>) {
    && (forall i :: 0 <= i < |origins| ==> InRange(origins[i].doc, origins[i].idx, SizeFor(origins[i])))
    && DistinctOrigins(origins)
  }

  /** The fields of the conjunctions are known, and all their operators are EQ. */
  ghost predicate Known(origins: seq<Origin>, fields: Fields) {
    forall i :: 0 <= i < |origins| ==> KnownConj(origins[i].conj, fields) && EqOnly(origins[i].conj)
  }

  ghost predicate PostedBySome(origins: seq<Origin>, compact: bool, k: nat, f: BEField, t: Token, e: EntryID)
    requires Identified(origins)
  {
    exists i :: 0 <= i < |origins| && HolderOf(origins[i], compact) == k && PostedBy(origins[i], f, t, e)
  }

  /** The lists of container `k` hold what the origins posted there. */
  ghost predicate ListsMean(pl: Postings, k: nat, origins: seq<Origin>, fields: Fields, compact: bool)
    requires Identified(origins)
  {
    forall f, t, e :: f in fields ==>
      (e in ListOf(pl, Term(fields[f].id, t)) <==> PostedBySome(origins, compact, k, f, t, e))
  }

  ghost predicate WildBySome(origins: seq<Origin>, compact: bool, k: nat, e: EntryID)
    requires Identified(origins)
  {
    exists i :: 0 <= i < |origins| && HolderOf(origins[i], compact) == k && SizeFor(origins[i]) == 0
                && e == NewEntryID(IdOf(origins[i]), true)
  }

  /** The container `k` of an index built from `origins`, with the wildcards it is read with. */
  ghost predicate Contains(pl: Postings, wild: set<EntryID>, k: nat, origins: seq<Origin>, fields: Fields,
                           compact: bool)
  {
    && FieldsOK(fields) && Identified(origins) && Known(origins, fields)
    && ListsMean(pl, k, origins, fields, compact)
    && forall e :: e in wild <==> WildBySome(origins, compact, k, e)
  }

  lemma IdsDiffer(origins: seq<Origin>, i: nat, j: nat)
    requires Identified(origins) && i < |origins| && j < |origins| && IdOf(origins[i]) == IdOf(origins[j])
    ensures i == j
  {
    ConjIDRoundTrip(origins[i].doc, origins[i].idx, SizeFor(origins[i]));
    ConjIDRoundTrip(origins[j].doc, origins[j].idx, SizeFor(origins[j]));
  }

  /** Some expression of the given polarity on the field meets the query. */
  ghost predicate Hits(conj: Conjunction, f: BEField, q: Assignments, incl: bool) {
    && f in conj.expressions
    && exists j :: 0 <= j < |conj.expressions[f]| && HitsExpr(conj.expressions[f][j], q, f, incl)
  }

  ghost predicate HitsExpr(bv: BoolValues, q: Assignments, f: BEField, incl: bool) {
    bv.incl == incl && Meets(bv, QueryTokens(q, f))
  }

  lemma HitMeansMet(pl: Postings, wild: set<EntryID>, k: nat, origins: seq<Origin>, fields: Fields, compact: bool,
                    q: Assignments, i: nat, f: BEField, incl: bool)
    requires Contains(pl, wild, k, origins, fields, compact) && i < |origins|
    requires NewEntryID(IdOf(origins[i]), incl) in EntriesFor(OfField(f), pl, wild, fields, q)
    ensures HolderOf(origins[i], compact) == k && Hits(origins[i].conj, f, q, incl)
  {
    var e := NewEntryID(IdOf(origins[i]), incl);
    var t :| t in QueryTokens(q, f) && e in ListOf(pl, Term(fields[f].id, t));
    assert PostedBySome(origins, compact, k, f, t, e);
    var i' :| 0 <= i' < |origins| && HolderOf(origins[i'], compact) == k && PostedBy(origins[i'], f, t, e);
    var exprs := origins[i'].conj.expressions[f];
    var j :| 0 <= j < |exprs| && PostedByExpr(exprs[j], IdOf(origins[i']), t, e);
    EntryIDInjective(IdOf(origins[i]), incl, IdOf(origins[i']), exprs[j].incl);
    IdsDiffer(origins, i, i');
    assert t in TokenSet(exprs[j].value) * QueryTokens(q, f);
    assert HitsExpr(exprs[j], q, f, incl);
  }

  lemma MetMeansHit(pl: Postings, wild: set<EntryID>, k: nat, origins: seq<Origin>, fields: Fields, compact: bool,
                    q: Assignments, i: nat, f: BEField, incl: bool)
    requires Contains(pl, wild, k, origins, fields, compact) && i < |origins|
    requires HolderOf(origins[i], compact) == k && Hits(origins[i].conj, f, q, incl)
    ensures NewEntryID(IdOf(origins[i]), incl) in EntriesFor(OfField(f), pl, wild, fields, q)
  {
    var e := NewEntryID(IdOf(origins[i]), incl);
    var exprs := origins[i].conj.expressions[f];
    assert KnownConj(origins[i].conj, fields);
    var j :| 0 <= j < |exprs| && HitsExpr(exprs[j], q, f, incl);
    var t :| t in TokenSet(exprs[j].value) * QueryTokens(q, f);
    assert PostedByExpr(exprs[j], IdOf(origins[i]), t, e);
    assert PostedBySome(origins, compact, k, f, t, e);
    assert e in ListOf(pl, Term(fields[f].id, t));
  }

  // ----- selection is satisfaction

  lemma HoldsByFields(conj: Conjunction, q: Assignments)
    ensures ConjHolds(conj, q) <==>
            && (forall f :: f in IncludeFields(conj) ==> Hits(conj, f, q, true))
            && (forall f :: f in conj.expressions ==> !Hits(conj, f, q, false))
  {
    forall f | f in conj.expressions
      ensures FieldHolds(conj.expressions[f], QueryTokens(q, f)) <==>
              (HasInclude(conj.expressions[f]) ==> Hits(conj, f, q, true)) && !Hits(conj, f, q, false)
    {
      FieldHoldsByHits(conj, q, f);
    }
  }

  lemma FieldHoldsByHits(conj: Conjunction, q: Assignments, f: BEField)
    requires f in conj.expressions
    ensures FieldHolds(conj.expressions[f], QueryTokens(q, f)) <==>
            (HasInclude(conj.expressions[f]) ==> Hits(conj, f, q, true)) && !Hits(conj, f, q, false)
  {
    var exprs, tokens := conj.expressions[f], QueryTokens(q, f);
    assert forall i, incl :: 0 <= i < |exprs| ==>
             (HitsExpr(exprs[i], q, f, incl) <==> exprs[i].incl == incl && Meets(exprs[i], tokens));
  }

  ghost function FieldKeys(fs: set<BEField>): set<CursorKey> {
    set f | f in fs :: OfField(f)
  }

  lemma {:induction false} FieldKeysCount(fs: set<BEField>)
    ensures |FieldKeys(fs)| == |fs|
    decreases fs
  {
    if fs != {} {
      var f :| f in fs;
      FieldKeysCount(fs - {f});
      assert FieldKeys(fs) == FieldKeys(fs - {f}) + {OfField(f)};
    }
  }

  ghost function HitFields(conj: Conjunction, q: Assignments): set<BEField> {
    set f | f in IncludeFields(conj) && Hits(conj, f, q, true)
  }

  lemma WildIs(pl: Postings, wild: set<EntryID>, k: nat, origins: seq<Origin>, fields: Fields, compact: bool, i: nat,
               incl: bool)
    requires Contains(pl, wild, k, origins, fields, compact) && i < |origins| && HolderOf(origins[i], compact) == k
    ensures NewEntryID(IdOf(origins[i]), incl) in wild <==> incl && SizeFor(origins[i]) == 0
  {
    var e := NewEntryID(IdOf(origins[i]), incl);
    if e in wild {
      assert WildBySome(origins, compact, k, e);
      var j :| 0 <= j < |origins| && SizeFor(origins[j]) == 0 && e == NewEntryID(IdOf(origins[j]), true);
      EntryIDInjective(IdOf(origins[i]), incl, IdOf(origins[j]), true);
      IdsDiffer(origins, i, j);
    } else if incl && SizeFor(origins[i]) == 0 {
      assert WildBySome(origins, compact, k, e);
    }
  }

  /** The groups that hold the include entry of a conjunction: its satisfied include fields, or the wildcards. */
  lemma IncludingIs(pl: Postings, wild: set<EntryID>, k: nat, origins: seq<Origin>, fields: Fields, compact: bool,
                    q: Assignments, i: nat)
    requires Contains(pl, wild, k, origins, fields, compact) && i < |origins| && HolderOf(origins[i], compact) == k
    ensures var o := origins[i];
            Including(GroupsOf(pl, wild, fields, q), IdOf(o))
            == FieldKeys(HitFields(o.conj, q)) + if SizeFor(o) == 0 then {Wildcard} else {}
  {
    var o, g := origins[i], GroupsOf(pl, wild, fields, q);
    var e := NewEntryID(IdOf(o), true);
    var keys := FieldKeys(HitFields(o.conj, q)) + if SizeFor(o) == 0 then {Wildcard} else {};
    forall key
      ensures key in Including(g, IdOf(o)) <==> key in keys
    {
      GroupMeaning(pl, wild, fields, q, key, e);
      match key {
        case Wildcard =>
          WildIs(pl, wild, k, origins, fields, compact, i, true);
        case OfField(f) =>
          if e in EntriesFor(key, pl, wild, fields, q) {
            HitMeansMet(pl, wild, k, origins, fields, compact, q, i, f, true);
            IncludeHit(o.conj, f, q);
            assert f in HitFields(o.conj, q);
          } else if key in keys {
            MetMeansHit(pl, wild, k, origins, fields, compact, q, i, f, true);
          }
      }
    }
  }

  lemma IncludeHit(conj: Conjunction, f: BEField, q: Assignments)
    requires Hits(conj, f, q, true)
    ensures f in IncludeFields(conj)
  {
    var j :| 0 <= j < |conj.expressions[f]| && HitsExpr(conj.expressions[f][j], q, f, true);
    assert conj.expressions[f][j].incl;
  }

  lemma ExcludedIs(pl: Postings, wild: set<EntryID>, k: nat, origins: seq<Origin>, fields: Fields, compact: bool,
                   q: Assignments, i: nat)
    requires Contains(pl, wild, k, origins, fields, compact) && i < |origins| && HolderOf(origins[i], compact) == k
    ensures Excluded(GroupsOf(pl, wild, fields, q), IdOf(origins[i])) <==>
            exists f :: f in origins[i].conj.expressions && Hits(origins[i].conj, f, q, false)
  {
    var o, g := origins[i], GroupsOf(pl, wild, fields, q);
    var e := NewEntryID(IdOf(o), false);
    if Excluded(g, IdOf(o)) {
      var key :| key in g && e in g[key];
      GroupMeaning(pl, wild, fields, q, key, e);
      WildIs(pl, wild, k, origins, fields, compact, i, false);
      assert key == OfField(key.field);
      HitMeansMet(pl, wild, k, origins, fields, compact, q, i, key.field, false);
    }
    if f :| f in o.conj.expressions && Hits(o.conj, f, q, false) {
      MetMeansHit(pl, wild, k, origins, fields, compact, q, i, f, false);
      GroupMeaning(pl, wild, fields, q, OfField(f), e);
      assert e in g[OfField(f)];
    }
  }

  lemma SubsetCount(a: set<BEField>, b: set<BEField>)
    requires a <= b
    ensures |a| <= |b| && (|a| == |b| <==> a == b)
  {
    assert b == a + (b - a);
  }

  /** All include fields are hit exactly when as many are hit as there are. */
  lemma IncludeCount(conj: Conjunction, q: Assignments)
    ensures |HitFields(conj, q)| <= |IncludeFields(conj)|
    ensures |HitFields(conj, q)| == |IncludeFields(conj)| <==>
            forall f :: f in IncludeFields(conj) ==> Hits(conj, f, q, true)
  {
    SubsetCount(HitFields(conj, q), IncludeFields(conj));
    assert HitFields(conj, q) == IncludeFields(conj) <==>
           forall f :: f in IncludeFields(conj) ==> Hits(conj, f, q, true);
  }

  ghost function KeysIncluding(conj: Conjunction, q: Assignments): set<CursorKey> {
    FieldKeys(HitFields(conj, q)) + if |IncludeFields(conj)| == 0 then {Wildcard} else {}
  }

  /** Never more groups than needed include a conjunction, and enough do exactly when all its include fields are hit. */
  lemma EnoughIffAllHit(conj: Conjunction, q: Assignments)
    ensures var need := if |IncludeFields(conj)| > 1 then |IncludeFields(conj)| else 1;
            && |KeysIncluding(conj, q)| <= need
            && (|KeysIncluding(conj, q)| >= need <==> forall f :: f in IncludeFields(conj) ==> Hits(conj, f, q, true))
  {
    FieldKeysCount(HitFields(conj, q));
    IncludeCount(conj, q);
    if |IncludeFields(conj)| == 0 {
      assert FieldKeys(HitFields(conj, q)) == {};
      assert KeysIncluding(conj, q) == {Wildcard};
    } else {
      assert KeysIncluding(conj, q) == FieldKeys(HitFields(conj, q));
    }
  }

  /** The merge selects a committed conjunction exactly when the query satisfies it. */
  lemma SelectedIffHolds(pl: Postings, wild: set<EntryID>, k: nat, origins: seq<Origin>, fields: Fields, compact: bool,
                         q: Assignments, i: nat)
    requires Contains(pl, wild, k, origins, fields, compact) && i < |origins| && HolderOf(origins[i], compact) == k
    ensures Selected(GroupsOf(pl, wild, fields, q), IdOf(origins[i])) <==> ConjHolds(origins[i].conj, q)
    ensures |Including(GroupsOf(pl, wild, fields, q), IdOf(origins[i]))| <= NeedFor(IdOf(origins[i]))
  {
    var o := origins[i];
    IncludingIs(pl, wild, k, origins, fields, compact, q, i);
    ExcludedIs(pl, wild, k, origins, fields, compact, q, i);
    HoldsByFields(o.conj, q);
    EnoughIffAllHit(o.conj, q);
    ConjIDRoundTrip(o.doc, o.idx, SizeFor(o));
  }

  /** Every entry of every group belongs to a committed conjunction of the container. */
  lemma EntryHasOrigin(pl: Postings, wild: set<EntryID>, k: nat, origins: seq<Origin>, fields: Fields, compact: bool,
                       q: Assignments, key: CursorKey, e: EntryID)
    returns (i: nat, incl: bool)
    requires Contains(pl, wild, k, origins, fields, compact)
    requires e in EntriesFor(key, pl, wild, fields, q)
    ensures i < |origins| && HolderOf(origins[i], compact) == k && e == NewEntryID(IdOf(origins[i]), incl)
  {
    if key.Wildcard? {
      assert WildBySome(origins, compact, k, e);
      i :| 0 <= i < |origins| && HolderOf(origins[i], compact) == k && e == NewEntryID(IdOf(origins[i]), true);
      incl := true;
    } else {
      var f := key.field;
      var t :| t in QueryTokens(q, f) && e in ListOf(pl, Term(fields[f].id, t));
      assert PostedBySome(origins, compact, k, f, t, e);
      i :| 0 <= i < |origins| && HolderOf(origins[i], compact) == k && PostedBy(origins[i], f, t, e);
      var exprs := origins[i].conj.expressions[f];
      var j :| 0 <= j < |exprs| && PostedByExpr(exprs[j], IdOf(origins[i]), t, e);
      incl := exprs[j].incl;
    }
  }

  lemma SelectedHasOrigin(pl: Postings, wild: set<EntryID>, k: nat, origins: seq<Origin>, fields: Fields, compact: bool,
                          q: Assignments, c: ConjID)
    requires Contains(pl, wild, k, origins, fields, compact)
    requires Including(GroupsOf(pl, wild, fields, q), c) != {}
    ensures exists i :: 0 <= i < |origins| && HolderOf(origins[i], compact) == k && IdOf(origins[i]) == c
  {
    var g := GroupsOf(pl, wild, fields, q);
    var key :| key in Including(g, c);
    var e := NewEntryID(c, true);
    GroupMeaning(pl, wild, fields, q, key, e);
    var i, incl := EntryHasOrigin(pl, wild, k, origins, fields, compact, q, key, e);
    EntryIDInjective(c, true, IdOf(origins[i]), incl);
  }

  lemma EntryIsEncoded(pl: Postings, wild: set<EntryID>, k: nat, origins: seq<Origin>, fields: Fields, compact: bool,
                       q: Assignments, key: CursorKey, e: EntryID)
    requires Contains(pl, wild, k, origins, fields, compact)
    requires key in GroupsOf(pl, wild, fields, q) && e in GroupsOf(pl, wild, fields, q)[key]
    ensures WellFormed(e)
    ensures !compact ==> NeedFor(ConjOf(e)) == if k > 1 then k else 1
  {
    GroupMeaning(pl, wild, fields, q, key, e);
    var i, incl := EntryHasOrigin(pl, wild, k, origins, fields, compact, q, key, e);
    EntryIDRoundTrip(IdOf(origins[i]), incl);
    ConjIDRoundTrip(origins[i].doc, origins[i].idx, SizeFor(origins[i]));
  }

  lemma NoneInSurplus(pl: Postings, wild: set<EntryID>, k: nat, origins: seq<Origin>, fields: Fields, compact: bool,
                      q: Assignments, c: ConjID)
    requires Contains(pl, wild, k, origins, fields, compact)
    ensures |Including(GroupsOf(pl, wild, fields, q), c)| <= NeedFor(c)
  {
    if Including(GroupsOf(pl, wild, fields, q), c) != {} {
      SelectedHasOrigin(pl, wild, k, origins, fields, compact, q, c);
      var i :| 0 <= i < |origins| && HolderOf(origins[i], compact) == k && IdOf(origins[i]) == c;
      SelectedIffHolds(pl, wild, k, origins, fields, compact, q, i);
    }
  }

  lemma EncodedGroups(pl: Postings, wild: set<EntryID>, k: nat, origins: seq<Origin>, fields: Fields, compact: bool,
                      q: Assignments)
    requires Contains(pl, wild, k, origins, fields, compact)
    ensures Encoded(GroupsOf(pl, wild, fields, q))
  {
    var g := GroupsOf(pl, wild, fields, q);
    forall key, e | key in g && e in g[key]
      ensures WellFormed(e)
    {
      EntryIsEncoded(pl, wild, k, origins, fields, compact, q, key, e);
    }
  }

  lemma UniformGroups(pl: Postings, wild: set<EntryID>, k: nat, origins: seq<Origin>, fields: Fields, q: Assignments,
                      need: nat)
    requires Contains(pl, wild, k, origins, fields, false) && need == if k > 1 then k else 1
    ensures Uniform(GroupsOf(pl, wild, fields, q), need)
  {
    var g := GroupsOf(pl, wild, fields, q);
    forall key, e | key in g && e in g[key]
      ensures NeedFor(ConjOf(e)) == need
    {
      EntryIsEncoded(pl, wild, k, origins, fields, false, q, key, e);
    }
  }

  lemma NoSurplusGroups(pl: Postings, wild: set<EntryID>, k: nat, origins: seq<Origin>, fields: Fields, compact: bool,
                        q: Assignments)
    requires Contains(pl, wild, k, origins, fields, compact)
    ensures NoSurplus(GroupsOf(pl, wild, fields, q))
  {
    forall c: ConjID
      ensures |Including(GroupsOf(pl, wild, fields, q), c)| <= NeedFor(c)
    {
      NoneInSurplus(pl, wild, k, origins, fields, compact, q, c);
    }
  }

  /** The documents whose committed conjunctions of container `k` hold. */
  ghost function MatchedIn(origins: seq<Origin>, compact: bool, k: nat, q: Assignments): set<DocID> {
    set i | 0 <= i < |origins| && HolderOf(origins[i], compact) == k && ConjHolds(origins[i].conj, q) :: origins[i].doc
  }

  /** What the merge collects from a container is what matches in it. */
  lemma CollectedDocs(pl: Postings, wild: set<EntryID>, k: nat, origins: seq<Origin>, fields: Fields, compact: bool,
                      q: Assignments, found: seq<ConjID>)
    requires Contains(pl, wild, k, origins, fields, compact)
    requires Collected(found, GroupsOf(pl, wild, fields, q), ALL_CONJS)
    ensures DocsOf(found) == MatchedIn(origins, compact, k, q)
  {
    var g := GroupsOf(pl, wild, fields, q);
    forall d | d in DocsOf(found)
      ensures d in MatchedIn(origins, compact, k, q)
    {
      var c :| c in found && DocOf(c) == d;
      SelectedHasOrigin(pl, wild, k, origins, fields, compact, q, c);
      var i :| 0 <= i < |origins| && HolderOf(origins[i], compact) == k && IdOf(origins[i]) == c;
      SelectedIffHolds(pl, wild, k, origins, fields, compact, q, i);
      ConjIDRoundTrip(origins[i].doc, origins[i].idx, SizeFor(origins[i]));
    }
    forall d | d in MatchedIn(origins, compact, k, q)
      ensures d in DocsOf(found)
    {
      var i :| 0 <= i < |origins| && HolderOf(origins[i], compact) == k && ConjHolds(origins[i].conj, q)
               && origins[i].doc == d;
      SelectedIffHolds(pl, wild, k, origins, fields, compact, q, i);
      ConjIDRoundTrip(origins[i].doc, origins[i].idx, SizeFor(origins[i]));
      assert IdOf(origins[i]) in found;
    }
  }
}
