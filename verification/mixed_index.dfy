/**
 An index whose containers hold value fields in posting lists and number fields in range holders
 (be_indexer_kgroups.go: getFieldHolder, CreateHolder), and what a query reads from it.
 */
module MixedIndexes {
  import opened IdTypes
  import opened Documents
  import opened IndexScanner
  import opened Merge
  import opened BEIndexes
  import opened DocCache
  import opened IndexBuilders
  import opened Matching
  import opened Retrieval
  import opened RangeIdxs
  import opened RangeHolders
  import opened MixedDocuments

  // ----- posting lists that hold given conjunctions of values, as a yardstick

  ghost function FieldData(conj: Conjunction, keys: set<BEField>, fields: Fields, holder: nat, id: ConjID)
    : seq<FieldIndexingData>
    decreases keys
  {
    if keys == {} then []
    else
      var f :| f in keys;
      FieldData(conj, keys - {f}, fields, holder, id) + FieldTxs(conj, f, fields, holder, id)
  }

  lemma FieldTxsOwn(conj: Conjunction, f: BEField, fields: Fields, holder: nat, id: ConjID, h: BEField)
    requires FieldsOK(fields)
    ensures OnField(FieldTxs(conj, f, fields, holder, id), h)
            == if h == f then FieldTxs(conj, f, fields, holder, id) else []
  {
    OnFieldOwn(FieldTxs(conj, f, fields, holder, id), f, h);
  }

  lemma FieldDataSplit(conj: Conjunction, keys: set<BEField>, fields: Fields, holder: nat, id: ConjID)
    returns (f: BEField)
    requires keys != {}
    ensures f in keys
    ensures FieldData(conj, keys, fields, holder, id)
            == FieldData(conj, keys - {f}, fields, holder, id) + FieldTxs(conj, f, fields, holder, id)
  {
    f :| f in keys && FieldData(conj, keys, fields, holder, id)
                      == FieldData(conj, keys - {f}, fields, holder, id) + FieldTxs(conj, f, fields, holder, id);
  }

  lemma {:induction false} FieldDataOn(conj: Conjunction, keys: set<BEField>, fields: Fields, holder: nat, id: ConjID,
                                       h: BEField)
    requires FieldsOK(fields)
    ensures OnField(FieldData(conj, keys, fields, holder, id), h)
            == if h in keys then FieldTxs(conj, h, fields, holder, id) else []
    decreases keys
  {
    if keys != {} {
      var f := FieldDataSplit(conj, keys, fields, holder, id);
      var rest, own := FieldData(conj, keys - {f}, fields, holder, id), FieldTxs(conj, f, fields, holder, id);
      FieldDataOn(conj, keys - {f}, fields, holder, id, h);
      OnFieldConcat(rest, own, h);
      FieldTxsOwn(conj, f, fields, holder, id, h);
      assert OnField(rest + own, h) == OnField(rest, h) + OnField(own, h);
      NothingAdded(OnField(rest, h), OnField(own, h));
    }
  }

  lemma NothingAdded(a: seq<FieldIndexingData>, b: seq<FieldIndexingData>)
    ensures [] + b == b && a + [] == a
  {
  }

  ghost function CompileOne(o: Origin, fields: Fields, compact: bool): ConjIndexingData
    requires InRange(o.doc, o.idx, SizeFor(o))
  {
    ConjIndexingData(o.idx, SizeFor(o), Matching.IdOf(o),
      FieldData(o.conj, o.conj.expressions.Keys, fields, HolderOf(o, compact), Matching.IdOf(o)))
  }

  lemma CompileOneIs(o: Origin, fields: Fields, compact: bool)
    requires InRange(o.doc, o.idx, SizeFor(o)) && FieldsOK(fields) && KnownConj(o.conj, fields) && EqOnly(o.conj)
    ensures CompiledFrom(CompileOne(o, fields, compact), o, fields, compact)
  {
    var cd := CompileOne(o, fields, compact);
    forall f
      ensures OnField(cd.fieldData, f) == FieldTxs(o.conj, f, fields, HolderOf(o, compact), cd.conjID)
    {
      FieldDataOn(o.conj, o.conj.expressions.Keys, fields, HolderOf(o, compact), cd.conjID, f);
    }
  }

  ghost function CompileAll(origins: seq<Origin>, fields: Fields, compact: bool): seq<ConjIndexingData>
    requires Identified(origins)
  {
    seq(|origins|, i requires 0 <= i < |origins| => CompileOne(origins[i], fields, compact))
  }

  ghost function Terms(cds: seq<ConjIndexingData>): set<Term> {
    set i, j, t | 0 <= i < |cds| && 0 <= j < |cds[i].fieldData| && t in cds[i].fieldData[j].tokens
      :: Term(cds[i].fieldData[j].desc.id, t)
  }

  /** The lists that compiling the conjunctions would fill. */
  ghost function Lists(cds: seq<ConjIndexingData>, k: nat): Postings {
    map term | term in Terms(cds) :: Expected(cds, k, term)
  }

  lemma InLists(cds: seq<ConjIndexingData>, k: nat, term: Term, e: EntryID)
    ensures e in ListOf(Lists(cds, k), term) <==> e in Expected(cds, k, term)
  {
    if e in Expected(cds, k, term) {
      InExpected(cds, k, term, e);
      var i :| 0 <= i < |cds| && e in TxEntries(cds[i].fieldData, k, term);
      InTxEntries(cds[i].fieldData, k, term, e);
      var j :| 0 <= j < |cds[i].fieldData| && Posts(cds[i].fieldData[j], k, term) && cds[i].fieldData[j].eid == e;
      assert term == Term(cds[i].fieldData[j].desc.id, term.value);
      assert term in Terms(cds);
    }
  }

  ghost function Mirror(origins: seq<Origin>, fields: Fields, compact: bool, k: nat): Postings
    requires Identified(origins)
  {
    Lists(CompileAll(origins, fields, compact), k)
  }

  /** The yardstick holds exactly what the conjunctions posted. */
  lemma MirrorMeans(origins: seq<Origin>, fields: Fields, compact: bool, k: nat, f: BEField, t: Token, e: EntryID)
    requires Identified(origins) && FieldsOK(fields) && Known(origins, fields) && f in fields
    ensures e in ListOf(Mirror(origins, fields, compact, k), Term(fields[f].id, t)) <==>
            PostedBySome(origins, compact, k, f, t, e)
  {
    var cds := CompileAll(origins, fields, compact);
    forall i | 0 <= i < |origins|
      ensures CompiledFrom(cds[i], origins[i], fields, compact)
    {
      CompileOneIs(origins[i], fields, compact);
    }
    InLists(cds, k, Term(fields[f].id, t), e);
    ListMeaning(cds, origins, fields, compact, k, f, t, e);
  }

  lemma MirrorContains(origins: seq<Origin>, fields: Fields, compact: bool, k: nat, wild: set<EntryID>)
    requires Identified(origins) && FieldsOK(fields) && Known(origins, fields)
    requires forall e :: e in wild <==> WildBySome(origins, compact, k, e)
    ensures Contains(Mirror(origins, fields, compact, k), wild, k, origins, fields, compact)
  {
    forall f, t, e | f in fields
      ensures e in ListOf(Mirror(origins, fields, compact, k), Term(fields[f].id, t)) <==>
              PostedBySome(origins, compact, k, f, t, e)
    {
      MirrorMeans(origins, fields, compact, k, f, t, e);
    }
  }

  // ----- mixed conjunctions and their lowered form

  ghost function MixedSize(mo: MixedOrigin): nat {
    |MixedIncludes(mo.conj)|
  }

  ghost predicate HasRoom(mo: MixedOrigin) {
    -0x7FF_FFFF_FFFF <= mo.doc <= 0x7FF_FFFF_FFFF && mo.idx <= 255 && MixedSize(mo) <= 255
  }

  ghost function MixedId(mo: MixedOrigin): ConjID
    requires HasRoom(mo)
  {
    NewConjID(mo.doc, mo.idx, MixedSize(mo))
  }

  ghost function MixedHolder(mo: MixedOrigin, compact: bool): nat {
    if compact then 0 else MixedSize(mo)
  }

  ghost predicate MixedKnown(mo: MixedOrigin, fields: Fields, nf: set<BEField>) {
    && Apart(mo.conj, nf) && nf <= fields.Keys
    && KnownConj(mo.conj.values, fields) && EqOnly(mo.conj.values)
  }

  /** The conjunctions have ids of their own, and their fields are known. */
  ghost predicate Settled(added: seq<MixedOrigin>, fields: Fields, nf: set<BEField>) {
    && (forall i :: 0 <= i < |added| ==> HasRoom(added[i]) && MixedKnown(added[i], fields, nf))
    && (forall i, j :: 0 <= i < j < |added| ==> added[i].doc != added[j].doc || added[i].idx != added[j].idx)
  }

  ghost function LowerOrigin(mo: MixedOrigin, q: MixedQuery): Origin {
    Origin(mo.doc, mo.idx, Lower(mo.conj, q))
  }

  ghost function LowerOrigins(added: seq<MixedOrigin>, q: MixedQuery): seq<Origin> {
    seq(|added|, i requires 0 <= i < |added| => LowerOrigin(added[i], q))
  }

  lemma LowerOriginIs(mo: MixedOrigin, q: MixedQuery, fields: Fields, nf: set<BEField>)
    requires HasRoom(mo) && MixedKnown(mo, fields, nf)
    ensures var o := LowerOrigin(mo, q);
            && SizeFor(o) == MixedSize(mo) && InRange(o.doc, o.idx, SizeFor(o)) && Matching.IdOf(o) == MixedId(mo)
            && KnownConj(o.conj, fields) && EqOnly(o.conj)
  {
    LowerIncludes(mo.conj, q, nf);
    var low: map<BEField, seq<BoolValues>> := Lower(mo.conj, q).expressions;
    forall f | f in low
      ensures low[f] != [] ==> f in fields
      ensures forall i :: 0 <= i < |low[f]| ==> low[f][i].operator == EQ
    {
      if f !in mo.conj.numbers {
        assert low[f] == mo.conj.values.expressions[f];
      }
    }
  }

  lemma LowerOriginsAre(added: seq<MixedOrigin>, q: MixedQuery, fields: Fields, nf: set<BEField>)
    requires Settled(added, fields, nf)
    ensures Identified(LowerOrigins(added, q)) && Known(LowerOrigins(added, q), fields)
    ensures forall i :: 0 <= i < |added| ==>
              var o := LowerOrigins(added, q)[i];
              SizeFor(o) == MixedSize(added[i]) && Matching.IdOf(o) == MixedId(added[i])
  {
    forall i | 0 <= i < |added|
      ensures var o := LowerOrigins(added, q)[i];
              && SizeFor(o) == MixedSize(added[i]) && InRange(o.doc, o.idx, SizeFor(o))
              && Matching.IdOf(o) == MixedId(added[i]) && KnownConj(o.conj, fields) && EqOnly(o.conj)
    {
      LowerOriginIs(added[i], q, fields, nf);
    }
  }

  /** Some conjunction of the container puts this entry on the list of this token. */
  ghost predicate ValuePosted(added: seq<MixedOrigin>, compact: bool, k: nat, f: BEField, t: Token, e: EntryID) {
    exists i :: 0 <= i < |added| && HasRoom(added[i]) && MixedHolder(added[i], compact) == k
                && PostedConj(added[i].conj.values, MixedId(added[i]), f, t, e)
  }

  lemma LowerValuePosted(added: seq<MixedOrigin>, q: MixedQuery, fields: Fields, nf: set<BEField>, compact: bool,
                         k: nat, f: BEField, t: Token, e: EntryID)
    requires Settled(added, fields, nf) && f !in nf && Identified(LowerOrigins(added, q))
    ensures PostedBySome(LowerOrigins(added, q), compact, k, f, t, e) <==> ValuePosted(added, compact, k, f, t, e)
  {
    LowerOriginsAre(added, q, fields, nf);
    var low := LowerOrigins(added, q);
    forall i | 0 <= i < |added|
      ensures PostedBy(low[i], f, t, e) <==> PostedConj(added[i].conj.values, MixedId(added[i]), f, t, e)
    {
      assert MixedKnown(added[i], fields, nf);
      assert f in low[i].conj.expressions <==> f in added[i].conj.values.expressions;
    }
  }

  // ----- what the number holders should have been told

  ghost function OwnPostings(mo: MixedOrigin, f: BEField): seq<NumPosting>
    requires HasRoom(mo)
  {
    if f !in mo.conj.numbers then []
    else
      var nbs := mo.conj.numbers[f];
      seq(|nbs|, i requires 0 <= i < |nbs| => NumPosting(nbs[i].expr, NewEntryID(MixedId(mo), nbs[i].incl)))
  }

  /** What the holder of a number field in a container has been told, in order. */
  ghost function HolderPostings(added: seq<MixedOrigin>, compact: bool, k: nat, f: BEField): seq<NumPosting>
    requires forall i :: 0 <= i < |added| ==> HasRoom(added[i])
  {
    if added == [] then []
    else
      var last := added[|added| - 1];
      HolderPostings(added[..|added| - 1], compact, k, f)
      + if MixedHolder(last, compact) == k then OwnPostings(last, f) else []
  }

  lemma {:induction false} InHolderPostings(added: seq<MixedOrigin>, compact: bool, k: nat, f: BEField, p: NumPosting)
    requires forall i :: 0 <= i < |added| ==> HasRoom(added[i])
    ensures p in HolderPostings(added, compact, k, f) <==>
            exists i :: 0 <= i < |added| && MixedHolder(added[i], compact) == k && p in OwnPostings(added[i], f)
  {
    if added != [] {
      var front := added[..|added| - 1];
      assert forall i :: 0 <= i < |front| ==> front[i] == added[i];
      InHolderPostings(front, compact, k, f, p);
    }
  }

  /** An expression of the conjunction on the field stands for the number. */
  ghost predicate NumPosted(mo: MixedOrigin, f: BEField, v: int, e: EntryID)
    requires HasRoom(mo)
  {
    && f in mo.conj.numbers
    && exists x :: 0 <= x < |mo.conj.numbers[f]| && Denotes(mo.conj.numbers[f][x].expr, v)
                   && e == NewEntryID(MixedId(mo), mo.conj.numbers[f][x].incl)
  }

  lemma OwnAsked(mo: MixedOrigin, f: BEField, v: int, e: EntryID)
    requires HasRoom(mo)
    ensures NumPosted(mo, f, v, e) <==> exists p :: p in OwnPostings(mo, f) && p.eid == e && Denotes(p.expr, v)
  {
    if NumPosted(mo, f, v, e) {
      var x :| 0 <= x < |mo.conj.numbers[f]| && Denotes(mo.conj.numbers[f][x].expr, v)
               && e == NewEntryID(MixedId(mo), mo.conj.numbers[f][x].incl);
      assert OwnPostings(mo, f)[x] in OwnPostings(mo, f);
    }
  }

  lemma LowerNumPosted(mo: MixedOrigin, q: MixedQuery, fields: Fields, nf: set<BEField>, f: BEField, j: nat, e: EntryID)
    requires HasRoom(mo) && MixedKnown(mo, fields, nf) && f in nf && j < |Numbers(q, f)|
    requires var o := LowerOrigin(mo, q); InRange(o.doc, o.idx, SizeFor(o)) && Matching.IdOf(o) == MixedId(mo)
    ensures PostedBy(LowerOrigin(mo, q), f, Tok(j), e) <==> NumPosted(mo, f, Numbers(q, f)[j], e)
  {
    var low := Lower(mo.conj, q).expressions;
    assert f in low <==> f in mo.conj.numbers;
    if f in mo.conj.numbers {
      var nbs, ids := mo.conj.numbers[f], Numbers(q, f);
      assert low[f] == LowerAll(nbs, ids);
      forall x | 0 <= x < |nbs|
        ensures PostedByExpr(low[f][x], MixedId(mo), Tok(j), e) <==>
                Denotes(nbs[x].expr, ids[j]) && e == NewEntryID(MixedId(mo), nbs[x].incl)
      {
        TokInNumTokens(nbs[x].expr, ids, j);
      }
    }
  }

  /** Some conjunction of the container has an expression on the field that stands for the number. */
  ghost predicate NumPostedBySome(added: seq<MixedOrigin>, compact: bool, k: nat, f: BEField, v: int, e: EntryID) {
    exists i :: 0 <= i < |added| && HasRoom(added[i]) && MixedHolder(added[i], compact) == k
                && NumPosted(added[i], f, v, e)
  }

  lemma LowerNumPostedBySome(added: seq<MixedOrigin>, q: MixedQuery, fields: Fields, nf: set<BEField>, compact: bool,
                             k: nat, f: BEField, j: nat, e: EntryID)
    requires Settled(added, fields, nf) && f in nf && Identified(LowerOrigins(added, q)) && j < |Numbers(q, f)|
    ensures PostedBySome(LowerOrigins(added, q), compact, k, f, Tok(j), e) <==>
            NumPostedBySome(added, compact, k, f, Numbers(q, f)[j], e)
  {
    LowerOriginsAre(added, q, fields, nf);
    var low, v := LowerOrigins(added, q), Numbers(q, f)[j];
    forall i | 0 <= i < |added|
      ensures PostedBy(low[i], f, Tok(j), e) <==> NumPosted(added[i], f, v, e)
      ensures HolderOf(low[i], compact) == MixedHolder(added[i], compact)
    {
      LowerNumPosted(added[i], q, fields, nf, f, j, e);
    }
  }

  lemma AskedAt(added: seq<MixedOrigin>, compact: bool, k: nat, f: BEField, v: int, e: EntryID)
    requires forall i :: 0 <= i < |added| ==> HasRoom(added[i])
    ensures NumPostedBySome(added, compact, k, f, v, e) <==>
            exists p :: p in HolderPostings(added, compact, k, f) && p.eid == e && Denotes(p.expr, v)
  {
    if NumPostedBySome(added, compact, k, f, v, e) {
      var i :| 0 <= i < |added| && MixedHolder(added[i], compact) == k && NumPosted(added[i], f, v, e);
      OwnAsked(added[i], f, v, e);
      var p :| p in OwnPostings(added[i], f) && p.eid == e && Denotes(p.expr, v);
      InHolderPostings(added, compact, k, f, p);
    }
    if p :| p in HolderPostings(added, compact, k, f) && p.eid == e && Denotes(p.expr, v) {
      InHolderPostings(added, compact, k, f, p);
      var i :| 0 <= i < |added| && MixedHolder(added[i], compact) == k && p in OwnPostings(added[i], f);
      OwnAsked(added[i], f, v, e);
    }
  }

  lemma AskedSomewhere(ps: seq<NumPosting>, ids: seq<int>, e: EntryID)
    ensures Asked(ps, ids, e) <==>
            exists j :: 0 <= j < |ids| && exists p :: p in ps && p.eid == e && Denotes(p.expr, ids[j])
  {
    if Asked(ps, ids, e) {
      var i, j :| 0 <= i < |ps| && 0 <= j < |ids| && ps[i].eid == e && Denotes(ps[i].expr, ids[j]);
      assert ps[i] in ps;
    }
  }

  /** What the holder is asked for is what the lowered conjunctions posted under the queried numbers. */
  lemma AskedIsPosted(added: seq<MixedOrigin>, q: MixedQuery, fields: Fields, nf: set<BEField>, compact: bool, k: nat,
                      f: BEField, e: EntryID)
    requires Settled(added, fields, nf) && f in nf && Identified(LowerOrigins(added, q))
    ensures Asked(HolderPostings(added, compact, k, f), Numbers(q, f), e) <==>
            exists j :: 0 <= j < |Numbers(q, f)| && PostedBySome(LowerOrigins(added, q), compact, k, f, Tok(j), e)
  {
    var ids := Numbers(q, f);
    AskedSomewhere(HolderPostings(added, compact, k, f), ids, e);
    forall j | 0 <= j < |ids|
      ensures PostedBySome(LowerOrigins(added, q), compact, k, f, Tok(j), e) <==>
              exists p :: p in HolderPostings(added, compact, k, f) && p.eid == e && Denotes(p.expr, ids[j])
    {
      LowerNumPostedBySome(added, q, fields, nf, compact, k, f, j, e);
      AskedAt(added, compact, k, f, ids[j], e);
    }
  }

  // ----- the index

  /** The holder of a number field in a container. */
  datatype NumKey = NumKey(k: nat, field: BEField)

  /** What was committed for the values of a mixed conjunction. */
  ghost predicate CommittedAs(cd: ConjIndexingData, mo: MixedOrigin, fields: Fields, compact: bool) {
    && HasRoom(mo) && cd.incSize == MixedSize(mo) && cd.conjID == MixedId(mo)
    && Prepares(cd.fieldData, mo.conj.values, fields, MixedHolder(mo, compact), cd.conjID)
  }

  ghost predicate CommittedAll(cds: seq<ConjIndexingData>, added: seq<MixedOrigin>, fields: Fields, compact: bool) {
    |cds| == |added| && forall i :: 0 <= i < |added| ==> CommittedAs(cds[i], added[i], fields, compact)
  }

  ghost predicate AllFaithful(added: seq<MixedOrigin>) {
    forall i, f, x :: 0 <= i < |added| && f in added[i].conj.numbers && 0 <= x < |added[i].conj.numbers[f]| ==>
      Faithful(added[i].conj.numbers[f][x].expr)
  }

  /** The holder is over the default domain and ready, and has been told `ps`. */
  ghost predicate HolderReady(h: RangeHolder, ps: seq<NumPosting>)
    reads h, h.rangeIdx
  {
    && h.Compiled() && h.rangeIdx.valueMin == MIN_INT64 && h.rangeIdx.valueMax == MAX_INT64
    && CommitsOf(h.committed, ps, |ps|)
  }

  lemma {:induction false} PostingsFaithful(added: seq<MixedOrigin>, compact: bool, k: nat, f: BEField, p: nat)
    requires (forall i :: 0 <= i < |added| ==> HasRoom(added[i])) && AllFaithful(added)
    requires p < |HolderPostings(added, compact, k, f)|
    ensures Faithful(HolderPostings(added, compact, k, f)[p].expr)
  {
    var ps := HolderPostings(added, compact, k, f);
    InHolderPostings(added, compact, k, f, ps[p]);
    var i :| 0 <= i < |added| && MixedHolder(added[i], compact) == k && ps[p] in OwnPostings(added[i], f);
    var x :| 0 <= x < |OwnPostings(added[i], f)| && OwnPostings(added[i], f)[x] == ps[p];
    assert Faithful(added[i].conj.numbers[f][x].expr);
  }

  /** The lists of an index hold the values that were added, sorted. */
  ghost predicate ValuesSorted(base: BEIndex, nf: set<BEField>, added: seq<MixedOrigin>)
    reads base
  {
    && base.Valid() && base.Compiled() && FieldsOK(base.fieldsData) && nf <= base.fieldsData.Keys
    && Settled(added, base.fieldsData, nf) && CommittedAll(base.committed, added, base.fieldsData, base.compact)
  }

  /** The holders have been told the numbers that were added, and are ready to be asked. */
  ghost predicate HoldersReady(holders: map<NumKey, RangeHolder>, nf: set<BEField>, added: seq<MixedOrigin>,
                               compact: bool)
    reads holders.Values, set h | h in holders.Values :: h.rangeIdx
  {
    && (forall i :: 0 <= i < |added| ==> HasRoom(added[i])) && AllFaithful(added)
    && (forall key :: key in holders ==>
          HolderReady(holders[key], HolderPostings(added, compact, key.k, key.field)))
    && (forall k, f :: f in nf && NumKey(k, f) !in holders ==> HolderPostings(added, compact, k, f) == [])
  }

  class MixedIndex {
    const base: BEIndex
    const numFields: set<BEField>
    const holders: map<NumKey, RangeHolder>
    ghost const added: seq<MixedOrigin>

    constructor (base: BEIndex, numFields: set<BEField>, holders: map<NumKey, RangeHolder>,
                 ghost added: seq<MixedOrigin>)
      ensures this.base == base && this.numFields == numFields && this.holders == holders && this.added == added
    {
      this.base, this.numFields, this.holders, this.added := base, numFields, holders, added;
    }

    /** The value side: the lists hold what was added, sorted. */
    ghost predicate ValuesReady()
      reads this, base
    {
      ValuesSorted(base, numFields, added)
    }

    /** The number side: the holders have been told what was added. */
    ghost predicate NumbersReady()
      reads this, holders.Values, set h | h in holders.Values :: h.rangeIdx
    {
      HoldersReady(holders, numFields, added, base.compact)
    }

    ghost function Mirrored(q: MixedQuery, k: nat): Postings
      requires Identified(LowerOrigins(added, q))
      reads this, base
    {
      Mirror(LowerOrigins(added, q), base.fieldsData, base.compact, k)
    }

    lemma ListsMeanValues(k: nat, f: BEField, t: Token, e: EntryID)
      requires ValuesReady() && f in base.fieldsData
      ensures e in base.ListAt(k, Term(base.fieldsData[f].id, t)) <==> ValuePosted(added, base.compact, k, f, t, e)
    {
      var term := Term(base.fieldsData[f].id, t);
      SameMembers(base.ListAt(k, term), Expected(base.committed, k, term), e);
      InExpected(base.committed, k, term, e);
      forall i | 0 <= i < |added|
        ensures e in TxEntries(base.committed[i].fieldData, k, term) <==>
                MixedHolder(added[i], base.compact) == k
                && PostedConj(added[i].conj.values, MixedId(added[i]), f, t, e)
      {
        assert CommittedAs(base.committed[i], added[i], base.fieldsData, base.compact);
        PreparedPosts(base.committed[i].fieldData, added[i].conj.values, base.fieldsData,
                      MixedHolder(added[i], base.compact), MixedId(added[i]), k, f, t, e);
      }
    }

    lemma WildMeans(q: MixedQuery, k: nat, e: EntryID)
      requires ValuesReady() && Identified(LowerOrigins(added, q)) && k < |base.containers|
      ensures e in SetOf(WildcardsAt(base, k)) <==> WildBySome(LowerOrigins(added, q), base.compact, k, e)
    {
      LowerOriginsAre(added, q, base.fieldsData, numFields);
      SameMembers(base.wildcardEntries, Wildcards(base.committed), e);
      InWildcards(base.committed, e);
      forall i | 0 <= i < |added|
        ensures base.committed[i].incSize == MixedSize(added[i]) && base.committed[i].conjID == MixedId(added[i])
      {
        assert CommittedAs(base.committed[i], added[i], base.fieldsData, base.compact);
      }
    }

    /** The yardstick of a container contains what was added, lowered. */
    lemma MirroredContains(q: MixedQuery, k: nat)
      requires ValuesReady() && k < |base.containers|
      ensures Identified(LowerOrigins(added, q))
      ensures Contains(Mirrored(q, k), SetOf(WildcardsAt(base, k)), k, LowerOrigins(added, q), base.fieldsData,
                       base.compact)
    {
      LowerOriginsAre(added, q, base.fieldsData, numFields);
      forall e
        ensures e in SetOf(WildcardsAt(base, k)) <==> WildBySome(LowerOrigins(added, q), base.compact, k, e)
      {
        WildMeans(q, k, e);
      }
      MirrorContains(LowerOrigins(added, q), base.fieldsData, base.compact, k, SetOf(WildcardsAt(base, k)));
    }

    lemma SameList(q: MixedQuery, k: nat, f: BEField, t: Token, e: EntryID)
      requires ValuesReady() && k < |base.containers| && Identified(LowerOrigins(added, q))
      requires f in base.fieldsData && f !in numFields
      ensures e in ListOf(base.containers[k], Term(base.fieldsData[f].id, t)) <==>
              e in ListOf(Mirrored(q, k), Term(base.fieldsData[f].id, t))
    {
      LowerOriginsAre(added, q, base.fieldsData, numFields);
      ListsMeanValues(k, f, t, e);
      LowerValuePosted(added, q, base.fieldsData, numFields, base.compact, k, f, t, e);
      MirrorMeans(LowerOrigins(added, q), base.fieldsData, base.compact, k, f, t, e);
    }

    lemma SameHits(q: MixedQuery, k: nat, f: BEField, tokens: set<Token>)
      requires ValuesReady() && k < |base.containers| && Identified(LowerOrigins(added, q))
      requires f in base.fieldsData && f !in numFields
      ensures HitSet(base.containers[k], base.fieldsData[f], tokens)
              == HitSet(Mirrored(q, k), base.fieldsData[f], tokens)
    {
      var pl, mirror, id := base.containers[k], Mirrored(q, k), base.fieldsData[f].id;
      forall t, e
        ensures e in ListOf(pl, Term(id, t)) <==> e in ListOf(mirror, Term(id, t))
      {
        SameList(q, k, f, t, e);
      }
      HitsAlike(pl, mirror, base.fieldsData[f], tokens);
    }

    /** A value field hits the same in the index and in the yardstick. */
    lemma ValueHits(q: MixedQuery, k: nat, f: BEField)
      requires ValuesReady() && QueryApart(q, numFields) && k < |base.containers| && Identified(LowerOrigins(added, q))
      requires f in q.values && f in base.fieldsData
      ensures HitSet(base.containers[k], base.fieldsData[f], TokenSet(q.values[f]))
              == EntriesFor(OfField(f), Mirrored(q, k), SetOf(WildcardsAt(base, k)), base.fieldsData, LowerQuery(q))
    {
      SameHits(q, k, f, TokenSet(q.values[f]));
      LowerTokens(q, numFields, f);
    }

    /** What the yardstick answers for a number field. */
    lemma NumberHits(q: MixedQuery, k: nat, f: BEField, e: EntryID)
      requires ValuesReady() && QueryApart(q, numFields) && k < |base.containers| && Identified(LowerOrigins(added, q))
      requires f in q.numbers && f in base.fieldsData
      ensures e in EntriesFor(OfField(f), Mirrored(q, k), SetOf(WildcardsAt(base, k)), base.fieldsData, LowerQuery(q))
              <==> Asked(HolderPostings(added, base.compact, k, f), Numbers(q, f), e)
    {
      MirrorNumberHits(added, q, base.fieldsData, numFields, base.compact, k, SetOf(WildcardsAt(base, k)), f, e);
    }
  }

  lemma HitsAlike(pl: Postings, pl': Postings, desc: FieldDesc, tokens: set<Token>)
    requires forall t, e :: e in ListOf(pl, Term(desc.id, t)) <==> e in ListOf(pl', Term(desc.id, t))
    ensures HitSet(pl, desc, tokens) == HitSet(pl', desc, tokens)
  {
  }

  lemma MirrorNumberHits(added: seq<MixedOrigin>, q: MixedQuery, fields: Fields, nf: set<BEField>, compact: bool,
                         k: nat, wild: set<EntryID>, f: BEField, e: EntryID)
    requires Settled(added, fields, nf) && FieldsOK(fields) && QueryApart(q, nf) && Identified(LowerOrigins(added, q))
    requires f in q.numbers && f in fields
    ensures e in EntriesFor(OfField(f), Mirror(LowerOrigins(added, q), fields, compact, k), wild, fields, LowerQuery(q))
            <==> Asked(HolderPostings(added, compact, k, f), Numbers(q, f), e)
  {
    LowerOriginsAre(added, q, fields, nf);
    LowerTokens(q, nf, f);
    AskedIsPosted(added, q, fields, nf, compact, k, f, e);
    TokHits(LowerOrigins(added, q), fields, compact, k, f, |Numbers(q, f)|, e);
  }

  lemma TokHits(origins: seq<Origin>, fields: Fields, compact: bool, k: nat, f: BEField, n: nat, e: EntryID)
    requires Identified(origins) && FieldsOK(fields) && Known(origins, fields) && f in fields
    ensures e in HitSet(Mirror(origins, fields, compact, k), fields[f], set t | t in Toks(n)) <==>
            exists j :: 0 <= j < n && PostedBySome(origins, compact, k, f, Tok(j), e)
  {
    forall j | 0 <= j < n
      ensures e in ListOf(Mirror(origins, fields, compact, k), Term(fields[f].id, Tok(j))) <==>
              PostedBySome(origins, compact, k, f, Tok(j), e)
      ensures Tok(j) in Toks(n)
    {
      MirrorMeans(origins, fields, compact, k, f, Tok(j), e);
      assert Toks(n)[j] == Tok(j);
    }
  }
}
