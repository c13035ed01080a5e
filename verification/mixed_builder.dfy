/**
 Building an index of documents that mix values and numbers (index_builder.go: indexingConjunction,
 commitConjIndexingData; be_indexer_kgroups.go: CreateHolder).
 */
module MixedBuilders {
  import opened IdTypes
  import opened Documents
  import opened BEIndexes
  import opened IndexBuilders
  import opened Matching
  import opened Retrieval
  import opened RangeIdxs
  import opened RangeHolders
  import opened MixedDocuments
  import opened MixedIndexes
  import opened MixedRetrieval

  // ----- the size of a mixed conjunction

  method AnyNumInclude(nbs: seq<NumBool>) returns (found: bool)
    ensures found == NumIncludes(nbs)
  {
    for i := 0 to |nbs|
      invariant forall j :: 0 <= j < i ==> !nbs[j].incl
    {
      if nbs[i].incl {
        return true;
      }
    }
    return false;
  }

  function NumIncludeFields(numbers: map<BEField, seq<NumBool>>): set<BEField> {
    set f | f in numbers && NumIncludes(numbers[f])
  }

  lemma CountNum(numbers: map<BEField, seq<NumBool>>, todo: set<BEField>, f: BEField)
    requires f in todo && todo <= numbers.Keys
    ensures |NumIncludeFields(numbers) - (todo - {f})|
            == |NumIncludeFields(numbers) - todo| + if NumIncludes(numbers[f]) then 1 else 0
  {
    var done := NumIncludeFields(numbers) - todo;
    assert NumIncludeFields(numbers) - (todo - {f}) == if NumIncludes(numbers[f]) then done + {f} else done;
  }

  method CountNumbers(numbers: map<BEField, seq<NumBool>>) returns (size: nat)
    ensures size == |NumIncludeFields(numbers)|
  {
    size := 0;
    var todo := numbers.Keys;
    assert NumIncludeFields(numbers) - todo == {};
    while todo != {}
      invariant todo <= numbers.Keys
      invariant size == |NumIncludeFields(numbers) - todo|
      decreases todo
    {
      var field :| field in todo;
      var found := AnyNumInclude(numbers[field]);
      CountNum(numbers, todo, field);
      if found {
        size := size + 1;
      }
      todo := todo - {field};
    }
    assert NumIncludeFields(numbers) - {} == NumIncludeFields(numbers);
  }

  lemma MixedCount(mc: MixedConj, nf: set<BEField>)
    requires Apart(mc, nf)
    ensures |MixedIncludes(mc)| == |IncludeFields(mc.values)| + |NumIncludeFields(mc.numbers)|
  {
    CountBoth(IncludeFields(mc.values), NumIncludeFields(mc.numbers));
    assert MixedIncludes(mc) == IncludeFields(mc.values) + NumIncludeFields(mc.numbers);
  }

  method CalcMixedSize(mc: MixedConj, ghost nf: set<BEField>) returns (size: nat)
    requires Apart(mc, nf)
    ensures size == |MixedIncludes(mc)|
  {
    var values := CalcConjSize(mc.values);
    var numbers := CountNumbers(mc.numbers);
    MixedCount(mc, nf);
    size := values + numbers;
  }

  // ----- preparing the numbers

  /** The commits prepare the number expressions of one field. */
  ghost predicate NumPrepared(cs: seq<Commit>, nbs: seq<NumBool>, id: ConjID) {
    && |cs| == |nbs|
    && forall x :: 0 <= x < |nbs| ==>
         Built(nbs[x].expr, cs[x].tx) && Committable(cs[x].tx) && cs[x].eid == NewEntryID(id, nbs[x].incl)
  }

  ghost predicate NumFits(nbs: seq<NumBool>) {
    forall x :: 0 <= x < |nbs| ==> Faithful(nbs[x].expr)
  }

  ghost predicate NumsPreparable(nbs: seq<NumBool>, small: Range -> bool) {
    forall x :: 0 <= x < |nbs| ==> Preparable(nbs[x].expr, small)
  }

  /** Why preparing the expressions ended. */
  ghost predicate NumsEnd(nbs: seq<NumBool>, small: Range -> bool, outcome: Outcome) {
    && (outcome.Error? ==> exists x :: 0 <= x < |nbs| && NumErrs(nbs[x].expr))
    && (outcome.Panic? ==> exists x :: 0 <= x < |nbs| && NumTrips(nbs[x].expr, small))
  }

  method PrepareNumField(nbs: seq<NumBool>, id: ConjID, small: Range -> bool)
    returns (outcome: Outcome, cs: seq<Commit>)
    requires NumFits(nbs)
    ensures outcome.Ok? <==> NumsPreparable(nbs, small)
    ensures NumsEnd(nbs, small, outcome)
    ensures outcome.Ok? ==> NumPrepared(cs, nbs, id)
  {
    cs := [];
    var i := 0;
    while i < |nbs|
      invariant 0 <= i <= |nbs| && |cs| == i
      invariant forall x :: 0 <= x < i ==> Preparable(nbs[x].expr, small)
      invariant forall x :: 0 <= x < i ==>
                  Built(nbs[x].expr, cs[x].tx) && Committable(cs[x].tx) && cs[x].eid == NewEntryID(id, nbs[x].incl)
    {
      var tx;
      outcome, tx := BuildFieldIndexingData(nbs[i].expr, small);
      if !outcome.Ok? {
        return;
      }
      BuiltIsCommittable(nbs[i].expr, tx);
      cs := cs + [Commit(tx, NewEntryID(id, nbs[i].incl))];
      i := i + 1;
    }
    outcome := Ok;
  }

  /** Prepares all number fields of a conjunction, visiting them in any order. */
  method PrepareNumbers(numbers: map<BEField, seq<NumBool>>, id: ConjID, small: Range -> bool)
    returns (outcome: Outcome, all: map<BEField, seq<Commit>>)
    requires forall f :: f in numbers ==> NumFits(numbers[f])
    ensures outcome.Ok? <==> forall f :: f in numbers ==> NumsPreparable(numbers[f], small)
    ensures !outcome.Ok? ==> exists f :: f in numbers && NumsEnd(numbers[f], small, outcome)
    ensures outcome.Ok? ==> all.Keys == numbers.Keys && forall f :: f in numbers ==> NumPrepared(all[f], numbers[f], id)
  {
    all := map[];
    var todo := numbers.Keys;
    while todo != {}
      invariant todo <= numbers.Keys && all.Keys == numbers.Keys - todo
      invariant forall f :: f in numbers && f !in todo ==>
                  NumsPreparable(numbers[f], small) && NumPrepared(all[f], numbers[f], id)
      decreases todo
    {
      var field :| field in todo;
      var cs;
      outcome, cs := PrepareNumField(numbers[field], id, small);
      if !outcome.Ok? {
        return;
      }
      all := all[field := cs];
      todo := todo - {field};
    }
    outcome := Ok;
  }

  // ----- committing the numbers

  method CommitAllNumbers(h: RangeHolder, cs: seq<Commit>)
    requires h.Holds() && forall x :: 0 <= x < |cs| ==> Committable(cs[x].tx)
    modifies h, h.rangeIdx
    ensures h.Holds() && h.committed == old(h.committed) + cs
  {
    var i := 0;
    assert cs[..0] == [] && h.committed + [] == h.committed;
    while i < |cs|
      invariant 0 <= i <= |cs| && h.Holds() && h.committed == old(h.committed) + cs[..i]
    {
      NextCommit(old(h.committed), cs, i);
      h.CommitFieldIndexingData(cs[i].tx, cs[i].eid);
      i := i + 1;
    }
    assert cs[..i] == cs;
  }

  lemma NextCommit(was: seq<Commit>, cs: seq<Commit>, i: nat)
    requires i < |cs|
    ensures was + cs[..i] + [Commit(cs[i].tx, cs[i].eid)] == was + cs[..i + 1]
  {
    assert cs[..i + 1] == cs[..i] + [cs[i]];
  }

  /** The holder is over the default domain and has been told `ps` so far. */
  ghost predicate HolderFilling(h: RangeHolder, ps: seq<NumPosting>)
    reads h, h.rangeIdx
  {
    && h.Holds() && h.rangeIdx.valueMin == MIN_INT64 && h.rangeIdx.valueMax == MAX_INT64
    && CommitsOf(h.committed, ps, |ps|)
  }

  /** Tells a holder of the expressions of one more conjunction. */
  method TellHolder(h: RangeHolder, cs: seq<Commit>, ghost ps: seq<NumPosting>, ghost own: seq<NumPosting>)
    requires HolderFilling(h, ps) && CommitsOf(cs, own, |own|)
    requires forall x :: 0 <= x < |cs| ==> Committable(cs[x].tx)
    modifies h, h.rangeIdx
    ensures HolderFilling(h, ps + own)
  {
    CommitAllNumbers(h, cs);
  }

  // ----- the holders of an index

  ghost predicate AllRoom(added: seq<MixedOrigin>) {
    forall i :: 0 <= i < |added| ==> HasRoom(added[i])
  }

  /** Every holder has objects of its own. */
  ghost predicate Separated(holders: map<NumKey, RangeHolder>) {
    forall a, b :: a in holders && b in holders && a != b ==>
      holders[a] != holders[b] && holders[a].rangeIdx != holders[b].rangeIdx
  }

  /** What a holder has been told when the fields in `todo` have not yet been told of `o`, which goes to the
      `k`th container. */
  ghost function ToldMid(added: seq<MixedOrigin>, compact: bool, o: MixedOrigin, k: nat, todo: set<BEField>,
                         key: NumKey)
    : seq<NumPosting>
    requires AllRoom(added) && HasRoom(o)
  {
    HolderPostings(added, compact, key.k, key.field)
    + if key.k == k && key.field in o.conj.numbers && key.field !in todo then OwnPostings(o, key.field) else []
  }

  ghost predicate Telling(holders: map<NumKey, RangeHolder>, added: seq<MixedOrigin>, compact: bool, o: MixedOrigin,
                          k: nat, todo: set<BEField>)
    requires AllRoom(added) && HasRoom(o)
    reads holders.Values, set h | h in holders.Values :: h.rangeIdx
  {
    forall key :: key in holders ==> HolderFilling(holders[key], ToldMid(added, compact, o, k, todo, key))
  }

  /** The holders have been told of what was added. */
  ghost predicate Filling(holders: map<NumKey, RangeHolder>, nf: set<BEField>, added: seq<MixedOrigin>, compact: bool)
    reads holders.Values, set h | h in holders.Values :: h.rangeIdx
  {
    && AllRoom(added) && Separated(holders)
    && (forall key :: key in holders ==>
          HolderFilling(holders[key], HolderPostings(added, compact, key.k, key.field)))
    && NothingElse(holders, nf, added, compact)
  }

  lemma FillingMore(holders: map<NumKey, RangeHolder>, nf: set<BEField>, added: seq<MixedOrigin>, compact: bool,
                    key: NumKey, h: RangeHolder)
    requires Filling(holders, nf, added, compact) && key !in holders && key.field in nf && HolderFilling(h, [])
    requires forall other :: other in holders ==> holders[other] != h && holders[other].rangeIdx != h.rangeIdx
    ensures Filling(holders[key := h], nf, added, compact)
  {
  }

  /** Creates the holder of a number field in a container, unless it is there. */
  method CreateHolder(holders: map<NumKey, RangeHolder>, k: nat, field: BEField, ghost nf: set<BEField>,
                      ghost added: seq<MixedOrigin>, ghost compact: bool)
    returns (hs: map<NumKey, RangeHolder>)
    requires Filling(holders, nf, added, compact) && field in nf
    ensures Filling(hs, nf, added, compact) && hs.Keys == holders.Keys + {NumKey(k, field)}
    ensures forall key :: key in hs ==>
              if key in holders then hs[key] == holders[key] else fresh(hs[key]) && fresh(hs[key].rangeIdx)
  {
    hs := holders;
    if NumKey(k, field) !in holders {
      var h := new RangeHolder(MIN_INT64, MAX_INT64);
      FillingMore(holders, nf, added, compact, NumKey(k, field), h);
      hs := holders[NumKey(k, field) := h];
    }
  }

  /** Creates the holders of some number fields in a container, visiting them in any order. */
  method CreateHolders(holders: map<NumKey, RangeHolder>, k: nat, fields: set<BEField>, ghost nf: set<BEField>,
                       ghost added: seq<MixedOrigin>, ghost compact: bool)
    returns (hs: map<NumKey, RangeHolder>)
    requires Filling(holders, nf, added, compact) && fields <= nf
    ensures Filling(hs, nf, added, compact) && forall f :: f in fields ==> NumKey(k, f) in hs
    ensures holders.Keys <= hs.Keys
    ensures forall key :: key in hs ==>
              if key in holders then hs[key] == holders[key] else fresh(hs[key]) && fresh(hs[key].rangeIdx)
  {
    hs := holders;
    var todo := fields;
    while todo != {}
      invariant todo <= fields && holders.Keys <= hs.Keys && Filling(hs, nf, added, compact)
      invariant forall f :: f in fields && f !in todo ==> NumKey(k, f) in hs
      invariant forall key :: key in hs ==>
                  if key in holders then hs[key] == holders[key] else fresh(hs[key]) && fresh(hs[key].rangeIdx)
      decreases todo
    {
      var field :| field in todo;
      hs := CreateHolder(hs, k, field, nf, added, compact);
      todo := todo - {field};
    }
  }

  lemma PostingsMore(added: seq<MixedOrigin>, o: MixedOrigin, compact: bool, k: nat, f: BEField)
    requires AllRoom(added) && HasRoom(o)
    ensures AllRoom(added + [o])
    ensures HolderPostings(added + [o], compact, k, f)
            == HolderPostings(added, compact, k, f) + if MixedHolder(o, compact) == k then OwnPostings(o, f) else []
  {
    assert (added + [o])[..|added|] == added;
  }

  lemma TellingStarts(holders: map<NumKey, RangeHolder>, nf: set<BEField>, added: seq<MixedOrigin>, compact: bool,
                      o: MixedOrigin, k: nat)
    requires Filling(holders, nf, added, compact) && HasRoom(o)
    ensures Telling(holders, added, compact, o, k, o.conj.numbers.Keys)
  {
    forall key | key in holders
      ensures HolderFilling(holders[key], ToldMid(added, compact, o, k, o.conj.numbers.Keys, key))
    {
      var ps := HolderPostings(added, compact, key.k, key.field);
      assert ps + [] == ps;
    }
  }

  /** Once every field has been told, the holders have been told of one more conjunction. */
  lemma TellingEnds(holders: map<NumKey, RangeHolder>, nf: set<BEField>, added: seq<MixedOrigin>, compact: bool,
                    o: MixedOrigin, k: nat)
    requires AllRoom(added) && HasRoom(o) && MixedHolder(o, compact) == k && Separated(holders)
    requires Telling(holders, added, compact, o, k, {}) && o.conj.numbers.Keys <= nf
    requires forall f :: f in o.conj.numbers && o.conj.numbers[f] != [] ==> NumKey(k, f) in holders
    requires NothingElse(holders, nf, added, compact)
    ensures Filling(holders, nf, added + [o], compact)
  {
    forall key | key in holders
      ensures HolderFilling(holders[key], HolderPostings(added + [o], compact, key.k, key.field))
    {
      PostingsMore(added, o, compact, key.k, key.field);
      assert HolderFilling(holders[key], ToldMid(added, compact, o, k, {}, key));
    }
    forall k', f | f in nf && NumKey(k', f) !in holders
      ensures HolderPostings(added + [o], compact, k', f) == []
    {
      PostingsMore(added, o, compact, k', f);
    }
  }

  lemma OwnPrepared(cs: seq<Commit>, o: MixedOrigin, f: BEField)
    requires HasRoom(o) && f in o.conj.numbers && NumPrepared(cs, o.conj.numbers[f], MixedId(o))
    ensures CommitsOf(cs, OwnPostings(o, f), |OwnPostings(o, f)|)
  {
  }

  /** Tells one field of the conjunction. */
  method TellField(holders: map<NumKey, RangeHolder>, k: nat, field: BEField, cs: seq<Commit>,
                   ghost added: seq<MixedOrigin>, ghost compact: bool, ghost o: MixedOrigin, ghost todo: set<BEField>)
    requires AllRoom(added) && HasRoom(o) && Separated(holders) && NumKey(k, field) in holders
    requires Telling(holders, added, compact, o, k, todo) && field in todo && field in o.conj.numbers
    requires NumPrepared(cs, o.conj.numbers[field], MixedId(o))
    modifies holders[NumKey(k, field)], holders[NumKey(k, field)].rangeIdx
    ensures Telling(holders, added, compact, o, k, todo - {field})
  {
    var key := NumKey(k, field);
    ghost var ps := HolderPostings(added, compact, k, field);
    assert HolderFilling(holders[key], ToldMid(added, compact, o, k, todo, key));
    assert ps + [] == ps;
    OwnPrepared(cs, o, field);
    TellHolder(holders[key], cs, ps, OwnPostings(o, field));
    forall other | other in holders && other != key
      ensures HolderFilling(holders[other], ToldMid(added, compact, o, k, todo - {field}, other))
    {
      assert old(HolderFilling(holders[other], ToldMid(added, compact, o, k, todo, other)));
    }
  }

  /** A field without expressions has nothing to be told. */
  lemma NothingToTell(holders: map<NumKey, RangeHolder>, added: seq<MixedOrigin>, compact: bool, o: MixedOrigin, k: nat,
                      todo: set<BEField>, field: BEField)
    requires AllRoom(added) && HasRoom(o) && Telling(holders, added, compact, o, k, todo)
    requires field in o.conj.numbers && o.conj.numbers[field] == []
    ensures Telling(holders, added, compact, o, k, todo - {field})
  {
    forall key | key in holders
      ensures ToldMid(added, compact, o, k, todo - {field}, key) == ToldMid(added, compact, o, k, todo, key)
    {
    }
  }

  /** The objects that the holders are made of. */
  ghost function Parts(holders: map<NumKey, RangeHolder>): set<object> {
    (set h | h in holders.Values :: h as object) + set h | h in holders.Values :: h.rangeIdx as object
  }

  /** A field without a holder in a container has nothing there. */
  ghost predicate NothingElse(holders: map<NumKey, RangeHolder>, nf: set<BEField>, added: seq<MixedOrigin>,
                              compact: bool)
    requires AllRoom(added)
  {
    forall k, f :: f in nf && NumKey(k, f) !in holders ==> HolderPostings(added, compact, k, f) == []
  }

  method TellFields(holders: map<NumKey, RangeHolder>, k: nat, all: map<BEField, seq<Commit>>,
                    ghost added: seq<MixedOrigin>, ghost compact: bool, ghost o: MixedOrigin)
    requires AllRoom(added) && HasRoom(o) && Separated(holders) && all.Keys == o.conj.numbers.Keys
    requires Telling(holders, added, compact, o, k, all.Keys)
    requires forall f :: f in all ==> NumPrepared(all[f], o.conj.numbers[f], MixedId(o))
    requires forall f :: f in all && all[f] != [] ==> NumKey(k, f) in holders
    modifies Parts(holders)
    ensures Telling(holders, added, compact, o, k, {})
  {
    var todo := all.Keys;
    while todo != {}
      invariant todo <= all.Keys && Telling(holders, added, compact, o, k, todo)
      decreases todo
    {
      var field :| field in todo;
      if all[field] != [] {
        PartOf(holders, NumKey(k, field));
        TellField(holders, k, field, all[field], added, compact, o, todo);
      } else {
        NothingToTell(holders, added, compact, o, k, todo, field);
      }
      todo := todo - {field};
    }
  }

  lemma PartOf(holders: map<NumKey, RangeHolder>, key: NumKey)
    requires key in holders
    ensures holders[key] in Parts(holders) && holders[key].rangeIdx in Parts(holders)
  {
    assert holders[key] in holders.Values;
  }

  /** Tells the holders of one more conjunction, visiting its number fields in any order. */
  method TellAll(holders: map<NumKey, RangeHolder>, k: nat, all: map<BEField, seq<Commit>>, ghost nf: set<BEField>,
                 ghost added: seq<MixedOrigin>, ghost compact: bool, ghost o: MixedOrigin)
    requires Filling(holders, nf, added, compact) && HasRoom(o) && MixedHolder(o, compact) == k
    requires o.conj.numbers.Keys <= nf && all.Keys == o.conj.numbers.Keys
    requires forall f :: f in all ==> NumPrepared(all[f], o.conj.numbers[f], MixedId(o))
    requires forall f :: f in all && all[f] != [] ==> NumKey(k, f) in holders
    modifies Parts(holders)
    ensures Filling(holders, nf, added + [o], compact)
  {
    assert NothingElse(holders, nf, added, compact);
    TellingStarts(holders, nf, added, compact, o, k);
    TellFields(holders, k, all, added, compact, o);
    TellingEnds(holders, nf, added, compact, o, k);
  }

  // ----- the values

  /** What has been committed for values is what was added. */
  ghost predicate ValueSide(builder: IndexerBuilder, nf: set<BEField>, added: seq<MixedOrigin>)
    reads builder, builder.indexer
  {
    && builder.FieldsKept() && builder.indexer.compact == builder.compact && builder.indexer.Valid()
    && nf <= builder.fieldsData.Keys && Settled(added, builder.fieldsData, nf)
    && CommittedAll(builder.indexer.committed, added, builder.fieldsData, builder.compact)
  }

  lemma SettledLater(added: seq<MixedOrigin>, cds: seq<ConjIndexingData>, fields: Fields, later: Fields,
                     nf: set<BEField>, compact: bool)
    requires Settled(added, fields, nf) && CommittedAll(cds, added, fields, compact) && Extends(later, fields)
    requires nf <= fields.Keys
    ensures nf <= later.Keys && Settled(added, later, nf) && CommittedAll(cds, added, later, compact)
  {
    assert nf <= later.Keys;
    forall i | 0 <= i < |added|
      ensures MixedKnown(added[i], later, nf) && CommittedAs(cds[i], added[i], later, compact)
    {
      assert MixedKnown(added[i], fields, nf) && CommittedAs(cds[i], added[i], fields, compact);
      PreparesLater(cds[i].fieldData, added[i].conj.values, fields, later, MixedHolder(added[i], compact),
                    cds[i].conjID);
    }
  }

  lemma SettledMore(added: seq<MixedOrigin>, cds: seq<ConjIndexingData>, o: MixedOrigin, cd: ConjIndexingData,
                    fields: Fields, nf: set<BEField>, compact: bool)
    requires Settled(added, fields, nf) && CommittedAll(cds, added, fields, compact)
    requires MixedKnown(o, fields, nf) && CommittedAs(cd, o, fields, compact)
    requires forall i :: 0 <= i < |added| ==> added[i].doc != o.doc || added[i].idx != o.idx
    ensures Settled(added + [o], fields, nf) && CommittedAll(cds + [cd], added + [o], fields, compact)
  {
    var cds', added' := cds + [cd], added + [o];
    forall i | 0 <= i < |added'|
      ensures MixedKnown(added'[i], fields, nf) && CommittedAs(cds'[i], added'[i], fields, compact)
    {
      if i < |added| {
        assert added'[i] == added[i] && cds'[i] == cds[i];
      }
    }
  }

  /** Prepares the values of a mixed conjunction; nothing is committed, whatever the outcome. */
  method PrepareValues(builder: IndexerBuilder, o: MixedOrigin, size: nat, id: ConjID, ghost nf: set<BEField>,
                       ghost added: seq<MixedOrigin>)
    returns (outcome: Outcome, cd: ConjIndexingData)
    requires ValueSide(builder, nf, added) && Apart(o.conj, nf) && HasRoom(o)
    requires size == MixedSize(o) && id == MixedId(o)
    modifies builder`fieldsData, builder`names, builder`schemaHash, builder`docLevelCache, builder.indexer`containers
    ensures ValueSide(builder, nf, added)
    ensures outcome.Ok? ==> CommittedAs(cd, o, builder.fieldsData, builder.compact) && builder.indexer.Fits(cd)
    ensures outcome.Ok? ==> MixedKnown(o, builder.fieldsData, nf)
    ensures outcome.Ok? <==> EqOnly(o.conj.values) && Tokenizable(o.conj.values)
    ensures (outcome.Error? ==> !Tokenizable(o.conj.values)) && (outcome.Panic? ==> !EqOnly(o.conj.values))
  {
    ghost var before := builder.fieldsData;
    var k := builder.indexer.NewContainer(size);
    builder.indexer.StillHolds();
    var txs;
    outcome, txs := builder.PrepareFields(k, id, o.conj.values);
    SettledLater(added, builder.indexer.committed, before, builder.fieldsData, nf, builder.compact);
    cd := ConjIndexingData(o.idx, size, id, txs);
    if outcome.Ok? {
      forall f | f in o.conj.values.expressions && o.conj.values.expressions[f] != []
        ensures f in builder.fieldsData
      {
      }
    }
  }

  method CommitValues(builder: IndexerBuilder, o: MixedOrigin, cd: ConjIndexingData, ghost nf: set<BEField>,
                      ghost added: seq<MixedOrigin>)
    requires ValueSide(builder, nf, added) && CommittedAs(cd, o, builder.fieldsData, builder.compact)
    requires builder.indexer.Fits(cd) && MixedKnown(o, builder.fieldsData, nf)
    requires forall i :: 0 <= i < |added| ==> added[i].doc != o.doc || added[i].idx != o.idx
    modifies builder.indexer`containers, builder.indexer`wildcardEntries, builder.indexer`committed
    ensures ValueSide(builder, nf, added + [o])
  {
    SettledMore(added, builder.indexer.committed, o, cd, builder.fieldsData, nf, builder.compact);
    builder.indexer.CommitConjIndexingData(cd);
  }

  // ----- adding conjunctions and documents

  /** Every number expression stands for the range it parses to. */
  ghost predicate ConjFaithful(mc: MixedConj) {
    forall f :: f in mc.numbers ==> NumFits(mc.numbers[f])
  }

  /** The conjunction can be indexed. */
  ghost predicate Indexable(o: MixedOrigin, small: Range -> bool) {
    && HasRoom(o) && EqOnly(o.conj.values) && Tokenizable(o.conj.values)
    && forall f :: f in o.conj.numbers ==> NumsPreparable(o.conj.numbers[f], small)
  }

  /** Preparing the conjunction may be an error: some value cannot be tokenized, or some number not be parsed. */
  ghost predicate MayErr(o: MixedOrigin) {
    && HasRoom(o)
    && (!Tokenizable(o.conj.values)
        || exists f, x :: f in o.conj.numbers && 0 <= x < |o.conj.numbers[f]| && NumErrs(o.conj.numbers[f][x].expr))
  }

  /** Preparing the conjunction may panic: it has no id, a value has another operator than EQ, or a range that ends
      before it starts is spelt out. */
  ghost predicate MayPanic(o: MixedOrigin, small: Range -> bool) {
    || !HasRoom(o) || !EqOnly(o.conj.values)
    || exists f, x :: f in o.conj.numbers && 0 <= x < |o.conj.numbers[f]| && NumTrips(o.conj.numbers[f][x].expr, small)
  }

  /** How preparing the conjunction can end. */
  ghost predicate MayEnd(o: MixedOrigin, small: Range -> bool, outcome: Outcome) {
    && (outcome.Ok? <==> Indexable(o, small))
    && (outcome.Error? ==> MayErr(o)) && (outcome.Panic? ==> MayPanic(o, small))
  }

  lemma NumbersEnd(o: MixedOrigin, small: Range -> bool, outcome: Outcome)
    requires HasRoom(o) && !outcome.Ok? && exists f :: f in o.conj.numbers && NumsEnd(o.conj.numbers[f], small, outcome)
    ensures (outcome.Error? ==> MayErr(o)) && (outcome.Panic? ==> MayPanic(o, small))
  {
    var f :| f in o.conj.numbers && NumsEnd(o.conj.numbers[f], small, outcome);
    if outcome.Error? {
      var x :| 0 <= x < |o.conj.numbers[f]| && NumErrs(o.conj.numbers[f][x].expr);
    } else {
      var x :| 0 <= x < |o.conj.numbers[f]| && NumTrips(o.conj.numbers[f][x].expr, small);
    }
  }

  lemma FaithfulMore(added: seq<MixedOrigin>, o: MixedOrigin)
    requires AllFaithful(added) && ConjFaithful(o.conj)
    ensures AllFaithful(added + [o])
  {
    var all := added + [o];
    forall i, f, x | 0 <= i < |all| && f in all[i].conj.numbers && 0 <= x < |all[i].conj.numbers[f]|
      ensures Faithful(all[i].conj.numbers[f][x].expr)
    {
      if i < |added| {
        assert all[i] == added[i];
      } else {
        assert NumFits(o.conj.numbers[f]);
      }
    }
  }

  /** Prepares a conjunction whole: its id, its values, its numbers.  Nothing is committed. */
  method PrepareMixed(builder: IndexerBuilder, o: MixedOrigin, small: Range -> bool, ghost nf: set<BEField>,
                      ghost added: seq<MixedOrigin>)
    returns (outcome: Outcome, cd: ConjIndexingData, all: map<BEField, seq<Commit>>)
    requires ValueSide(builder, nf, added) && Apart(o.conj, nf) && ConjFaithful(o.conj)
    modifies builder`fieldsData, builder`names, builder`schemaHash, builder`docLevelCache, builder.indexer`containers
    ensures ValueSide(builder, nf, added)
    ensures MayEnd(o, small, outcome)
    ensures outcome.Ok? ==> CommittedAs(cd, o, builder.fieldsData, builder.compact) && builder.indexer.Fits(cd)
    ensures outcome.Ok? ==> MixedKnown(o, builder.fieldsData, nf) && all.Keys == o.conj.numbers.Keys
    ensures outcome.Ok? ==> forall f :: f in all ==> NumPrepared(all[f], o.conj.numbers[f], MixedId(o))
  {
    all := map[];
    var size := CalcMixedSize(o.conj, nf);
    if !InRange(o.doc, o.idx, size) {
      return Panic, ConjIndexingData(0, 0, 0, []), all;
    }
    var id := NewConjID(o.doc, o.idx, size);
    outcome, cd := PrepareValues(builder, o, size, id, nf, added);
    if outcome.Ok? {
      outcome, all := PrepareNumbers(o.conj.numbers, id, small);
      if !outcome.Ok? {
        NumbersEnd(o, small, outcome);
      }
    }
  }

  /** The later holders are the earlier ones, and others made since. */
  twostate predicate Newer(earlier: map<NumKey, RangeHolder>, new later: map<NumKey, RangeHolder>) {
    forall key :: key in later ==>
      (key in earlier && later[key] == earlier[key]) || (fresh(later[key]) && fresh(later[key].rangeIdx))
  }

  /** Prepares a conjunction whole, then commits its values; its numbers are ready to be told. */
  method AddValues(builder: IndexerBuilder, o: MixedOrigin, small: Range -> bool, ghost nf: set<BEField>,
                   ghost added: seq<MixedOrigin>)
    returns (outcome: Outcome, k: nat, all: map<BEField, seq<Commit>>)
    requires ValueSide(builder, nf, added) && Apart(o.conj, nf) && ConjFaithful(o.conj)
    requires forall i :: 0 <= i < |added| ==> added[i].doc != o.doc || added[i].idx != o.idx
    modifies builder`fieldsData, builder`names, builder`schemaHash, builder`docLevelCache
    modifies builder.indexer`containers, builder.indexer`wildcardEntries, builder.indexer`committed
    ensures MayEnd(o, small, outcome)
    ensures ValueSide(builder, nf, if outcome.Ok? then added + [o] else added)
    ensures outcome.Ok? ==> k == MixedHolder(o, builder.compact) && all.Keys == o.conj.numbers.Keys
    ensures outcome.Ok? ==> forall f :: f in all ==> NumPrepared(all[f], o.conj.numbers[f], MixedId(o))
  {
    var cd;
    outcome, cd, all := PrepareMixed(builder, o, small, nf, added);
    k := builder.indexer.ContainerOf(cd.incSize);
    if outcome.Ok? {
      CommitValues(builder, o, cd, nf, added);
    }
  }

  /** Tells the holders of a conjunction, creating those that are missing. */
  method TellNew(holders: map<NumKey, RangeHolder>, k: nat, all: map<BEField, seq<Commit>>, ghost nf: set<BEField>,
                 ghost added: seq<MixedOrigin>, ghost compact: bool, ghost o: MixedOrigin)
    returns (hs: map<NumKey, RangeHolder>)
    requires Filling(holders, nf, added, compact) && HasRoom(o) && MixedHolder(o, compact) == k
    requires o.conj.numbers.Keys <= nf && all.Keys == o.conj.numbers.Keys
    requires forall f :: f in all ==> NumPrepared(all[f], o.conj.numbers[f], MixedId(o))
    modifies Parts(holders)
    ensures Filling(hs, nf, added + [o], compact) && Newer(holders, hs)
  {
    var told := set f | f in all && all[f] != [];
    hs := CreateHolders(holders, k, told, nf, added, compact);
    PartsNewer(holders, hs);
    TellAll(hs, k, all, nf, added, compact, o);
  }

  twostate lemma PartsNewer(holders: map<NumKey, RangeHolder>, new hs: map<NumKey, RangeHolder>)
    requires Newer(holders, hs)
    ensures forall p :: p in Parts(hs) ==> p in Parts(holders) || fresh(p)
  {
    forall p | p in Parts(hs)
      ensures p in Parts(holders) || fresh(p)
    {
      var key :| key in hs && (p == hs[key] || p == hs[key].rangeIdx);
      if key in holders && hs[key] == holders[key] {
        PartOf(holders, key);
      }
    }
  }

  lemma PartsApart(holders: map<NumKey, RangeHolder>, builder: IndexerBuilder)
    ensures builder !in Parts(holders) && builder.indexer !in Parts(holders)
  {
  }

  /** Tells the holders, which leaves the values as they are. */
  method TellBeside(builder: IndexerBuilder, holders: map<NumKey, RangeHolder>, k: nat, all: map<BEField, seq<Commit>>,
                    ghost nf: set<BEField>, ghost added: seq<MixedOrigin>, ghost o: MixedOrigin)
    returns (hs: map<NumKey, RangeHolder>)
    requires ValueSide(builder, nf, added + [o]) && Filling(holders, nf, added, builder.compact)
    requires HasRoom(o) && MixedHolder(o, builder.compact) == k
    requires o.conj.numbers.Keys <= nf && all.Keys == o.conj.numbers.Keys
    requires forall f :: f in all ==> NumPrepared(all[f], o.conj.numbers[f], MixedId(o))
    modifies Parts(holders)
    ensures ValueSide(builder, nf, added + [o]) && Filling(hs, nf, added + [o], builder.compact) && Newer(holders, hs)
  {
    PartsApart(holders, builder);
    hs := TellNew(holders, k, all, nf, added, builder.compact, o);
  }

  /** Adds the values, which leaves the holders as they are. */
  method AddBeside(builder: IndexerBuilder, ghost holders: map<NumKey, RangeHolder>, o: MixedOrigin,
                   small: Range -> bool, ghost nf: set<BEField>, ghost added: seq<MixedOrigin>)
    returns (outcome: Outcome, k: nat, all: map<BEField, seq<Commit>>)
    requires ValueSide(builder, nf, added) && Filling(holders, nf, added, builder.compact)
    requires Apart(o.conj, nf) && ConjFaithful(o.conj)
    requires forall i :: 0 <= i < |added| ==> added[i].doc != o.doc || added[i].idx != o.idx
    modifies builder`fieldsData, builder`names, builder`schemaHash, builder`docLevelCache
    modifies builder.indexer`containers, builder.indexer`wildcardEntries, builder.indexer`committed
    ensures MayEnd(o, small, outcome)
    ensures ValueSide(builder, nf, if outcome.Ok? then added + [o] else added)
    ensures Filling(holders, nf, added, builder.compact)
    ensures outcome.Ok? ==> k == MixedHolder(o, builder.compact) && all.Keys == o.conj.numbers.Keys
    ensures outcome.Ok? ==> forall f :: f in all ==> NumPrepared(all[f], o.conj.numbers[f], MixedId(o))
  {
    outcome, k, all := AddValues(builder, o, small, nf, added);
  }

  /** Adds one conjunction, all of it or none of it. */
  method AddMixed(builder: IndexerBuilder, holders: map<NumKey, RangeHolder>, o: MixedOrigin, small: Range -> bool,
                  ghost nf: set<BEField>, ghost added: seq<MixedOrigin>)
    returns (outcome: Outcome, hs: map<NumKey, RangeHolder>, ghost added': seq<MixedOrigin>)
    requires ValueSide(builder, nf, added) && Filling(holders, nf, added, builder.compact)
    requires Apart(o.conj, nf) && ConjFaithful(o.conj)
    requires forall i :: 0 <= i < |added| ==> added[i].doc != o.doc || added[i].idx != o.idx
    modifies builder`fieldsData, builder`names, builder`schemaHash, builder`docLevelCache
    modifies builder.indexer`containers, builder.indexer`wildcardEntries, builder.indexer`committed, Parts(holders)
    ensures MayEnd(o, small, outcome)
    ensures added' == if outcome.Ok? then added + [o] else added
    ensures ValueSide(builder, nf, added') && Filling(hs, nf, added', builder.compact) && Newer(holders, hs)
  {
    var k, all;
    outcome, k, all := AddBeside(builder, holders, o, small, nf, added);
    if outcome.Ok? {
      hs := TellBeside(builder, holders, k, all, nf, added, o);
      added' := added + [o];
    } else {
      hs, added' := holders, added;
    }
  }

  /** Both sides hold what was added, and every number expression of it stands for the range it parses to. */
  ghost predicate Building(builder: IndexerBuilder, holders: map<NumKey, RangeHolder>, nf: set<BEField>,
                           added: seq<MixedOrigin>)
    reads builder, builder.indexer, holders.Values, set h | h in holders.Values :: h.rangeIdx
  {
    ValueSide(builder, nf, added) && Filling(holders, nf, added, builder.compact) && AllFaithful(added)
  }

  ghost predicate DocFits(doc: MixedDoc, nf: set<BEField>) {
    forall i :: 0 <= i < |doc.cons| ==> Apart(doc.cons[i], nf) && ConjFaithful(doc.cons[i])
  }

  /** Of this document only conjunctions before the `n`th were added. */
  ghost predicate Unseen(added: seq<MixedOrigin>, id: DocID, n: nat) {
    forall i :: 0 <= i < |added| ==> added[i].doc != id || added[i].idx < n
  }

  function OriginAt(doc: MixedDoc, i: nat): MixedOrigin
    requires i < |doc.cons|
  {
    MixedOrigin(doc.id, i, doc.cons[i])
  }

  ghost function Fit(small: Range -> bool): MixedOrigin -> bool {
    o => Indexable(o, small)
  }

  /** The conjunction cannot panic. */
  ghost function Calm(small: Range -> bool): MixedOrigin -> bool {
    o => !MayPanic(o, small)
  }

  /** The conjunction is added, or skipped for an error. */
  ghost function Passable(small: Range -> bool): MixedOrigin -> bool {
    o => Indexable(o, small) || MayErr(o)
  }

  /** What was added before, and then the good ones among the first `n` conjunctions of a document. */
  ghost function Goods(before: seq<MixedOrigin>, doc: MixedDoc, n: nat, good: MixedOrigin -> bool): seq<MixedOrigin>
    requires n <= |doc.cons|
  {
    if n == 0 then before
    else Goods(before, doc, n - 1, good) + if good(OriginAt(doc, n - 1)) then [OriginAt(doc, n - 1)] else []
  }

  /** The first `n` conjunctions are all good. */
  ghost predicate AllTo(doc: MixedDoc, n: nat, good: MixedOrigin -> bool)
    requires n <= |doc.cons|
  {
    forall i :: 0 <= i < n ==> good(OriginAt(doc, i))
  }

  ghost predicate GoodAt(doc: MixedDoc, j: nat, good: MixedOrigin -> bool) {
    j < |doc.cons| && good(OriginAt(doc, j))
  }

  lemma {:induction false} GoodsFrom(before: seq<MixedOrigin>, doc: MixedDoc, n: nat, good: MixedOrigin -> bool, p: nat)
    returns (j: nat)
    requires n <= |doc.cons| && p < |Goods(before, doc, n, good)|
    ensures p < |before| ==> Goods(before, doc, n, good)[p] == before[p]
    ensures p >= |before| ==> j < n && GoodAt(doc, j, good) && Goods(before, doc, n, good)[p] == OriginAt(doc, j)
  {
    if n == 0 {
      j := 0;
    } else if p < |Goods(before, doc, n - 1, good)| {
      j := GoodsFrom(before, doc, n - 1, good, p);
    } else {
      GoodsKeep(before, doc, n - 1, good);
      j := n - 1;
    }
  }

  lemma {:induction false} GoodsKeep(before: seq<MixedOrigin>, doc: MixedDoc, n: nat, good: MixedOrigin -> bool)
    requires n <= |doc.cons|
    ensures before <= Goods(before, doc, n, good)
  {
    if n > 0 {
      GoodsKeep(before, doc, n - 1, good);
    }
  }

  lemma GoodsUnseen(before: seq<MixedOrigin>, doc: MixedDoc, n: nat, good: MixedOrigin -> bool)
    requires n <= |doc.cons| && Unseen(before, doc.id, 0)
    ensures Unseen(Goods(before, doc, n, good), doc.id, n)
  {
    var added := Goods(before, doc, n, good);
    forall p | 0 <= p < |added|
      ensures added[p].doc != doc.id || added[p].idx < n
    {
      var j := GoodsFrom(before, doc, n, good, p);
    }
  }

  /** The holders are made of these objects, and the builder is not. */
  ghost predicate MadeOf(mine: set<object>, holders: map<NumKey, RangeHolder>, builder: IndexerBuilder)
    reads builder
  {
    && builder !in mine && builder.indexer !in mine
    && forall key :: key in holders ==> holders[key] in mine && holders[key].rangeIdx in mine
  }

  /** The objects are the earlier ones, and others made since. */
  twostate predicate Grown(earlier: set<object>, new later: set<object>) {
    forall p :: p in later ==> p in earlier || fresh(p)
  }

  lemma PartsWithin(mine: set<object>, holders: map<NumKey, RangeHolder>, builder: IndexerBuilder)
    requires MadeOf(mine, holders, builder)
    ensures Parts(holders) <= mine
  {
  }

  lemma MadeOfParts(holders: map<NumKey, RangeHolder>, builder: IndexerBuilder)
    ensures MadeOf(Parts(holders), holders, builder)
  {
    PartsApart(holders, builder);
    forall key | key in holders
      ensures holders[key] in Parts(holders) && holders[key].rangeIdx in Parts(holders)
    {
      PartOf(holders, key);
    }
  }

  /** Adds the next conjunction of a document; one that cannot be indexed is skipped, unless it panics. */
  method AddNext(builder: IndexerBuilder, holders: map<NumKey, RangeHolder>, doc: MixedDoc, n: nat,
                 small: Range -> bool, ghost nf: set<BEField>, ghost before: seq<MixedOrigin>,
                 ghost added: seq<MixedOrigin>, ghost mine: set<object>)
    returns (ok: bool, hs: map<NumKey, RangeHolder>, ghost added': seq<MixedOrigin>, ghost mine': set<object>)
    requires Building(builder, holders, nf, added) && MadeOf(mine, holders, builder)
    requires DocFits(doc, nf) && n < |doc.cons|
    requires added == Goods(before, doc, n, Fit(small)) && Unseen(before, doc.id, 0)
    modifies builder`fieldsData, builder`names, builder`schemaHash, builder`docLevelCache
    modifies builder.indexer`containers, builder.indexer`wildcardEntries, builder.indexer`committed, mine
    ensures Building(builder, hs, nf, added') && MadeOf(mine', hs, builder) && Grown(mine, mine')
    ensures ok ==> added' == Goods(before, doc, n + 1, Fit(small))
    ensures if ok then Passable(small)(OriginAt(doc, n)) else !Calm(small)(OriginAt(doc, n))
  {
    var outcome;
    var o := OriginAt(doc, n);
    PartsWithin(mine, holders, builder);
    GoodsUnseen(before, doc, n, Fit(small));
    outcome, hs, added' := AddMixed(builder, holders, o, small, nf, added);
    FaithfulMore(added, o);
    assert Fit(small)(o) == Indexable(o, small) && Calm(small)(o) == !MayPanic(o, small);
    assert Passable(small)(o) == (Indexable(o, small) || MayErr(o));
    PartsNewer(holders, hs);
    MadeOfParts(hs, builder);
    mine' := Parts(hs);
    ok := !outcome.Panic?;
  }

  /** Adds a document, conjunction by conjunction. */
  method AddConjs(builder: IndexerBuilder, holders: map<NumKey, RangeHolder>, doc: MixedDoc, small: Range -> bool,
                  ghost nf: set<BEField>, ghost added: seq<MixedOrigin>, ghost parts: set<object>)
    returns (ok: bool, hs: map<NumKey, RangeHolder>, ghost added': seq<MixedOrigin>, ghost mine: set<object>)
    requires Building(builder, holders, nf, added) && DocFits(doc, nf) && Unseen(added, doc.id, 0)
    requires MadeOf(parts, holders, builder)
    modifies builder`fieldsData, builder`names, builder`schemaHash, builder`docLevelCache
    modifies builder.indexer`containers, builder.indexer`wildcardEntries, builder.indexer`committed, parts
    ensures Building(builder, hs, nf, added') && MadeOf(mine, hs, builder) && Grown(parts, mine)
    ensures ok ==> added' == Goods(added, doc, |doc.cons|, Fit(small))
    ensures if ok then AllTo(doc, |doc.cons|, Passable(small))
            else exists i :: 0 <= i < |doc.cons| && !Calm(small)(OriginAt(doc, i))
  {
    ok, hs, added', mine := true, holders, added, parts;
    var n := 0;
    while n < |doc.cons| && ok
      invariant 0 <= n <= |doc.cons| && builder.indexer == old(builder.indexer)
      invariant Building(builder, hs, nf, added') && MadeOf(mine, hs, builder) && Grown(parts, mine)
      invariant if ok then added' == Goods(added, doc, n, Fit(small)) && AllTo(doc, n, Passable(small))
                else n > 0 && !Calm(small)(OriginAt(doc, n - 1))
    {
      ok, hs, added', mine := AddNext(builder, hs, doc, n, small, nf, added, added', mine);
      n := n + 1;
    }
  }
}
