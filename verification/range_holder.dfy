/** The number holder: single values in a map, ranges in a segment list
    (holder/rangeholder/term_ext_range_holder.go). */
module RangeHolders {
  import opened IdTypes
  import opened Documents
  import opened IndexScanner
  import opened BEIndexes
  import opened IndexBuilders
  import opened RangeIdxs
  import opened Retrieval

  /** An expression on a number field, its value already parsed. */
  datatype NumExpr =
    | EqIn(ids: seq<int>)
    | Gt(n: int)
    | Lt(n: int)
    | Btw(l: int, h: int)
    | Unparsable

  predicate Int64(x: int) {
    MIN_INT64 <= x <= MAX_INT64
  }

  predicate Fits64(e: NumExpr) {
    match e
    case EqIn(ids) => forall i :: 0 <= i < |ids| ==> Int64(ids[i])
    case Gt(n) => Int64(n)
    case Lt(n) => Int64(n)
    case Btw(l, h) => Int64(l) && Int64(h)
    case Unparsable => true
  }

  /** The numbers an expression stands for; `between` is closed on the left and open on the right. */
  predicate Denotes(e: NumExpr, v: int) {
    match e
    case EqIn(ids) => v in ids
    case Gt(n) => v > n
    case Lt(n) => v < n
    case Btw(l, h) => l <= v < h || (l == h && v == l)
    case Unparsable => false
  }

  function ParseRange(e: NumExpr): Option<Range> {
    match e
    case Btw(l, h) => if l > h then None else Some(NewRange(l, h))
    case Lt(n) => Some(NewRange(MIN_INT64, n))
    case Gt(n) => Some(NewRange(Inc(n), MAX_INT64))
    case EqIn(_) => None
    case Unparsable => None
  }

  /** A parsed range contains the numbers its expression stands for, below the largest one, except that
      `< MinInt64` takes in MinInt64 and `> MaxInt64` wraps around to everything. */
  lemma RangeDenotes(e: NumExpr)
    requires Fits64(e) && ParseRange(e).Some?
    ensures (forall v :: MIN_INT64 <= v < MAX_INT64 ==> (ParseRange(e).value.ContainValue(v) <==> Denotes(e, v)))
            <==> e != Lt(MIN_INT64) && e != Gt(MAX_INT64)
  {
    if e == Lt(MIN_INT64) {
      assert ParseRange(e).value.ContainValue(MIN_INT64) && !Denotes(e, MIN_INT64);
    } else if e == Gt(MAX_INT64) {
      assert ParseRange(e).value.ContainValue(0) && !Denotes(e, 0);
    }
  }

  /** Over all 64-bit numbers, the largest one included, the range is right exactly when the expression is not
      a `>`, which loses the largest number, and not one of the two bounds that wrap around. */
  lemma RangeDenotesAll(e: NumExpr)
    requires Fits64(e) && ParseRange(e).Some?
    ensures (forall v :: Int64(v) ==> (ParseRange(e).value.ContainValue(v) <==> Denotes(e, v)))
            <==> !e.Gt? && e != Lt(MIN_INT64) && e != Btw(MAX_INT64, MAX_INT64)
  {
    var rg := ParseRange(e).value;
    if e == Gt(MAX_INT64) {
      assert Int64(0) && rg.ContainValue(0) && !Denotes(e, 0);
    } else if e.Gt? || e == Btw(MAX_INT64, MAX_INT64) {
      assert Int64(MAX_INT64) && !rg.ContainValue(MAX_INT64) && Denotes(e, MAX_INT64);
    } else if e == Lt(MIN_INT64) {
      assert Int64(MIN_INT64) && rg.ContainValue(MIN_INT64) && !Denotes(e, MIN_INT64);
    }
  }

  /** Exactly two expressions parse to a range that ends before it starts. */
  lemma BackwardRanges(e: NumExpr)
    requires Fits64(e) && ParseRange(e).Some?
    ensures ParseRange(e).value.left != ParseRange(e).value.right
    ensures ParseRange(e).value.right < ParseRange(e).value.left <==>
            e == Gt(MAX_INT64 - 1) || e == Btw(MAX_INT64, MAX_INT64)
    ensures ParseRange(e).value.right < ParseRange(e).value.left ==> ParseRange(e).value.right == MIN_INT64
  {
  }

  datatype RangeTx = EqTx(values: seq<int>) | RgTx(rg: Range)

  /** The numbers prepared data will be found under, given where the domain starts and ends. */
  ghost predicate TxHas(tx: RangeTx, lo: int, hi: int, v: int) {
    match tx
    case EqTx(values) => v in values
    case RgTx(rg) => rg.left >= lo && rg.ContainValue(v) && lo <= v < hi
  }

  /** Preparing the expression is an error. */
  ghost predicate NumErrs(e: NumExpr) {
    e.Unparsable? || (e.Btw? && e.l > e.h)
  }

  /** Preparing the expression panics: it is spelt out, and its range ends before it starts. */
  ghost predicate NumTrips(e: NumExpr, small: Range -> bool) {
    || (e == Gt(MAX_INT64 - 1) && small(Range(MAX_INT64, MIN_INT64)))
    || (e == Btw(MAX_INT64, MAX_INT64) && small(Range(MAX_INT64, MIN_INT64)))
  }

  /** Prepares an expression.  `small` says which ranges count as small enough to be spelt out; a small
      range that ends before it starts asks for a list of negative capacity. */
  method BuildFieldIndexingData(e: NumExpr, small: Range -> bool) returns (outcome: Outcome, tx: RangeTx)
    requires Fits64(e)
    ensures outcome.Ok? ==> Built(e, tx)
    ensures outcome.Ok? && !e.EqIn? ==> (tx.EqTx? <==> small(ParseRange(e).value))
    ensures (outcome.Error? <==> NumErrs(e)) && (outcome.Panic? <==> NumTrips(e, small))
  {
    tx := EqTx([]);
    if e.EqIn? {
      return Ok, EqTx(e.ids);
    }
    var parsed := ParseRange(e);
    if parsed.None? {
      return Error, tx;
    }
    var rg := parsed.value;
    BackwardRanges(e);
    if !small(rg) {
      return Ok, RgTx(rg);
    }
    if rg.right < rg.left {
      return Panic, tx;
    }
    var values: seq<int> := [];
    var i := rg.left;
    while i < rg.right
      invariant rg.left <= i <= rg.right && |values| == i - rg.left
      invariant forall j :: 0 <= j < |values| ==> values[j] == rg.left + j
      decreases rg.right - i
    {
      values := values + [i];
      i := i + 1;
    }
    return Ok, EqTx(values);
  }

  /** `tx` prepares `e`, spelt out or as a range. */
  ghost predicate Built(e: NumExpr, tx: RangeTx) {
    match e
    case EqIn(ids) => tx == EqTx(ids)
    case _ =>
      && ParseRange(e).Some?
      && (tx == RgTx(ParseRange(e).value) || (tx.EqTx? && SpeltOut(tx.values, ParseRange(e).value)))
  }

  ghost predicate SpeltOut(values: seq<int>, rg: Range) {
    rg.left < rg.right && |values| == rg.right - rg.left && forall j :: 0 <= j < |values| ==> values[j] == rg.left + j
  }

  /** Spelling a range out does not change where it is found, as long as it starts inside the domain. */
  lemma ThresholdUnobservable(e: NumExpr, tx: RangeTx, lo: int, hi: int, v: int)
    requires Built(e, tx) && lo <= v < hi
    requires ParseRange(e).Some? ==> ParseRange(e).value.left >= lo
    ensures TxHas(tx, lo, hi, v) <==> if e.EqIn? then v in e.ids else ParseRange(e).value.ContainValue(v)
  {
    if tx.EqTx? && !e.EqIn? {
      var rg := ParseRange(e).value;
      if rg.ContainValue(v) {
        assert tx.values[v - rg.left] == v;
      }
    }
  }

  /** A domain that starts at `lo` finds a range everywhere the range says exactly when the range does not start
      below the domain and reach into it: such a range is dropped, not clipped. */
  lemma DomainIsNotClipped(rg: Range, lo: int, hi: int)
    requires lo < hi
    ensures (forall v :: lo <= v < hi ==> (TxHas(RgTx(rg), lo, hi, v) <==> rg.ContainValue(v)))
            <==> rg.left >= lo || rg.right <= lo
  {
    if rg.left < lo < rg.right {
      assert rg.ContainValue(lo) && !TxHas(RgTx(rg), lo, hi, lo);
    }
  }

  /** A range form and a spelt-out form differ exactly when the range starts below the domain and reaches into it. */
  lemma ThresholdObservable(rg: Range, values: seq<int>, lo: int, hi: int)
    requires SpeltOut(values, rg) && lo < hi
    ensures (forall v :: lo <= v < hi ==> (TxHas(RgTx(rg), lo, hi, v) <==> TxHas(EqTx(values), lo, hi, v)))
            <==> rg.left >= lo || rg.right <= lo
  {
    forall v
      ensures v in values <==> rg.ContainValue(v)
    {
      if rg.ContainValue(v) {
        assert values[v - rg.left] == v;
      }
    }
    if rg.left < lo < rg.right {
      assert TxHas(EqTx(values), lo, hi, lo) && !TxHas(RgTx(rg), lo, hi, lo);
    }
  }

  /** Under the default domain an expression is found under the numbers it stands for. */
  lemma FoundWhereDenoted(e: NumExpr, tx: RangeTx, v: int)
    requires Fits64(e) && Built(e, tx) && MIN_INT64 <= v < MAX_INT64
    requires e != Lt(MIN_INT64) && e != Gt(MAX_INT64)
    ensures TxHas(tx, MIN_INT64, MAX_INT64, v) <==> Denotes(e, v)
  {
    ThresholdUnobservable(e, tx, MIN_INT64, MAX_INT64, v);
    if !e.EqIn? {
      RangeDenotes(e);
    }
  }

  // ----- the holder

  /** Prepared data holds a proper range, or one that ends at the smallest number and starts above it. */
  predicate Committable(tx: RangeTx) {
    tx.RgTx? ==> tx.rg.left < tx.rg.right || tx.rg.right == MIN_INT64 < tx.rg.left
  }

  lemma BuiltIsCommittable(e: NumExpr, tx: RangeTx)
    requires Fits64(e) && Built(e, tx)
    ensures Committable(tx)
  {
    if tx.RgTx? {
      BackwardRanges(e);
    }
  }

  datatype Commit = Commit(tx: RangeTx, eid: EntryID)

  /** The entries committed under a single value, in order. */
  ghost function EqList(cs: seq<Commit>, v: int): Entries {
    if cs == [] then []
    else EqList(cs[..|cs| - 1], v)
         + if cs[|cs| - 1].tx.EqTx? && v in cs[|cs| - 1].tx.values then [cs[|cs| - 1].eid] else []
  }

  /** The ranges committed, in order. */
  ghost function RangeCalls(cs: seq<Commit>): seq<Indexed> {
    if cs == [] then []
    else
      var last := cs[|cs| - 1];
      RangeCalls(cs[..|cs| - 1]) + if last.tx.RgTx? then [Indexed(last.tx.rg.left, last.tx.rg.right, last.eid)] else []
  }

  lemma {:induction false} InEqList(cs: seq<Commit>, v: int, e: EntryID)
    ensures e in EqList(cs, v) <==>
            exists i :: 0 <= i < |cs| && cs[i].tx.EqTx? && v in cs[i].tx.values && cs[i].eid == e
  {
    if cs != [] {
      InEqList(cs[..|cs| - 1], v, e);
      assert forall i :: 0 <= i < |cs| - 1 ==> cs[..|cs| - 1][i] == cs[i];
    }
  }

  lemma {:induction false} InCovering(cs: seq<Commit>, lo: int, v: int, e: EntryID)
    requires ProperRanges(cs)
    ensures e in Covering(RangeCalls(cs), lo, v) <==>
            exists i :: 0 <= i < |cs| && cs[i].tx.RgTx? && cs[i].tx.rg.left >= lo && cs[i].tx.rg.ContainValue(v)
                && cs[i].eid == e
  {
    if cs != [] {
      var front, last := cs[..|cs| - 1], cs[|cs| - 1];
      assert forall i :: 0 <= i < |front| ==> front[i] == cs[i];
      InCovering(front, lo, v, e);
      if last.tx.RgTx? {
        var calls := RangeCalls(cs);
        assert calls[..|calls| - 1] == RangeCalls(front);
      } else {
        assert RangeCalls(cs) == RangeCalls(front);
      }
    }
  }

  ghost predicate ProperRanges(cs: seq<Commit>) {
    forall i :: 0 <= i < |cs| && cs[i].tx.RgTx? ==> cs[i].tx.rg.left != cs[i].tx.rg.right
  }

  lemma EqListMore(cs: seq<Commit>, tx: RangeTx, eid: EntryID, v: int)
    ensures EqList(cs + [Commit(tx, eid)], v) == EqList(cs, v) + if tx.EqTx? && v in tx.values then [eid] else []
  {
    assert (cs + [Commit(tx, eid)])[..|cs|] == cs;
  }

  lemma RangeCallsMore(cs: seq<Commit>, tx: RangeTx, eid: EntryID)
    ensures RangeCalls(cs + [Commit(tx, eid)])
            == if tx.RgTx? then RangeCalls(cs) + [Indexed(tx.rg.left, tx.rg.right, eid)] else RangeCalls(cs)
  {
    assert (cs + [Commit(tx, eid)])[..|cs|] == cs;
  }

  /** Some commit with entry `e` is found under the value. */
  ghost predicate FoundAt(cs: seq<Commit>, lo: int, hi: int, v: int, e: EntryID) {
    exists i :: 0 <= i < |cs| && TxHas(cs[i].tx, lo, hi, v) && cs[i].eid == e
  }

  /** Some commit with entry `e` is found under one of the values. */
  ghost predicate Finds(cs: seq<Commit>, ids: seq<int>, lo: int, hi: int, e: EntryID) {
    exists j :: 0 <= j < |ids| && FoundAt(cs, lo, hi, ids[j], e)
  }

  function At(pl: map<int, Entries>, v: int): Entries {
    if v in pl then pl[v] else []
  }

  method Pick<T(==)>(s: set<T>) returns (x: T)
    requires s != {}
    ensures x in s
  {
    x :| x in s;
  }

  class RangeHolder {
    const rangeIdx: RangeIdx
    var plEntries: map<int, Entries>
    ghost var committed: seq<Commit>

    function PlAt(v: int): Entries
      reads this`plEntries
    {
      At(plEntries, v)
    }

    /** While building: both parts hold what was committed, in order. */
    ghost predicate Holds()
      reads this, rangeIdx
    {
      && (forall v :: PlAt(v) == EqList(committed, v))
      && rangeIdx.Holds(RangeCalls(committed))
      && ProperRanges(committed) && MIN_INT64 <= rangeIdx.valueMin
    }

    /** Ready for queries: both parts hold what was committed, sorted by entry. */
    ghost predicate Compiled()
      reads this, rangeIdx
    {
      && (forall v :: Ascending(PlAt(v)) && multiset(PlAt(v)) == multiset(EqList(committed, v)))
      && rangeIdx.Compiled(RangeCalls(committed))
      && ProperRanges(committed)
    }

    constructor (min: int, max: int)
      requires MIN_INT64 <= min < max <= MAX_INT64
      ensures Holds() && committed == [] && fresh(rangeIdx) && rangeIdx.valueMin == min && rangeIdx.valueMax == max
    {
      rangeIdx := new RangeIdx(min, max);
      plEntries, committed := map[], [];
    }

    /** Lists the entry once under each distinct value. */
    method CommitValues(values: seq<int>, eid: EntryID)
      modifies this`plEntries
      ensures forall v :: PlAt(v) == old(PlAt(v)) + if v in values then [eid] else []
    {
      var todo := set v | v in values;
      while todo != {}
        invariant todo <= set v | v in values
        invariant forall v :: PlAt(v) == old(PlAt(v)) + if v in values && v !in todo then [eid] else []
        decreases todo
      {
        var id := Pick(todo);
        plEntries := plEntries[id := PlAt(id) + [eid]];
        todo := todo - {id};
      }
    }

    method CommitFieldIndexingData(tx: RangeTx, eid: EntryID)
      requires Holds()
      requires Committable(tx)
      modifies this, rangeIdx`items
      ensures Holds() && committed == old(committed) + [Commit(tx, eid)]
    {
      if tx.EqTx? {
        CommitValues(tx.values, eid);
      } else {
        rangeIdx.IndexingRange(tx.rg.left, tx.rg.right, eid, RangeCalls(committed));
      }
      CommitKeeps(old(committed), tx, eid, old(plEntries));
      committed := committed + [Commit(tx, eid)];
    }

    /** One more commit, seen from the two parts. */
    lemma CommitKeeps(before: seq<Commit>, tx: RangeTx, eid: EntryID, pl: map<int, Entries>)
      requires forall v :: At(pl, v) == EqList(before, v)
      requires forall v :: PlAt(v) == At(pl, v) + if tx.EqTx? && v in tx.values then [eid] else []
      ensures forall v :: PlAt(v) == EqList(before + [Commit(tx, eid)], v)
      ensures RangeCalls(before + [Commit(tx, eid)])
              == if tx.RgTx? then RangeCalls(before) + [Indexed(tx.rg.left, tx.rg.right, eid)] else RangeCalls(before)
    {
      RangeCallsMore(before, tx, eid);
      forall v
        ensures PlAt(v) == EqList(before + [Commit(tx, eid)], v)
      {
        EqListMore(before, tx, eid, v);
      }
    }

    method SortLists()
      modifies this`plEntries
      ensures forall v :: Ascending(PlAt(v)) && multiset(PlAt(v)) == old(multiset(PlAt(v)))
    {
      var todo: set<int> := plEntries.Keys;
      while todo != {}
        invariant todo <= plEntries.Keys
        invariant forall v :: multiset(PlAt(v)) == old(multiset(PlAt(v))) && (v !in todo ==> Ascending(PlAt(v)))
        decreases todo
      {
        var id := Pick(todo);
        var sorted := Sorted(plEntries[id]);
        plEntries := plEntries[id := sorted];
        todo := todo - {id};
      }
    }

    method CompileEntries()
      requires Holds()
      modifies this`plEntries, rangeIdx
      ensures Compiled()
    {
      SortLists();
      rangeIdx.Compile(RangeCalls(committed));
    }

    /** Opens the list of a single value, when there is one. */
    method OpenValue(cs: seq<EntriesCursor>, id: int) returns (r: seq<EntriesCursor>)
      requires Compiled() && Opened(cs)
      ensures Opened(r) && forall c :: c in r ==> c in cs || fresh(c)
      ensures AllEntries(r) == AllEntries(cs) + SetOf(PlAt(id))
    {
      r := cs;
      var entries := PlAt(id);
      if |entries| > 0 {
        var cursor := new EntriesCursor(entries, |cs|);
        r := cs + [cursor];
      }
      AllEntriesMore(cs, r, entries);
    }

    /** Opens the lists of the segments found. */
    method OpenSegments(cs: seq<EntriesCursor>, found: set<nat>) returns (r: seq<EntriesCursor>)
      requires Compiled() && Opened(cs)
      requires forall j :: j in found ==> j < |rangeIdx.rgEntries| && rangeIdx.rgEntries[j].entries != []
      ensures Opened(r) && forall c :: c in r ==> c in cs || fresh(c)
      ensures AllEntries(r) == AllEntries(cs) + Held(rangeIdx.rgEntries, found)
    {
      r := cs;
      var todo := found;
      ghost var done: set<nat> := {};
      while todo != {}
        invariant todo <= found && done == found - todo
        invariant Opened(r) && forall c :: c in r ==> c in cs || fresh(c)
        invariant AllEntries(r) == AllEntries(cs) + Held(rangeIdx.rgEntries, done)
        decreases todo
      {
        var k := Pick(todo);
        var entries := rangeIdx.rgEntries[k].entries;
        ghost var before := r;
        var cursor := new EntriesCursor(entries, |r|);
        r := r + [cursor];
        AllEntriesMore(before, r, entries);
        HeldMore(rangeIdx.rgEntries, done, k);
        todo, done := todo - {k}, done + {k};
      }
      assert done == found;
    }

    /** The segment that holds entries for a value joins those found. */
    method FindSegment(found: set<nat>, id: int) returns (r: set<nat>)
      requires Compiled()
      requires forall j :: j in found ==> j < |rangeIdx.rgEntries| && rangeIdx.rgEntries[j].entries != []
      ensures forall j :: j in r ==> j < |rangeIdx.rgEntries| && rangeIdx.rgEntries[j].entries != []
      ensures Held(rangeIdx.rgEntries, r)
              == Held(rangeIdx.rgEntries, found)
                 + RangeHits(RangeCalls(committed), rangeIdx.valueMin, rangeIdx.valueMax, id)
    {
      r := found;
      var pl := rangeIdx.Retrieve(id, RangeCalls(committed));
      if pl.Some? {
        HeldIsCovering(rangeIdx.rgEntries[pl.value].entries, Covering(RangeCalls(committed), rangeIdx.valueMin, id));
        HeldMore(rangeIdx.rgEntries, found, pl.value);
        if |rangeIdx.rgEntries[pl.value].entries| > 0 {
          r := found + {pl.value};
        }
      }
    }

    /** The entries found under a list of values: exactly those of the commits that hold one of them. */
    method GetEntries(ids: Option<seq<int>>) returns (r: Option<seq<EntriesCursor>>)
      requires Compiled()
      ensures r.None? <==> ids.None?
      ensures r.Some? ==> Opened(r.value) && forall c :: c in r.value ==> fresh(c)
      ensures r.Some? ==> forall e :: e in AllEntries(r.value) <==>
                            Finds(committed, ids.value, rangeIdx.valueMin, rangeIdx.valueMax, e)
    {
      if ids.None? {
        return None;
      }
      var cs, found := LookUpAll(ids.value, rangeIdx.rgEntries, EqSets(plEntries, ids.value), RangeSetsOf(ids.value));
      var all := OpenSegments(cs, found);
      r := Some(all);
      FoundAreCommitted(ids.value);
    }

    /** What the first `n` values hit: the lists opened and the segments found. */
    static ghost predicate LookedUp(cs: seq<EntriesCursor>, found: set<nat>, segments: seq<RangeEntries>,
                                    eqs: seq<set<EntryID>>, ranges: seq<set<EntryID>>, n: nat)
      reads cs
    {
      && n <= |eqs| && n <= |ranges| && Opened(cs)
      && (forall j :: j in found ==> j < |segments| && segments[j].entries != [])
      && AllEntries(cs) == UnionTo(eqs, n) && Held(segments, found) == UnionTo(ranges, n)
    }

    /** The segments of this holder, and what each value hits in its lists and its segments. */
    ghost predicate Looks(ids: seq<int>, segments: seq<RangeEntries>, eqs: seq<set<EntryID>>, ranges: seq<set<EntryID>>)
      reads this, rangeIdx
    {
      segments == rangeIdx.rgEntries && eqs == EqSets(plEntries, ids) && ranges == RangeSetsOf(ids)
    }

    ghost function RangeSetsOf(ids: seq<int>): seq<set<EntryID>>
      reads this
    {
      RangeSets(RangeCalls(committed), rangeIdx.valueMin, rangeIdx.valueMax, ids)
    }

    method LookUp(cs: seq<EntriesCursor>, found: set<nat>, ids: seq<int>, i: nat, ghost segments: seq<RangeEntries>,
                  ghost eqs: seq<set<EntryID>>, ghost ranges: seq<set<EntryID>>)
      returns (cs': seq<EntriesCursor>, found': set<nat>)
      requires Compiled() && Looks(ids, segments, eqs, ranges) && i < |ids|
      requires LookedUp(cs, found, segments, eqs, ranges, i)
      ensures LookedUp(cs', found', segments, eqs, ranges, i + 1) && forall c :: c in cs' ==> c in cs || fresh(c)
    {
      cs' := OpenValue(cs, ids[i]);
      found' := FindSegment(found, ids[i]);
    }

    method LookUpAll(ids: seq<int>, ghost segments: seq<RangeEntries>, ghost eqs: seq<set<EntryID>>,
                     ghost ranges: seq<set<EntryID>>)
      returns (cs: seq<EntriesCursor>, found: set<nat>)
      requires Compiled() && Looks(ids, segments, eqs, ranges)
      ensures LookedUp(cs, found, segments, eqs, ranges, |ids|) && forall c :: c in cs ==> fresh(c)
    {
      cs, found := [], {};
      var i := 0;
      while i < |ids|
        invariant 0 <= i <= |ids| && LookedUp(cs, found, segments, eqs, ranges, i) && forall c :: c in cs ==> fresh(c)
      {
        cs, found := LookUp(cs, found, ids, i, segments, eqs, ranges);
        i := i + 1;
      }
    }

    lemma FoundAreCommitted(ids: seq<int>)
      requires Compiled()
      ensures forall e :: e in UnionTo(EqSets(plEntries, ids), |ids|) + UnionTo(RangeSetsOf(ids), |ids|)
                          <==> Finds(committed, ids, rangeIdx.valueMin, rangeIdx.valueMax, e)
    {
      forall e
        ensures e in UnionTo(EqSets(plEntries, ids), |ids|) + UnionTo(RangeSetsOf(ids), |ids|)
                <==> Finds(committed, ids, rangeIdx.valueMin, rangeIdx.valueMax, e)
      {
        forall j | 0 <= j < |ids|
          ensures HitAs(EqSets(plEntries, ids), RangeSetsOf(ids), committed, rangeIdx.valueMin,
                        rangeIdx.valueMax, ids, j, e)
        {
          HitIsCommitted(ids, j, e);
        }
        UnionsAreFound(EqSets(plEntries, ids), RangeSetsOf(ids), committed, rangeIdx.valueMin,
                       rangeIdx.valueMax, ids, e);
      }
    }

    lemma HitIsCommitted(ids: seq<int>, j: nat, e: EntryID)
      requires Compiled() && j < |ids|
      ensures HitAs(EqSets(plEntries, ids), RangeSetsOf(ids), committed, rangeIdx.valueMin,
                    rangeIdx.valueMax, ids, j, e)
    {
      var v := ids[j];
      HeldIsCovering(PlAt(v), EqList(committed, v));
      assert e in PlAt(v) <==> e in SetOf(PlAt(v));
      CommittedAt(committed, rangeIdx.valueMin, rangeIdx.valueMax, v, e);
    }
  }

  /** The `j`th value hits exactly the entries committed under it. */
  ghost predicate HitAs(eqs: seq<set<EntryID>>, rgs: seq<set<EntryID>>, cs: seq<Commit>, lo: int, hi: int,
                        ids: seq<int>, j: nat, e: EntryID)
  {
    && j < |eqs| && j < |rgs| && j < |ids|
    && (e in eqs[j] || e in rgs[j] <==> FoundAt(cs, lo, hi, ids[j], e))
  }

  lemma UnionsAreFound(eqs: seq<set<EntryID>>, rgs: seq<set<EntryID>>, cs: seq<Commit>, lo: int, hi: int, ids: seq<int>,
                       e: EntryID)
    requires |eqs| == |rgs| == |ids| && forall j :: 0 <= j < |ids| ==> HitAs(eqs, rgs, cs, lo, hi, ids, j, e)
    ensures e in UnionTo(eqs, |ids|) + UnionTo(rgs, |ids|) <==> Finds(cs, ids, lo, hi, e)
  {
    InUnionTo(eqs, |ids|, e);
    InUnionTo(rgs, |ids|, e);
    if j :| 0 <= j < |ids| && (e in eqs[j] || e in rgs[j]) {
      assert HitAs(eqs, rgs, cs, lo, hi, ids, j, e);
    }
    if j :| 0 <= j < |ids| && FoundAt(cs, lo, hi, ids[j], e) {
      assert HitAs(eqs, rgs, cs, lo, hi, ids, j, e);
    }
  }

  lemma CommittedAt(cs: seq<Commit>, lo: int, hi: int, v: int, e: EntryID)
    requires ProperRanges(cs)
    ensures e in EqList(cs, v) || e in RangeHits(RangeCalls(cs), lo, hi, v) <==> FoundAt(cs, lo, hi, v, e)
  {
    InEqList(cs, v, e);
    InCovering(cs, lo, v, e);
    if i :| 0 <= i < |cs| && cs[i].tx.EqTx? && v in cs[i].tx.values && cs[i].eid == e {
      assert TxHas(cs[i].tx, lo, hi, v);
    }
  }

  ghost function UnionTo(sets: seq<set<EntryID>>, n: nat): set<EntryID>
    requires n <= |sets|
  {
    if n == 0 then {} else UnionTo(sets, n - 1) + sets[n - 1]
  }

  lemma {:induction false} InUnionTo(sets: seq<set<EntryID>>, n: nat, e: EntryID)
    requires n <= |sets|
    ensures e in UnionTo(sets, n) <==> exists j :: 0 <= j < n && e in sets[j]
  {
    if n > 0 {
      InUnionTo(sets, n - 1, e);
    }
  }

  /** What each value hits among the single values. */
  ghost function EqSets(pl: map<int, Entries>, ids: seq<int>): seq<set<EntryID>> {
    seq(|ids|, i requires 0 <= i < |ids| => SetOf(At(pl, ids[i])))
  }

  /** What each value hits among the ranges. */
  ghost function RangeSets(h: seq<Indexed>, lo: int, hi: int, ids: seq<int>): seq<set<EntryID>> {
    seq(|ids|, i requires 0 <= i < |ids| => RangeHits(h, lo, hi, ids[i]))
  }

  /** Cursors fit to be grouped: numbered, at their start, and not empty. */
  ghost predicate Opened(cs: seq<EntriesCursor>)
    reads cs
  {
    forall i :: 0 <= i < |cs| ==> cs[i].slot == i && cs[i].Leading(0) && cs[i].entries != []
  }

  /** The entries of some segments. */
  ghost function Held(rgs: seq<RangeEntries>, found: set<nat>): set<EntryID>
    requires forall j :: j in found ==> j < |rgs|
  {
    set j, e | j in found && e in rgs[j].entries :: e
  }

  lemma HeldMore(rgs: seq<RangeEntries>, found: set<nat>, k: nat)
    requires k < |rgs| && forall j :: j in found ==> j < |rgs|
    ensures Held(rgs, found + {k}) == Held(rgs, found) + SetOf(rgs[k].entries)
  {
  }

  /** The entries of the ranges that cover a value of the domain. */
  ghost function RangeHits(h: seq<Indexed>, lo: int, hi: int, v: int): set<EntryID> {
    if lo <= v < hi then SetOf(Covering(h, lo, v)) else {}
  }

  lemma HeldIsCovering(a: Entries, b: Entries)
    requires multiset(a) == multiset(b)
    ensures SetOf(a) == SetOf(b)
  {
    forall e
      ensures e in a <==> e in b
    {
      SameMembers(a, b, e);
    }
  }

  // ----- from expressions to answers

  /** An expression and the entry it belongs to. */
  datatype NumPosting = NumPosting(expr: NumExpr, eid: EntryID)

  /** Preparing the expression succeeds. */
  ghost predicate Preparable(e: NumExpr, small: Range -> bool) {
    !NumErrs(e) && !NumTrips(e, small)
  }

  /** The expressions whose range is the one they stand for. */
  predicate Faithful(e: NumExpr) {
    Fits64(e) && e != Lt(MIN_INT64) && e != Gt(MAX_INT64)
  }

  /** Some expression of entry `e` stands for one of the values. */
  ghost predicate Asked(ps: seq<NumPosting>, ids: seq<int>, e: EntryID) {
    exists i, j :: 0 <= i < |ps| && 0 <= j < |ids| && ps[i].eid == e && Denotes(ps[i].expr, ids[j])
  }

  /** The commits prepare the expressions, one each. */
  ghost predicate CommitsOf(cs: seq<Commit>, ps: seq<NumPosting>, n: nat) {
    n <= |ps| && |cs| == n && forall i :: 0 <= i < n ==> Built(ps[i].expr, cs[i].tx) && cs[i].eid == ps[i].eid
  }

  lemma FoundIffAsked(cs: seq<Commit>, ps: seq<NumPosting>, ids: seq<int>, e: EntryID)
    requires CommitsOf(cs, ps, |ps|) && forall i :: 0 <= i < |ps| ==> Faithful(ps[i].expr)
    requires forall j :: 0 <= j < |ids| ==> MIN_INT64 <= ids[j] < MAX_INT64
    ensures Finds(cs, ids, MIN_INT64, MAX_INT64, e) <==> Asked(ps, ids, e)
  {
    forall i, j | 0 <= i < |ps| && 0 <= j < |ids|
      ensures TxHas(cs[i].tx, MIN_INT64, MAX_INT64, ids[j]) <==> Denotes(ps[i].expr, ids[j])
    {
      FoundWhereDenoted(ps[i].expr, cs[i].tx, ids[j]);
    }
    if Finds(cs, ids, MIN_INT64, MAX_INT64, e) {
      var j :| 0 <= j < |ids| && FoundAt(cs, MIN_INT64, MAX_INT64, ids[j], e);
      var i :| 0 <= i < |cs| && TxHas(cs[i].tx, MIN_INT64, MAX_INT64, ids[j]) && cs[i].eid == e;
      assert Denotes(ps[i].expr, ids[j]);
    }
    if Asked(ps, ids, e) {
      var i, j :| 0 <= i < |ps| && 0 <= j < |ids| && ps[i].eid == e && Denotes(ps[i].expr, ids[j]);
      assert TxHas(cs[i].tx, MIN_INT64, MAX_INT64, ids[j]);
    }
  }

  /** Prepares and commits one expression after the other, up to the first that cannot be prepared. */
  method IndexNumbers(holder: RangeHolder, ps: seq<NumPosting>, small: Range -> bool) returns (outcome: Outcome)
    requires holder.Holds() && holder.committed == [] && forall i :: 0 <= i < |ps| ==> Fits64(ps[i].expr)
    modifies holder, holder.rangeIdx
    ensures holder.Holds()
    ensures outcome.Ok? <==> forall i :: 0 <= i < |ps| ==> Preparable(ps[i].expr, small)
    ensures outcome.Ok? ==> CommitsOf(holder.committed, ps, |ps|)
  {
    var i := 0;
    while i < |ps|
      invariant 0 <= i <= |ps| && holder.Holds() && CommitsOf(holder.committed, ps, i)
      invariant forall j :: 0 <= j < i ==> Preparable(ps[j].expr, small)
    {
      var tx;
      outcome, tx := BuildFieldIndexingData(ps[i].expr, small);
      if !outcome.Ok? {
        return;
      }
      BuiltIsCommittable(ps[i].expr, tx);
      holder.CommitFieldIndexingData(tx, ps[i].eid);
      i := i + 1;
    }
    outcome := Ok;
  }

  /** Build, commit, compile, query: under the default domain the holder finds exactly the entries with an
      expression that stands for a queried number, whichever ranges are spelt out. */
  method AnswerNumbers(ps: seq<NumPosting>, small: Range -> bool, ids: seq<int>)
    returns (outcome: Outcome, r: seq<EntriesCursor>)
    requires forall i :: 0 <= i < |ps| ==> Faithful(ps[i].expr)
    requires forall j :: 0 <= j < |ids| ==> MIN_INT64 <= ids[j] < MAX_INT64
    ensures outcome.Ok? <==> forall i :: 0 <= i < |ps| ==> Preparable(ps[i].expr, small)
    ensures outcome.Ok? ==> forall e :: e in AllEntries(r) <==> Asked(ps, ids, e)
  {
    var holder := new RangeHolder(MIN_INT64, MAX_INT64);
    outcome := IndexNumbers(holder, ps, small);
    r := [];
    if outcome.Ok? {
      holder.CompileEntries();
      var found := holder.GetEntries(Some(ids));
      r := found.value;
      forall e
        ensures e in AllEntries(r) <==> Asked(ps, ids, e)
      {
        FoundIffAsked(holder.committed, ps, ids, e);
      }
    }
  }
}
