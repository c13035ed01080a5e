/** The number holder on coordinates and a segment tree (holder/rangeholder/optimized_range_holder.go). */
module OptimizedRangeHolders {
  import opened IdTypes
  import opened Documents
  import opened IndexScanner
  import opened BEIndexes
  import opened IndexBuilders
  import opened RangeIdxs
  import opened RangeHolders
  import opened SegmentTrees
  import opened Retrieval

  /** A stretch waiting for the tree; a single value has equal ends. */
  datatype PendingRange = PendingRange(left: int, right: int, eid: EntryID)

  /** The numbers a pending stretch is meant for. */
  predicate Spans(p: PendingRange, v: int) {
    p.left <= v < p.right || v == p.left
  }

  /** Some pending stretch of entry `e` is meant for the number. */
  ghost predicate SpannedBy(ps: seq<PendingRange>, v: int, e: EntryID) {
    exists i :: 0 <= i < |ps| && ps[i].eid == e && Spans(ps[i], v)
  }

  lemma SpannedMore(ps: seq<PendingRange>, p: PendingRange, v: int, e: EntryID)
    ensures SpannedBy(ps + [p], v, e) <==> SpannedBy(ps, v, e) || (p.eid == e && Spans(p, v))
  {
    var more := ps + [p];
    if SpannedBy(ps, v, e) {
      var i :| 0 <= i < |ps| && ps[i].eid == e && Spans(ps[i], v);
      assert more[i] == ps[i];
    }
    if p.eid == e && Spans(p, v) {
      assert more[|ps|] == p;
    }
  }

  /** Both ends of every stretch are coordinates. */
  ghost predicate Anchored(ps: seq<PendingRange>, values: seq<int>) {
    forall i :: 0 <= i < |ps| ==> ps[i].left in values && ps[i].right in values
  }

  /** The numbers prepared data is meant for. */
  ghost predicate TxSpans(tx: RangeTx, v: int) {
    match tx
    case EqTx(values) => v in values
    case RgTx(rg) => rg.ContainValue(v) || v == rg.left
  }

  /** Some commit of entry `e` is meant for the number. */
  ghost predicate CommittedFor(cs: seq<Commit>, v: int, e: EntryID) {
    exists i :: 0 <= i < |cs| && cs[i].eid == e && TxSpans(cs[i].tx, v)
  }

  lemma CommittedMore(cs: seq<Commit>, c: Commit, v: int, e: EntryID)
    ensures CommittedFor(cs + [c], v, e) <==> CommittedFor(cs, v, e) || (c.eid == e && TxSpans(c.tx, v))
  {
    var more := cs + [c];
    if CommittedFor(cs, v, e) {
      var i :| 0 <= i < |cs| && cs[i].eid == e && TxSpans(cs[i].tx, v);
      assert more[i] == cs[i];
    }
    if c.eid == e && TxSpans(c.tx, v) {
      assert more[|cs|] == c;
    }
  }

  /** The ends of a prepared range are coordinates. */
  ghost predicate EndsKnown(tx: RangeTx, values: seq<int>) {
    tx.RgTx? ==> tx.rg.left in values && tx.rg.right in values
  }

  /** Everything the data starts or ends at is a coordinate. */
  ghost predicate TxKnown(tx: RangeTx, values: seq<int>) {
    EndsKnown(tx, values) && (tx.EqTx? ==> forall v :: v in tx.values ==> v in values)
  }

  ghost predicate AllKnown(cs: seq<Commit>, values: seq<int>) {
    forall i :: 0 <= i < |cs| ==> TxKnown(cs[i].tx, values)
  }

  /** Entry `e` is committed for the first coordinate at or above `v`. */
  ghost predicate CommittedNext(values: seq<int>, cs: seq<Commit>, v: int, e: EntryID) {
    exists idx: nat :: idx < |values| && FirstAtLeast(values, v, idx) && CommittedFor(cs, values[idx], e)
  }

  /** Entry `e` is committed for the first coordinate at or above one of the first `n` values. */
  ghost predicate CommittedAmong(values: seq<int>, cs: seq<Commit>, ids: seq<int>, n: nat, e: EntryID)
    requires n <= |ids|
  {
    exists j :: 0 <= j < n && CommittedNext(values, cs, ids[j], e)
  }

  lemma AmongMore(values: seq<int>, cs: seq<Commit>, ids: seq<int>, n: nat, e: EntryID)
    requires n < |ids|
    ensures CommittedAmong(values, cs, ids, n + 1, e) <==>
            CommittedAmong(values, cs, ids, n, e) || CommittedNext(values, cs, ids[n], e)
  {
  }

  // ----- what a query between two coordinates is answered with

  /** No coordinate lies between a value and the first coordinate at or above it. */
  lemma Gap(values: seq<int>, v: int, idx: nat, x: int)
    requires Increasing(values) && FirstAtLeast(values, v, idx) && x in values
    ensures x >= v <==> idx < |values| && x >= values[idx]
  {
    var i :| 0 <= i < |values| && values[i] == x;
  }

  lemma NextUnique(values: seq<int>, v: int, a: nat, b: nat)
    requires FirstAtLeast(values, v, a) && FirstAtLeast(values, v, b)
    ensures a == b
  {
    assert a > 0 ==> values[a - 1] < v;
    assert b > 0 ==> values[b - 1] < v;
  }

  lemma CommittedNextAt(values: seq<int>, cs: seq<Commit>, v: int, idx: nat, e: EntryID)
    requires FirstAtLeast(values, v, idx)
    ensures CommittedNext(values, cs, v, e) <==> idx < |values| && CommittedFor(cs, values[idx], e)
  {
    if CommittedNext(values, cs, v, e) {
      var k: nat :| k < |values| && FirstAtLeast(values, v, k) && CommittedFor(cs, values[k], e);
      NextUnique(values, v, k, idx);
    }
  }

  /** The data starts at the coordinate: a single value or the left end of a range. */
  ghost predicate Starts(tx: RangeTx, c: int) {
    match tx
    case EqTx(values) => c in values
    case RgTx(rg) => c == rg.left
  }

  /** The data is a range that ends at the coordinate. */
  ghost predicate Stops(tx: RangeTx, c: int) {
    tx.RgTx? && tx.rg.left < tx.rg.right == c
  }

  /** The data is a range with the coordinate in its inside. */
  ghost predicate Crosses(tx: RangeTx, c: int) {
    tx.RgTx? && tx.rg.left < c < tx.rg.right
  }

  /** Between two coordinates, what is meant for a number and what is meant for the next coordinate. */
  lemma AroundGap(values: seq<int>, tx: RangeTx, v: int, idx: nat)
    requires Increasing(values) && TxKnown(tx, values) && FirstAtLeast(values, v, idx) && v !in values
    ensures TxSpans(tx, v) ==> idx < |values|
    ensures idx < |values| ==> (TxSpans(tx, v) <==> Stops(tx, values[idx]) || Crosses(tx, values[idx]))
    ensures idx < |values| ==> (TxSpans(tx, values[idx]) <==> Starts(tx, values[idx]) || Crosses(tx, values[idx]))
  {
    if tx.RgTx? {
      Gap(values, v, idx, tx.rg.left);
      Gap(values, v, idx, tx.rg.right);
    }
  }

  ghost predicate SomeStarts(cs: seq<Commit>, c: int, e: EntryID) {
    exists i :: 0 <= i < |cs| && cs[i].eid == e && Starts(cs[i].tx, c)
  }

  ghost predicate SomeStops(cs: seq<Commit>, c: int, e: EntryID) {
    exists i :: 0 <= i < |cs| && cs[i].eid == e && Stops(cs[i].tx, c)
  }

  ghost predicate SomeCrosses(cs: seq<Commit>, c: int, e: EntryID) {
    exists i :: 0 <= i < |cs| && cs[i].eid == e && Crosses(cs[i].tx, c)
  }

  lemma CommittedAroundGap(values: seq<int>, cs: seq<Commit>, v: int, idx: nat, e: EntryID)
    requires Increasing(values) && AllKnown(cs, values) && FirstAtLeast(values, v, idx) && v !in values
    ensures CommittedFor(cs, v, e) ==> idx < |values|
    ensures idx < |values| ==>
              (CommittedFor(cs, v, e) <==> SomeStops(cs, values[idx], e) || SomeCrosses(cs, values[idx], e))
    ensures idx < |values| ==>
            (CommittedFor(cs, values[idx], e) <==> SomeStarts(cs, values[idx], e) || SomeCrosses(cs, values[idx], e))
  {
    forall i | 0 <= i < |cs|
      ensures TxSpans(cs[i].tx, v) ==> idx < |values|
      ensures idx < |values| ==>
                (TxSpans(cs[i].tx, v) <==> Stops(cs[i].tx, values[idx]) || Crosses(cs[i].tx, values[idx]))
      ensures idx < |values| ==>
              (TxSpans(cs[i].tx, values[idx]) <==> Starts(cs[i].tx, values[idx]) || Crosses(cs[i].tx, values[idx]))
    {
      AroundGap(values, cs[i].tx, v, idx);
    }
  }

  /** The answer for a number is right about an entry exactly when the number is a coordinate, or lies above all of
      them, or, with the next coordinate in view, a range of the entry crosses it, or the entry has ranges that end
      there exactly if it has values or ranges that start there. */
  lemma NextIsExact(values: seq<int>, cs: seq<Commit>, v: int, idx: nat, e: EntryID)
    requires Increasing(values) && AllKnown(cs, values) && FirstAtLeast(values, v, idx)
    ensures (CommittedNext(values, cs, v, e) <==> CommittedFor(cs, v, e)) <==>
            || v in values
            || idx == |values|
            || SomeCrosses(cs, values[idx], e)
            || (SomeStops(cs, values[idx], e) <==> SomeStarts(cs, values[idx], e))
  {
    CommittedNextAt(values, cs, v, idx, e);
    if v in values {
      Gap(values, v, idx, v);
    } else {
      CommittedAroundGap(values, cs, v, idx, e);
    }
  }

  class OptimizedRangeHolder {
    const compressor: CoordinateCompressor
    var root: SegmentTreeNode?
    var pendingRanges: seq<PendingRange>
    var built: bool
    ghost var committed: seq<Commit>

    /** Before compiling: the pending stretches are meant for what the commits are meant for. */
    ghost predicate Collecting()
      reads this, compressor
    {
      && !built && root == null && compressor.Valid() && !compressor.built
      && Anchored(pendingRanges, compressor.values) && AllKnown(committed, compressor.values)
      && forall v, e :: SpannedBy(pendingRanges, v, e) <==> CommittedFor(committed, v, e)
    }

    constructor ()
      ensures Collecting() && committed == [] && fresh(compressor) && compressor.values == []
    {
      compressor := new CoordinateCompressor();
      root, pendingRanges, built, committed := null, [], false, [];
    }

    /** Prepares an expression; the ends of a range that stays a range become coordinates. */
    method BuildFieldIndexingData(e: NumExpr, small: Range -> bool) returns (outcome: Outcome, tx: RangeTx)
      requires Fits64(e) && Collecting()
      modifies compressor
      ensures Collecting() && (outcome.Error? <==> NumErrs(e)) && (outcome.Panic? <==> NumTrips(e, small))
      ensures forall v :: v in compressor.values <==>
                v in old(compressor.values) || (outcome.Ok? && tx.RgTx? && (v == tx.rg.left || v == tx.rg.right))
      ensures outcome.Ok? && !e.EqIn? ==> (tx.EqTx? <==> small(ParseRange(e).value))
      ensures outcome.Ok? ==> Built(e, tx) && EndsKnown(tx, compressor.values)
    {
      outcome, tx := RangeHolders.BuildFieldIndexingData(e, small);
      if outcome.Ok? && tx.RgTx? {
        var _ := compressor.AddValue(tx.rg.left);
        var _ := compressor.AddValue(tx.rg.right);
      }
    }

    /** Puts one stretch on the list. */
    method Push(p: PendingRange)
      requires compressor.Valid() && Anchored(pendingRanges, compressor.values)
      requires p.left in compressor.values && p.right in compressor.values
      modifies this`pendingRanges
      ensures Anchored(pendingRanges, compressor.values)
      ensures forall v, e :: SpannedBy(pendingRanges, v, e) <==>
              old(SpannedBy(pendingRanges, v, e)) || (p.eid == e && Spans(p, v))
    {
      forall v, e {
        SpannedMore(pendingRanges, p, v, e);
      }
      pendingRanges := pendingRanges + [p];
    }

    /** Each distinct value becomes a coordinate and a stretch of its own. */
    method CommitValues(values: seq<int>, eid: EntryID)
      requires compressor.Valid() && !compressor.built && Anchored(pendingRanges, compressor.values)
      modifies this`pendingRanges, compressor
      ensures compressor.Valid() && !compressor.built && Anchored(pendingRanges, compressor.values)
      ensures forall v :: v in compressor.values <==> v in old(compressor.values) || v in values
      ensures forall v, e :: SpannedBy(pendingRanges, v, e) <==>
                             old(SpannedBy(pendingRanges, v, e)) || (e == eid && v in values)
    {
      var todo := set v | v in values;
      while todo != {}
        invariant todo <= set v | v in values
        invariant compressor.Valid() && !compressor.built && Anchored(pendingRanges, compressor.values)
        invariant forall v :: v in compressor.values <==> v in old(compressor.values) || (v in values && v !in todo)
        invariant forall v, e :: SpannedBy(pendingRanges, v, e) <==>
                                 old(SpannedBy(pendingRanges, v, e)) || (e == eid && v in values && v !in todo)
        decreases todo
      {
        var id := Pick(todo);
        CommitValue(id, eid);
        todo := todo - {id};
      }
    }

    method CommitValue(id: int, eid: EntryID)
      requires compressor.Valid() && !compressor.built && Anchored(pendingRanges, compressor.values)
      modifies this`pendingRanges, compressor
      ensures compressor.Valid() && !compressor.built && Anchored(pendingRanges, compressor.values)
      ensures forall v :: v in compressor.values <==> v in old(compressor.values) || v == id
      ensures forall v, e :: SpannedBy(pendingRanges, v, e) <==>
              old(SpannedBy(pendingRanges, v, e)) || (e == eid && v == id)
    {
      var _ := compressor.AddValue(id);
      Push(PendingRange(id, id, eid));
    }

    method CommitFieldIndexingData(tx: RangeTx, eid: EntryID)
      requires Collecting() && EndsKnown(tx, compressor.values)
      modifies this, compressor
      ensures Collecting() && committed == old(committed) + [Commit(tx, eid)]
      ensures forall v :: v in compressor.values <==> v in old(compressor.values) || (tx.EqTx? && v in tx.values)
    {
      if tx.EqTx? {
        CommitValues(tx.values, eid);
      } else {
        Push(PendingRange(tx.rg.left, tx.rg.right, eid));
      }
      forall v, e {
        CommittedMore(committed, Commit(tx, eid), v, e);
      }
      committed := committed + [Commit(tx, eid)];
    }

    /** A tree over all coordinates that holds, at each, the entries of the given stretches meant for it. */
    ghost predicate Planted(ps: seq<PendingRange>)
      reads this, compressor, root, if root == null then {} else root.Repr
    {
      && compressor.Valid() && compressor.built
      && root != null && root.Valid() && root.l == 0 && root.r == |compressor.values| - 1
      && forall i, e :: 0 <= i < |compressor.values| ==> (e in root.at(i) <==> SpannedBy(ps, compressor.values[i], e))
    }

    /** Enters one stretch into the tree. */
    method Plant(ps: seq<PendingRange>, p: PendingRange)
      requires Planted(ps) && p.left in compressor.values && {this, compressor} !! root.Repr
      modifies root.Repr
      ensures Planted(ps + [p]) && fresh(root.Repr - old(root.Repr))
    {
      var l, r := compressor.FindRange(p.left, p.right);
      Gap(compressor.values, p.left, l, p.left);
      assert forall i :: 0 <= i < |compressor.values| ==> (i == l <==> compressor.values[i] == p.left);
      root.Insert(l, r, p.eid);
      forall i, e | 0 <= i < |compressor.values|
        ensures e in root.at(i) <==> SpannedBy(ps + [p], compressor.values[i], e)
      {
        SpannedMore(ps, p, compressor.values[i], e);
      }
    }

    /** Ready for queries: at each coordinate the tree holds the entries committed for it. */
    ghost predicate Compiled()
      reads this, compressor, root, if root == null then {} else root.Repr
    {
      && built && compressor.Valid() && compressor.built && AllKnown(committed, compressor.values)
      && (|compressor.values| > 0 ==>
            && root != null && root.Valid() && root.l == 0 && root.r == |compressor.values| - 1
            && forall i, e :: 0 <= i < |compressor.values| ==>
                 (e in root.at(i) <==> CommittedFor(committed, compressor.values[i], e)))
    }

    /** Numbers the coordinates and enters every pending stretch. */
    method CompileEntries()
      requires Collecting()
      modifies this, compressor
      ensures Compiled() && committed == old(committed) && pendingRanges == []
      ensures forall v :: v in compressor.values <==> v in old(compressor.values)
    {
      compressor.Build();
      if |compressor.values| > 0 {
        root := new SegmentTreeNode(0, |compressor.values| - 1);
        PlantAll();
      }
      pendingRanges := [];
      built := true;
    }

    method PlantAll()
      requires Planted([]) && Anchored(pendingRanges, compressor.values) && {this, compressor} !! root.Repr
      modifies root.Repr
      ensures Planted(pendingRanges) && {this, compressor} !! root.Repr
    {
      var i := 0;
      while i < |pendingRanges|
        invariant 0 <= i <= |pendingRanges| && Planted(pendingRanges[..i])
        invariant {this, compressor} !! root.Repr && fresh(root.Repr - old(root.Repr))
      {
        assert pendingRanges[..i + 1] == pendingRanges[..i] + [pendingRanges[i]];
        Plant(pendingRanges[..i], pendingRanges[i]);
        i := i + 1;
      }
      assert pendingRanges[..i] == pendingRanges;
    }

    /** Adds what the tree holds at the first coordinate at or above a value. */
    method CollectValue(id: int, result: set<EntryID>) returns (r: set<EntryID>)
      requires Compiled()
      ensures forall e :: e in r <==> e in result || CommittedNext(compressor.values, committed, id, e)
    {
      var idx: int;
      if id in compressor.valueToIdx {
        idx := compressor.valueToIdx[id];
      } else {
        idx := compressor.FindIdx(id);
      }
      assert FirstAtLeast(compressor.values, id, idx);
      r := result;
      if idx < |compressor.values| {
        r := root.CollectEntries(idx, result);
      }
      forall e
        ensures CommittedNext(compressor.values, committed, id, e) <==>
                idx < |compressor.values| && CommittedFor(committed, compressor.values[idx], e)
      {
        CommittedNextAt(compressor.values, committed, id, idx, e);
      }
    }

    method CollectAll(ids: seq<int>) returns (found: set<EntryID>)
      requires Compiled()
      ensures forall e :: e in found <==> CommittedAmong(compressor.values, committed, ids, |ids|, e)
    {
      found := {};
      var i := 0;
      while i < |ids|
        invariant 0 <= i <= |ids|
        invariant forall e :: e in found <==> CommittedAmong(compressor.values, committed, ids, i, e)
      {
        found := CollectNext(ids, i, found);
        i := i + 1;
      }
    }

    method CollectNext(ids: seq<int>, i: nat, found: set<EntryID>) returns (r: set<EntryID>)
      requires Compiled() && i < |ids|
      requires forall e :: e in found <==> CommittedAmong(compressor.values, committed, ids, i, e)
      ensures forall e :: e in r <==> CommittedAmong(compressor.values, committed, ids, i + 1, e)
    {
      r := CollectValue(ids[i], found);
      forall e
        ensures e in r <==> CommittedAmong(compressor.values, committed, ids, i + 1, e)
      {
        AmongMore(compressor.values, committed, ids, i, e);
      }
    }

    /** Answers a query with at most one cursor, over the entries committed for the first coordinates at or above
        the queried numbers. */
    method GetEntries(ids: Option<seq<int>>) returns (r: Option<seq<EntriesCursor>>)
      requires Collecting() || Compiled()
      ensures r.None? <==> !built || ids.None?
      ensures r.Some? ==> |r.value| <= 1 && Opened(r.value) && forall c :: c in r.value ==> fresh(c)
      ensures r.Some? ==> forall e :: e in AllEntries(r.value) <==>
                            CommittedAmong(compressor.values, committed, ids.value, |ids.value|, e)
    {
      if !built || ids.None? {
        return None;
      }
      var found := CollectAll(ids.value);
      var cs := OpenSet(found);
      r := Some(cs);
    }
  }

  /** One cursor over a set of entries, or none if it is empty. */
  method OpenSet(found: set<EntryID>) returns (cs: seq<EntriesCursor>)
    ensures |cs| <= 1 && Opened(cs) && AllEntries(cs) == found && forall c :: c in cs ==> fresh(c)
  {
    var list: Entries := [];
    var todo := found;
    while todo != {}
      invariant todo <= found && forall e :: e in list <==> e in found && e !in todo
      decreases todo
    {
      var e := Pick(todo);
      list := list + [e];
      todo := todo - {e};
    }
    var sorted := Sorted(list);
    HeldIsCovering(sorted, list);
    cs := [];
    if |sorted| > 0 {
      var cursor := new EntriesCursor(sorted, 0);
      cs := [cursor];
    }
    AllEntriesMore([], cs, sorted);
  }

  // ----- from expressions to answers

  /** Prepared data is meant for the numbers its expression stands for. */
  lemma SpansWhatIsDenoted(e: NumExpr, tx: RangeTx, v: int)
    requires Faithful(e) && Built(e, tx) && MIN_INT64 <= v < MAX_INT64
    ensures TxSpans(tx, v) <==> Denotes(e, v)
  {
    FoundWhereDenoted(e, tx, v);
    if tx.RgTx? {
      BackwardRanges(e);
    }
  }

  lemma CommittedIffAsked(cs: seq<Commit>, ps: seq<NumPosting>, values: seq<int>, ids: seq<int>, e: EntryID)
    requires CommitsOf(cs, ps, |ps|) && forall i :: 0 <= i < |ps| ==> Faithful(ps[i].expr)
    requires Increasing(values)
    requires forall j :: 0 <= j < |ids| ==> MIN_INT64 <= ids[j] < MAX_INT64 && ids[j] in values
    ensures CommittedAmong(values, cs, ids, |ids|, e) <==> Asked(ps, ids, e)
  {
    forall j | 0 <= j < |ids|
      ensures CommittedNext(values, cs, ids[j], e) <==> CommittedFor(cs, ids[j], e)
    {
      assert ids[j] in values;
      var idx: nat :| idx < |values| && values[idx] == ids[j];
      assert FirstAtLeast(values, ids[j], idx);
      CommittedNextAt(values, cs, ids[j], idx, e);
    }
    forall i, j | 0 <= i < |ps| && 0 <= j < |ids|
      ensures TxSpans(cs[i].tx, ids[j]) <==> Denotes(ps[i].expr, ids[j])
    {
      SpansWhatIsDenoted(ps[i].expr, cs[i].tx, ids[j]);
    }
    if j :| 0 <= j < |ids| && CommittedFor(cs, ids[j], e) {
      var i :| 0 <= i < |cs| && cs[i].eid == e && TxSpans(cs[i].tx, ids[j]);
      assert ps[i].eid == e && Denotes(ps[i].expr, ids[j]);
    }
    if Asked(ps, ids, e) {
      var i, j :| 0 <= i < |ps| && 0 <= j < |ids| && ps[i].eid == e && Denotes(ps[i].expr, ids[j]);
      assert cs[i].eid == e && TxSpans(cs[i].tx, ids[j]);
      assert CommittedNext(values, cs, ids[j], e);
    }
  }

  /** Every single value and the start of every range is a coordinate. */
  ghost predicate Marks(values: seq<int>, e: NumExpr) {
    if e.EqIn? then forall v :: v in e.ids ==> v in values
    else ParseRange(e).Some? ==> ParseRange(e).value.left in values
  }

  lemma CommittedMarks(e: NumExpr, tx: RangeTx, values: seq<int>)
    requires Built(e, tx) && TxKnown(tx, values)
    ensures Marks(values, e)
  {
    if !e.EqIn? && tx.EqTx? {
      assert tx.values[0] == ParseRange(e).value.left;
    }
  }

  /** Prepares and commits one expression. */
  method IndexNumber(holder: OptimizedRangeHolder, p: NumPosting, small: Range -> bool) returns (outcome: Outcome)
    requires holder.Collecting() && Fits64(p.expr)
    modifies holder, holder.compressor
    ensures holder.Collecting() && forall v :: v in old(holder.compressor.values) ==> v in holder.compressor.values
    ensures outcome.Ok? <==> Preparable(p.expr, small)
    ensures outcome.Ok? ==> Marks(holder.compressor.values, p.expr)
    ensures outcome.Ok? ==> |holder.committed| == |old(holder.committed)| + 1
    ensures outcome.Ok? ==> holder.committed[..|old(holder.committed)|] == old(holder.committed)
    ensures outcome.Ok? ==> Built(p.expr, holder.committed[|old(holder.committed)|].tx)
                            && holder.committed[|old(holder.committed)|].eid == p.eid
  {
    var tx;
    outcome, tx := holder.BuildFieldIndexingData(p.expr, small);
    if outcome.Ok? {
      holder.CommitFieldIndexingData(tx, p.eid);
      CommittedMarks(p.expr, tx, holder.compressor.values);
    }
  }

  method IndexAll(holder: OptimizedRangeHolder, ps: seq<NumPosting>, small: Range -> bool) returns (outcome: Outcome)
    requires holder.Collecting() && holder.committed == [] && forall i :: 0 <= i < |ps| ==> Fits64(ps[i].expr)
    modifies holder, holder.compressor
    ensures holder.Collecting()
    ensures outcome.Ok? <==> forall i :: 0 <= i < |ps| ==> Preparable(ps[i].expr, small)
    ensures outcome.Ok? ==> CommitsOf(holder.committed, ps, |ps|)
    ensures outcome.Ok? ==> forall i :: 0 <= i < |ps| ==> Marks(holder.compressor.values, ps[i].expr)
  {
    var i := 0;
    while i < |ps|
      invariant 0 <= i <= |ps| && holder.Collecting() && CommitsOf(holder.committed, ps, i)
      invariant forall j :: 0 <= j < i ==> Preparable(ps[j].expr, small) && Marks(holder.compressor.values, ps[j].expr)
    {
      outcome := IndexNumber(holder, ps[i], small);
      if !outcome.Ok? {
        return;
      }
      i := i + 1;
    }
    outcome := Ok;
  }

  /** Build, commit, compile, query: asked for coordinates, the holder finds exactly the entries with an expression
      that stands for a queried number; the values and the range starts of the expressions are coordinates. */
  method AnswerCoordinates(ps: seq<NumPosting>, small: Range -> bool, ids: seq<int>)
    returns (outcome: Outcome, coordinates: seq<int>, r: seq<EntriesCursor>)
    requires forall i :: 0 <= i < |ps| ==> Faithful(ps[i].expr)
    requires forall j :: 0 <= j < |ids| ==> MIN_INT64 <= ids[j] < MAX_INT64
    ensures outcome.Ok? <==> forall i :: 0 <= i < |ps| ==> Preparable(ps[i].expr, small)
    ensures outcome.Ok? ==> forall i :: 0 <= i < |ps| ==> Marks(coordinates, ps[i].expr)
    ensures outcome.Ok? && (forall j :: 0 <= j < |ids| ==> ids[j] in coordinates) ==>
              forall e :: e in AllEntries(r) <==> Asked(ps, ids, e)
  {
    var holder := new OptimizedRangeHolder();
    coordinates, r := [], [];
    outcome := IndexAll(holder, ps, small);
    if outcome.Ok? {
      holder.CompileEntries();
      coordinates := holder.compressor.values;
      var found := holder.GetEntries(Some(ids));
      r := found.value;
      if forall j :: 0 <= j < |ids| ==> ids[j] in coordinates {
        forall e
          ensures e in AllEntries(r) <==> Asked(ps, ids, e)
        {
          CommittedIffAsked(holder.committed, ps, coordinates, ids, e);
        }
      }
    }
  }

  /** The ranges below the default threshold of 256, which are spelt out. */
  predicate BelowDefault(rg: Range) {
    rg.right - rg.left < 256
  }

  lemma SecondIsNext(values: seq<int>, a: int, b: int, v: int) returns (idx: nat)
    requires Increasing(values) && a < v <= b && forall x :: x in values <==> x == a || x == b
    ensures idx < |values| && values[idx] == b && FirstAtLeast(values, v, idx)
  {
    assert b in values;
    idx :| idx < |values| && values[idx] == b;
    assert forall i :: 0 <= i < |values| ==> values[i] in values;
  }

  method CompileThousands(eid: EntryID) returns (holder: OptimizedRangeHolder)
    ensures fresh(holder) && holder.Compiled() && holder.committed == [Commit(RgTx(Range(1000, 2000)), eid)]
    ensures forall v :: v in holder.compressor.values <==> v == 1000 || v == 2000
  {
    holder := new OptimizedRangeHolder();
    var outcome, tx := holder.BuildFieldIndexingData(Btw(1000, 2000), BelowDefault);
    assert tx == RgTx(Range(1000, 2000));
    holder.CommitFieldIndexingData(tx, eid);
    holder.CompileEntries();
  }

  lemma NoneFor1500(values: seq<int>, eid: EntryID, e: EntryID)
    requires Increasing(values) && forall v :: v in values <==> v == 1000 || v == 2000
    ensures !CommittedAmong(values, [Commit(RgTx(Range(1000, 2000)), eid)], [1500], 1, e)
  {
    var idx := SecondIsNext(values, 1000, 2000, 1500);
    CommittedNextAt(values, [Commit(RgTx(Range(1000, 2000)), eid)], 1500, idx, e);
  }

  /** 1500 lies between 1000 and 2000, yet it is not found: the next coordinate, 2000, is where the range ends. */
  method BetweenIsLost(eid: EntryID) returns (found: Option<seq<EntriesCursor>>)
    ensures Denotes(Btw(1000, 2000), 1500)
    ensures found.Some? && AllEntries(found.value) == {}
  {
    var holder := CompileThousands(eid);
    found := holder.GetEntries(Some([1500]));
    forall e
      ensures e !in AllEntries(found.value)
    {
      NoneFor1500(holder.compressor.values, eid, e);
    }
  }
}
