/** The segment list of the range holder (holder/rangeholder/term_ext_range_holder.go). */
module RangeIdxs {
  import opened IdTypes
  import opened Documents
  import opened IndexScanner
  import opened BEIndexes

  const MIN_INT64 := -0x8000_0000_0000_0000
  const MAX_INT64 := 0x7FFF_FFFF_FFFF_FFFF

  /** Signed 64-bit increment. */
  function Inc(x: int): int {
    if x == MAX_INT64 then MIN_INT64 else x + 1
  }

  /** A half-open range. */
  datatype Range = Range(left: int, right: int) {
    predicate ContainValue(v: int) {
      left <= v < right
    }

    predicate ContainRange(other: Range) {
      other.left >= left && other.right <= right && other.left < right
    }
  }

  /** An empty range is widened to its single left value. */
  function NewRange(l: int, r: int): Range {
    Range(l, if l == r then Inc(r) else r)
  }

  datatype RangeEntries = RangeEntries(rg: Range, entries: Entries)

  // ----- tilings

  /** The ranges follow each other without gap or overlap from `lo` to `hi`. */
  ghost predicate Tiles(rgs: seq<Range>, lo: int, hi: int) {
    && |rgs| > 0 && rgs[0].left == lo && rgs[|rgs| - 1].right == hi
    && (forall i :: 0 <= i < |rgs| ==> rgs[i].left < rgs[i].right)
    && (forall i :: 0 < i < |rgs| ==> rgs[i - 1].right == rgs[i].left)
  }

  lemma {:induction false} TilesOrder(rgs: seq<Range>, lo: int, hi: int, i: nat, j: nat)
    requires Tiles(rgs, lo, hi) && i < j < |rgs|
    ensures rgs[i].right <= rgs[j].left
    decreases j - i
  {
    if i < j - 1 {
      TilesOrder(rgs, lo, hi, i, j - 1);
    }
  }

  /** Each range lies inside `[left, right)` or apart from it. */
  ghost predicate Respects(rg: Range, left: int, right: int) {
    (left <= rg.left && rg.right <= right) || rg.right <= left || right <= rg.left
  }

  function Cuts(rg: Range, left: int, right: int): seq<int> {
    [rg.left] + (if left > rg.left then [left] else []) + [right] + (if right < rg.right then [rg.right] else [])
  }

  /** Cuts a range at the bounds of a sub-range; refuses one that is not inside. */
  method Explode(rg: Range, left: int, right: int) returns (rgs: Option<seq<Range>>)
    requires rg.left < rg.right && left <= right
    ensures rgs.Some? <==> rg.ContainRange(Range(left, right))
    ensures rgs.Some? ==> Tiles(rgs.value, rg.left, rg.right)
    ensures rgs.Some? && left < right ==> forall i :: 0 <= i < |rgs.value| ==> Respects(rgs.value[i], left, right)
  {
    if !rg.ContainRange(Range(left, right)) {
      return None;
    }
    var vs := Cuts(rg, left, right);
    ghost var cuts := vs;
    ghost var ir := if left > rg.left then 2 else 1;
    var pieces: seq<Range> := [];
    var leftValue := vs[0];
    var i := 1;
    while i < |vs| && leftValue < rg.right
      invariant 1 <= i <= |vs| == |cuts| && |pieces| == i - 1 && leftValue <= rg.right
      invariant leftValue == vs[i - 1] && forall j :: i <= j < |vs| ==> vs[j] == cuts[j]
      invariant leftValue == cuts[i - 1] || (leftValue == cuts[i - 1] + 1 && i - 1 == ir && left == right)
      invariant if i == 1 then leftValue == rg.left else Tiles(pieces, rg.left, leftValue)
      invariant left < right ==> forall j :: 0 <= j < |pieces| ==> Respects(pieces[j], left, right)
    {
      if vs[i] == vs[i - 1] {
        vs := vs[i := vs[i] + 1];
      }
      pieces := pieces + [Range(leftValue, vs[i])];
      leftValue := vs[i];
      i := i + 1;
    }
    rgs := Some(pieces);
  }

  // ----- the segment list

  function Ranges(items: seq<RangeEntries>): (rgs: seq<Range>)
    ensures |rgs| == |items| && forall i :: 0 <= i < |items| ==> rgs[i] == items[i].rg
  {
    seq(|items|, i requires 0 <= i < |items| => items[i].rg)
  }

  /** The segments follow each other without gap or overlap from `lo` to `hi`. */
  ghost predicate Partition(items: seq<RangeEntries>, lo: int, hi: int) {
    Tiles(Ranges(items), lo, hi)
  }

  lemma PartitionOrder(items: seq<RangeEntries>, lo: int, hi: int, i: nat, j: nat)
    requires Partition(items, lo, hi) && i < j < |items|
    ensures items[i].rg.right <= items[j].rg.left
  {
    TilesOrder(Ranges(items), lo, hi, i, j);
  }

  /** One call of `IndexingRange`. */
  datatype Indexed = Indexed(left: int, right: int, eid: EntryID)

  /** The range a call covers.  A range that starts below the domain is not clipped to it; nothing is indexed for it. */
  ghost predicate Covers(x: Indexed, lo: int, v: int) {
    x.left >= lo && NewRange(x.left, x.right).ContainValue(v)
  }

  /** The entries of the calls that cover a value, in the order of the calls. */
  ghost function Covering(h: seq<Indexed>, lo: int, v: int): Entries {
    if h == [] then []
    else Covering(h[..|h| - 1], lo, v) + if Covers(h[|h| - 1], lo, v) then [h[|h| - 1].eid] else []
  }

  /** Each segment holds, at each of its values, one entry for each call that covers the value. */
  ghost predicate Agrees(items: seq<RangeEntries>, lo: int, h: seq<Indexed>) {
    forall j, v :: 0 <= j < |items| && items[j].rg.ContainValue(v) ==> items[j].entries == Covering(h, lo, v)
  }

  ghost function Nodes(rgs: seq<Range>, entries: Entries): seq<RangeEntries> {
    seq(|rgs|, i requires 0 <= i < |rgs| => RangeEntries(rgs[i], entries))
  }

  ghost function Replaced(items: seq<RangeEntries>, k: nat, rgs: seq<Range>): seq<RangeEntries>
    requires k < |items|
  {
    items[..k] + Nodes(rgs, items[k].entries) + items[k + 1..]
  }

  /** Putting a tiling in place of one tile. */
  lemma TilesSpliced(a: seq<Range>, k: nat, rgs: seq<Range>, lo: int, hi: int)
    requires Tiles(a, lo, hi) && k < |a| && Tiles(rgs, a[k].left, a[k].right)
    ensures Tiles(a[..k] + rgs + a[k + 1..], lo, hi)
  {
    var r := a[..k] + rgs + a[k + 1..];
    assert forall i :: k + |rgs| <= i < |r| ==> r[i] == a[i - |rgs| + 1];
    forall i | 0 < i < |r|
      ensures r[i - 1].right == r[i].left
    {
      if k < i < k + |rgs| {
        assert rgs[i - k - 1].right == rgs[i - k].left;
      } else if i > k + |rgs| {
        assert a[i - |rgs|].right == a[i - |rgs| + 1].left;
      }
    }
  }

  lemma ReplacedPartition(items: seq<RangeEntries>, k: nat, rgs: seq<Range>, lo: int, hi: int)
    requires Partition(items, lo, hi) && k < |items| && Tiles(rgs, items[k].rg.left, items[k].rg.right)
    ensures Partition(Replaced(items, k, rgs), lo, hi)
  {
    TilesSpliced(Ranges(items), k, rgs, lo, hi);
    assert Ranges(Replaced(items, k, rgs)) == Ranges(items)[..k] + rgs + Ranges(items)[k + 1..];
  }

  lemma {:induction false} TileInside(rgs: seq<Range>, lo: int, hi: int, i: nat)
    requires Tiles(rgs, lo, hi) && i < |rgs|
    ensures lo <= rgs[i].left && rgs[i].right <= hi
  {
    if i > 0 {
      TilesOrder(rgs, lo, hi, 0, i);
    }
    if i < |rgs| - 1 {
      TilesOrder(rgs, lo, hi, i, |rgs| - 1);
    }
  }

  lemma ReplacedAgrees(items: seq<RangeEntries>, k: nat, rgs: seq<Range>, lo: int, h: seq<Indexed>)
    requires Agrees(items, lo, h) && k < |items| && Tiles(rgs, items[k].rg.left, items[k].rg.right)
    ensures Agrees(Replaced(items, k, rgs), lo, h)
  {
    var r := Replaced(items, k, rgs);
    forall j, v | 0 <= j < |r| && r[j].rg.ContainValue(v)
      ensures r[j].entries == Covering(h, lo, v)
    {
      if j < k {
        assert r[j] == items[j];
      } else if j < k + |rgs| {
        TileInside(rgs, items[k].rg.left, items[k].rg.right, j - k);
        assert items[k].rg.ContainValue(v);
      } else {
        assert r[j] == items[j - |rgs| + 1];
      }
    }
  }

  // ----- walking the list

  ghost predicate Within(rg: Range, left: int, right: int) {
    left <= rg.left && rg.right <= right
  }

  /** The first `k` segments respect `[left, right)`, those within it are marked, and `cur` is where the
      rest of the range starts, unless the range has been passed. */
  ghost predicate Walked(items: seq<RangeEntries>, k: nat, cur: int, left: int, right: int, marks: set<nat>) {
    && k <= |items|
    && (forall j :: 0 <= j < k ==> Respects(items[j].rg, left, right))
    && (forall j :: j in marks <==> 0 <= j < k && Within(items[j].rg, left, right))
    && (|| cur == (if k == 0 || items[k - 1].rg.right <= left then left else items[k - 1].rg.right)
        || (k > 0 && items[k - 1].rg.right >= right))
  }

  lemma WalkedPast(items: seq<RangeEntries>, k: nat, cur: int, left: int, right: int, marks: set<nat>)
    requires Walked(items, k, cur, left, right, marks) && k < |items| && items[k].rg.left < items[k].rg.right
    requires items[k].rg.right <= left < right
    ensures Walked(items, k + 1, left, left, right, marks)
  {
  }

  lemma PieceRespects(p: Range, cur: int, left: int, right: int, rgs: seq<Range>, cut: int, i: nat)
    requires p.left <= cur < p.right && left <= cur < right && (cur > p.left ==> cur == left)
    requires cut == if right > p.right then p.right else right
    requires Tiles(rgs, p.left, p.right) && i < |rgs| && Respects(rgs[i], cur, cut)
    ensures Respects(rgs[i], left, right)
  {
    TileInside(rgs, p.left, p.right, i);
  }

  lemma ReplacedAt(items: seq<RangeEntries>, k: nat, rgs: seq<Range>, j: nat)
    requires k < |items| && j < k + |rgs|
    ensures j < |Replaced(items, k, rgs)|
    ensures Replaced(items, k, rgs)[j].rg == if j < k then items[j].rg else rgs[j - k]
  {
  }

  /** Cutting a segment at the bounds of what is left of the range keeps the walk going. */
  lemma WalkedCut(items: seq<RangeEntries>, k: nat, cur: int, left: int, right: int, marks: set<nat>,
                  rgs: seq<Range>, cut: int, more: set<nat>, cur': int)
    requires k < |items| && left < right && Walked(items, k, cur, left, right, marks)
    requires items[k].rg.left <= cur < items[k].rg.right && left <= cur < right
    requires cur > items[k].rg.left ==> cur == left
    requires cut == if right > items[k].rg.right then items[k].rg.right else right
    requires cur' == if right > items[k].rg.right then items[k].rg.right else cur
    requires Tiles(rgs, items[k].rg.left, items[k].rg.right)
    requires forall i :: 0 <= i < |rgs| ==> Respects(rgs[i], cur, cut)
    requires forall j :: j in more <==> k <= j < k + |rgs| && Within(rgs[j - k], left, right)
    ensures Walked(Replaced(items, k, rgs), k + |rgs|, cur', left, right, marks + more)
  {
    var r := Replaced(items, k, rgs);
    forall j | 0 <= j < k + |rgs|
      ensures Respects(r[j].rg, left, right)
      ensures j in marks + more <==> Within(r[j].rg, left, right)
    {
      ReplacedAt(items, k, rgs, j);
      if j >= k {
        PieceRespects(items[k].rg, cur, left, right, rgs, cut, j - k);
      }
    }
    ReplacedAt(items, k, rgs, k + |rgs| - 1);
    TileInside(rgs, items[k].rg.left, items[k].rg.right, |rgs| - 1);
  }

  class RangeIdx {
    const valueMin: int
    const valueMax: int
    var items: seq<RangeEntries>
    var rgEntries: seq<RangeEntries>

    constructor (min: int, max: int)
      requires MIN_INT64 <= min < max <= MAX_INT64
      ensures valueMin == min && valueMax == max && Holds([])
    {
      valueMin, valueMax := min, max;
      items := [RangeEntries(Range(min, max), [])];
      rgEntries := [];
    }

    /** The list partitions the domain and holds exactly the calls in `h`. */
    ghost predicate Holds(h: seq<Indexed>)
      reads this
    {
      Partition(items, valueMin, valueMax) && Agrees(items, valueMin, h)
    }

    /** Replaces a node by the pieces it was cut into, marking those within the full range. */
    method ReplaceNode(k: nat, rgs: seq<Range>, fullRg: Range) returns (iter: nat, marks: set<nat>)
      requires k < |items| && |rgs| > 0 && forall i :: 0 <= i < |rgs| ==> rgs[i].left < rgs[i].right
      modifies this`items
      ensures items == Replaced(old(items), k, rgs) && iter == k + |rgs| - 1
      ensures forall j :: j in marks <==> k <= j < k + |rgs| && Within(rgs[j - k], fullRg.left, fullRg.right)
    {
      var pl := items[k];
      marks := {};
      iter := k;
      var i := 0;
      while i < |rgs|
        invariant 0 <= i <= |rgs| && iter == (if i == 0 then k else k + i - 1)
        invariant if i == 0 then items == old(items)
                  else items == old(items)[..k] + Nodes(rgs[..i], pl.entries) + old(items)[k + 1..]
        invariant forall j :: j in marks <==> k <= j < k + i && Within(rgs[j - k], fullRg.left, fullRg.right)
      {
        var node := RangeEntries(rgs[i], pl.entries);
        if i == 0 {
          items := items[k := node];
        } else {
          items := items[..iter + 1] + [node] + items[iter + 1..];
          iter := iter + 1;
        }
        if fullRg.ContainRange(rgs[i]) {
          marks := marks + {iter};
        }
        NodesMore(rgs, i, pl.entries);
        i := i + 1;
      }
      assert rgs[..i] == rgs;
    }

    /** Every segment respects the range, and the marked ones are those within it. */
    ghost predicate Marked(left: int, right: int, marks: set<nat>)
      reads this
    {
      && (forall j :: 0 <= j < |items| ==> Respects(items[j].rg, left, right))
      && (forall j :: j in marks <==> 0 <= j < |items| && Within(items[j].rg, left, right))
    }

    /** Cuts the segment that contains where the rest of the range starts. */
    method CutNode(k: nat, cur: int, left: int, right: int, marks: set<nat>, ghost h: seq<Indexed>)
      returns (k': nat, cur': int, marks': set<nat>)
      requires Holds(h) && k < |items| && left < right && Walked(items, k, cur, left, right, marks)
      requires items[k].rg.ContainValue(cur) && left <= cur < right && (cur > items[k].rg.left ==> cur == left)
      modifies this`items
      ensures Holds(h) && k < k' <= |items| && |items| - k' == old(|items|) - k - 1
      ensures Walked(items, k', cur', left, right, marks')
    {
      var pl := items[k];
      var cut := if right > pl.rg.right then pl.rg.right else right;
      cur' := if right > pl.rg.right then NewRange(pl.rg.right, right).left else cur;
      var rgs := Explode(pl.rg, cur, cut);
      ReplacedPartition(items, k, rgs.value, valueMin, valueMax);
      ReplacedAgrees(items, k, rgs.value, valueMin, h);
      var iter, more := ReplaceNode(k, rgs.value, NewRange(left, right));
      WalkedCut(old(items), k, cur, left, right, marks, rgs.value, cut, more, cur');
      k', marks' := iter + 1, marks + more;
    }

    /** What the walk keeps: a proper walk for a range that starts in the domain, and no change for one
        that starts below it or ends before it. */
    ghost predicate Walking(k: nat, cur: int, left: int, right: int, marks: set<nat>, before: seq<RangeEntries>)
      reads this
    {
      if valueMin <= left < right then Walked(items, k, cur, left, right, marks)
      else k <= |items| && items == before && marks == {} && cur == left
    }

    /** One step of the walk. */
    method Visit(k: nat, cur: int, left: int, right: int, marks: set<nat>, ghost h: seq<Indexed>,
                 ghost before: seq<RangeEntries>)
      returns (stop: bool, k': nat, cur': int, marks': set<nat>)
      requires Holds(h) && k < |items| && Walking(k, cur, left, right, marks, before)
      requires left < right || right <= valueMin
      modifies this`items
      ensures Holds(h) && Walking(k', cur', left, right, marks', before)
      ensures stop ==> k' < |items| && items[k'].rg.left >= right
      ensures !stop ==> |items| - k' < old(|items|) - k
    {
      var pl := items[k];
      stop, k', cur', marks' := false, k + 1, cur, marks;
      StartsInDomain(k, h);
      if pl.rg.left >= right {
        stop, k' := true, k;
      } else if cur >= pl.rg.right {
        if valueMin <= left < right {
          WalkedPast(items, k, cur, left, right, marks);
        }
      } else if pl.rg.ContainValue(cur) {
        k', cur', marks' := CutNode(k, cur, left, right, marks, h);
      }
    }

    lemma StartsInDomain(k: nat, h: seq<Indexed>)
      requires Holds(h) && k < |items|
      ensures valueMin <= items[k].rg.left
    {
      if k > 0 {
        PartitionOrder(items, valueMin, valueMax, 0, k);
      }
    }

    lemma WalkDone(k: nat, cur: int, left: int, right: int, marks: set<nat>, h: seq<Indexed>)
      requires Holds(h) && Walked(items, k, cur, left, right, marks)
      requires k < |items| ==> items[k].rg.left >= right
      ensures Marked(left, right, marks)
    {
      forall j | k <= j < |items|
        ensures items[j].rg.left >= right
      {
        if k < j {
          PartitionOrder(items, valueMin, valueMax, k, j);
        }
      }
    }

    method Walk(left: int, right: int, ghost h: seq<Indexed>) returns (marks: set<nat>)
      requires Holds(h) && (left < right || right <= valueMin)
      modifies this`items
      ensures Holds(h)
      ensures if valueMin <= left < right then Marked(left, right, marks) else marks == {}
    {
      marks := {};
      var k: nat := 0;
      var cur, stop := left, false;
      while k < |items| && !stop
        invariant Holds(h) && Walking(k, cur, left, right, marks, old(items))
        invariant stop ==> k < |items| && items[k].rg.left >= right
        decreases !stop, |items| - k
      {
        stop, k, cur, marks := Visit(k, cur, left, right, marks, h, old(items));
      }
      if valueMin <= left < right {
        WalkDone(k, cur, left, right, marks, h);
      }
    }

    /** Appends the entry to every marked segment. */
    method AppendEntry(marks: set<nat>, eid: EntryID)
      requires forall j :: j in marks ==> j < |items|
      modifies this`items
      ensures |items| == old(|items|)
      ensures forall j :: 0 <= j < |items| ==>
                items[j].rg == old(items)[j].rg
                && items[j].entries == old(items)[j].entries + if j in marks then [eid] else []
    {
      var todo := marks;
      while todo != {}
        invariant todo <= marks && |items| == old(|items|)
        invariant forall j :: 0 <= j < |items| ==>
                    items[j].rg == old(items)[j].rg
                    && items[j].entries == old(items)[j].entries + if j in marks && j !in todo then [eid] else []
        decreases todo
      {
        var j :| j in todo;
        items := items[j := RangeEntries(items[j].rg, items[j].entries + [eid])];
        todo := todo - {j};
      }
    }

    /** Splits the list at the bounds of the range and appends the entry to every segment within it. */
    method IndexingRange(left: int, right: int, eid: EntryID, ghost h: seq<Indexed>)
      requires Holds(h)
      requires NewRange(left, right).left < NewRange(left, right).right || NewRange(left, right).right <= valueMin
      modifies this`items
      ensures Holds(h + [Indexed(left, right, eid)])
    {
      var rg := NewRange(left, right);
      var marks := Walk(rg.left, rg.right, h);
      ghost var before := items;
      AppendEntry(marks, eid);
      AppendedHolds(before, items, valueMin, valueMax, h, Indexed(left, right, eid), marks);
    }

    /** The sorted segments partition the domain and hold exactly the calls in `h`. */
    ghost predicate Compiled(h: seq<Indexed>)
      reads this
    {
      SortedSegments(rgEntries, valueMin, valueMax, h)
    }

    /** Moves the segments over, sorted; the list is left empty. */
    method Compile(ghost h: seq<Indexed>)
      requires Holds(h)
      modifies this
      ensures Compiled(h) && items == []
    {
      rgEntries := SortSegments(items);
      SortingKeeps(items, rgEntries, valueMin, valueMax, h);
      items := [];
    }

    /** Binary search for the segment that contains a value. */
    method Retrieve(value: int, ghost h: seq<Indexed>) returns (r: Option<nat>)
      requires Compiled(h)
      ensures r.Some? <==> valueMin <= value < valueMax
      ensures r.Some? ==> r.value < |rgEntries| && rgEntries[r.value].rg.ContainValue(value)
    {
      if value < valueMin || value >= valueMax {
        return None;
      }
      var lo, hi := 0, |rgEntries|;
      while lo < hi
        invariant 0 <= lo <= hi <= |rgEntries|
        invariant lo > 0 ==> rgEntries[lo - 1].rg.right <= value
        invariant hi < |rgEntries| ==> value < rgEntries[hi].rg.right
        decreases hi - lo
      {
        var mid := (lo + hi) / 2;
        if value >= rgEntries[mid].rg.right {
          lo := mid + 1;
        } else {
          hi := mid;
        }
      }
      r := Some(lo);
    }
  }

  ghost predicate SortedSegments(rgs: seq<RangeEntries>, lo: int, hi: int, h: seq<Indexed>) {
    && Partition(rgs, lo, hi)
    && (forall j :: 0 <= j < |rgs| ==> Ascending(rgs[j].entries))
    && (forall j, v :: 0 <= j < |rgs| && rgs[j].rg.ContainValue(v) ==>
          multiset(rgs[j].entries) == multiset(Covering(h, lo, v)))
  }

  /** The same segment with its entries in order. */
  ghost predicate SortedOf(after: RangeEntries, before: RangeEntries) {
    after.rg == before.rg && Ascending(after.entries) && multiset(after.entries) == multiset(before.entries)
  }

  method SortSegments(items: seq<RangeEntries>) returns (rgs: seq<RangeEntries>)
    ensures |rgs| == |items| && forall j :: 0 <= j < |items| ==> SortedOf(rgs[j], items[j])
  {
    rgs := [];
    var i := 0;
    while i < |items|
      invariant 0 <= i <= |items| && |rgs| == i
      invariant forall j :: 0 <= j < i ==> SortedOf(rgs[j], items[j])
    {
      var sorted := Sorted(items[i].entries);
      rgs := rgs + [RangeEntries(items[i].rg, sorted)];
      i := i + 1;
    }
  }

  lemma SortingKeeps(items: seq<RangeEntries>, rgs: seq<RangeEntries>, lo: int, hi: int, h: seq<Indexed>)
    requires Partition(items, lo, hi) && Agrees(items, lo, h) && |rgs| == |items|
    requires forall j :: 0 <= j < |items| ==> SortedOf(rgs[j], items[j])
    ensures SortedSegments(rgs, lo, hi, h)
  {
    assert forall j :: 0 <= j < |items| ==> rgs[j].rg == items[j].rg;
    forall j, v | 0 <= j < |rgs| && rgs[j].rg.ContainValue(v)
      ensures multiset(rgs[j].entries) == multiset(Covering(h, lo, v))
    {
      assert items[j].rg.ContainValue(v);
    }
  }

  lemma AppendedHolds(before: seq<RangeEntries>, after: seq<RangeEntries>, lo: int, hi: int, h: seq<Indexed>,
                      x: Indexed, marks: set<nat>)
    requires Partition(before, lo, hi) && Agrees(before, lo, h) && |after| == |before|
    requires forall j :: 0 <= j < |after| ==>
               after[j].rg == before[j].rg && after[j].entries == before[j].entries + if j in marks then [x.eid] else []
    requires var rg := NewRange(x.left, x.right);
             if lo <= rg.left < rg.right
             then forall j :: 0 <= j < |before| ==>
                    Respects(before[j].rg, rg.left, rg.right)
                    && (j in marks <==> Within(before[j].rg, rg.left, rg.right))
             else marks == {} && (rg.left < rg.right || rg.right <= lo)
    ensures Partition(after, lo, hi) && Agrees(after, lo, h + [x])
  {
    var h' := h + [x];
    assert h'[..|h'| - 1] == h;
    forall j, v | 0 <= j < |after| && after[j].rg.ContainValue(v)
      ensures after[j].entries == Covering(h', lo, v)
    {
      assert before[j].rg.ContainValue(v) && before[j].entries == Covering(h, lo, v);
      if j > 0 {
        PartitionOrder(before, lo, hi, 0, j);
      }
      assert Covers(x, lo, v) <==> j in marks;
    }
  }

  lemma NodesMore(rgs: seq<Range>, i: nat, entries: Entries)
    requires i < |rgs|
    ensures Nodes(rgs[..i + 1], entries) == Nodes(rgs[..i], entries) + [RangeEntries(rgs[i], entries)]
  {
  }
}
