/** Coordinate compression and the lazily built segment tree (holder/rangeholder/optimized_range_holder.go). */
module SegmentTrees {
  import opened IdTypes
  import opened IndexScanner
  import opened IndexBuilders

  // ----- coordinates

  ghost predicate Increasing(values: seq<int>) {
    forall i, j :: 0 <= i < j < |values| ==> values[i] < values[j]
  }

  ghost predicate NonDecreasing(values: seq<int>) {
    forall i, j :: 0 <= i < j < |values| ==> values[i] <= values[j]
  }

  /** How many values lie below `v`: in a sorted list, the position of the first one that does not. */
  ghost predicate FirstAtLeast(values: seq<int>, v: int, idx: nat) {
    && idx <= |values|
    && (forall i :: 0 <= i < idx ==> values[i] < v)
    && (forall i :: idx <= i < |values| ==> v <= values[i])
  }

  /** The library sort, as any sort. */
  method SortValues(values: seq<int>) returns (r: seq<int>)
    ensures NonDecreasing(r) && forall v :: v in r <==> v in values
  {
    r := [];
    var i := 0;
    while i < |values|
      invariant 0 <= i <= |values|
      invariant NonDecreasing(r) && forall v :: v in r <==> v in values[..i]
    {
      r := PlaceValue(r, values[i]);
      assert values[..i + 1] == values[..i] + [values[i]];
      i := i + 1;
    }
    assert values[..i] == values;
  }

  method PlaceValue(values: seq<int>, x: int) returns (r: seq<int>)
    requires NonDecreasing(values)
    ensures NonDecreasing(r) && forall v :: v in r <==> v == x || v in values
  {
    var k := 0;
    while k < |values| && values[k] < x
      invariant 0 <= k <= |values| && forall i :: 0 <= i < k ==> values[i] < x
    {
      k := k + 1;
    }
    assert values == values[..k] + values[k..];
    r := values[..k] + [x] + values[k..];
  }

  class CoordinateCompressor {
    var values: seq<int>
    var valueToIdx: map<int, int>
    var built: bool

    /** Every value has an index; once built, the indices number the values in increasing order. */
    ghost predicate Valid()
      reads this
    {
      && (forall v :: v in valueToIdx <==> v in values)
      && (built ==> Increasing(values))
      && (built ==> forall v :: v in valueToIdx ==> 0 <= valueToIdx[v] < |values| && values[valueToIdx[v]] == v)
    }

    constructor ()
      ensures Valid() && !built && values == []
    {
      values, valueToIdx, built := [], map[], false;
    }

    method AddValue(v: int) returns (outcome: Outcome)
      requires Valid()
      modifies this
      ensures Valid() && built == old(built)
      ensures if old(built) then outcome.Panic? && values == old(values) && valueToIdx == old(valueToIdx)
              else outcome.Ok? && values == old(values) + if v in old(values) then [] else [v]
    {
      if built {
        return Panic;
      }
      if v !in valueToIdx {
        valueToIdx := valueToIdx[v := -1];
        values := values + [v];
      }
      return Ok;
    }

    method Build()
      requires Valid()
      modifies this
      ensures Valid() && built && forall v :: v in values <==> v in old(values)
      ensures old(built) ==> values == old(values)
    {
      if built {
        return;
      }
      var sorted := SortValues(values);
      var unique: seq<int> := [];
      var idxs: map<int, int> := map[];
      var i := 0;
      while i < |sorted|
        invariant 0 <= i <= |sorted| && Increasing(unique)
        invariant forall v :: v in unique <==> v in sorted[..i]
        invariant forall v :: v in idxs <==> v in unique
        invariant forall v :: v in idxs ==> 0 <= idxs[v] < |unique| && unique[idxs[v]] == v
        invariant |unique| > 0 ==> i > 0 && unique[|unique| - 1] == sorted[i - 1]
        invariant i > 0 ==> |unique| > 0
      {
        var v := sorted[i];
        assert sorted[..i + 1] == sorted[..i] + [v];
        if |unique| == 0 || v != unique[|unique| - 1] {
          idxs := idxs[v := |unique|];
          unique := unique + [v];
        }
        i := i + 1;
      }
      assert sorted[..i] == sorted;
      values, valueToIdx, built := unique, idxs, true;
    }

    /** Binary search for the first coordinate at or above a value. */
    method FindIdx(v: int) returns (idx: nat)
      requires Valid() && built
      ensures FirstAtLeast(values, v, idx)
    {
      var hi := |values|;
      idx := 0;
      while idx < hi
        invariant 0 <= idx <= hi <= |values|
        invariant forall i :: 0 <= i < idx ==> values[i] < v
        invariant forall i :: hi <= i < |values| ==> v <= values[i]
      {
        var mid := (idx + hi) / 2;
        if values[mid] >= v {
          hi := mid;
        } else {
          idx := mid + 1;
        }
      }
    }

    /** The positions between two values; an empty stretch is widened to the position it starts at. */
    method FindRange(left: int, right: int) returns (l: nat, r: nat)
      requires Valid() && built
      ensures FirstAtLeast(values, left, l) && l <= r && (l < |values| ==> r < |values|)
      ensures forall i :: 0 <= i < |values| ==> (l <= i <= r <==> left <= values[i] < right || i == l)
    {
      l := FindIdx(left);
      var past := FindIdx(right);
      r := if past - 1 < l then l else past - 1;
    }
  }

  // ----- the tree

  class SegmentTreeNode {
    const l: int
    const r: int
    var entries: Entries
    var left: SegmentTreeNode?
    var right: SegmentTreeNode?
    const isLeaf: bool
    ghost var Repr: set<object>
    /** What a query at a position collects in this subtree. */
    ghost var at: int -> set<EntryID>

    function Mid(): int {
      (l + r) / 2
    }

    ghost predicate Shaped()
      reads this, Repr
      ensures Shaped() ==> this in Repr
      decreases Repr, 0
    {
      && this in Repr && 0 <= l <= r && isLeaf == (l == r)
      && (left != null ==>
            && left in Repr && left.Repr <= Repr && this !in left.Repr && left.Valid()
            && !isLeaf && left.l == l && left.r == Mid())
      && (right != null ==>
            && right in Repr && right.Repr <= Repr && this !in right.Repr && right.Valid()
            && !isLeaf && right.l == Mid() + 1 && right.r == r)
      && (left != null && right != null ==> left.Repr !! right.Repr)
    }

    ghost predicate Valid()
      reads this, Repr
      ensures Valid() ==> this in Repr
      decreases Repr, 1
    {
      && Shaped()
      && (forall i :: l <= i <= r ==> at(i) == SetOf(entries) + if i <= Mid() then Below(left, i) else Below(right, i))
    }

    static ghost function Below(child: SegmentTreeNode?, i: int): set<EntryID>
      reads child
    {
      if child == null then {} else child.at(i)
    }

    constructor (l: int, r: int)
      requires 0 <= l <= r
      ensures Valid() && fresh(Repr) && this.l == l && this.r == r && forall i :: at(i) == {}
    {
      this.l, this.r, isLeaf := l, r, l == r;
      entries, left, right := [], null, null;
      Repr := {this};
      at := i => {};
    }

    /** Enters an id in a child, which is created first if it is missing. */
    static method Grow(child: SegmentTreeNode?, l: int, r: int, a: int, b: int, eid: EntryID)
      returns (c: SegmentTreeNode)
      requires 0 <= l <= r && a <= b && a <= r && l <= b
      requires child != null ==> child.Valid() && child.l == l && child.r == r
      modifies if child == null then {} else child.Repr
      ensures c.Valid() && c.l == l && c.r == r
      ensures if child == null then fresh(c.Repr) else c == child && fresh(c.Repr - old(child.Repr))
      ensures forall i :: l <= i <= r ==> c.at(i) == old(Below(child, i)) + if a <= i <= b then {eid} else {}
      decreases r - l, 3
    {
      if child == null {
        c := new SegmentTreeNode(l, r);
      } else {
        c := child;
      }
      c.Insert(a, b, eid);
    }

    method InsertLeft(a: int, b: int, eid: EntryID)
      requires Shaped() && l < r && a <= b && a <= Mid() && l <= b
      modifies Repr
      ensures Shaped() && fresh(Repr - old(Repr)) && at == old(at) && entries == old(entries)
      ensures forall i :: l <= i <= Mid() ==> Below(left, i) == old(Below(left, i)) + if a <= i <= b then {eid} else {}
      ensures right == old(right) && forall i :: Below(right, i) == old(Below(right, i))
      decreases r - l, 0
    {
      left := Grow(left, l, Mid(), a, b, eid);
      Repr := Repr + left.Repr;
    }

    method InsertRight(a: int, b: int, eid: EntryID)
      requires Shaped() && l < r && a <= b && a <= r && Mid() < b
      modifies Repr
      ensures Shaped() && fresh(Repr - old(Repr)) && at == old(at) && entries == old(entries)
      ensures forall i :: Mid() < i <= r ==> Below(right, i) == old(Below(right, i)) + if a <= i <= b then {eid} else {}
      ensures left == old(left) && forall i :: Below(left, i) == old(Below(left, i))
      decreases r - l, 0
    {
      right := Grow(right, Mid() + 1, r, a, b, eid);
      Repr := Repr + right.Repr;
    }

    /** A node that lies within the stretch keeps the id itself. */
    method InsertWhole(eid: EntryID)
      requires Valid()
      modifies this
      ensures Valid() && Repr == old(Repr)
      ensures forall i :: l <= i <= r ==> at(i) == old(at)(i) + {eid}
    {
      ghost var was := at;
      entries := entries + [eid];
      at := i => was(i) + {eid};
    }

    /** A node that is cut by the stretch passes the id on. */
    method InsertBelow(a: int, b: int, eid: EntryID)
      requires Shaped() && l < r && a <= b && a <= r && l <= b
      modifies Repr
      ensures Shaped() && fresh(Repr - old(Repr)) && at == old(at) && entries == old(entries)
      ensures forall i :: l <= i <= Mid() ==> Below(left, i) == old(Below(left, i)) + if a <= i <= b then {eid} else {}
      ensures forall i :: Mid() < i <= r ==> Below(right, i) == old(Below(right, i)) + if a <= i <= b then {eid} else {}
      decreases r - l, 1
    {
      if a <= Mid() {
        InsertLeft(a, b, eid);
      }
      if b > Mid() {
        InsertRight(a, b, eid);
      }
    }

    /** Enters an id at every position between `a` and `b`. */
    method Insert(a: int, b: int, eid: EntryID)
      requires Valid() && a <= b && a <= r && l <= b
      modifies Repr
      ensures Valid() && fresh(Repr - old(Repr))
      ensures forall i :: l <= i <= r ==> at(i) == old(at)(i) + if a <= i <= b then {eid} else {}
      decreases r - l, 2
    {
      if a <= l && r <= b {
        InsertWhole(eid);
      } else {
        ghost var was := at;
        InsertBelow(a, b, eid);
        at := i => was(i) + if a <= i <= b then {eid} else {};
      }
    }

    /** Collects what covers a position on the way down to it. */
    method CollectEntries(idx: int, result: set<EntryID>) returns (r': set<EntryID>)
      requires Valid() && l <= idx <= r
      ensures r' == result + at(idx)
      decreases r - l
    {
      r' := result + set e | e in entries;
      if isLeaf {
        return;
      }
      var mid := (l + r) / 2;
      if idx <= mid && left != null {
        r' := left.CollectEntries(idx, r');
      } else if idx > mid && right != null {
        r' := right.CollectEntries(idx, r');
      }
    }
  }
}
