/** Posting-list cursors (index_scanner.go). */
module IndexScanner {
  import opened IdTypes
  import opened Documents

  type Entries = seq<EntryID>

  ghost function SetOf(entries: Entries): set<EntryID> {
    set e | e in entries
  }

  ghost predicate Ascending(s: Entries) {
    forall i, j :: 0 <= i < j < |s| ==> s[i] <= s[j]
  }

  /** The first position at or after `from` that holds an id of at least `id`, or the end. */
  ghost function FirstFrom(entries: Entries, from: nat, id: EntryID): (r: nat)
    requires from <= |entries|
    ensures from <= r <= |entries|
    ensures forall i :: from <= i < r ==> entries[i] < id
    ensures r < |entries| ==> id <= entries[r]
    decreases |entries| - from
  {
    if from < |entries| && entries[from] < id then FirstFrom(entries, from + 1, id) else from
  }

  lemma {:induction false} FirstFromIs(entries: Entries, from: nat, id: EntryID, r: nat)
    requires from <= r <= |entries|
    requires forall i :: from <= i < r ==> entries[i] < id
    requires r < |entries| ==> id <= entries[r]
    ensures r == FirstFrom(entries, from, id)
    decreases r - from
  {
    if from < r {
      FirstFromIs(entries, from + 1, id, r);
    }
  }

  /** The id at a position, NULLENTRY at the end. */
  function EntryAt(entries: Entries, cursor: nat): EntryID {
    if cursor < |entries| then entries[cursor] else NULLENTRY
  }

  /** Every entry of the list lies below `id`, or at or above `cur`. */
  ghost predicate Leads(entries: Entries, cur: EntryID, id: EntryID) {
    forall e :: e in entries ==> e < id || cur <= e
  }

  lemma SkippingLeads(entries: Entries, from: nat, id: EntryID, passed: EntryID)
    requires Ascending(entries) && from <= |entries|
    requires Leads(entries, EntryAt(entries, from), passed)
    ensures var cur := EntryAt(entries, FirstFrom(entries, from, id));
            && id <= cur
            && EntryAt(entries, from) <= cur
            && (cur != NULLENTRY ==> cur in entries)
            && Leads(entries, cur, if id < passed then passed else id)
  {
    var to := FirstFrom(entries, from, id);
    forall e | e in entries
      ensures e < id || e < passed || EntryAt(entries, to) <= e
    {
      var p :| 0 <= p < |entries| && entries[p] == e;
      assert p < from ==> entries[p] <= EntryAt(entries, from);
    }
  }

  /** Doubling strides from a position below `id`; brackets the first position that is not. */
  method Gallop(entries: Entries, oc: nat, id: EntryID) returns (cursor: nat, rightSideIndex: nat)
    requires Ascending(entries) && oc < |entries| && entries[oc] < id
    ensures oc <= cursor < rightSideIndex <= |entries| && entries[cursor] < id
    ensures rightSideIndex < |entries| ==> id <= entries[rightSideIndex]
  {
    cursor := oc;
    var bound := 1;
    rightSideIndex := oc + bound;
    while rightSideIndex < |entries| && entries[rightSideIndex] < id
      invariant oc <= cursor < |entries| && entries[cursor] < id
      invariant bound >= 1 && rightSideIndex == oc + bound && cursor < rightSideIndex
      decreases |entries| - rightSideIndex
    {
      cursor := rightSideIndex;
      bound := bound * 2;
      rightSideIndex := oc + bound;
    }
    if rightSideIndex > |entries| {
      rightSideIndex := |entries|;
    }
  }

  /** Binary search of the bracket left by `Gallop`. */
  method Bisect(entries: Entries, lo: nat, hi: nat, id: EntryID) returns (cursor: nat)
    requires Ascending(entries) && lo < hi <= |entries| && entries[lo] < id
    requires hi < |entries| ==> id <= entries[hi]
    ensures lo < cursor <= hi
    ensures forall i :: 0 <= i < cursor ==> entries[i] < id
    ensures cursor < |entries| ==> id <= entries[cursor]
  {
    cursor := lo;
    var rightSideIndex := hi;
    while cursor < rightSideIndex && entries[cursor] < id
      invariant lo <= cursor <= rightSideIndex <= hi
      invariant cursor > lo ==> entries[cursor - 1] < id
      invariant rightSideIndex < |entries| ==> id <= entries[rightSideIndex]
      decreases rightSideIndex - cursor
    {
      var mid := (cursor + rightSideIndex) / 2;
      if entries[mid] >= id {
        rightSideIndex := mid;
      } else {
        cursor := mid + 1;
      }
    }
  }

  /** `r` is the least member of `all` that is at least `id`, or NULLENTRY if there is none. */
  ghost predicate IsLeast(all: set<EntryID>, id: int, r: EntryID) {
    && (r == NULLENTRY || (r in all && id <= r))
    && forall e :: e in all && id <= e ==> r <= e
  }

  /** A position in one posting list. */
  class EntriesCursor {
    const entries: Entries
    ghost const slot: nat  // position in its group
    var cursor: nat
    var curEID: EntryID

    ghost predicate Valid()
      reads this
    {
      Ascending(entries) && cursor <= |entries| && curEID == EntryAt(entries, cursor)
    }

    /** Valid, and every entry of the list below `passed` or at or above the current one. */
    ghost predicate Leading(passed: EntryID)
      reads this
    {
      Valid() && Leads(entries, curEID, passed)
    }

    constructor (entries: Entries, ghost slot: nat)
      requires Ascending(entries)
      ensures Leading(0) && this.entries == entries && this.slot == slot && cursor == 0
    {
      this.entries := entries;
      this.slot := slot;
      cursor := 0;
      curEID := if |entries| > 0 then entries[0] else NULLENTRY;
    }

    constructor Copy(other: EntriesCursor)
      requires other.Valid()
      ensures Valid() && entries == other.entries && cursor == other.cursor
    {
      entries, cursor, curEID := other.entries, other.cursor, other.curEID;
      slot := other.slot;
    }

    method LinearSkipTo(id: EntryID) returns (r: EntryID)
      requires Valid()
      modifies this
      ensures Valid() && r == curEID
      ensures cursor == FirstFrom(entries, old(cursor), id)
    {
      while cursor < |entries| && entries[cursor] < id
        invariant old(cursor) <= cursor <= |entries|
        invariant forall i :: old(cursor) <= i < cursor ==> entries[i] < id
      {
        cursor := cursor + 1;
      }
      FirstFromIs(entries, old(cursor), id, cursor);
      curEID := if cursor >= |entries| then NULLENTRY else entries[cursor];
      r := curEID;
    }

    /** Gallop with doubling strides, then bisect the last stride. */
    method SkipTo(id: EntryID) returns (r: EntryID)
      requires Valid()
      modifies this
      ensures Valid() && r == curEID
      ensures cursor == FirstFrom(entries, old(cursor), id)
    {
      if curEID >= id {
        FirstFromIs(entries, cursor, id, cursor);
        return curEID;
      }
      ghost var oc := cursor;
      var rightSideIndex;
      cursor, rightSideIndex := Gallop(entries, cursor, id);
      cursor := Bisect(entries, cursor, rightSideIndex, id);
      FirstFromIs(entries, oc, id, cursor);
      curEID := if cursor >= |entries| then NULLENTRY else entries[cursor];
      r := curEID;
    }

    /** `SkipTo` as a member of a group whose entries below `passed` are behind it. */
    method SkipGroup(id: EntryID, ghost passed: EntryID) returns (r: EntryID)
      requires Leading(passed) && passed <= curEID
      modifies this
      ensures Leading(if id < passed then passed else id)
      ensures r == curEID && id <= r && passed <= r && (r == NULLENTRY || r in entries)
    {
      SkippingLeads(entries, cursor, id, passed);
      r := SkipTo(id);
    }
  }

  ghost function AllEntries(cursors: seq<EntriesCursor>): set<EntryID> {
    set i, e | 0 <= i < |cursors| && e in cursors[i].entries :: e
  }

  ghost function OwnedBy(cursors: seq<EntriesCursor>): set<object> {
    set i | 0 <= i < |cursors| :: cursors[i] as object
  }

  /** A copy of the cursor with the least current id. */
  method LeastCopy(cursors: seq<EntriesCursor>) returns (first: EntriesCursor)
    requires |cursors| > 0
    requires forall i :: 0 <= i < |cursors| ==> cursors[i].Leading(0)
    ensures fresh(first) && first.Valid() && IsLeast(AllEntries(cursors), 0, first.curEID)
    ensures forall i :: 0 <= i < |cursors| ==> first.curEID <= cursors[i].curEID
    ensures forall i :: 0 <= i < |cursors| ==> Leads(cursors[i].entries, cursors[i].curEID, first.curEID)
  {
    first := new EntriesCursor.Copy(cursors[0]);
    ghost var at := 0;
    var idx := 1;
    while idx < |cursors|
      invariant 1 <= idx <= |cursors|
      invariant fresh(first) && first.Valid()
      invariant 0 <= at < idx && first.curEID == cursors[at].curEID
      invariant forall i :: 0 <= i < idx ==> first.curEID <= cursors[i].curEID
    {
      var cursor := new EntriesCursor.Copy(cursors[idx]);
      if cursor.curEID < first.curEID {
        first := cursor;
        at := idx;
      }
      idx := idx + 1;
    }
    assert first.curEID != NULLENTRY ==> first.curEID in cursors[at].entries;
  }

  lemma LeastOfGroup(cursors: seq<EntriesCursor>, passed: EntryID, newMin: EntryID)
    requires forall i :: 0 <= i < |cursors| ==> cursors[i].Leading(passed) && passed <= newMin <= cursors[i].curEID
    requires newMin == NULLENTRY || newMin in AllEntries(cursors)
    ensures forall i :: 0 <= i < |cursors| ==> cursors[i].Leading(newMin)
    ensures IsLeast(AllEntries(cursors), passed, newMin)
  {
  }

  /** Skips every list of a group that has passed everything below `was`, and finds the new least id. */
  method SkipAll(cursors: seq<EntriesCursor>, id: EntryID, ghost was: EntryID) returns (newMin: EntryID, at: nat)
    requires |cursors| > 0
    requires forall i :: 0 <= i < |cursors| ==>
               cursors[i].slot == i && cursors[i].Leading(was) && was <= cursors[i].curEID
    modifies cursors
    ensures at < |cursors| && newMin == cursors[at].curEID
    ensures forall i :: 0 <= i < |cursors| ==> cursors[i].Leading(newMin) && newMin <= cursors[i].curEID
    ensures IsLeast(AllEntries(cursors), if id < was then was else id, newMin)
  {
    newMin, at := NULLENTRY, 0;
    ghost var passed := if id < was then was else id;
    var idx := 0;
    while idx < |cursors|
      invariant 0 <= idx <= |cursors|
      invariant forall i :: 0 <= i < |cursors| ==>
                  if i < idx then cursors[i].Leading(passed) && passed <= newMin <= cursors[i].curEID
                  else cursors[i].Leading(was) && was <= cursors[i].curEID
      invariant newMin == NULLENTRY || (idx > 0 && newMin in AllEntries(cursors))
      invariant idx > 0 ==> at < idx && newMin == cursors[at].curEID
    {
      var eid := cursors[idx].SkipGroup(id, was);
      assert eid == NULLENTRY || eid in AllEntries(cursors);
      if eid <= newMin {
        newMin, at := eid, idx;
      }
      idx := idx + 1;
    }
    LeastOfGroup(cursors, passed, newMin);
  }

  datatype CursorKey = Wildcard | OfField(field: BEField)

  /** All posting lists that one query field hit, read in step. */
  class FieldCursor {
    const key: CursorKey
    var current: EntriesCursor
    const cursorGroup: seq<EntriesCursor>

    ghost const Repr: set<object>
    ghost const all: set<EntryID>  // every entry of every list of the group

    ghost predicate Valid()
      reads this, Repr
    {
      && this in Repr && current in Repr
      && |cursorGroup| > 0
      && (forall i :: 0 <= i < |cursorGroup| ==>
            && cursorGroup[i] in Repr && cursorGroup[i].slot == i
            && cursorGroup[i].Leading(current.curEID)
            && current.curEID <= cursorGroup[i].curEID)
      && all == AllEntries(cursorGroup)
      && (current.curEID == NULLENTRY || current.curEID in all)
    }

    /** The entry id the merge sees. */
    function GetCurEntryID(): EntryID
      reads this, current
    {
      current.curEID
    }

    /** `current` starts out pointing at a copy of a member of the group, not at the member. */
    constructor (key: CursorKey, cursors: seq<EntriesCursor>)
      requires |cursors| > 0
      requires forall i :: 0 <= i < |cursors| ==> cursors[i].slot == i && cursors[i].Leading(0)
      ensures Valid() && this.key == key && cursorGroup == cursors
      ensures all == AllEntries(cursors) && IsLeast(all, 0, GetCurEntryID())
      ensures fresh(Repr - OwnedBy(cursors)) && Repr >= OwnedBy(cursors)
    {
      this.key := key;
      cursorGroup := cursors;
      all := AllEntries(cursors);
      var first := LeastCopy(cursors);
      current := first;
      Repr := {this, first} + OwnedBy(cursors);
    }

    method SkipTo(id: EntryID) returns (newMin: EntryID)
      requires Valid()
      modifies Repr
      ensures Valid() && newMin == GetCurEntryID()
      ensures if id <= old(GetCurEntryID()) then GetCurEntryID() == old(GetCurEntryID())
              else IsLeast(all, id, GetCurEntryID())
    {
      var at;
      newMin, at := SkipAll(cursorGroup, id, GetCurEntryID());
      current := cursorGroup[at];
    }
  }

  /** Cursors in merge order: by current id, ascending. */
  ghost predicate Ordered(s: seq<FieldCursor>)
    reads s, set fc | fc in s :: fc.current
  {
    forall i :: 0 < i < |s| ==> s[i - 1].GetCurEntryID() <= s[i].GetCurEntryID()
  }

  lemma {:induction false} OrderedPair(s: seq<FieldCursor>, i: nat, j: nat)
    requires Ordered(s) && i <= j < |s|
    ensures s[i].GetCurEntryID() <= s[j].GetCurEntryID()
    decreases j - i
  {
    if i < j {
      OrderedPair(s, i, j - 1);
    }
  }

  method SwapWithPrevious(s: array<FieldCursor>, j: nat, ghost n: nat)
    requires 0 < j < n <= s.Length
    modifies s
    ensures s[j - 1] == old(s[j]) && s[j] == old(s[j - 1])
    ensures forall a :: 0 <= a < n && a != j && a != j - 1 ==> s[a] == old(s[a])
    ensures multiset(s[..n]) == old(multiset(s[..n])) && s[n..] == old(s[n..])
  {
    s[j], s[j - 1] := s[j - 1], s[j];
  }

  /** The inner loop of `Sort`: moves cursor `i` down into the ordered prefix before it. */
  method SiftDown(s: array<FieldCursor>, i: nat, ghost n: nat)
    requires 0 < i < n <= s.Length
    requires forall a :: 0 < a < i ==> s[a - 1].GetCurEntryID() <= s[a].GetCurEntryID()
    modifies s
    ensures forall a :: 0 < a <= i ==> s[a - 1].GetCurEntryID() <= s[a].GetCurEntryID()
    ensures multiset(s[..n]) == old(multiset(s[..n])) && s[n..] == old(s[n..])
  {
    var j := i;
    while j > 0 && s[j].GetCurEntryID() < s[j - 1].GetCurEntryID()
      invariant 0 <= j <= i
      invariant forall a :: 0 < a <= i && a != j ==> s[a - 1].GetCurEntryID() <= s[a].GetCurEntryID()
      invariant 0 < j < i ==> s[j - 1].GetCurEntryID() <= s[j + 1].GetCurEntryID()
      invariant multiset(s[..n]) == old(multiset(s[..n])) && s[n..] == old(s[n..])
    {
      SwapWithPrevious(s, j, n);
      j := j - 1;
    }
  }

  /** In-place insertion sort of the first `n` cursors. */
  method Sort(s: array<FieldCursor>, n: nat)
    requires n <= s.Length
    modifies s
    ensures Ordered(s[..n])
    ensures multiset(s[..n]) == old(multiset(s[..n])) && s[n..] == old(s[n..])
  {
    if n <= 1 {
      return;
    }
    var i := 1;
    while i < n
      invariant 1 <= i <= n
      invariant forall a :: 0 < a < i ==> s[a - 1].GetCurEntryID() <= s[a].GetCurEntryID()
      invariant multiset(s[..n]) == old(multiset(s[..n])) && s[n..] == old(s[n..])
    {
      SiftDown(s, i, n);
      i := i + 1;
    }
  }
}
