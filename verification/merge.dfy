/**
 The posting-list merge behind both engines, first as a theory of entry sets.

 A query turns the index into groups, one per query field (and one for the
 wildcards): the entries that field hit.  A conjunction is selected when no group
 holds its exclude entry and enough groups hold its include entry.
 */
module Merge {
  import opened IdTypes
  import opened IndexScanner

  type Groups = map<CursorKey, set<EntryID>>

  ghost predicate Encoded(g: Groups) {
    forall k, e :: k in g && e in g[k] ==> WellFormed(e)
  }

  ghost function Including(g: Groups, c: ConjID): set<CursorKey> {
    set k | k in g && NewEntryID(c, true) in g[k]
  }

  ghost predicate Excluded(g: Groups, c: ConjID) {
    exists k :: k in g && NewEntryID(c, false) in g[k]
  }

  ghost predicate Selected(g: Groups, c: ConjID) {
    !Excluded(g, c) && |Including(g, c)| >= NeedFor(c)
  }

  /** No conjunction has its include entry in more groups than it needs. */
  ghost predicate NoSurplus(g: Groups) {
    forall c: ConjID :: |Including(g, c)| <= NeedFor(c)
  }

  /** Every conjunction from `bound` on that some group includes needs at least `need` fields. */
  ghost predicate NeedAtLeast(g: Groups, bound: nat, need: nat) {
    forall c: ConjID :: bound <= c && Including(g, c) != {} ==> need <= NeedFor(c)
  }

  /** `found` lists the selected conjunctions below `bound`, each once, in ascending order. */
  ghost predicate Collected(found: seq<ConjID>, g: Groups, bound: nat) {
    && (forall i, j :: 0 <= i < j < |found| ==> found[i] < found[j])
    && (forall c: ConjID :: c in found <==> c < bound && Selected(g, c))
  }

  ghost function DocsOf(found: seq<ConjID>): set<DocID> {
    set c | c in found :: DocOf(c)
  }

  /** One round's view: every group stands at its first entry of a conjunction that is
      at least `bound`; `keys` are the groups still read, in the order of their ids. */
  ghost predicate RoundAt(g: Groups, keys: seq<CursorKey>, ids: seq<EntryID>, bound: nat) {
    && |keys| == |ids|
    && (forall i, j :: 0 <= i < j < |keys| ==> keys[i] != keys[j])
    && (forall i :: 0 <= i < |keys| ==> keys[i] in g && IsLeast(g[keys[i]], bound * 16, ids[i]))
    && (forall i, j :: 0 <= i <= j < |ids| ==> ids[i] <= ids[j])
    && (forall k :: k in g && k !in keys ==> IsLeast(g[k], bound * 16, NULLENTRY))
  }

  lemma {:induction false} PrefixSize(keys: seq<CursorKey>, n: nat, s: set<CursorKey>)
    requires n <= |keys|
    requires forall k :: k in s ==> k in keys[..n]
    ensures |s| <= n
  {
    if n == 0 {
      assert s == {};
    } else {
      var last := keys[n - 1];
      assert keys[..n] == keys[..n - 1] + [last];
      PrefixSize(keys, n - 1, s - {last});
      assert |s| <= |s - {last}| + 1;
    }
  }

  lemma {:induction false} DistinctPrefix(keys: seq<CursorKey>, n: nat, s: set<CursorKey>)
    requires n <= |keys|
    requires forall i, j :: 0 <= i < j < |keys| ==> keys[i] != keys[j]
    requires forall i :: 0 <= i < n ==> keys[i] in s
    ensures n <= |s|
  {
    if n > 0 {
      DistinctPrefix(keys, n - 1, s - {keys[n - 1]});
      assert |s| == |s - {keys[n - 1]}| + 1;
    }
  }

  /** Nothing at or after the bound and before the `need`-th id can be selected. */
  lemma TooFewAgree(g: Groups, keys: seq<CursorKey>, ids: seq<EntryID>, bound: nat, need: nat, c: ConjID)
    requires RoundAt(g, keys, ids, bound) && need >= 1 && bound <= c
    requires need <= |ids| && ids[need - 1] != NULLENTRY ==> c < ConjOf(ids[need - 1])
    ensures |Including(g, c)| < need
  {
    var n := if need - 1 <= |keys| then need - 1 else |keys|;
    forall k | k in Including(g, c)
      ensures k in keys[..n]
    {
      var e := NewEntryID(c, true);
      assert e in g[k] && bound * 16 <= e < NULLENTRY;
      assert k in keys;
      var i :| 0 <= i < |keys| && keys[i] == k;
      assert ids[i] <= e;
      assert i < need - 1;
      assert keys[..n][i] == k;
    }
    PrefixSize(keys, n, Including(g, c));
  }

  /** When the first `need` ids agree on a conjunction, the polarity of the first decides it. */
  lemma AgreementDecides(g: Groups, keys: seq<CursorKey>, ids: seq<EntryID>, bound: nat, need: nat)
    requires RoundAt(g, keys, ids, bound) && Encoded(g)
    requires 1 <= need <= |ids| && ids[need - 1] != NULLENTRY
    requires ConjOf(ids[0]) == ConjOf(ids[need - 1]) && need == NeedFor(ConjOf(ids[0]))
    ensures bound <= ConjOf(ids[0])
    ensures IsInclude(ids[0]) <==> Selected(g, ConjOf(ids[0]))
  {
    var c := ConjOf(ids[0]);
    assert ids[0] <= ids[need - 1];
    assert ids[0] in g[keys[0]];
    WellFormedIsEncoded(ids[0]);
    if IsInclude(ids[0]) {
      forall i | 0 <= i < need
        ensures keys[i] in Including(g, c)
      {
        assert ids[0] <= ids[i] <= ids[need - 1];
        assert ids[i] in g[keys[i]];
        WellFormedIsEncoded(ids[i]);
      }
      DistinctPrefix(keys, need, Including(g, c));
    }
    forall k, e | k in g && e in g[k] && bound * 16 <= e
      ensures ids[0] <= e
    {
      if k in keys {
        var i :| 0 <= i < |keys| && keys[i] == k;
        assert ids[0] <= ids[i] <= e;
      }
    }
  }

  /** After an agreed include, no group beyond the first `need` still stands at that conjunction. */
  lemma NoneLeftBehind(g: Groups, keys: seq<CursorKey>, ids: seq<EntryID>, bound: nat, need: nat, i: nat)
    requires RoundAt(g, keys, ids, bound) && Encoded(g)
    requires 1 <= need <= i < |ids| && ids[need - 1] != NULLENTRY
    requires ConjOf(ids[0]) == ConjOf(ids[need - 1]) && IsInclude(ids[0])
    requires |Including(g, ConjOf(ids[0]))| <= need
    ensures NewEntryID(ConjOf(ids[0]), true) < ids[i]
  {
    var c := ConjOf(ids[0]);
    assert ids[0] in g[keys[0]] && ids[0] <= ids[i];
    WellFormedIsEncoded(ids[0]);
    if ids[i] == ids[0] {
      forall j | 0 <= j <= i
        ensures keys[j] in Including(g, c)
      {
        assert ids[0] <= ids[j] <= ids[i];
        assert ids[j] in g[keys[j]];
      }
      DistinctPrefix(keys, i + 1, Including(g, c));
    }
  }

  // ----- one round: where to skip, and what has been decided by then

  function NextID(ids: seq<EntryID>, need: nat): EntryID
    requires 1 <= need <= |ids| && ids[need - 1] != NULLENTRY
  {
    var endConjID := ConjOf(ids[need - 1]);
    if ConjOf(ids[0]) == endConjID then NewEntryID(endConjID, true) + 1 else NewEntryID(endConjID, false)
  }

  ghost function NextBound(ids: seq<EntryID>, need: nat): nat
    requires 1 <= need <= |ids|
  {
    ConjOf(ids[need - 1]) + if ConjOf(ids[0]) == ConjOf(ids[need - 1]) then 1 else 0
  }

  ghost function Decided(ids: seq<EntryID>, need: nat): seq<ConjID>
    requires 1 <= need <= |ids|
  {
    if ConjOf(ids[0]) == ConjOf(ids[need - 1]) && IsInclude(ids[0]) then [ConjOf(ids[0])] else []
  }

  /** Which cursors a round skips: all of them when the conjunction is excluded, else the first `need`. */
  ghost predicate Skips(ids: seq<EntryID>, need: nat, i: nat)
    requires 1 <= need <= |ids|
  {
    i < need || (ConjOf(ids[0]) == ConjOf(ids[need - 1]) && !IsInclude(ids[0]))
  }

  ghost predicate SkippedTo(all: set<EntryID>, was: EntryID, nextID: EntryID, now: EntryID) {
    if nextID <= was then now == was else IsLeast(all, nextID, now)
  }

  lemma SkipKeepsLeast(all: set<EntryID>, bound: nat, was: EntryID, c: ConjID, past: bool, now: EntryID)
    requires forall e :: e in all ==> WellFormed(e)
    requires IsLeast(all, bound * 16, was) && bound <= c
    requires SkippedTo(all, was, if past then NewEntryID(c, true) + 1 else NewEntryID(c, false), now)
    ensures IsLeast(all, if past then (c + 1) * 16 else c * 16, now)
  {
    forall e | e in all
      ensures e >= NewEntryID(c, true) + 1 <==> e >= (c + 1) * 16
    {
      WellFormedIsEncoded(e);
    }
  }

  /** After a round every group again stands at its first entry from the new bound on. */
  lemma RoundStands(g: Groups, keys: seq<CursorKey>, ids: seq<EntryID>, bound: nat, need: nat, i: nat, now: EntryID)
    requires RoundAt(g, keys, ids, bound) && Encoded(g) && NoSurplus(g)
    requires 1 <= need <= |ids| && ids[need - 1] != NULLENTRY && need == NeedFor(ConjOf(ids[0]))
    requires i < |ids|
    requires if Skips(ids, need, i) then SkippedTo(g[keys[i]], ids[i], NextID(ids, need), now) else now == ids[i]
    ensures IsLeast(g[keys[i]], NextBound(ids, need) * 16, now)
  {
    var c, e := ConjOf(ids[0]), ConjOf(ids[need - 1]);
    assert ids[0] <= ids[need - 1] && bound <= c <= e;
    if Skips(ids, need, i) {
      SkipKeepsLeast(g[keys[i]], bound, ids[i], e, c == e, now);
    } else if c == e {
      NoneLeftBehind(g, keys, ids, bound, need, i);
      SkipKeepsLeast(g[keys[i]], bound, ids[i], e, true, now);
    } else {
      assert ids[need - 1] <= ids[i];
    }
  }

  lemma RoundProgress(g: Groups, keys: seq<CursorKey>, ids: seq<EntryID>, bound: nat, need: nat)
    requires RoundAt(g, keys, ids, bound)
    requires 1 <= need <= |ids| && ids[need - 1] != NULLENTRY
    ensures bound <= ConjOf(ids[0]) && bound < NextBound(ids, need) <= 0x1000_0000_0000_0000
    ensures bound * 16 <= NextID(ids, need)
  {
    assert ids[0] <= ids[need - 1];
  }

  /** The entries of all groups at or after the bound. */
  ghost function Unread(g: Groups, bound: nat): set<(CursorKey, EntryID)> {
    set k, e | k in g && e in g[k] && bound * 16 <= e :: (k, e)
  }

  lemma FirstIsPassed(ids: seq<EntryID>, need: nat)
    requires 1 <= need <= |ids| && ids[0] <= ids[need - 1]
    ensures ids[0] < NextBound(ids, need) * 16
  {
  }

  /** Every round reads at least one entry for good. */
  lemma RoundConsumes(g: Groups, keys: seq<CursorKey>, ids: seq<EntryID>, bound: nat, need: nat)
    requires RoundAt(g, keys, ids, bound)
    requires 1 <= need <= |ids| && ids[need - 1] != NULLENTRY
    ensures Unread(g, NextBound(ids, need)) < Unread(g, bound)
  {
    assert ids[0] <= ids[need - 1];
    RoundProgress(g, keys, ids, bound, need);
    FirstIsPassed(ids, need);
    assert (keys[0], ids[0]) in Unread(g, bound) && (keys[0], ids[0]) !in Unread(g, NextBound(ids, need));
  }

  /** A round decides each conjunction it passes. */
  lemma RoundDecides(g: Groups, keys: seq<CursorKey>, ids: seq<EntryID>, bound: nat, need: nat, c: ConjID)
    requires RoundAt(g, keys, ids, bound) && Encoded(g)
    requires 1 <= need <= |ids| && ids[need - 1] != NULLENTRY && need == NeedFor(ConjOf(ids[0]))
    requires NeedAtLeast(g, bound, need) && bound <= c < NextBound(ids, need)
    ensures c in Decided(ids, need) <==> Selected(g, c)
  {
    if c < ConjOf(ids[need - 1]) {
      TooFewAgree(g, keys, ids, bound, need, c);
      assert ids[0] <= ids[need - 1];
    } else {
      AgreementDecides(g, keys, ids, bound, need);
    }
  }

  /** A round adds exactly the selected conjunctions between the old bound and the new. */
  lemma RoundCollects(g: Groups, keys: seq<CursorKey>, ids: seq<EntryID>, bound: nat, need: nat, found: seq<ConjID>)
    requires RoundAt(g, keys, ids, bound) && Encoded(g)
    requires 1 <= need <= |ids| && ids[need - 1] != NULLENTRY && need == NeedFor(ConjOf(ids[0]))
    requires NeedAtLeast(g, bound, need)
    requires Collected(found, g, bound)
    ensures Collected(found + Decided(ids, need), g, NextBound(ids, need))
  {
    RoundProgress(g, keys, ids, bound, need);
    forall c: ConjID | bound <= c < NextBound(ids, need)
      ensures c in Decided(ids, need) <==> Selected(g, c)
    {
      RoundDecides(g, keys, ids, bound, need, c);
    }
    CollectedMore(found, Decided(ids, need), g, bound, NextBound(ids, need));
  }

  lemma CollectedMore(found: seq<ConjID>, more: seq<ConjID>, g: Groups, bound: nat, bound': nat)
    requires Collected(found, g, bound) && bound <= bound' && |more| <= 1
    requires forall i :: 0 <= i < |more| ==> bound <= more[i] < bound'
    requires forall c: ConjID :: bound <= c < bound' ==> (c in more <==> Selected(g, c))
    ensures Collected(found + more, g, bound')
  {
    assert forall i :: 0 <= i < |found| ==> found[i] in found;
  }

  /** Once fewer than `need` groups have anything left, nothing more can be selected. */
  lemma NothingLeft(g: Groups, keys: seq<CursorKey>, ids: seq<EntryID>, bound: nat, need: nat, found: seq<ConjID>)
    requires RoundAt(g, keys, ids, bound) && need >= 1
    requires need > |ids| || ids[need - 1] == NULLENTRY
    requires NeedAtLeast(g, bound, need)
    requires Collected(found, g, bound)
    ensures Collected(found, g, 0x1000_0000_0000_0000)
  {
    forall c: ConjID | bound <= c
      ensures !Selected(g, c)
    {
      TooFewAgree(g, keys, ids, bound, need, c);
    }
  }

  // ----- the merge on cursors

  /** Default collector: the set of matched documents.  `log` lists the conjunctions collected. */
  class DocIDCollector {
    var docBits: set<DocID>
    ghost var log: seq<ConjID>

    constructor ()
      ensures docBits == {} && log == []
    {
      docBits, log := {}, [];
    }

    method Add(docID: DocID, conj: ConjID)
      modifies this
      ensures docBits == old(docBits) + {docID} && log == old(log) + [conj]
    {
      docBits := docBits + {docID};
      log := log + [conj];
    }
  }

  /** Distinct cursors own disjoint objects and stand for distinct groups. */
  ghost predicate Separate(live: set<FieldCursor>, world: set<object>) {
    && (forall fc :: fc in live ==> fc in fc.Repr && fc.Repr <= world)
    && (forall fc, fd :: fc in live && fd in live && fc != fd ==> fc.Repr !! fd.Repr && fc.key != fd.key)
  }

  /** Every cursor stands at the first entry of its group that belongs to a conjunction >= bound. */
  ghost predicate Standing(live: set<FieldCursor>, world: set<object>, g: Groups, bound: nat)
    requires Separate(live, world)
    reads world
  {
    forall fc :: fc in live ==>
      fc.Valid() && fc.key in g && g[fc.key] == fc.all && IsLeast(fc.all, bound * 16, fc.GetCurEntryID())
  }

  /** The groups without a live cursor hold nothing from `bound` on. */
  ghost predicate OthersEnded(live: set<FieldCursor>, g: Groups, bound: nat) {
    forall k :: k in g && (forall fc :: fc in live ==> fc.key != k) ==> IsLeast(g[k], bound * 16, NULLENTRY)
  }

  ghost predicate Enumerates(s: seq<FieldCursor>, live: set<FieldCursor>) {
    && (forall fc :: fc in s ==> fc in live)
    && (forall fc :: fc in live ==> fc in s)
    && (forall i, j :: 0 <= i < j < |s| ==> s[i] != s[j])
  }

  lemma {:induction false} DuplicateCount(s: seq<FieldCursor>, i: nat, j: nat)
    requires i < j < |s| && s[i] == s[j]
    ensures multiset(s)[s[i]] >= 2
  {
    assert s == s[..j] + [s[j]] + s[j + 1..];
    assert s[..j][i] == s[i];
  }

  lemma {:induction false} DistinctCount(s: seq<FieldCursor>, fc: FieldCursor)
    requires forall i, j :: 0 <= i < j < |s| ==> s[i] != s[j]
    ensures multiset(s)[fc] <= 1
  {
    if s != [] {
      assert s == s[..|s| - 1] + [s[|s| - 1]];
      DistinctCount(s[..|s| - 1], fc);
    }
  }

  lemma PermutationEnumerates(s: seq<FieldCursor>, t: seq<FieldCursor>, live: set<FieldCursor>)
    requires Enumerates(s, live) && multiset(s) == multiset(t)
    ensures Enumerates(t, live)
  {
    forall fc | fc in t
      ensures fc in live
    {
      assert fc in multiset(t);
    }
    forall fc | fc in live
      ensures fc in t
    {
      assert fc in multiset(s);
    }
    forall i, j | 0 <= i < j < |t|
      ensures t[i] != t[j]
    {
      DistinctCount(s, t[i]);
      if t[i] == t[j] {
        DuplicateCount(t, i, j);
      }
    }
  }

  ghost function KeysOf(s: seq<FieldCursor>): seq<CursorKey> {
    seq(|s|, i requires 0 <= i < |s| => s[i].key)
  }

  ghost function IdsOf(s: seq<FieldCursor>): seq<EntryID>
    reads s, set fc | fc in s :: fc.current
  {
    seq(|s|, i requires 0 <= i < |s| reads s, set fc | fc in s :: fc.current => s[i].GetCurEntryID())
  }

  lemma ViewRound(s: seq<FieldCursor>, live: set<FieldCursor>, world: set<object>, g: Groups, bound: nat)
    requires Enumerates(s, live) && Ordered(s)
    requires Separate(live, world) && Standing(live, world, g, bound) && OthersEnded(live, g, bound)
    ensures RoundAt(g, KeysOf(s), IdsOf(s), bound)
  {
    var keys, ids := KeysOf(s), IdsOf(s);
    forall i, j | 0 <= i <= j < |s|
      ensures ids[i] <= ids[j]
    {
      OrderedPair(s, i, j);
    }
    forall k | k in g && k !in keys
      ensures IsLeast(g[k], bound * 16, NULLENTRY)
    {
      forall fc | fc in live
        ensures fc.key != k
      {
        var i :| 0 <= i < |s| && s[i] == fc;
        assert keys[i] == fc.key;
      }
    }
    forall i | 0 <= i < |s|
      ensures keys[i] in g && IsLeast(g[keys[i]], bound * 16, ids[i])
    {
      assert s[i] in live;
    }
  }

  /** Skipping one cursor leaves every other one where it stands. */
  method SkipOne(fc: FieldCursor, nextID: EntryID, ghost live: set<FieldCursor>, ghost world: set<object>)
    requires fc in live && Separate(live, world)
    requires forall fd :: fd in live ==> fd.Valid()
    modifies fc.Repr
    ensures forall fd :: fd in live ==> fd.Valid()
    ensures forall fd :: fd in live && fd != fc ==> fd.GetCurEntryID() == old(fd.GetCurEntryID())
    ensures SkippedTo(fc.all, old(fc.GetCurEntryID()), nextID, fc.GetCurEntryID())
  {
    var _ := fc.SkipTo(nextID);
  }

  /** Skips the cursors `lo..hi` to `nextID`; `behindOnly` skips only those that stand below it. */
  method Advance(s: array<FieldCursor>, lo: nat, hi: nat, nextID: EntryID, behindOnly: bool,
                 ghost ids: seq<EntryID>, ghost live: set<FieldCursor>, ghost world: set<object>)
    requires lo <= hi <= |ids| <= s.Length && s !in world
    requires Separate(live, world) && Enumerates(s[..|ids|], live)
    requires forall fc :: fc in live ==> fc.Valid()
    requires forall i :: 0 <= i < |ids| ==> s[i].GetCurEntryID() == ids[i]
    modifies world
    ensures forall fc :: fc in live ==> fc.Valid()
    ensures forall i :: 0 <= i < |ids| ==>
              if lo <= i < hi then SkippedTo(s[i].all, ids[i], nextID, s[i].GetCurEntryID())
              else s[i].GetCurEntryID() == ids[i]
  {
    assert forall j :: 0 <= j < |ids| ==> s[..|ids|][j] == s[j] && s[j] in live;
    var i := lo;
    while i < hi
      invariant lo <= i <= hi
      invariant forall fc :: fc in live ==> fc.Valid()
      invariant forall j :: 0 <= j < |ids| ==>
                  if lo <= j < i then SkippedTo(s[j].all, ids[j], nextID, s[j].GetCurEntryID())
                  else s[j].GetCurEntryID() == ids[j]
    {
      if !behindOnly || s[i].GetCurEntryID() < nextID {
        assert forall j :: 0 <= j < |ids| && j != i ==> s[..|ids|][j] != s[..|ids|][i];
        SkipOne(s[i], nextID, live, world);
      }
      i := i + 1;
    }
  }

  /** The skips of one round, from what the cursors showed when it began. */
  method AdvanceRound(s: array<FieldCursor>, n: nat, need: nat, collector: DocIDCollector,
                      ghost ids: seq<EntryID>, ghost live: set<FieldCursor>, ghost world: set<object>)
    requires |ids| == n <= s.Length && s !in world && collector !in world
    requires Separate(live, world) && Enumerates(s[..n], live)
    requires forall fc :: fc in live ==> fc.Valid()
    requires forall i :: 0 <= i < n ==> s[i].GetCurEntryID() == ids[i]
    requires 1 <= need <= n && ids[need - 1] != NULLENTRY
    modifies world, collector
    ensures forall fc :: fc in live ==> fc.Valid()
    ensures forall i :: 0 <= i < n ==>
              if Skips(ids, need, i) then SkippedTo(s[i].all, ids[i], NextID(ids, need), s[i].GetCurEntryID())
              else s[i].GetCurEntryID() == ids[i]
    ensures collector.log == old(collector.log) + Decided(ids, need)
    ensures collector.docBits == old(collector.docBits) + DocsOf(Decided(ids, need))
  {
    var eid := s[0].GetCurEntryID();
    var endEID := s[need - 1].GetCurEntryID();
    var conjID := ConjOf(eid);
    var endConjID := ConjOf(endEID);
    var nextID := NewEntryID(endConjID, false);
    ghost var mid := ids;
    if conjID == endConjID {
      nextID := NewEntryID(endConjID, true) + 1;
      if IsInclude(eid) {
        collector.Add(DocOf(conjID), conjID);
      } else {
        Advance(s, need, n, nextID, true, ids, live, world);
        mid := IdsOf(s[..n]);
      }
    }
    Advance(s, 0, need, nextID, false, mid, live, world);
  }

  /** The skips of a round leave every live cursor standing at the new bound. */
  lemma RoundRestands(s: seq<FieldCursor>, ids: seq<EntryID>, need: nat,
                      live: set<FieldCursor>, world: set<object>, g: Groups, bound: nat)
    requires Separate(live, world) && Enumerates(s, live) && |ids| == |s|
    requires RoundAt(g, KeysOf(s), ids, bound) && Encoded(g) && NoSurplus(g)
    requires 1 <= need <= |ids| && ids[need - 1] != NULLENTRY && need == NeedFor(ConjOf(ids[0]))
    requires forall fc :: fc in live ==> fc.Valid() && fc.key in g && g[fc.key] == fc.all
    requires forall i :: 0 <= i < |s| ==>
               if Skips(ids, need, i) then SkippedTo(s[i].all, ids[i], NextID(ids, need), s[i].GetCurEntryID())
               else s[i].GetCurEntryID() == ids[i]
    ensures Standing(live, world, g, NextBound(ids, need))
  {
    forall fc | fc in live
      ensures IsLeast(fc.all, NextBound(ids, need) * 16, fc.GetCurEntryID())
    {
      var i :| 0 <= i < |s| && s[i] == fc;
      assert KeysOf(s)[i] == fc.key;
      RoundStands(g, KeysOf(s), ids, bound, need, i, fc.GetCurEntryID());
    }
  }

  /** What both retrieval loops keep: `s` lists the live cursors, in order. */
  ghost predicate Merging(s: seq<FieldCursor>, live: set<FieldCursor>, world: set<object>, g: Groups, bound: nat)
    reads world
  {
    && Separate(live, world) && Standing(live, world, g, bound) && OthersEnded(live, g, bound)
    && Enumerates(s, live)
    && (forall fc: FieldCursor :: fc in s ==> fc in world && fc.current in world)
    && Ordered(s)
    && Encoded(g) && NoSurplus(g)
  }

  /** The first half of a round: everything but the sort. */
  method DecideAndSkip(s: array<FieldCursor>, n: nat, need: nat, collector: DocIDCollector,
                       ghost live: set<FieldCursor>, ghost world: set<object>, ghost g: Groups, ghost bound: nat)
    returns (ghost ids: seq<EntryID>)
    requires n <= s.Length && s !in world && Merging(s[..n], live, world, g, bound) && collector !in world
    requires 1 <= need <= n && s[need - 1].GetCurEntryID() != NULLENTRY
    requires need == NeedFor(ConjOf(s[0].GetCurEntryID()))
    modifies world, collector
    ensures ids == old(IdsOf(s[..n])) && |ids| == n
    ensures Standing(live, world, g, NextBound(ids, need)) && OthersEnded(live, g, NextBound(ids, need))
    ensures collector.log == old(collector.log) + Decided(ids, need)
    ensures collector.docBits == old(collector.docBits) + DocsOf(Decided(ids, need))
  {
    ids := IdsOf(s[..n]);
    ghost var keys := KeysOf(s[..n]);
    ViewRound(s[..n], live, world, g, bound);
    RoundProgress(g, keys, ids, bound, need);
    AdvanceRound(s, n, need, collector, ids, live, world);
    RoundRestands(s[..n], ids, need, live, world, g, bound);
  }

  /** Sorting keeps the same live cursors where they stand. */
  method Reorder(s: array<FieldCursor>, n: nat,
                 ghost live: set<FieldCursor>, ghost world: set<object>, ghost g: Groups, ghost bound: nat)
    requires n <= s.Length && s !in world && Encoded(g) && NoSurplus(g)
    requires Separate(live, world) && Standing(live, world, g, bound) && OthersEnded(live, g, bound)
    requires Enumerates(s[..n], live)
    modifies s
    ensures Merging(s[..n], live, world, g, bound)
  {
    ghost var before := s[..n];
    Sort(s, n);
    PermutationEnumerates(before, s[..n], live);
  }

  /** One round of either engine: decide the least conjunction if enough cursors agree on it,
      skip past everything that is now decided, and put the cursors back in order. */
  method MergeRound(s: array<FieldCursor>, n: nat, need: nat, collector: DocIDCollector,
                    ghost live: set<FieldCursor>, ghost world: set<object>, ghost g: Groups, ghost bound: nat)
    returns (ghost ids: seq<EntryID>)
    requires n <= s.Length && s !in world && Merging(s[..n], live, world, g, bound) && collector !in world
    requires 1 <= need <= n && s[need - 1].GetCurEntryID() != NULLENTRY
    requires need == NeedFor(ConjOf(s[0].GetCurEntryID()))
    modifies s, world, collector
    ensures ids == old(IdsOf(s[..n])) && |ids| == n
    ensures Merging(s[..n], live, world, g, NextBound(ids, need))
    ensures collector.log == old(collector.log) + Decided(ids, need)
    ensures collector.docBits == old(collector.docBits) + DocsOf(Decided(ids, need))
  {
    ids := DecideAndSkip(s, n, need, collector, live, world, g, bound);
    Reorder(s, n, live, world, g, NextBound(ids, need));
  }

  // ----- the two retrieval loops

  const ALL_CONJS := 0x1000_0000_0000_0000

  /** All entries belong to conjunctions that need the same number of fields. */
  ghost predicate Uniform(g: Groups, need: nat) {
    forall k, e :: k in g && e in g[k] ==> NeedFor(ConjOf(e)) == need
  }

  lemma UniformNeed(g: Groups, bound: nat, need: nat)
    requires Uniform(g, need)
    ensures NeedAtLeast(g, bound, need)
  {
    forall c: ConjID | Including(g, c) != {}
      ensures need == NeedFor(c)
    {
      var k :| k in Including(g, c);
      EntryIDRoundTrip(c, true);
    }
  }

  /** Because size is the most significant part of an id, nothing ahead needs fewer fields than the least id. */
  lemma LeastNeeds(g: Groups, keys: seq<CursorKey>, ids: seq<EntryID>, bound: nat)
    requires RoundAt(g, keys, ids, bound) && |ids| > 0
    ensures NeedAtLeast(g, bound, NeedFor(ConjOf(ids[0])))
  {
    forall c: ConjID | bound <= c && Including(g, c) != {}
      ensures NeedFor(ConjOf(ids[0])) <= NeedFor(c)
    {
      var k :| k in Including(g, c);
      var e := NewEntryID(c, true);
      assert e in g[k] && bound * 16 <= e < NULLENTRY;
      assert k in keys;
      var i :| 0 <= i < |keys| && keys[i] == k;
      assert ids[0] <= ids[i] <= e;
      SizeIsMonotone(ConjOf(ids[0]), c);
    }
  }

  /** `docBits` and `log` after collecting `found` on top of what was there. */
  ghost predicate Holds(collector: DocIDCollector, docs: set<DocID>, log: seq<ConjID>, found: seq<ConjID>)
    reads collector
  {
    collector.docBits == docs + DocsOf(found) && collector.log == log + found
  }

  lemma HoldsMore(docs: set<DocID>, log: seq<ConjID>, found: seq<ConjID>, more: seq<ConjID>)
    ensures docs + DocsOf(found) + DocsOf(more) == docs + DocsOf(found + more)
    ensures log + found + more == log + (found + more)
  {
    assert DocsOf(found + more) == DocsOf(found) + DocsOf(more) by {
      forall d | d in DocsOf(found) + DocsOf(more)
        ensures d in DocsOf(found + more)
      {
        var c :| (c in found || c in more) && DocOf(c) == d;
        assert c in found + more;
      }
    }
  }

  /** A round with its accounting: `found` is what has been collected below `bound`. */
  method CollectRound(s: array<FieldCursor>, n: nat, need: nat, collector: DocIDCollector,
                      ghost live: set<FieldCursor>, ghost world: set<object>, ghost g: Groups, ghost bound: nat,
                      ghost found: seq<ConjID>, ghost docs: set<DocID>, ghost log: seq<ConjID>)
    returns (ghost found': seq<ConjID>, ghost bound': nat)
    requires n <= s.Length && s !in world && Merging(s[..n], live, world, g, bound) && collector !in world
    requires 1 <= need <= n && s[need - 1].GetCurEntryID() != NULLENTRY
    requires need == NeedFor(ConjOf(s[0].GetCurEntryID()))
    requires NeedAtLeast(g, bound, need)
    requires Collected(found, g, bound) && Holds(collector, docs, log, found)
    modifies s, world, collector
    ensures Merging(s[..n], live, world, g, bound') && bound < bound' <= ALL_CONJS
    ensures Unread(g, bound') < Unread(g, bound)
    ensures Collected(found', g, bound') && Holds(collector, docs, log, found')
  {
    ghost var keys, ids := KeysOf(s[..n]), IdsOf(s[..n]);
    ViewRound(s[..n], live, world, g, bound);
    RoundProgress(g, keys, ids, bound, need);
    RoundCollects(g, keys, ids, bound, need, found);
    RoundConsumes(g, keys, ids, bound, need);
    HoldsMore(docs, log, found, Decided(ids, need));
    ghost var seen := MergeRound(s, n, need, collector, live, world, g, bound);
    found' := found + Decided(ids, need);
    bound' := NextBound(ids, need);
  }

  lemma KNeeds(s: seq<FieldCursor>, live: set<FieldCursor>, world: set<object>, g: Groups, bound: nat, need: nat)
    requires Merging(s, live, world, g, bound) && Uniform(g, need)
    requires 1 <= need <= |s| && s[need - 1].GetCurEntryID() != NULLENTRY
    ensures need == NeedFor(ConjOf(s[0].GetCurEntryID())) && NeedAtLeast(g, bound, need)
  {
    OrderedPair(s, 0, need - 1);
    assert s[0] in live;
    assert s[0].key in g && s[0].GetCurEntryID() in g[s[0].key];
    UniformNeed(g, bound, need);
  }

  lemma FewerCursorsThanNeeded(s: seq<FieldCursor>, live: set<FieldCursor>, g: Groups, need: nat)
    requires Enumerates(s, live) && OthersEnded(live, g, 0)
    requires |s| < need && NeedAtLeast(g, 0, need)
    ensures Collected([], g, ALL_CONJS)
  {
    var keys := KeysOf(s);
    forall c: ConjID
      ensures !Selected(g, c)
    {
      forall k | k in Including(g, c)
        ensures k in keys[..|s|]
      {
        assert NewEntryID(c, true) in g[k] && NewEntryID(c, true) < NULLENTRY;
        var fc :| fc in live && fc.key == k;
        var i :| 0 <= i < |s| && s[i] == fc;
        assert keys[..|s|][i] == k;
      }
      PrefixSize(keys, |s|, Including(g, c));
    }
  }

  /** The loop may stop once fewer than `need` live cursors have anything left. */
  lemma MergeEnds(s: seq<FieldCursor>, live: set<FieldCursor>, world: set<object>, g: Groups, bound: nat, need: nat,
                  found: seq<ConjID>)
    requires Enumerates(s, live) && Ordered(s)
    requires Separate(live, world) && Standing(live, world, g, bound) && OthersEnded(live, g, bound)
    requires need >= 1 && (need > |s| || s[need - 1].GetCurEntryID() == NULLENTRY)
    requires NeedAtLeast(g, bound, need) && Collected(found, g, bound)
    ensures Collected(found, g, ALL_CONJS)
  {
    ViewRound(s, live, world, g, bound);
    NothingLeft(g, KeysOf(s), IdsOf(s), bound, need, found);
  }

  /** A round of the K-groups loop. */
  method KRound(s: array<FieldCursor>, n: nat, need: nat, collector: DocIDCollector,
                ghost live: set<FieldCursor>, ghost world: set<object>, ghost g: Groups, ghost bound: nat,
                ghost found: seq<ConjID>, ghost docs: set<DocID>, ghost log: seq<ConjID>)
    returns (ghost found': seq<ConjID>, ghost bound': nat)
    requires n <= s.Length && s !in world && Merging(s[..n], live, world, g, bound) && collector !in world
    requires Uniform(g, need) && 1 <= need <= n && s[need - 1].GetCurEntryID() != NULLENTRY
    requires Collected(found, g, bound) && Holds(collector, docs, log, found)
    modifies s, world, collector
    ensures Merging(s[..n], live, world, g, bound') && bound < bound' <= ALL_CONJS
    ensures Unread(g, bound') < Unread(g, bound)
    ensures Collected(found', g, bound') && Holds(collector, docs, log, found')
  {
    assert s[..n][0] == s[0] && s[..n][need - 1] == s[need - 1];
    KNeeds(s[..n], live, world, g, bound, need);
    found', bound' := CollectRound(s, n, need, collector, live, world, g, bound, found, docs, log);
  }

  /** K-groups: all conjunctions of one container need the same number of fields. */
  method RetrieveK(fieldCursors: array<FieldCursor>, needMatchCnt: nat, collector: DocIDCollector,
                   ghost live: set<FieldCursor>, ghost world: set<object>, ghost g: Groups)
    returns (ghost found: seq<ConjID>)
    requires needMatchCnt >= 1 && Uniform(g, needMatchCnt)
    requires fieldCursors !in world && collector !in world && Encoded(g) && NoSurplus(g)
    requires Separate(live, world) && Standing(live, world, g, 0) && OthersEnded(live, g, 0)
    requires Enumerates(fieldCursors[..], live)
    modifies fieldCursors, world, collector
    ensures Collected(found, g, ALL_CONJS)
    ensures Holds(collector, old(collector.docBits), old(collector.log), found)
  {
    found := [];
    ghost var bound := 0;
    var n := fieldCursors.Length;
    assert fieldCursors[..n] == fieldCursors[..];
    if n < needMatchCnt {
      UniformNeed(g, 0, needMatchCnt);
      FewerCursorsThanNeeded(fieldCursors[..], live, g, needMatchCnt);
      return;
    }
    Reorder(fieldCursors, n, live, world, g, 0);
    while fieldCursors[needMatchCnt - 1].GetCurEntryID() != NULLENTRY
      invariant Merging(fieldCursors[..n], live, world, g, bound)
      invariant bound <= ALL_CONJS && Collected(found, g, bound)
      invariant Holds(collector, old(collector.docBits), old(collector.log), found)
      decreases Unread(g, bound)
    {
      found, bound := KRound(fieldCursors, n, needMatchCnt, collector, live, world, g, bound, found,
                             old(collector.docBits), old(collector.log));
    }
    UniformNeed(g, bound, needMatchCnt);
    MergeEnds(fieldCursors[..n], live, world, g, bound, needMatchCnt, found);
  }

  lemma DropLast(s: seq<FieldCursor>, live: set<FieldCursor>)
    requires |s| > 0 && Enumerates(s, live)
    ensures Enumerates(s[..|s| - 1], live - {s[|s| - 1]})
  {
    assert s == s[..|s| - 1] + [s[|s| - 1]];
  }

  lemma EndedIsOther(gone: FieldCursor, live: set<FieldCursor>, world: set<object>, g: Groups, bound: nat)
    requires gone in live && Separate(live, world) && Standing(live, world, g, bound) && OthersEnded(live, g, bound)
    requires gone.GetCurEntryID() == NULLENTRY
    ensures OthersEnded(live - {gone}, g, bound)
  {
    forall k | k in g && (forall fc :: fc in live - {gone} ==> fc.key != k)
      ensures IsLeast(g[k], bound * 16, NULLENTRY)
    {
      if k != gone.key {
        assert forall fc :: fc in live ==> fc.key != k;
      }
    }
  }

  /** Dropping a cursor that has reached its end. */
  lemma DropEnded(s: seq<FieldCursor>, live: set<FieldCursor>, world: set<object>, g: Groups, bound: nat)
    requires |s| > 0 && Merging(s, live, world, g, bound) && s[|s| - 1].GetCurEntryID() == NULLENTRY
    ensures Merging(s[..|s| - 1], live - {s[|s| - 1]}, world, g, bound)
  {
    DropLast(s, live);
    EndedIsOther(s[|s| - 1], live, world, g, bound);
  }

  lemma DropEndedSlice(s: array<FieldCursor>, n: nat, live: set<FieldCursor>, world: set<object>, g: Groups, bound: nat)
    requires 0 < n <= s.Length && Merging(s[..n], live, world, g, bound) && s[n - 1].GetCurEntryID() == NULLENTRY
    ensures Merging(s[..n - 1], live - {s[n - 1]}, world, g, bound)
  {
    var t, rest, last := s[..n], s[..n - 1], s[n - 1];
    assert t[..|t| - 1] == rest && t[|t| - 1] == last;
    DropEnded(t, live, world, g, bound);
  }

  /** Cuts off the cursors that have reached their end; after sorting they are the last ones. */
  method TrimEnded(s: array<FieldCursor>, n: nat, ghost live: set<FieldCursor>, ghost world: set<object>,
                   ghost g: Groups, ghost bound: nat)
    returns (n': nat, ghost live': set<FieldCursor>)
    requires n <= s.Length && s !in world && Merging(s[..n], live, world, g, bound)
    ensures n' <= n && Merging(s[..n'], live', world, g, bound)
    ensures n' > 0 ==> s[n' - 1].GetCurEntryID() != NULLENTRY
  {
    n', live' := n, live;
    while n' > 0 && s[n' - 1].GetCurEntryID() == NULLENTRY
      invariant n' <= n && Merging(s[..n'], live', world, g, bound)
    {
      DropEndedSlice(s, n', live', world, g, bound);
      n', live' := n' - 1, live' - {s[n' - 1]};
    }
  }

  lemma CompactNeeds(s: seq<FieldCursor>, live: set<FieldCursor>, world: set<object>, g: Groups, bound: nat)
    requires |s| > 0 && Merging(s, live, world, g, bound) && s[|s| - 1].GetCurEntryID() != NULLENTRY
    ensures NeedAtLeast(g, bound, NeedFor(ConjOf(s[0].GetCurEntryID())))
    ensures forall i :: 0 <= i < |s| ==> s[i].GetCurEntryID() != NULLENTRY
  {
    ViewRound(s, live, world, g, bound);
    LeastNeeds(g, KeysOf(s), IdsOf(s), bound);
    forall i | 0 <= i < |s|
      ensures s[i].GetCurEntryID() != NULLENTRY
    {
      OrderedPair(s, i, |s| - 1);
    }
  }

  lemma CompactNeedsSlice(s: array<FieldCursor>, n: nat, live: set<FieldCursor>, world: set<object>, g: Groups,
                          bound: nat)
    requires 0 < n <= s.Length && Merging(s[..n], live, world, g, bound) && s[n - 1].GetCurEntryID() != NULLENTRY
    ensures NeedAtLeast(g, bound, NeedFor(ConjOf(s[0].GetCurEntryID())))
    ensures forall i :: 0 <= i < n ==> s[i].GetCurEntryID() != NULLENTRY
  {
    var t := s[..n];
    assert t[|t| - 1] == s[n - 1] && t[0] == s[0];
    CompactNeeds(t, live, world, g, bound);
    forall i | 0 <= i < n
      ensures s[i].GetCurEntryID() != NULLENTRY
    {
      assert t[i] == s[i];
    }
  }

  /** A round of the compact loop: the required count is read off the least id. */
  method CompactRound(s: array<FieldCursor>, n: nat, collector: DocIDCollector,
                      ghost live: set<FieldCursor>, ghost world: set<object>, ghost g: Groups, ghost bound: nat,
                      ghost found: seq<ConjID>, ghost docs: set<DocID>, ghost log: seq<ConjID>)
    returns (stop: bool, ghost found': seq<ConjID>, ghost bound': nat)
    requires 0 < n <= s.Length && s !in world && Merging(s[..n], live, world, g, bound) && collector !in world
    requires s[n - 1].GetCurEntryID() != NULLENTRY
    requires Collected(found, g, bound) && Holds(collector, docs, log, found)
    modifies s, world, collector
    ensures Merging(s[..n], live, world, g, bound') && Holds(collector, docs, log, found')
    ensures stop ==> Collected(found', g, ALL_CONJS)
    ensures !stop ==> bound < bound' <= ALL_CONJS && Collected(found', g, bound')
    ensures !stop ==> Unread(g, bound') < Unread(g, bound)
  {
    CompactNeedsSlice(s, n, live, world, g, bound);
    var needMatchCnt := NeedFor(ConjOf(s[0].GetCurEntryID()));
    if needMatchCnt > n {
      MergeEnds(s[..n], live, world, g, bound, needMatchCnt, found);
      return true, found, bound;
    }
    stop := false;
    found', bound' := CollectRound(s, n, needMatchCnt, collector, live, world, g, bound, found, docs, log);
  }

  /** What the compact loop keeps: the first `n` cursors are the ones with something left, and `found` is what
      has been collected below `bound`. */
  ghost predicate Compacting(s: array<FieldCursor>, n: nat, live: set<FieldCursor>, world: set<object>, g: Groups,
                             bound: nat, found: seq<ConjID>)
    reads s, world
  {
    && n <= s.Length && bound <= ALL_CONJS
    && Merging(s[..n], live, world, g, bound) && Collected(found, g, bound)
    && (n > 0 ==> s[..n][n - 1].GetCurEntryID() != NULLENTRY)
  }

  method StartCompact(s: array<FieldCursor>, ghost live: set<FieldCursor>, ghost world: set<object>, ghost g: Groups)
    requires s !in world && Encoded(g) && NoSurplus(g)
    requires Separate(live, world) && Standing(live, world, g, 0) && OthersEnded(live, g, 0)
    requires Enumerates(s[..], live) && forall fc :: fc in live ==> fc.GetCurEntryID() != NULLENTRY
    modifies s
    ensures Compacting(s, s.Length, live, world, g, 0, [])
  {
    assert s[..s.Length] == s[..];
    Reorder(s, s.Length, live, world, g, 0);
    assert s.Length > 0 ==> s[..s.Length][s.Length - 1] in s[..s.Length];
  }

  /** A round of the compact loop, then the cut. */
  method CompactStep(s: array<FieldCursor>, n: nat, collector: DocIDCollector,
                     ghost live: set<FieldCursor>, ghost world: set<object>, ghost g: Groups, ghost bound: nat,
                     ghost found: seq<ConjID>, ghost docs: set<DocID>, ghost log: seq<ConjID>)
    returns (stop: bool, n': nat, ghost live': set<FieldCursor>, ghost found': seq<ConjID>, ghost bound': nat)
    requires n > 0 && s !in world && collector !in world
    requires Compacting(s, n, live, world, g, bound, found) && Holds(collector, docs, log, found)
    modifies s, world, collector
    ensures Holds(collector, docs, log, found')
    ensures stop ==> Collected(found', g, ALL_CONJS)
    ensures !stop ==> Unread(g, bound') < Unread(g, bound) && Compacting(s, n', live', world, g, bound', found')
  {
    assert s[..n][n - 1] == s[n - 1];
    stop, found', bound' := CompactRound(s, n, collector, live, world, g, bound, found, docs, log);
    n', live' := n, live;
    if !stop {
      n', live' := TrimEnded(s, n, live, world, g, bound');
      assert n' > 0 ==> s[..n'][n' - 1] == s[n' - 1];
    }
  }

  /** Compact: conjunctions of all sizes share the cursors. */
  method RetrieveCompact(fieldCursors: array<FieldCursor>, collector: DocIDCollector,
                         ghost live: set<FieldCursor>, ghost world: set<object>, ghost g: Groups)
    returns (ghost found: seq<ConjID>)
    requires fieldCursors !in world && collector !in world && Encoded(g) && NoSurplus(g)
    requires Separate(live, world) && Standing(live, world, g, 0) && OthersEnded(live, g, 0)
    requires Enumerates(fieldCursors[..], live)
    requires forall fc :: fc in live ==> fc.GetCurEntryID() != NULLENTRY
    modifies fieldCursors, world, collector
    ensures Collected(found, g, ALL_CONJS)
    ensures Holds(collector, old(collector.docBits), old(collector.log), found)
  {
    found := [];
    ghost var bound, alive := 0, live;
    var n: nat := fieldCursors.Length;
    StartCompact(fieldCursors, live, world, g);
    while n > 0
      invariant Compacting(fieldCursors, n, alive, world, g, bound, found)
      invariant Holds(collector, old(collector.docBits), old(collector.log), found)
      decreases Unread(g, bound)
    {
      var stop;
      stop, n, alive, found, bound := CompactStep(fieldCursors, n, collector, alive, world, g, bound, found,
                                                  old(collector.docBits), old(collector.log));
      if stop {
        return;
      }
    }
    MergeEnds(fieldCursors[..n], alive, world, g, bound, 1, found);
  }
}
