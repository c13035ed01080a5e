/**
 The index under construction (entries_holder.go, be_indexer.go, newContainer and
 compileIndexer of the two engines).  A container is the posting map of its default
 holder; K-groups keeps one per conjunction size, compact keeps a single one.
 */
module BEIndexes {
  import opened IdTypes
  import opened Documents
  import opened IndexScanner

  datatype FieldDesc = FieldDesc(id: nat, field: BEField)

  datatype Term = Term(fieldID: nat, value: Token)

  type Postings = map<Term, Entries>

  function ListOf(p: Postings, term: Term): Entries {
    if term in p then p[term] else []
  }

  /** The prepared data of one expression; `holder` names the container it goes to. */
  datatype FieldIndexingData = FieldIndexingData(desc: FieldDesc, holder: nat, eid: EntryID, tokens: seq<Token>)

  datatype ConjIndexingData =
    ConjIndexingData(idx: nat, incSize: nat, conjID: ConjID, fieldData: seq<FieldIndexingData>)

  // ----- what a run of commits should have produced, in commit order

  ghost predicate Posts(tx: FieldIndexingData, k: nat, term: Term) {
    tx.holder == k && tx.desc.id == term.fieldID && term.value in tx.tokens
  }

  ghost function TxEntries(txs: seq<FieldIndexingData>, k: nat, term: Term): Entries {
    if txs == [] then []
    else TxEntries(txs[..|txs| - 1], k, term) + if Posts(txs[|txs| - 1], k, term) then [txs[|txs| - 1].eid] else []
  }

  ghost function Expected(cds: seq<ConjIndexingData>, k: nat, term: Term): Entries {
    if cds == [] then [] else Expected(cds[..|cds| - 1], k, term) + TxEntries(cds[|cds| - 1].fieldData, k, term)
  }

  ghost function Wildcards(cds: seq<ConjIndexingData>): Entries {
    if cds == [] then []
    else Wildcards(cds[..|cds| - 1])
         + if cds[|cds| - 1].incSize == 0 then [NewEntryID(cds[|cds| - 1].conjID, true)] else []
  }

  lemma {:induction false} InTxEntries(txs: seq<FieldIndexingData>, k: nat, term: Term, e: EntryID)
    ensures e in TxEntries(txs, k, term) <==> exists i :: 0 <= i < |txs| && Posts(txs[i], k, term) && txs[i].eid == e
  {
    if txs != [] {
      InTxEntries(txs[..|txs| - 1], k, term, e);
      assert forall i :: 0 <= i < |txs| - 1 ==> txs[..|txs| - 1][i] == txs[i];
    }
  }

  lemma {:induction false} InExpected(cds: seq<ConjIndexingData>, k: nat, term: Term, e: EntryID)
    ensures e in Expected(cds, k, term) <==>
            exists i :: 0 <= i < |cds| && e in TxEntries(cds[i].fieldData, k, term)
  {
    if cds != [] {
      InExpected(cds[..|cds| - 1], k, term, e);
      assert forall i :: 0 <= i < |cds| - 1 ==> cds[..|cds| - 1][i] == cds[i];
    }
  }

  lemma {:induction false} InWildcards(cds: seq<ConjIndexingData>, e: EntryID)
    ensures e in Wildcards(cds) <==>
            exists i :: 0 <= i < |cds| && cds[i].incSize == 0 && e == NewEntryID(cds[i].conjID, true)
  {
    if cds != [] {
      InWildcards(cds[..|cds| - 1], e);
      assert forall i :: 0 <= i < |cds| - 1 ==> cds[..|cds| - 1][i] == cds[i];
    }
  }

  lemma ExpectedAfterCommit(before: Entries, cds: seq<ConjIndexingData>, cd: ConjIndexingData, k: nat, term: Term)
    requires multiset(before) == multiset(Expected(cds, k, term))
    ensures multiset(before + TxEntries(cd.fieldData, k, term)) == multiset(Expected(cds + [cd], k, term))
  {
    assert (cds + [cd])[..|cds|] == cds;
  }

  lemma WildcardsAfterCommit(before: Entries, cds: seq<ConjIndexingData>, cd: ConjIndexingData)
    requires multiset(before) == multiset(Wildcards(cds))
    ensures cd.incSize == 0 ==> multiset(before + [NewEntryID(cd.conjID, true)]) == multiset(Wildcards(cds + [cd]))
    ensures cd.incSize != 0 ==> multiset(before) == multiset(Wildcards(cds + [cd]))
  {
    assert (cds + [cd])[..|cds|] == cds;
  }

  // ----- sorting a posting list (the library sort, as any sort)

  function Inserted(s: Entries, e: EntryID): Entries {
    if s == [] || e <= s[0] then [e] + s else [s[0]] + Inserted(s[1..], e)
  }

  lemma {:induction false} InsertedMembers(s: Entries, e: EntryID)
    ensures multiset(Inserted(s, e)) == multiset(s) + multiset{e}
    ensures forall x :: x in Inserted(s, e) ==> x == e || x in s
  {
    if s != [] && s[0] < e {
      InsertedMembers(s[1..], e);
      assert s == [s[0]] + s[1..];
    }
  }

  lemma AscendingCons(x: EntryID, rest: Entries)
    requires Ascending(rest) && forall i :: 0 <= i < |rest| ==> x <= rest[i]
    ensures Ascending([x] + rest)
  {
  }

  lemma {:induction false} InsertedAscending(s: Entries, e: EntryID)
    requires Ascending(s)
    ensures Ascending(Inserted(s, e))
  {
    if s != [] && s[0] < e {
      var rest := Inserted(s[1..], e);
      InsertedAscending(s[1..], e);
      InsertedMembers(s[1..], e);
      forall i | 0 <= i < |rest|
        ensures s[0] <= rest[i]
      {
        assert rest[i] in rest;
      }
      AscendingCons(s[0], rest);
    }
  }

  function Sorted(s: Entries): (r: Entries)
    ensures Ascending(r) && multiset(r) == multiset(s)
  {
    if s == [] then []
    else
      var rest := Sorted(s[1..]);
      InsertedMembers(rest, s[0]);
      InsertedAscending(rest, s[0]);
      assert s == [s[0]] + s[1..];
      Inserted(rest, s[0])
  }

  /** The later containers are the earlier ones, then empty ones. */
  ghost predicate Padded(later: seq<Postings>, earlier: seq<Postings>) {
    earlier <= later && forall i :: |earlier| <= i < |later| ==> later[i] == map[]
  }

  // ----- the index

  class BEIndex {
    const compact: bool
    var containers: seq<Postings>
    var wildcardEntries: Entries
    var fieldsData: map<BEField, FieldDesc>

    ghost var committed: seq<ConjIndexingData>

    function ListAt(k: nat, term: Term): Entries
      reads this`containers
    {
      if k < |containers| then ListOf(containers[k], term) else []
    }

    function ContainerOf(size: nat): nat {
      if compact then 0 else size
    }

    /** The containers this conjunction goes to exist. */
    ghost predicate Fits(cd: ConjIndexingData)
      reads this`containers
    {
      && ContainerOf(cd.incSize) < |containers|
      && forall i :: 0 <= i < |cd.fieldData| ==> cd.fieldData[i].holder < |containers|
    }

    /** Compact has its one container from the start. */
    ghost predicate Shaped()
      reads this`containers
    {
      compact ==> |containers| == 1
    }

    /** The containers hold what was committed, no more and no less. */
    ghost predicate Valid()
      reads this
    {
      && Shaped()
      && (forall cd :: cd in committed ==> ContainerOf(cd.incSize) < |containers|)
      && (forall k: nat, term :: multiset(ListAt(k, term)) == multiset(Expected(committed, k, term)))
      && multiset(wildcardEntries) == multiset(Wildcards(committed))
    }

    /** Every posting list and the wildcard list are in order. */
    ghost predicate Compiled()
      reads this
    {
      Ascending(wildcardEntries) && forall k: nat, term :: Ascending(ListAt(k, term))
    }

    constructor (compact: bool)
      ensures Valid() && this.compact == compact && committed == [] && fieldsData == map[]
    {
      this.compact := compact;
      containers := if compact then [map[]] else [];
      wildcardEntries, fieldsData, committed := [], map[], [];
    }

    method NewContainer(size: nat) returns (k: nat)
      requires Shaped()
      modifies this`containers
      ensures Shaped() && k == ContainerOf(size) && k < |containers| && Padded(containers, old(containers))
    {
      if compact {
        return 0;
      }
      while size >= |containers|
        invariant Padded(containers, old(containers))
        decreases size - |containers|
      {
        containers := containers + [map[]];
      }
      return size;
    }

    /** New empty containers do not change what the index holds. */
    twostate lemma StillHolds()
      requires old(Valid()) && Shaped() && Padded(containers, old(containers))
      requires committed == old(committed) && wildcardEntries == old(wildcardEntries)
      ensures Valid()
      ensures forall k: nat, term :: ListAt(k, term) == old(ListAt(k, term))
    {
    }

    method CommitFieldIndexingData(tx: FieldIndexingData)
      requires tx.holder < |containers|
      modifies this`containers
      ensures |containers| == old(|containers|)
      ensures forall k: nat, term ::
                ListAt(k, term) == old(ListAt(k, term)) + if Posts(tx, k, term) then [tx.eid] else []
    {
      var todo := set t | t in tx.tokens;
      while todo != {}
        invariant |containers| == old(|containers|)
        invariant todo <= set t | t in tx.tokens
        invariant forall k: nat, term ::
                    ListAt(k, term) == old(ListAt(k, term))
                                       + if Posts(tx, k, term) && term.value !in todo then [tx.eid] else []
        decreases todo
      {
        var value :| value in todo;
        var key := Term(tx.desc.id, value);
        var pl := containers[tx.holder];
        containers := containers[tx.holder := pl[key := ListOf(pl, key) + [tx.eid]]];
        todo := todo - {value};
      }
    }

    method CommitAll(txs: seq<FieldIndexingData>)
      requires forall i :: 0 <= i < |txs| ==> txs[i].holder < |containers|
      modifies this`containers
      ensures |containers| == old(|containers|)
      ensures forall k: nat, term :: ListAt(k, term) == old(ListAt(k, term)) + TxEntries(txs, k, term)
    {
      var i := 0;
      while i < |txs|
        invariant 0 <= i <= |txs| && |containers| == old(|containers|)
        invariant forall k: nat, term :: ListAt(k, term) == old(ListAt(k, term)) + TxEntries(txs[..i], k, term)
      {
        assert txs[..i + 1][..i] == txs[..i];
        CommitFieldIndexingData(txs[i]);
        i := i + 1;
      }
      assert txs[..i] == txs;
    }

    method CommitWildcard(cd: ConjIndexingData)
      requires multiset(wildcardEntries) == multiset(Wildcards(committed))
      modifies this`wildcardEntries
      ensures multiset(wildcardEntries) == multiset(Wildcards(committed + [cd]))
    {
      WildcardsAfterCommit(wildcardEntries, committed, cd);
      if cd.incSize == 0 {
        wildcardEntries := wildcardEntries + [NewEntryID(cd.conjID, true)];
      }
    }

    method CommitConjIndexingData(cd: ConjIndexingData)
      requires Valid() && Fits(cd)
      modifies this`containers, this`wildcardEntries, this`committed
      ensures Valid() && committed == old(committed) + [cd] && |containers| == old(|containers|)
    {
      CommitWildcard(cd);
      CommitAll(cd.fieldData);
      ghost var now := committed + [cd];
      forall k: nat, term
        ensures multiset(ListAt(k, term)) == multiset(Expected(now, k, term))
      {
        ExpectedAfterCommit(old(ListAt(k, term)), committed, cd, k, term);
      }
      committed := now;
    }

    method SortContainers()
      modifies this`containers
      ensures |containers| == old(|containers|)
      ensures forall k: nat, term :: ListAt(k, term) == Sorted(old(ListAt(k, term)))
    {
      var i := 0;
      while i < |containers|
        invariant 0 <= i <= |containers| == old(|containers|)
        invariant forall k: nat, term ::
                    ListAt(k, term) == if k < i then Sorted(old(ListAt(k, term))) else old(ListAt(k, term))
      {
        var pl := containers[i];
        containers := containers[i := map term | term in pl :: Sorted(pl[term])];
        i := i + 1;
      }
    }

    method CompileIndexer()
      requires Valid()
      modifies this`containers, this`wildcardEntries
      ensures Valid() && Compiled() && |containers| == old(|containers|)
    {
      SortContainers();
      wildcardEntries := Sorted(wildcardEntries);
    }
  }
}
