/**
 Documents that mix values and numbers (document.go, boolean_expr.go).  What such a document means for a query is
 told in full, and then again as the meaning of a document of values alone: a number expression becomes the
 positions of the queried numbers it stands for.
 */
module MixedDocuments {
  import opened IdTypes
  import opened Documents
  import opened IndexScanner
  import opened BEIndexes
  import opened DocCache
  import opened IndexBuilders
  import opened Matching
  import opened RangeHolders

  datatype NumBool = NumBool(incl: bool, expr: NumExpr)

  /** A conjunction with value expressions on some fields and number expressions on others. */
  datatype MixedConj = MixedConj(values: Conjunction, numbers: map<BEField, seq<NumBool>>)

  datatype MixedDoc = MixedDoc(id: DocID, cons: seq<MixedConj>)

  /** A query: values for some fields, parsed numbers for others; `None` is a value that is not a number. */
  datatype MixedQuery = MixedQuery(values: Assignments, numbers: map<BEField, Option<seq<int>>>)

  datatype MixedOrigin = MixedOrigin(doc: DocID, idx: nat, conj: MixedConj)

  function Numbers(q: MixedQuery, f: BEField): seq<int> {
    if f in q.numbers && q.numbers[f].Some? then q.numbers[f].value else []
  }

  // ----- the meaning

  predicate NumIncludes(nbs: seq<NumBool>) {
    exists i :: 0 <= i < |nbs| && nbs[i].incl
  }

  ghost predicate NumMeets(nb: NumBool, ids: seq<int>) {
    exists j :: 0 <= j < |ids| && Denotes(nb.expr, ids[j])
  }

  /** Includes on one field are alternatives; any exclude that is met rules the field out. */
  ghost predicate NumFieldHolds(nbs: seq<NumBool>, ids: seq<int>) {
    && (NumIncludes(nbs) ==> exists i :: 0 <= i < |nbs| && nbs[i].incl && NumMeets(nbs[i], ids))
    && forall i :: 0 <= i < |nbs| && !nbs[i].incl ==> !NumMeets(nbs[i], ids)
  }

  ghost predicate MixedHolds(mc: MixedConj, q: MixedQuery) {
    && ConjHolds(mc.values, q.values)
    && forall f :: f in mc.numbers ==> NumFieldHolds(mc.numbers[f], Numbers(q, f))
  }

  /** Number fields are kept apart from the others. */
  ghost predicate Apart(mc: MixedConj, nf: set<BEField>) {
    mc.values.expressions.Keys !! nf && mc.numbers.Keys <= nf
  }

  ghost predicate QueryApart(q: MixedQuery, nf: set<BEField>) {
    q.values.Keys !! nf && q.numbers.Keys <= nf
  }

  function MixedIncludes(mc: MixedConj): set<BEField> {
    IncludeFields(mc.values) + set f | f in mc.numbers && NumIncludes(mc.numbers[f])
  }

  // ----- the same meaning, in values

  /** The `j`th queried number, as a token. */
  function Tok(j: nat): Token {
    Token(seq(j, _ => 0))
  }

  lemma TokDiffers(i: nat, j: nat)
    ensures Tok(i) == Tok(j) <==> i == j
  {
    assert |Tok(i).text| == i && |Tok(j).text| == j;
  }

  /** The queried numbers the expression stands for. */
  ghost function NumTokens(e: NumExpr, ids: seq<int>, n: nat): seq<Token>
    requires n <= |ids|
  {
    if n == 0 then [] else NumTokens(e, ids, n - 1) + if Denotes(e, ids[n - 1]) then [Tok(n - 1)] else []
  }

  lemma {:induction false} InNumTokens(e: NumExpr, ids: seq<int>, n: nat, t: Token)
    requires n <= |ids|
    ensures t in NumTokens(e, ids, n) <==> exists j :: 0 <= j < n && t == Tok(j) && Denotes(e, ids[j])
  {
    if n > 0 {
      InNumTokens(e, ids, n - 1, t);
    }
  }

  lemma TokInNumTokens(e: NumExpr, ids: seq<int>, j: nat)
    requires j < |ids|
    ensures Tok(j) in NumTokens(e, ids, |ids|) <==> Denotes(e, ids[j])
  {
    InNumTokens(e, ids, |ids|, Tok(j));
    if Tok(j) in NumTokens(e, ids, |ids|) {
      var i :| 0 <= i < |ids| && Tok(j) == Tok(i) && Denotes(e, ids[i]);
      TokDiffers(i, j);
    }
  }

  ghost function LowerNum(nb: NumBool, ids: seq<int>): BoolValues {
    BoolValues(nb.incl, Parsed(NumTokens(nb.expr, ids, |ids|)), EQ)
  }

  ghost function LowerAll(nbs: seq<NumBool>, ids: seq<int>): seq<BoolValues> {
    seq(|nbs|, i requires 0 <= i < |nbs| => LowerNum(nbs[i], ids))
  }

  ghost function Lower(mc: MixedConj, q: MixedQuery): Conjunction {
    Conjunction(mc.values.expressions + map f | f in mc.numbers :: LowerAll(mc.numbers[f], Numbers(q, f)))
  }

  ghost function Toks(n: nat): seq<Token> {
    seq(n, j requires 0 <= j < n => Tok(j))
  }

  ghost function LowerQuery(q: MixedQuery): Assignments {
    q.values + map f | f in q.numbers :: Parsed(Toks(|Numbers(q, f)|))
  }

  lemma LowerMeets(nb: NumBool, ids: seq<int>, tokens: set<Token>)
    requires tokens == set t | t in Toks(|ids|)
    ensures Meets(LowerNum(nb, ids), tokens) <==> NumMeets(nb, ids)
  {
    var own := TokenSet(LowerNum(nb, ids).value);
    if Meets(LowerNum(nb, ids), tokens) {
      var t :| t in own * tokens;
      InNumTokens(nb.expr, ids, |ids|, t);
    }
    if j :| 0 <= j < |ids| && Denotes(nb.expr, ids[j]) {
      TokInNumTokens(nb.expr, ids, j);
      assert Toks(|ids|)[j] == Tok(j);
      assert Tok(j) in own * tokens;
    }
  }

  lemma LowerFieldHolds(nbs: seq<NumBool>, ids: seq<int>, tokens: set<Token>)
    requires tokens == set t | t in Toks(|ids|)
    ensures FieldHolds(LowerAll(nbs, ids), tokens) <==> NumFieldHolds(nbs, ids)
    ensures HasInclude(LowerAll(nbs, ids)) <==> NumIncludes(nbs)
  {
    var low := LowerAll(nbs, ids);
    forall i | 0 <= i < |nbs|
      ensures low[i].incl == nbs[i].incl && (Meets(low[i], tokens) <==> NumMeets(nbs[i], ids))
    {
      LowerMeets(nbs[i], ids, tokens);
    }
    if NumIncludes(nbs) {
      var i :| 0 <= i < |nbs| && nbs[i].incl;
      assert low[i].incl;
    }
    if NumFieldHolds(nbs, ids) && NumIncludes(nbs) {
      var i :| 0 <= i < |nbs| && nbs[i].incl && NumMeets(nbs[i], ids);
      assert low[i].incl && Meets(low[i], tokens);
    }
  }

  lemma LowerTokens(q: MixedQuery, nf: set<BEField>, f: BEField)
    requires QueryApart(q, nf)
    ensures f !in nf ==> QueryTokens(LowerQuery(q), f) == QueryTokens(q.values, f)
    ensures f in nf ==> QueryTokens(LowerQuery(q), f) == set t | t in Toks(|Numbers(q, f)|)
  {
  }

  /** The lowered conjunction holds exactly when the mixed one does. */
  lemma LowerHolds(mc: MixedConj, q: MixedQuery, nf: set<BEField>)
    requires Apart(mc, nf) && QueryApart(q, nf)
    ensures ConjHolds(Lower(mc, q), LowerQuery(q)) <==> MixedHolds(mc, q)
  {
    var low := Lower(mc, q).expressions;
    forall f | f in mc.values.expressions
      ensures low[f] == mc.values.expressions[f]
      ensures QueryTokens(LowerQuery(q), f) == QueryTokens(q.values, f)
    {
      LowerTokens(q, nf, f);
    }
    forall f | f in mc.numbers
      ensures FieldHolds(low[f], QueryTokens(LowerQuery(q), f)) <==> NumFieldHolds(mc.numbers[f], Numbers(q, f))
    {
      LowerTokens(q, nf, f);
      LowerFieldHolds(mc.numbers[f], Numbers(q, f), QueryTokens(LowerQuery(q), f));
    }
    assert low.Keys == mc.values.expressions.Keys + mc.numbers.Keys;
  }

  /** Lowering keeps the fields that carry an include. */
  lemma LowerIncludes(mc: MixedConj, q: MixedQuery, nf: set<BEField>)
    requires Apart(mc, nf)
    ensures IncludeFields(Lower(mc, q)) == MixedIncludes(mc)
  {
    var low := Lower(mc, q).expressions;
    assert low.Keys == mc.values.expressions.Keys + mc.numbers.Keys;
    forall f | f in mc.numbers
      ensures HasInclude(low[f]) <==> NumIncludes(mc.numbers[f])
    {
      LowerFieldHolds(mc.numbers[f], Numbers(q, f), set t | t in Toks(|Numbers(q, f)|));
    }
  }
}
