/** The bitmap engine (roaringidx/).  Bitmaps are sets; hashed value ids are the tokens themselves. */
module Roaring {
  import opened Documents
  import opened IndexBuilders

  // ----- conjunction ids: document (56 bits, signed) and position (8 bits)

  const MAX_DOCUMENT_ID := 0x7F_FFFF_FFFF_FFFF
  const TWO_63 := 0x8000_0000_0000_0000
  const TWO_64 := 0x1_0000_0000_0000_0000

  type ConjunctionID = c: int | 0 <= c < 0x1_0000_0000_0000_0000

  predicate ValidID(idx: int, doc: int) {
    0 <= idx < 256 && -MAX_DOCUMENT_ID <= doc <= MAX_DOCUMENT_ID
  }

  /** `doc << 8` as a 64-bit word, with the position in the low byte. */
  function NewConjunctionID(idx: int, doc: int): Option<ConjunctionID> {
    if !ValidID(idx, doc) then None
    else Some((if doc < 0 then doc * 256 + TWO_64 else doc * 256) + idx)
  }

  /** Arithmetic shift of the word read as a signed number. */
  function DocOf(id: ConjunctionID): int {
    (if id >= TWO_63 then id - TWO_64 else id) / 256
  }

  function IdxOf(id: ConjunctionID): int {
    id % 256
  }

  lemma ConjunctionIDRoundTrip(idx: int, doc: int)
    ensures NewConjunctionID(idx, doc).Some? <==>
            0 <= idx <= 255 && -0x7F_FFFF_FFFF_FFFF <= doc <= 0x7F_FFFF_FFFF_FFFF
    ensures NewConjunctionID(idx, doc).Some? ==>
              DocOf(NewConjunctionID(idx, doc).value) == doc && IdxOf(NewConjunctionID(idx, doc).value) == idx
  {
    if ValidID(idx, doc) {
      var id := NewConjunctionID(idx, doc).value;
      assert doc < 0 ==> id == 256 * (doc + 0x100_0000_0000_0000) + idx;
    }
  }

  ghost predicate HasId(o: Origin) {
    ValidID(o.idx, o.doc)
  }

  ghost function IdOf(o: Origin): ConjunctionID
    requires HasId(o)
  {
    NewConjunctionID(o.idx, o.doc).value
  }

  lemma IdsDiffer(a: Origin, b: Origin)
    requires HasId(a) && HasId(b)
    ensures IdOf(a) == IdOf(b) <==> a.doc == b.doc && a.idx == b.idx
  {
    ConjunctionIDRoundTrip(a.idx, a.doc);
    ConjunctionIDRoundTrip(b.idx, b.doc);
  }

  // ----- one field's container

  type Bitmaps = map<Token, set<ConjunctionID>>

  function At(m: Bitmaps, t: Token): set<ConjunctionID> {
    if t in m then m[t] else {}
  }

  function ExprsOn(conj: Conjunction, f: BEField): seq<BoolValues> {
    if f in conj.expressions then conj.expressions[f] else []
  }

  ghost predicate Carries(exprs: seq<BoolValues>, t: Token, incl: bool) {
    exists j :: 0 <= j < |exprs| && exprs[j].incl == incl && t in TokensOf(exprs[j].value)
  }

  /** The expression can be encoded. */
  ghost predicate Plain(expr: BoolValues) {
    expr.operator == EQ && expr.value.Parsed?
  }

  /** Encoding the expression panics: the container knows only EQ, and an absent value trips its parser. */
  ghost predicate Trips(expr: BoolValues) {
    expr.operator != EQ || expr.value.Nil?
  }

  ghost predicate AllPlain(exprs: seq<BoolValues>) {
    forall j :: 0 <= j < |exprs| ==> Plain(exprs[j])
  }

  /** Some expression is one that ends like this. */
  ghost predicate Ends(exprs: seq<BoolValues>, outcome: Outcome) {
    match outcome
    case Ok => AllPlain(exprs)
    case Error => exists j :: 0 <= j < |exprs| && exprs[j].value.Unsupported?
    case Panic => exists j :: 0 <= j < |exprs| && Trips(exprs[j])
  }

  ghost predicate AllHaveIds(origins: seq<Origin>) {
    forall i :: 0 <= i < |origins| ==> HasId(origins[i])
  }

  /** The conjunctions without an include on the field. */
  ghost function WildIds(origins: seq<Origin>, f: BEField): set<ConjunctionID>
    requires AllHaveIds(origins)
  {
    set i | 0 <= i < |origins| && !HasInclude(ExprsOn(origins[i].conj, f)) :: IdOf(origins[i])
  }

  ghost function TokenIds(origins: seq<Origin>, f: BEField, t: Token, incl: bool): set<ConjunctionID>
    requires AllHaveIds(origins)
  {
    set i | 0 <= i < |origins| && Carries(ExprsOn(origins[i].conj, f), t, incl) :: IdOf(origins[i])
  }

  /** The sets are the same, apart from the ids in `but`. */
  ghost predicate SameBut(a: set<ConjunctionID>, b: set<ConjunctionID>, but: set<ConjunctionID>) {
    forall id :: id !in but ==> (id in a <==> id in b)
  }

  /** The set lies between two others, apart from the ids in `but`. */
  ghost predicate WithinBut(a: set<ConjunctionID>, low: set<ConjunctionID>, high: set<ConjunctionID>,
                            but: set<ConjunctionID>)
  {
    forall id :: id !in but ==> (id in low ==> id in a) && (id in a ==> id in high)
  }

  /** Adding at most `x` to one set, where all of `x` would go into the other. */
  lemma Grown(a: set<ConjunctionID>, x: set<ConjunctionID>, a': set<ConjunctionID>, b: set<ConjunctionID>,
              but: set<ConjunctionID>)
    requires SameBut(a, b, but) && a <= a' <= a + x
    ensures WithinBut(a', b, b + x, but) && (a' == a + x ==> SameBut(a', b + x, but))
  {
  }

  class DefaultBEContainer {
    const field: BEField
    var wc: set<ConjunctionID>
    var inc: Bitmaps
    var exc: Bitmaps

    constructor (field: BEField)
      ensures this.field == field && forall but :: Holds([], but)
    {
      this.field := field;
      wc, inc, exc := {}, map[], map[];
    }

    /** The bitmaps are those of `origins`, no more and no less, apart from the ids in `but`. */
    ghost predicate Holds(origins: seq<Origin>, but: set<ConjunctionID>)
      reads this
    {
      && AllHaveIds(origins)
      && SameBut(wc, WildIds(origins, field), but)
      && (forall t :: SameBut(At(inc, t), TokenIds(origins, field, t, true), but))
      && (forall t :: SameBut(At(exc, t), TokenIds(origins, field, t, false), but))
    }

    /** The bitmaps lie between those of `low` and those of `high`, apart from the ids in `but`. */
    ghost predicate Between(low: seq<Origin>, high: seq<Origin>, but: set<ConjunctionID>)
      reads this
    {
      && AllHaveIds(low) && AllHaveIds(high)
      && WithinBut(wc, WildIds(low, field), WildIds(high, field), but)
      && (forall t :: WithinBut(At(inc, t), TokenIds(low, field, t, true), TokenIds(high, field, t, true), but))
      && (forall t :: WithinBut(At(exc, t), TokenIds(low, field, t, false), TokenIds(high, field, t, false), but))
    }

    method AddWildcard(id: ConjunctionID)
      modifies this`wc
      ensures wc == old(wc) + {id}
    {
      wc := wc + {id};
    }

    method AddInclude(value: Token, id: ConjunctionID)
      modifies this`inc
      ensures forall t :: At(inc, t) == At(old(inc), t) + if t == value then {id} else {}
    {
      inc := inc[value := At(inc, value) + {id}];
    }

    method AddExclude(value: Token, id: ConjunctionID)
      modifies this`exc
      ensures forall t :: At(exc, t) == At(old(exc), t) + if t == value then {id} else {}
    {
      exc := exc[value := At(exc, value) + {id}];
    }

    method EncodeExpr(id: ConjunctionID, expr: BoolValues) returns (outcome: Outcome)
      modifies this`inc, this`exc
      ensures (outcome.Ok? <==> Plain(expr)) && (outcome.Panic? <==> Trips(expr))
      ensures forall t :: At(inc, t) == At(old(inc), t)
                                        + if outcome.Ok? && expr.incl && t in TokensOf(expr.value) then {id} else {}
      ensures forall t :: At(exc, t) == At(old(exc), t)
                                        + if outcome.Ok? && !expr.incl && t in TokensOf(expr.value) then {id} else {}
    {
      if expr.operator != EQ || expr.value.Nil? {
        return Panic;
      }
      var valueIDs := Tokenize(expr.value);
      if valueIDs.None? {
        return Error;
      }
      var i := 0;
      while i < |valueIDs.value|
        invariant 0 <= i <= |valueIDs.value|
        invariant forall t :: At(inc, t) == At(old(inc), t) + if expr.incl && t in valueIDs.value[..i] then {id} else {}
        invariant forall t ::
                  At(exc, t) == At(old(exc), t) + if !expr.incl && t in valueIDs.value[..i] then {id} else {}
      {
        assert valueIDs.value[..i + 1] == valueIDs.value[..i] + [valueIDs.value[i]];
        if expr.incl {
          AddInclude(valueIDs.value[i], id);
        } else {
          AddExclude(valueIDs.value[i], id);
        }
        i := i + 1;
      }
      assert valueIDs.value[..i] == valueIDs.value;
      outcome := Ok;
    }

    /** Encodes a conjunction's expressions on this field; without an include it is a wildcard here.  A refusal
        leaves the expressions before it. */
    method EncodeField(id: ConjunctionID, exprs: seq<BoolValues>) returns (outcome: Outcome, ghost n: nat)
      modifies this
      ensures n <= |exprs| && (outcome.Ok? <==> n == |exprs|) && Ends(exprs, outcome)
      ensures !outcome.Ok? ==> AllPlain(exprs[..n]) && !Plain(exprs[n]) && (outcome.Panic? <==> Trips(exprs[n]))
      ensures wc == old(wc) + (if outcome.Ok? && !HasInclude(exprs) then {id} else {})
      ensures forall t :: At(inc, t) == At(old(inc), t) + if Carries(exprs[..n], t, true) then {id} else {}
      ensures forall t :: At(exc, t) == At(old(exc), t) + if Carries(exprs[..n], t, false) then {id} else {}
    {
      var addWildcard := true;
      var i := 0;
      while i < |exprs|
        invariant 0 <= i <= |exprs| && AllPlain(exprs[..i])
        invariant wc == old(wc) && addWildcard == !HasInclude(exprs[..i])
        invariant forall t :: At(inc, t) == At(old(inc), t) + if Carries(exprs[..i], t, true) then {id} else {}
        invariant forall t :: At(exc, t) == At(old(exc), t) + if Carries(exprs[..i], t, false) then {id} else {}
      {
        n := i;
        outcome := EncodeExpr(id, exprs[i]);
        if !outcome.Ok? {
          return;
        }
        CarriesMore(exprs, i);
        addWildcard := addWildcard && !exprs[i].incl;
        i := i + 1;
      }
      n := i;
      assert exprs[..i] == exprs;
      if addWildcard {
        AddWildcard(id);
      }
      outcome := Ok;
    }

    /** Encoding one more conjunction keeps the container exact; a refusal leaves it between what it was and what it
        would have been. */
    method EncodeConj(o: Origin, ghost origins: seq<Origin>, ghost but: set<ConjunctionID>) returns (outcome: Outcome)
      requires HasId(o) && Holds(origins, but)
      modifies this
      ensures (outcome.Ok? <==> AllPlain(ExprsOn(o.conj, field))) && Ends(ExprsOn(o.conj, field), outcome)
      ensures outcome.Ok? ==> Holds(origins + [o], but)
      ensures Between(origins, origins + [o], but)
    {
      ghost var n;
      var exprs := ExprsOn(o.conj, field);
      outcome, n := EncodeField(NewConjunctionID(o.idx, o.doc).value, exprs);
      ghost var id := IdOf(o);
      assert outcome.Ok? ==> exprs[..n] == exprs;
      IdsMore(origins, o, field);
      Grown(old(wc), if HasInclude(exprs) then {} else {id}, wc, WildIds(origins, field), but);
      forall t
        ensures WithinBut(At(inc, t), TokenIds(origins, field, t, true), TokenIds(origins + [o], field, t, true), but)
        ensures WithinBut(At(exc, t), TokenIds(origins, field, t, false), TokenIds(origins + [o], field, t, false), but)
        ensures outcome.Ok? ==> SameBut(At(inc, t), TokenIds(origins + [o], field, t, true), but)
        ensures outcome.Ok? ==> SameBut(At(exc, t), TokenIds(origins + [o], field, t, false), but)
      {
        TokenIdsMore(origins, o, field, t, true);
        TokenIdsMore(origins, o, field, t, false);
        FirstsCarry(exprs, n, t);
        Grown(old(At(inc, t)), if Carries(exprs, t, true) then {id} else {}, At(inc, t),
              TokenIds(origins, field, t, true), but);
        Grown(old(At(exc, t)), if Carries(exprs, t, false) then {id} else {}, At(exc, t),
              TokenIds(origins, field, t, false), but);
      }
    }

    /** Wildcards and included conjunctions, less the excluded ones. */
    method Retrieve(values: Values, inout: set<ConjunctionID>) returns (ok: bool, out: set<ConjunctionID>)
      ensures ok <==> !values.Unsupported?
      ensures ok ==> out == (inout + wc + Union(inc, TokenSet(values))) - Union(exc, TokenSet(values))
    {
      out := inout + wc;
      if values.Nil? {
        return true, out;
      }
      var ids := Tokenize(values);
      if ids.None? {
        return false, out;
      }
      var i := 0;
      while i < |ids.value|
        invariant 0 <= i <= |ids.value|
        invariant out == inout + wc + Union(inc, Firsts(ids.value, i))
      {
        UnionMore(inc, ids.value, i);
        out := out + At(inc, ids.value[i]);
        i := i + 1;
      }
      assert ids.value[..i] == ids.value;
      ghost var all := out;
      i := 0;
      while i < |ids.value|
        invariant 0 <= i <= |ids.value|
        invariant out == all - Union(exc, Firsts(ids.value, i))
      {
        UnionMore(exc, ids.value, i);
        out := out - At(exc, ids.value[i]);
        i := i + 1;
      }
      assert ids.value[..i] == ids.value;
      ok := true;
    }
  }

  ghost function Firsts(tokens: seq<Token>, i: nat): set<Token>
    requires i <= |tokens|
  {
    var first := tokens[..i];
    set t | t in first
  }

  ghost function Union(m: Bitmaps, tokens: set<Token>): set<ConjunctionID> {
    set t, id | t in tokens && id in At(m, t) :: id
  }

  lemma UnionMore(m: Bitmaps, tokens: seq<Token>, i: nat)
    requires i < |tokens|
    ensures Union(m, Firsts(tokens, i + 1)) == Union(m, Firsts(tokens, i)) + At(m, tokens[i])
  {
    assert tokens[..i + 1] == tokens[..i] + [tokens[i]];
    assert Firsts(tokens, i + 1) == Firsts(tokens, i) + {tokens[i]};
  }

  lemma IdsMore(origins: seq<Origin>, o: Origin, f: BEField)
    requires AllHaveIds(origins) && HasId(o)
    ensures AllHaveIds(origins + [o])
    ensures WildIds(origins + [o], f) == WildIds(origins, f) + if HasInclude(ExprsOn(o.conj, f)) then {} else {IdOf(o)}
  {
    var all := origins + [o];
    forall i | 0 <= i < |origins|
      ensures all[i] == origins[i]
    {
    }
    forall id | id in WildIds(origins, f) + if HasInclude(ExprsOn(o.conj, f)) then {} else {IdOf(o)}
      ensures id in WildIds(all, f)
    {
      if id in WildIds(origins, f) {
        var i :| 0 <= i < |origins| && !HasInclude(ExprsOn(origins[i].conj, f)) && IdOf(origins[i]) == id;
        assert IdOf(all[i]) == id;
      } else {
        assert IdOf(all[|origins|]) == id;
      }
    }
  }

  lemma TokenIdsMore(origins: seq<Origin>, o: Origin, f: BEField, t: Token, incl: bool)
    requires AllHaveIds(origins) && HasId(o) && AllHaveIds(origins + [o])
    ensures TokenIds(origins + [o], f, t, incl)
            == TokenIds(origins, f, t, incl) + if Carries(ExprsOn(o.conj, f), t, incl) then {IdOf(o)} else {}
  {
    var all := origins + [o];
    forall id | id in TokenIds(origins, f, t, incl) + if Carries(ExprsOn(o.conj, f), t, incl) then {IdOf(o)} else {}
      ensures id in TokenIds(all, f, t, incl)
    {
      if id in TokenIds(origins, f, t, incl) {
        var i :| 0 <= i < |origins| && Carries(ExprsOn(origins[i].conj, f), t, incl) && IdOf(origins[i]) == id;
        assert IdOf(all[i]) == id;
      } else {
        assert IdOf(all[|origins|]) == id;
      }
    }
  }

  lemma FirstsCarry(exprs: seq<BoolValues>, n: nat, t: Token)
    requires n <= |exprs|
    ensures forall incl :: Carries(exprs[..n], t, incl) ==> Carries(exprs, t, incl)
  {
  }

  lemma CarriesMore(exprs: seq<BoolValues>, i: nat)
    requires i < |exprs|
    ensures forall t, incl :: Carries(exprs[..i + 1], t, incl) <==>
              Carries(exprs[..i], t, incl) || (exprs[i].incl == incl && t in TokensOf(exprs[i].value))
    ensures HasInclude(exprs[..i + 1]) <==> HasInclude(exprs[..i]) || exprs[i].incl
  {
    var a, b := exprs[..i], exprs[..i + 1];
    assert b == a + [exprs[i]];
    forall t, incl
      ensures Carries(b, t, incl) <==> Carries(a, t, incl) || (exprs[i].incl == incl && t in TokensOf(exprs[i].value))
    {
      if Carries(a, t, incl) {
        var j :| 0 <= j < |a| && a[j].incl == incl && t in TokensOf(a[j].value);
        assert b[j] == a[j];
      }
      if exprs[i].incl == incl && t in TokensOf(exprs[i].value) {
        assert b[i] == exprs[i];
      }
    }
    if HasInclude(a) {
      var j :| 0 <= j < |a| && a[j].incl;
      assert b[j].incl;
    }
    if exprs[i].incl {
      assert b[i].incl;
    }
  }

  // ----- the builder

  /** The conjunctions of a document, under their positions. */
  ghost function OriginsOf(doc: Document, n: nat): seq<Origin>
    requires n <= |doc.cons|
  {
    seq(n, i requires 0 <= i < n => Origin(doc.id, i, doc.cons[i]))
  }

  lemma OriginsMore(origins: seq<Origin>, doc: Document, n: nat)
    requires n < |doc.cons|
    ensures origins + OriginsOf(doc, n + 1) == origins + OriginsOf(doc, n) + [Origin(doc.id, n, doc.cons[n])]
  {
  }

  ghost predicate Configured(conj: Conjunction, fields: set<BEField>) {
    conj.expressions.Keys <= fields
  }

  /** Every expression is an EQ on a value of a known type. */
  ghost predicate Encodes(conj: Conjunction) {
    forall f, j :: f in conj.expressions && 0 <= j < |conj.expressions[f]| ==>
      conj.expressions[f][j].operator == EQ && conj.expressions[f][j].value.Parsed?
  }

  /** Why encoding the conjunction ended. */
  ghost predicate ConjEnds(conj: Conjunction, outcome: Outcome) {
    match outcome
    case Ok => Encodes(conj)
    case Error => exists f, j :: f in conj.expressions && 0 <= j < |conj.expressions[f]|
                                 && conj.expressions[f][j].value.Unsupported?
    case Panic => exists f, j :: f in conj.expressions && 0 <= j < |conj.expressions[f]|
                                 && (conj.expressions[f][j].operator != EQ || conj.expressions[f][j].value.Nil?)
  }

  /** One field ended the conjunction. */
  lemma FieldEnds(conj: Conjunction, f: BEField, outcome: Outcome)
    requires !outcome.Ok? && Ends(ExprsOn(conj, f), outcome)
    ensures ConjEnds(conj, outcome) && !Encodes(conj)
  {
    var exprs := ExprsOn(conj, f);
    var j :| 0 <= j < |exprs| && if outcome.Error? then exprs[j].value.Unsupported? else Trips(exprs[j]);
    assert exprs[j] == conj.expressions[f][j];
  }

  ghost predicate AcceptsConj(doc: Document, i: nat, fields: set<BEField>)
    requires i < |doc.cons|
  {
    Addressed(doc, i, fields) && Encodes(doc.cons[i])
  }

  /** The conjunction has an id and its fields are configured. */
  ghost predicate Addressed(doc: Document, i: nat, fields: set<BEField>)
    requires i < |doc.cons|
  {
    i <= 255 && -0x7F_FFFF_FFFF_FFFF <= doc.id <= 0x7F_FFFF_FFFF_FFFF && Configured(doc.cons[i], fields)
  }

  /** At least one conjunction, ids in range, known fields only, every expression encodable. */
  ghost predicate Accepts(doc: Document, fields: set<BEField>) {
    |doc.cons| > 0 && AcceptsTo(doc, |doc.cons|, fields)
  }

  /** The conjunctions each field has been told of. */
  type Bases = map<BEField, seq<Origin>>

  ghost function Plus(bases: Bases, more: seq<Origin>): Bases {
    map f | f in bases :: bases[f] + more
  }

  /** The same, with the first `n` conjunctions of a document. */
  ghost function After(bases: Bases, doc: Document, n: nat): Bases
    requires n <= |doc.cons|
  {
    Plus(bases, OriginsOf(doc, n))
  }

  /** The containers hold exactly what their fields have been told of, apart from the ids in `but`. */
  ghost predicate Exact(containers: map<BEField, DefaultBEContainer>, bases: Bases, but: set<ConjunctionID>)
    reads containers.Values
  {
    && containers.Keys == bases.Keys
    && forall f :: f in containers ==> containers[f].field == f && containers[f].Holds(bases[f], but)
  }

  /** The containers hold what their fields have been told of, and one more conjunction in part. */
  ghost predicate Partial(containers: map<BEField, DefaultBEContainer>, bases: Bases, o: Origin,
                          but: set<ConjunctionID>)
    reads containers.Values
  {
    && containers.Keys == bases.Keys
    && forall f :: f in containers ==> containers[f].field == f && containers[f].Between(bases[f], bases[f] + [o], but)
  }

  lemma PlusMore(bases: Bases, doc: Document, n: nat)
    requires n < |doc.cons|
    ensures After(bases, doc, n + 1) == Plus(After(bases, doc, n), [Origin(doc.id, n, doc.cons[n])])
  {
    forall f | f in bases
      ensures bases[f] + OriginsOf(doc, n + 1) == bases[f] + OriginsOf(doc, n) + [Origin(doc.id, n, doc.cons[n])]
    {
      OriginsMore(bases[f], doc, n);
    }
  }

  lemma PlusNone(bases: Bases, doc: Document)
    ensures After(bases, doc, 0) == bases
  {
    assert forall f :: f in bases ==> bases[f] + OriginsOf(doc, 0) == bases[f];
  }

  lemma HoldsIsBetween(c: DefaultBEContainer, origins: seq<Origin>, o: Origin, but: set<ConjunctionID>)
    requires HasId(o) && AllHaveIds(origins)
    requires c.Holds(origins, but) || c.Holds(origins + [o], but)
    ensures c.Between(origins, origins + [o], but)
  {
    IdsMore(origins, o, c.field);
    forall t, incl
      ensures TokenIds(origins + [o], c.field, t, incl)
              == TokenIds(origins, c.field, t, incl)
                 + if Carries(ExprsOn(o.conj, c.field), t, incl) then {IdOf(o)} else {}
    {
      TokenIdsMore(origins, o, c.field, t, incl);
    }
  }

  /** In part is exact, apart from the one conjunction. */
  lemma BetweenIsExactBut(c: DefaultBEContainer, origins: seq<Origin>, o: Origin, but: set<ConjunctionID>)
    requires HasId(o) && c.Between(origins, origins + [o], but)
    ensures c.Holds(origins, but + {IdOf(o)})
  {
    IdsMore(origins, o, c.field);
    forall t, incl
      ensures TokenIds(origins + [o], c.field, t, incl)
              == TokenIds(origins, c.field, t, incl)
                 + if Carries(ExprsOn(o.conj, c.field), t, incl) then {IdOf(o)} else {}
    {
      TokenIdsMore(origins, o, c.field, t, incl);
    }
  }

  lemma PartialIsExactBut(containers: map<BEField, DefaultBEContainer>, bases: Bases, o: Origin,
                          but: set<ConjunctionID>)
    requires HasId(o) && Partial(containers, bases, o, but)
    ensures Exact(containers, bases, but + {IdOf(o)})
  {
    forall f | f in containers
      ensures containers[f].Holds(bases[f], but + {IdOf(o)})
    {
      BetweenIsExactBut(containers[f], bases[f], o, but);
    }
  }

  class IvtBEIndexerBuilder {
    var containers: map<BEField, DefaultBEContainer>
    var docMaxConjSize: nat

    /** Every field holds exactly the conjunctions it was told of, apart from those refused half-way. */
    ghost predicate Valid(bases: Bases, but: set<ConjunctionID>)
      reads this, containers.Values
    {
      docMaxConjSize >= 1 && Exact(containers, bases, but) && BasesConfigured(bases, containers.Keys)
    }

    constructor ()
      ensures Valid(map[], {}) && containers == map[] && docMaxConjSize == 1
    {
      containers, docMaxConjSize := map[], 1;
    }

    /** A field starts with an empty container, whatever the other fields have been told of. */
    method ConfigureField(field: BEField, ghost bases: Bases, ghost but: set<ConjunctionID>)
      requires Valid(bases, but)
      modifies this`containers
      ensures Valid(bases[field := []], but) && fresh(containers[field])
      ensures containers == old(containers)[field := containers[field]]
    {
      var container := new DefaultBEContainer(field);
      containers := containers[field := container];
    }

    /** Half-way through a conjunction: the fields in `todo` have not been told of it yet. */
    ghost predicate Encoding(bs: Bases, o: Origin, todo: set<BEField>, but: set<ConjunctionID>)
      reads this, containers.Values
    {
      && containers.Keys == bs.Keys && todo <= containers.Keys
      && (forall f :: f in containers ==> EncodingAt(f, bs, o, todo, but))
    }

    ghost predicate EncodingAt(f: BEField, bs: Bases, o: Origin, todo: set<BEField>, but: set<ConjunctionID>)
      requires f in containers && f in bs
      reads this, containers[f]
    {
      && containers[f].field == f && AllHaveIds(bs[f])
      && if f in todo then containers[f].Holds(bs[f], but)
         else containers[f].Holds(bs[f] + [o], but) && AllPlain(ExprsOn(o.conj, f))
    }

    lemma EncodingEnds(bs: Bases, o: Origin, but: set<ConjunctionID>)
      requires Encoding(bs, o, {}, but) && Configured(o.conj, containers.Keys)
      ensures Encodes(o.conj) && Exact(containers, Plus(bs, [o]), but)
    {
      forall f | f in containers
        ensures containers[f].field == f && containers[f].Holds(bs[f] + [o], but)
        ensures AllPlain(ExprsOn(o.conj, f))
      {
        assert EncodingAt(f, bs, o, {}, but);
      }
      forall f, j | f in o.conj.expressions && 0 <= j < |o.conj.expressions[f]|
        ensures Plain(o.conj.expressions[f][j])
      {
        assert AllPlain(ExprsOn(o.conj, f));
      }
    }

    method EncodeAt(field: BEField, o: Origin, ghost bs: Bases, ghost todo: set<BEField>, ghost but: set<ConjunctionID>)
      returns (outcome: Outcome)
      requires HasId(o) && field in todo && Encoding(bs, o, todo, but)
      modifies containers[field]
      ensures outcome.Ok? || (ConjEnds(o.conj, outcome) && !Encodes(o.conj))
      ensures if outcome.Ok? then Encoding(bs, o, todo - {field}, but) else Partial(containers, bs, o, but)
    {
      assert EncodingAt(field, bs, o, todo, but);
      outcome := containers[field].EncodeConj(o, bs[field], but);
      if !outcome.Ok? {
        FieldEnds(o.conj, field, outcome);
      }
      if outcome.Ok? {
        forall f | f in containers
          ensures EncodingAt(f, bs, o, todo - {field}, but)
        {
          assert f != field ==> old(EncodingAt(f, bs, o, todo, but));
        }
      } else {
        forall f | f in containers && f != field
          ensures containers[f].Between(bs[f], bs[f] + [o], but)
        {
          assert old(EncodingAt(f, bs, o, todo, but));
          HoldsIsBetween(containers[f], bs[f], o, but);
        }
      }
    }

    /** Encodes one conjunction into every container, in any order of the fields. */
    method EncodeEverywhere(o: Origin, ghost bs: Bases, ghost but: set<ConjunctionID>) returns (outcome: Outcome)
      requires HasId(o) && Configured(o.conj, containers.Keys) && Exact(containers, bs, but)
      modifies containers.Values
      ensures (outcome.Ok? <==> Encodes(o.conj)) && ConjEnds(o.conj, outcome)
      ensures if outcome.Ok? then Exact(containers, Plus(bs, [o]), but) else Partial(containers, bs, o, but)
    {
      outcome := Ok;
      var todo := containers.Keys;
      while todo != {}
        invariant outcome.Ok? && Encoding(bs, o, todo, but)
        decreases todo
      {
        var field :| field in todo;
        outcome := EncodeAt(field, o, bs, todo, but);
        if !outcome.Ok? {
          return;
        }
        todo := todo - {field};
      }
      EncodingEnds(bs, o, but);
    }

    /** Encodes one conjunction of a document; one without an id or with a field that is not configured changes
        nothing. */
    method EncodeNext(doc: Document, idx: nat, ghost bs: Bases, ghost but: set<ConjunctionID>)
      returns (outcome: Outcome)
      requires idx < |doc.cons| && Exact(containers, bs, but)
      modifies containers.Values
      ensures outcome.Ok? <==> AcceptsConj(doc, idx, containers.Keys)
      ensures StepEnds(doc, idx, containers.Keys, outcome)
      ensures outcome.Ok? ==> Exact(containers, Plus(bs, [Origin(doc.id, idx, doc.cons[idx])]), but)
      ensures !Addressed(doc, idx, containers.Keys) ==> Exact(containers, bs, but)
      ensures !outcome.Ok? && Addressed(doc, idx, containers.Keys) ==>
                Partial(containers, bs, Origin(doc.id, idx, doc.cons[idx]), but)
    {
      var conj := doc.cons[idx];
      if NewConjunctionID(idx, doc.id).None? || !(conj.expressions.Keys <= containers.Keys) {
        return Error;
      }
      outcome := EncodeEverywhere(Origin(doc.id, idx, conj), bs, but);
    }

    /** The first `n` conjunctions are encoded, and the next one in part if it was refused for a value. */
    ghost predicate EncodedTo(doc: Document, n: nat, bases: Bases, but: set<ConjunctionID>)
      reads this, containers.Values
    {
      && StopsAt(doc, n, containers.Keys)
      && Encoded(containers, After(bases, doc, n), doc, n, but)
    }

    /** The first `n` conjunctions are accepted and encoded. */
    ghost predicate Reached(doc: Document, n: nat, bases: Bases, but: set<ConjunctionID>)
      reads this, containers.Values
    {
      n <= |doc.cons| && AcceptsTo(doc, n, containers.Keys) && Exact(containers, After(bases, doc, n), but)
    }

    lemma ReachedNone(doc: Document, bases: Bases, but: set<ConjunctionID>)
      requires Exact(containers, bases, but)
      ensures Reached(doc, 0, bases, but)
    {
      PlusNone(bases, doc);
    }

    lemma ReachedAll(doc: Document, bases: Bases, but: set<ConjunctionID>)
      requires Reached(doc, |doc.cons|, bases, but)
      ensures EncodedTo(doc, |doc.cons|, bases, but)
    {
    }

    method EncodeStep(doc: Document, idx: nat, ghost bases: Bases, ghost but: set<ConjunctionID>)
      returns (outcome: Outcome)
      requires idx < |doc.cons| && Reached(doc, idx, bases, but)
      modifies containers.Values
      ensures if outcome.Ok? then Reached(doc, idx + 1, bases, but) else EncodedTo(doc, idx, bases, but)
      ensures StepEnds(doc, idx, containers.Keys, outcome)
    {
      PlusMore(bases, doc, idx);
      outcome := EncodeNext(doc, idx, After(bases, doc, idx), but);
    }

    /** Encodes the conjunctions of a document in order, up to the first that is refused. */
    method EncodeDoc(doc: Document, ghost bases: Bases, ghost but: set<ConjunctionID>)
      returns (outcome: Outcome, ghost n: nat)
      requires Exact(containers, bases, but)
      modifies containers.Values
      ensures EncodedTo(doc, n, bases, but) && (outcome.Ok? <==> n == |doc.cons|)
      ensures !outcome.Ok? ==> StepEnds(doc, n, containers.Keys, outcome)
    {
      outcome, n := Ok, 0;
      var idx := 0;
      ReachedNone(doc, bases, but);
      while idx < |doc.cons|
        invariant 0 <= idx <= |doc.cons| && outcome.Ok? && n == idx && Reached(doc, idx, bases, but)
      {
        outcome := EncodeStep(doc, idx, bases, but);
        if !outcome.Ok? {
          return;
        }
        idx := idx + 1;
        n := idx;
      }
      ReachedAll(doc, bases, but);
    }

    /** Adds a document.  A refusal is not undone: refused at its `n`th conjunction, the document keeps its first `n`
        conjunctions in the index, and the `n`th in part if it was refused for a value. */
    method AddDocument(doc: Document, ghost bases: Bases, ghost but: set<ConjunctionID>)
      returns (outcome: Outcome, ghost n: nat)
      requires Valid(bases, but)
      modifies this`docMaxConjSize, containers.Values
      ensures StopsAt(doc, n, containers.Keys) && (outcome.Ok? <==> Accepts(doc, containers.Keys))
      ensures !outcome.Ok? ==>
                if doc.cons == [] then outcome == Error
                else n < |doc.cons| && StepEnds(doc, n, containers.Keys, outcome)
      ensures Valid(After(bases, doc, n), Blurred(but, doc, n, containers.Keys))
      ensures !Whole(doc, n, containers.Keys) ==>
                Partial(containers, After(bases, doc, n), Origin(doc.id, n, doc.cons[n]), but)
      ensures docMaxConjSize
              == if outcome.Ok? && |doc.cons| > old(docMaxConjSize) then |doc.cons| else old(docMaxConjSize)
    {
      if |doc.cons| == 0 {
        ReachedNone(doc, bases, but);
        ReachedAll(doc, bases, but);
        Settle(doc, 0, bases, but);
        return Error, 0;
      }
      outcome, n := EncodeDoc(doc, bases, but);
      RaiseMax(outcome.Ok?, |doc.cons|);
      Settle(doc, n, bases, but);
    }

    method RaiseMax(ok: bool, size: nat)
      modifies this`docMaxConjSize
      ensures docMaxConjSize == if ok && size > old(docMaxConjSize) then size else old(docMaxConjSize)
    {
      if ok && size > docMaxConjSize {
        docMaxConjSize := size;
      }
    }

    lemma Settle(doc: Document, n: nat, bases: Bases, but: set<ConjunctionID>)
      requires EncodedTo(doc, n, bases, but) && docMaxConjSize >= 1 && BasesConfigured(bases, containers.Keys)
      ensures Valid(After(bases, doc, n), Blurred(but, doc, n, containers.Keys))
      ensures n == |doc.cons| <==> AcceptsTo(doc, |doc.cons|, containers.Keys)
      ensures !Whole(doc, n, containers.Keys) ==>
                Partial(containers, After(bases, doc, n), Origin(doc.id, n, doc.cons[n]), but)
    {
      StoppedConfigured(bases, doc, n, containers.Keys);
      Settled(containers, After(bases, doc, n), doc, n, but);
    }
  }

  /** How encoding a conjunction ends: one without an id or with a field that is not configured is an error, and
      otherwise some expression is the reason. */
  ghost predicate StepEnds(doc: Document, i: nat, fields: set<BEField>, outcome: Outcome)
    requires i < |doc.cons|
  {
    if Addressed(doc, i, fields) then ConjEnds(doc.cons[i], outcome) else outcome == Error
  }

  ghost predicate AcceptsTo(doc: Document, n: nat, fields: set<BEField>)
    requires n <= |doc.cons|
  {
    forall i :: 0 <= i < n ==> AcceptsConj(doc, i, fields)
  }

  /** Encoding stops at the first conjunction that is not accepted, or at the end. */
  ghost predicate StopsAt(doc: Document, n: nat, fields: set<BEField>) {
    && n <= |doc.cons| && AcceptsTo(doc, n, fields)
    && (n < |doc.cons| ==> !AcceptsConj(doc, n, fields))
  }

  /** Stopped at a conjunction that left no trace, or at the end. */
  ghost predicate Whole(doc: Document, n: nat, fields: set<BEField>) {
    n < |doc.cons| ==> !Addressed(doc, n, fields)
  }

  /** The ids that are not accounted for once encoding has stopped at the `n`th conjunction. */
  ghost function Blurred(but: set<ConjunctionID>, doc: Document, n: nat, fields: set<BEField>): set<ConjunctionID> {
    if Whole(doc, n, fields) then but else but + {IdOf(Origin(doc.id, n, doc.cons[n]))}
  }

  /** Encoding has stopped at the `n`th conjunction: exactly `bases` is there, and the `n`th in part if it was refused
      for a value. */
  ghost predicate Encoded(containers: map<BEField, DefaultBEContainer>, bases: Bases, doc: Document, n: nat,
                          but: set<ConjunctionID>)
    reads containers.Values
  {
    if Whole(doc, n, containers.Keys) then Exact(containers, bases, but)
    else Partial(containers, bases, Origin(doc.id, n, doc.cons[n]), but)
  }

  lemma Settled(containers: map<BEField, DefaultBEContainer>, bases: Bases, doc: Document, n: nat,
                but: set<ConjunctionID>)
    requires Encoded(containers, bases, doc, n, but)
    ensures Exact(containers, bases, Blurred(but, doc, n, containers.Keys))
  {
    if !Whole(doc, n, containers.Keys) {
      PartialIsExactBut(containers, bases, Origin(doc.id, n, doc.cons[n]), but);
    }
  }

  lemma AcceptedStops(doc: Document, n: nat, fields: set<BEField>)
    requires Accepts(doc, fields) && StopsAt(doc, n, fields)
    ensures n == |doc.cons|
  {
  }

  lemma StoppedConfigured(bases: Bases, doc: Document, n: nat, fields: set<BEField>)
    requires StopsAt(doc, n, fields) && BasesConfigured(bases, fields)
    ensures BasesConfigured(After(bases, doc, n), fields)
  {
    forall i | 0 <= i < n
      ensures Configured(OriginsOf(doc, n)[i].conj, fields)
    {
      assert AcceptsConj(doc, i, fields);
    }
  }

  ghost predicate BasesConfigured(bases: Bases, fields: set<BEField>) {
    forall f :: f in bases ==> AllConfigured(bases[f], fields)
  }

  ghost predicate AllConfigured(origins: seq<Origin>, fields: set<BEField>) {
    forall i :: 0 <= i < |origins| ==> Configured(origins[i].conj, fields)
  }
  // ----- what a field contributes to a query

  ghost function FieldIds(origins: seq<Origin>, f: BEField, tokens: set<Token>): set<ConjunctionID>
    requires AllHaveIds(origins)
  {
    set i | 0 <= i < |origins| && FieldHolds(ExprsOn(origins[i].conj, f), tokens) :: IdOf(origins[i])
  }

  /** Some expression of that polarity meets the tokens. */
  ghost predicate MetBy(exprs: seq<BoolValues>, tokens: set<Token>, incl: bool) {
    exists j :: 0 <= j < |exprs| && exprs[j].incl == incl && Meets(exprs[j], tokens)
  }

  lemma MetByTokens(exprs: seq<BoolValues>, tokens: set<Token>, incl: bool)
    ensures MetBy(exprs, tokens, incl) <==> exists t :: t in tokens && Carries(exprs, t, incl)
  {
    if MetBy(exprs, tokens, incl) {
      var j :| 0 <= j < |exprs| && exprs[j].incl == incl && Meets(exprs[j], tokens);
      var t :| t in TokenSet(exprs[j].value) * tokens;
      assert Carries(exprs, t, incl);
    }
    if t :| t in tokens && Carries(exprs, t, incl) {
      var j :| 0 <= j < |exprs| && exprs[j].incl == incl && t in TokensOf(exprs[j].value);
      assert t in TokenSet(exprs[j].value) * tokens;
    }
  }

  lemma FieldHoldsIs(exprs: seq<BoolValues>, tokens: set<Token>)
    ensures FieldHolds(exprs, tokens) <==>
            (!HasInclude(exprs) || MetBy(exprs, tokens, true)) && !MetBy(exprs, tokens, false)
  {
  }

  /** The conjunctions with an expression of that polarity that meets the tokens. */
  ghost function MetIds(origins: seq<Origin>, f: BEField, tokens: set<Token>, incl: bool): set<ConjunctionID>
    requires AllHaveIds(origins)
  {
    set i | 0 <= i < |origins| && MetBy(ExprsOn(origins[i].conj, f), tokens, incl) :: IdOf(origins[i])
  }

  /** An id is in the union of the bitmaps of the tokens exactly when a conjunction of that id has an expression that
      is met. */
  lemma UnionMeans(m: Bitmaps, origins: seq<Origin>, f: BEField, tokens: set<Token>, incl: bool,
                   but: set<ConjunctionID>, id: ConjunctionID)
    requires AllHaveIds(origins) && id !in but
    requires forall t :: SameBut(At(m, t), TokenIds(origins, f, t, incl), but)
    ensures id in Union(m, tokens) <==> id in MetIds(origins, f, tokens, incl)
  {
    if id in Union(m, tokens) {
      var t :| t in tokens && id in At(m, t);
      assert SameBut(At(m, t), TokenIds(origins, f, t, incl), but);
      var i :| 0 <= i < |origins| && Carries(ExprsOn(origins[i].conj, f), t, incl) && IdOf(origins[i]) == id;
      MetByTokens(ExprsOn(origins[i].conj, f), tokens, incl);
    }
    if id in MetIds(origins, f, tokens, incl) {
      var i :| 0 <= i < |origins| && MetBy(ExprsOn(origins[i].conj, f), tokens, incl) && IdOf(origins[i]) == id;
      MetByTokens(ExprsOn(origins[i].conj, f), tokens, incl);
      var t :| t in tokens && Carries(ExprsOn(origins[i].conj, f), t, incl);
      assert id in TokenIds(origins, f, t, incl);
      assert SameBut(At(m, t), TokenIds(origins, f, t, incl), but);
    }
  }

  /** The bitmap algebra is the meaning of a field. */
  lemma FieldIdsAre(origins: seq<Origin>, f: BEField, tokens: set<Token>)
    requires AllHaveIds(origins) && DistinctOrigins(origins)
    ensures FieldIds(origins, f, tokens)
            == (WildIds(origins, f) + MetIds(origins, f, tokens, true)) - MetIds(origins, f, tokens, false)
  {
    forall i | 0 <= i < |origins|
      ensures IdOf(origins[i]) in WildIds(origins, f) <==> !HasInclude(ExprsOn(origins[i].conj, f))
      ensures forall incl :: IdOf(origins[i]) in MetIds(origins, f, tokens, incl) <==>
                             MetBy(ExprsOn(origins[i].conj, f), tokens, incl)
    {
      OwnIds(origins, f, tokens, i);
    }
    forall i | 0 <= i < |origins|
      ensures FieldHolds(ExprsOn(origins[i].conj, f), tokens) <==>
              IdOf(origins[i]) in (WildIds(origins, f) + MetIds(origins, f, tokens, true))
                                  - MetIds(origins, f, tokens, false)
    {
      FieldHoldsIs(ExprsOn(origins[i].conj, f), tokens);
    }
  }

  lemma OwnIds(origins: seq<Origin>, f: BEField, tokens: set<Token>, i: nat)
    requires AllHaveIds(origins) && DistinctOrigins(origins) && i < |origins|
    ensures IdOf(origins[i]) in WildIds(origins, f) <==> !HasInclude(ExprsOn(origins[i].conj, f))
    ensures forall incl :: IdOf(origins[i]) in MetIds(origins, f, tokens, incl) <==>
                           MetBy(ExprsOn(origins[i].conj, f), tokens, incl)
  {
    forall j | 0 <= j < |origins| && IdOf(origins[j]) == IdOf(origins[i])
      ensures i == j
    {
      IdsDiffer(origins[i], origins[j]);
    }
  }

  /** What a container returns for the tokens. */
  ghost function HitsOf(c: DefaultBEContainer, tokens: set<Token>): set<ConjunctionID>
    reads c
  {
    (c.wc + Union(c.inc, tokens)) - Union(c.exc, tokens)
  }

  /** A container returns exactly the conjunctions whose field holds. */
  lemma ContainerMeans(c: DefaultBEContainer, origins: seq<Origin>, but: set<ConjunctionID>, tokens: set<Token>,
                       id: ConjunctionID)
    requires c.Holds(origins, but) && DistinctOrigins(origins) && id !in but
    ensures id in HitsOf(c, tokens) <==> id in FieldIds(origins, c.field, tokens)
  {
    UnionMeans(c.inc, origins, c.field, tokens, true, but, id);
    UnionMeans(c.exc, origins, c.field, tokens, false, but, id);
    FieldIdsAre(origins, c.field, tokens);
    assert SameBut(c.wc, WildIds(origins, c.field), but);
  }

  /** The satisfied conjunctions. */
  ghost function SatisfiedIds(origins: seq<Origin>, q: Assignments): set<ConjunctionID>
    requires AllHaveIds(origins)
  {
    set i | 0 <= i < |origins| && ConjHolds(origins[i].conj, q) :: IdOf(origins[i])
  }

  // ----- what all fields together answer

  /** Every field has been told of a conjunction of this id that holds there. */
  ghost predicate Answers(bases: Bases, q: Assignments, id: ConjunctionID) {
    forall f :: f in bases ==> AllHaveIds(bases[f]) && id in FieldIds(bases[f], f, QueryTokens(q, f))
  }

  ghost predicate AllDistinct(bases: Bases) {
    forall f :: f in bases ==> DistinctOrigins(bases[f])
  }

  /** Each field was configured when the first `since[f]` conjunctions had been added, and told of all the others. */
  ghost predicate ToldSince(bases: Bases, origins: seq<Origin>, since: map<BEField, nat>) {
    && bases.Keys == since.Keys
    && forall f :: f in since ==> since[f] <= |origins| && bases[f] == origins[since[f]..]
  }

  ghost predicate AllSince(since: map<BEField, nat>, i: nat) {
    forall f :: f in since ==> since[f] <= i
  }

  /** A conjunction whose fields are all configured holds exactly when it holds on the configured fields. */
  lemma HoldsOnConfigured(conj: Conjunction, q: Assignments, fields: set<BEField>)
    requires Configured(conj, fields)
    ensures ConjHolds(conj, q) <==> forall f :: f in fields ==> FieldHolds(ExprsOn(conj, f), QueryTokens(q, f))
  {
    forall f | f in fields && f !in conj.expressions
      ensures FieldHolds(ExprsOn(conj, f), QueryTokens(q, f))
    {
    }
    if forall f :: f in fields ==> FieldHolds(ExprsOn(conj, f), QueryTokens(q, f)) {
      forall f | f in conj.expressions
        ensures FieldHolds(conj.expressions[f], QueryTokens(q, f))
      {
        assert f in fields && ExprsOn(conj, f) == conj.expressions[f];
      }
    }
  }

  /** A field told of the conjunctions from `k` on answers for the `i`th exactly when it was told of it and it holds. */
  lemma FieldSince(origins: seq<Origin>, k: nat, f: BEField, tokens: set<Token>, i: nat)
    requires AllHaveIds(origins) && DistinctOrigins(origins) && k <= |origins| && i < |origins|
    ensures AllHaveIds(origins[k..])
    ensures IdOf(origins[i]) in FieldIds(origins[k..], f, tokens) <==>
            k <= i && FieldHolds(ExprsOn(origins[i].conj, f), tokens)
  {
    var late := origins[k..];
    if IdOf(origins[i]) in FieldIds(late, f, tokens) {
      var j :| 0 <= j < |late| && FieldHolds(ExprsOn(late[j].conj, f), tokens) && IdOf(late[j]) == IdOf(origins[i]);
      IdsDiffer(origins[i], origins[k + j]);
      assert i == k + j;
    }
    if k <= i && FieldHolds(ExprsOn(origins[i].conj, f), tokens) {
      assert late[i - k] == origins[i];
    }
  }

  /** The fields together answer for exactly the conjunctions that hold and that every field has been told of: a field
      that is configured late hides all conjunctions added before it. */
  lemma AnswersSince(bases: Bases, origins: seq<Origin>, since: map<BEField, nat>, q: Assignments, i: nat)
    requires ToldSince(bases, origins, since) && AllHaveIds(origins) && DistinctOrigins(origins)
    requires AllConfigured(origins, bases.Keys) && i < |origins|
    ensures Answers(bases, q, IdOf(origins[i])) <==> ConjHolds(origins[i].conj, q) && AllSince(since, i)
  {
    HoldsOnConfigured(origins[i].conj, q, bases.Keys);
    forall f | f in bases
      ensures AllHaveIds(bases[f])
      ensures IdOf(origins[i]) in FieldIds(bases[f], f, QueryTokens(q, f)) <==>
              since[f] <= i && FieldHolds(ExprsOn(origins[i].conj, f), QueryTokens(q, f))
    {
      FieldSince(origins, since[f], f, QueryTokens(q, f), i);
    }
  }

  /** Configuring a field and adding a document, over any run. */
  lemma ToldSinceConfigured(bases: Bases, origins: seq<Origin>, since: map<BEField, nat>, field: BEField)
    requires ToldSince(bases, origins, since)
    ensures ToldSince(bases[field := []], origins, since[field := |origins|])
  {
  }

  lemma ToldSinceAfter(bases: Bases, origins: seq<Origin>, since: map<BEField, nat>, doc: Document, n: nat)
    requires ToldSince(bases, origins, since) && n <= |doc.cons|
    ensures ToldSince(After(bases, doc, n), origins + OriginsOf(doc, n), since)
  {
    var all := origins + OriginsOf(doc, n);
    forall f | f in since
      ensures After(bases, doc, n)[f] == all[since[f]..]
    {
      assert all[since[f]..] == origins[since[f]..] + OriginsOf(doc, n);
    }
  }

  /** Nothing else is answered, as long as there is a field. */
  lemma AnswersAreOrigins(bases: Bases, origins: seq<Origin>, since: map<BEField, nat>, q: Assignments,
                          id: ConjunctionID)
    requires ToldSince(bases, origins, since) && AllHaveIds(origins) && bases != map[] && Answers(bases, q, id)
    ensures exists i :: 0 <= i < |origins| && IdOf(origins[i]) == id
  {
    assert bases.Keys != {};
    var f :| f in bases.Keys;
    var j :| 0 <= j < |bases[f]| && IdOf(bases[f][j]) == id;
    assert origins[since[f] + j] == bases[f][j];
  }

  /** Every field has been told of the same conjunctions. */
  ghost function Told(fields: set<BEField>, origins: seq<Origin>): Bases {
    map f | f in fields :: origins
  }

  lemma ToldAfter(fields: set<BEField>, origins: seq<Origin>, doc: Document, n: nat)
    requires n <= |doc.cons|
    ensures After(Told(fields, origins), doc, n) == Told(fields, origins + OriginsOf(doc, n))
  {
  }

  lemma ToldAnswers(fields: set<BEField>, origins: seq<Origin>, q: Assignments, id: ConjunctionID)
    requires fields != {} && AllHaveIds(origins) && DistinctOrigins(origins) && AllConfigured(origins, fields)
    ensures Answers(Told(fields, origins), q, id) <==> id in SatisfiedIds(origins, q)
  {
    var bases, since: map<BEField, nat> := Told(fields, origins), map f | f in fields :: 0;
    assert bases.Keys == fields == since.Keys && origins[0..] == origins;
    assert ToldSince(bases, origins, since);
    if Answers(bases, q, id) {
      AnswersAreOrigins(bases, origins, since, q, id);
      var i :| 0 <= i < |origins| && IdOf(origins[i]) == id;
      AnswersSince(bases, origins, since, q, i);
    }
    if id in SatisfiedIds(origins, q) {
      var i :| 0 <= i < |origins| && ConjHolds(origins[i].conj, q) && IdOf(origins[i]) == id;
      AnswersSince(bases, origins, since, q, i);
    }
  }

  // ----- the scanner

  ghost function OneHint(hint: int, n: nat): set<ConjunctionID> {
    set i | 0 <= i < n && ValidID(i, hint) :: NewConjunctionID(i, hint).value
  }

  /** The ids that the first `h` hinted documents can have. */
  ghost function HintIds(hints: seq<int>, h: nat, docMaxConjSize: nat): set<ConjunctionID>
    requires h <= |hints|
  {
    if h == 0 then {} else HintIds(hints, h - 1, docMaxConjSize) + OneHint(hints[h - 1], docMaxConjSize)
  }

  lemma OneHintMore(hint: int, n: nat)
    ensures OneHint(hint, n + 1)
            == OneHint(hint, n) + if ValidID(n, hint) then {NewConjunctionID(n, hint).value} else {}
  {
  }

  lemma {:induction false} InHintIds(hints: seq<int>, h: nat, docMaxConjSize: nat, o: Origin)
    requires h <= |hints| && HasId(o)
    ensures IdOf(o) in HintIds(hints, h, docMaxConjSize) <==> o.doc in hints[..h] && o.idx < docMaxConjSize
  {
    if h > 0 {
      InHintIds(hints, h - 1, docMaxConjSize, o);
      assert hints[..h] == hints[..h - 1] + [hints[h - 1]];
      var hint := hints[h - 1];
      if IdOf(o) in OneHint(hint, docMaxConjSize) {
        var i :| 0 <= i < docMaxConjSize && ValidID(i, hint) && NewConjunctionID(i, hint).value == IdOf(o);
        ConjunctionIDRoundTrip(i, hint);
        ConjunctionIDRoundTrip(o.idx, o.doc);
      }
    }
  }

  /** The query has a value of an unsupported type for one of the fields. */
  ghost predicate Unreadable(fields: set<BEField>, q: Assignments) {
    exists f :: f in fields && f in q && q[f].Unsupported?
  }

  class IvtScanner {
    const containers: map<BEField, DefaultBEContainer>
    const docMaxConjSize: nat
    var inited: bool
    var ended: bool
    var conjIDResults: set<ConjunctionID>

    /** Results appear only once inited, and nothing is left once ended. */
    ghost predicate Valid()
      reads this
    {
      && (!inited ==> conjIDResults == {} && !ended)
      && (ended ==> conjIDResults == {})
    }

    /** As good as new. */
    ghost predicate Fresh()
      reads this
    {
      !inited && !ended && conjIDResults == {}
    }

    constructor (builder: IvtBEIndexerBuilder)
      ensures Valid() && Fresh() && containers == builder.containers && docMaxConjSize == builder.docMaxConjSize
    {
      containers, docMaxConjSize := builder.containers, builder.docMaxConjSize;
      inited, ended, conjIDResults := false, false, {};
    }

    method Reset()
      modifies this
      ensures Valid() && Fresh()
    {
      inited, ended, conjIDResults := false, false, {};
    }

    /** Starts from the ids of the given documents instead of from nothing. */
    method WithHint(hints: seq<int>)
      requires Valid() && !inited
      modifies this
      ensures Valid() && inited && conjIDResults == HintIds(hints, |hints|, docMaxConjSize)
    {
      var h := 0;
      while h < |hints|
        invariant 0 <= h <= |hints| && inited == old(inited) && ended == old(ended)
        invariant conjIDResults == HintIds(hints, h, docMaxConjSize)
      {
        ghost var before := conjIDResults;
        var conjIdx := 0;
        while conjIdx < docMaxConjSize
          invariant 0 <= conjIdx <= docMaxConjSize && inited == old(inited) && ended == old(ended)
          invariant conjIDResults == before + OneHint(hints[h], conjIdx)
        {
          var conjID := NewConjunctionID(conjIdx, hints[h]);
          OneHintMore(hints[h], conjIdx);
          if conjID.Some? {
            conjIDResults := conjIDResults + {conjID.value};
          }
          conjIdx := conjIdx + 1;
        }
        h := h + 1;
      }
      inited := true;
    }

    method MergeFieldResult(pl: set<ConjunctionID>)
      requires Valid()
      modifies this
      ensures Valid() && inited && (ended <==> conjIDResults == {})
      ensures conjIDResults == if old(inited) then old(conjIDResults) * pl else pl
    {
      if !(inited && conjIDResults == {}) {
        if !inited {
          inited := true;
          conjIDResults := conjIDResults + pl;
        } else {
          conjIDResults := conjIDResults * pl;
        }
      }
      ended := conjIDResults == {};
    }

    /** What a field of the index returns for the query. */
    ghost function Hits(f: BEField, q: Assignments): set<ConjunctionID>
      requires f in containers
      reads containers[f]
    {
      HitsOf(containers[f], QueryTokens(q, f))
    }

    /** All the given fields return the id. */
    ghost predicate InAll(id: ConjunctionID, q: Assignments, fields: set<BEField>)
      requires fields <= containers.Keys
      reads containers.Values
    {
      forall f :: f in fields ==> id in Hits(f, q)
    }

    /** What the scan has left after the given fields. */
    ghost predicate Scanned(q: Assignments, done: set<BEField>, hinted: bool, hints: set<ConjunctionID>)
      requires done <= containers.Keys
      reads this, containers.Values
    {
      && Valid() && (inited <==> hinted || done != {})
      && if done == {} then conjIDResults == hints
         else forall id :: id in conjIDResults <==> (hinted ==> id in hints) && InAll(id, q, done)
    }

    /** One field's result for the query. */
    method FieldResult(field: BEField, q: Assignments) returns (ok: bool, pl: set<ConjunctionID>)
      requires field in containers
      ensures ok <==> !(field in q && q[field].Unsupported?)
      ensures ok ==> pl == Hits(field, q)
    {
      var values := if field in q then q[field] else Nil;
      ok, pl := containers[field].Retrieve(values, {});
    }

    method RetrieveField(field: BEField, q: Assignments, ghost done: set<BEField>, ghost hinted: bool,
                         ghost hints: set<ConjunctionID>)
      returns (ok: bool)
      requires field in containers && done <= containers.Keys && Scanned(q, done, hinted, hints)
      modifies this
      ensures ok <==> !(field in q && q[field].Unsupported?)
      ensures if ok then Scanned(q, done + {field}, hinted, hints) else unchanged(this)
    {
      var pl;
      ok, pl := FieldResult(field, q);
      if ok {
        InAllMore(q, done, field);
        MergeFieldResult(pl);
        assert forall id :: InAll(id, q, done + {field}) <==> old(InAll(id, q, done)) && id in old(Hits(field, q));
      }
    }

    lemma InAllMore(q: Assignments, done: set<BEField>, field: BEField)
      requires field in containers && done <= containers.Keys
      ensures forall id :: InAll(id, q, done + {field}) <==> InAll(id, q, done) && id in Hits(field, q)
    {
      forall id
        ensures InAll(id, q, done + {field}) <==> InAll(id, q, done) && id in Hits(field, q)
      {
        assert field in done + {field};
      }
    }

    /** Intersects the fields in any order, stopping early once nothing is left.  Without any field there is nothing to
        intersect, and the scan leaves what it started from. */
    method Scan(q: Assignments) returns (ok: bool)
      requires Valid()
      modifies this
      ensures !Unreadable(containers.Keys, q) ==> ok
      ensures ok && Unreadable(containers.Keys, q) ==> conjIDResults == {}
      ensures ok ==> Valid() && (containers == map[] ==> conjIDResults == old(conjIDResults))
      ensures ok && containers != map[] ==>
                forall id :: id in conjIDResults <==>
                  (old(inited) ==> id in old(conjIDResults)) && InAll(id, q, containers.Keys)
    {
      ok := true;
      ghost var hinted, hints := inited, conjIDResults;
      var todo := containers.Keys;
      assert containers.Keys - todo == {};
      while todo != {} && !ended
        invariant todo <= containers.Keys && ok && !Unreadable(containers.Keys - todo, q)
        invariant Scanned(q, containers.Keys - todo, hinted, hints)
        decreases todo
      {
        var field :| field in todo;
        assert containers.Keys - (todo - {field}) == containers.Keys - todo + {field};
        ok := RetrieveField(field, q, containers.Keys - todo, hinted, hints);
        if !ok {
          return;
        }
        todo := todo - {field};
      }
      assert todo == {} ==> containers.Keys - todo == containers.Keys;
      ScanEnds(q, todo, hinted, hints);
    }

    /** Nothing is lost by stopping early. */
    lemma ScanEnds(q: Assignments, todo: set<BEField>, hinted: bool, hints: set<ConjunctionID>)
      requires todo <= containers.Keys && (todo == {} || ended) && (hinted || hints == {})
      requires Scanned(q, containers.Keys - todo, hinted, hints)
      ensures containers == map[] ==> conjIDResults == hints
      ensures containers != map[] ==>
                forall id :: id in conjIDResults <==> (hinted ==> id in hints) && InAll(id, q, containers.Keys)
    {
      assert containers == map[] <==> containers.Keys == {};
      if todo == {} {
        assert containers.Keys - todo == containers.Keys;
      } else if containers.Keys - todo != {} {
        forall id
          ensures InAll(id, q, containers.Keys) ==> InAll(id, q, containers.Keys - todo)
        {
        }
      }
    }

    /** The documents of the conjunctions left by the scan. */
    method Retrieve(q: Assignments) returns (ok: bool, docs: set<int>)
      requires Valid()
      modifies this
      ensures !Unreadable(containers.Keys, q) ==> ok
      ensures ok && Unreadable(containers.Keys, q) ==> conjIDResults == {}
      ensures if ok then Valid() && docs == DocsOf(conjIDResults) else docs == {}
      ensures ok ==> (containers == map[] ==> conjIDResults == old(conjIDResults))
      ensures ok && containers != map[] ==>
                forall id :: id in conjIDResults <==>
                  (old(inited) ==> id in old(conjIDResults)) && InAll(id, q, containers.Keys)
    {
      docs := {};
      ok := Scan(q);
      if ok {
        docs := CollectDocs(conjIDResults);
      }
    }
  }

  method CollectDocs(ids: set<ConjunctionID>) returns (docs: set<int>)
    ensures docs == DocsOf(ids)
  {
    docs := {};
    var todo := ids;
    assert ids - todo == {};
    while todo != {}
      invariant todo <= ids && docs == DocsOf(ids - todo)
      decreases todo
    {
      var conjID :| conjID in todo;
      DocsOfMore(ids - todo, conjID);
      assert ids - (todo - {conjID}) == ids - todo + {conjID};
      docs := docs + {DocOf(conjID)};
      todo := todo - {conjID};
    }
    assert ids - {} == ids;
  }

  ghost function DocsOf(ids: set<ConjunctionID>): set<int> {
    set id | id in ids :: DocOf(id)
  }

  lemma DocsOfMore(ids: set<ConjunctionID>, id: ConjunctionID)
    ensures DocsOf(ids + {id}) == DocsOf(ids) + {DocOf(id)}
  {
  }

  /** The documents found without hints are those with a satisfied conjunction. */
  lemma SatisfiedDocs(origins: seq<Origin>, q: Assignments)
    requires AllHaveIds(origins)
    ensures DocsOf(SatisfiedIds(origins, q)) == set i | 0 <= i < |origins| && ConjHolds(origins[i].conj, q) ::
            origins[i].doc
  {
    var docs := set i | 0 <= i < |origins| && ConjHolds(origins[i].conj, q) :: origins[i].doc;
    forall i | 0 <= i < |origins|
      ensures DocOf(IdOf(origins[i])) == origins[i].doc
    {
      ConjunctionIDRoundTrip(origins[i].idx, origins[i].doc);
    }
    forall d | d in docs
      ensures d in DocsOf(SatisfiedIds(origins, q))
    {
      var i :| 0 <= i < |origins| && ConjHolds(origins[i].conj, q) && origins[i].doc == d;
      assert IdOf(origins[i]) in SatisfiedIds(origins, q);
    }
  }

  lemma InAllAnswers(scanner: IvtScanner, bases: Bases, but: set<ConjunctionID>, q: Assignments, id: ConjunctionID)
    requires Exact(scanner.containers, bases, but) && AllDistinct(bases) && id !in but
    ensures scanner.InAll(id, q, scanner.containers.Keys) <==> Answers(bases, q, id)
  {
    forall f | f in bases
      ensures AllHaveIds(bases[f])
      ensures id in scanner.Hits(f, q) <==> id in FieldIds(bases[f], f, QueryTokens(q, f))
    {
      ContainerMeans(scanner.containers[f], bases[f], but, QueryTokens(q, f), id);
    }
  }

  /** A scan from a clean scanner leaves exactly what the fields together answer, whatever was scanned before and
      apart from the conjunctions that were refused half-way. */
  method RetrieveAfresh(scanner: IvtScanner, q: Assignments, ghost bases: Bases, ghost but: set<ConjunctionID>)
    returns (ok: bool, docs: set<int>)
    requires Exact(scanner.containers, bases, but) && AllDistinct(bases) && bases != map[]
    modifies scanner
    ensures !Unreadable(scanner.containers.Keys, q) ==> ok
    ensures !ok || Unreadable(scanner.containers.Keys, q) ==> docs == {}
    ensures ok ==> docs == DocsOf(scanner.conjIDResults)
    ensures ok ==> forall id :: id !in but ==> (id in scanner.conjIDResults <==> Answers(bases, q, id))
  {
    scanner.Reset();
    ok, docs := scanner.Retrieve(q);
    if ok {
      forall id | id !in but
        ensures id in scanner.conjIDResults <==> Answers(bases, q, id)
      {
        InAllAnswers(scanner, bases, but, q, id);
      }
    }
  }

  /** A hinted scan leaves what an unhinted one would, among the ids that the hinted documents can have. */
  method RetrieveHinted(scanner: IvtScanner, hints: seq<int>, q: Assignments, ghost bases: Bases,
                        ghost but: set<ConjunctionID>)
    returns (ok: bool, docs: set<int>)
    requires Exact(scanner.containers, bases, but) && AllDistinct(bases) && bases != map[]
    modifies scanner
    ensures !Unreadable(scanner.containers.Keys, q) ==> ok
    ensures !ok || Unreadable(scanner.containers.Keys, q) ==> docs == {}
    ensures ok ==> docs == DocsOf(scanner.conjIDResults)
    ensures ok ==> forall id :: id !in but ==>
              (id in scanner.conjIDResults <==>
                 Answers(bases, q, id) && id in HintIds(hints, |hints|, scanner.docMaxConjSize))
  {
    scanner.Reset();
    scanner.WithHint(hints);
    ok, docs := scanner.Retrieve(q);
    if ok {
      forall id | id !in but
        ensures id in scanner.conjIDResults <==>
                Answers(bases, q, id) && id in HintIds(hints, |hints|, scanner.docMaxConjSize)
      {
        InAllAnswers(scanner, bases, but, q, id);
      }
    }
  }

  /** When every field has been told of everything, the documents found are those with a satisfied conjunction, and
      hints filter them. */
  lemma HintedIsFiltered(fields: set<BEField>, origins: seq<Origin>, q: Assignments, hints: seq<int>,
                         docMaxConjSize: nat, ids: set<ConjunctionID>)
    requires fields != {} && AllHaveIds(origins) && DistinctOrigins(origins) && AllConfigured(origins, fields)
    requires forall i :: 0 <= i < |origins| ==> origins[i].idx < docMaxConjSize
    requires forall id :: id in ids <==>
               Answers(Told(fields, origins), q, id) && id in HintIds(hints, |hints|, docMaxConjSize)
    ensures DocsOf(ids) == set d | d in DocsOf(SatisfiedIds(origins, q)) && d in hints
  {
    forall id
      ensures id in ids <==> id in SatisfiedIds(origins, q) && DocOf(id) in hints
    {
      ToldAnswers(fields, origins, q, id);
      if id in SatisfiedIds(origins, q) {
        var i :| 0 <= i < |origins| && ConjHolds(origins[i].conj, q) && IdOf(origins[i]) == id;
        InHintIds(hints, |hints|, docMaxConjSize, origins[i]);
        assert hints[..|hints|] == hints;
        ConjunctionIDRoundTrip(origins[i].idx, origins[i].doc);
      }
    }
  }
}
