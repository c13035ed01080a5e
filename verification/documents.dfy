/**
 Documents, queries and what it means for a document to match (document.go,
 boolean_expr.go).  Values are kept as what their tokenizer makes of them: a list
 of tokens, or a type it does not support.
 */
module Documents {
  import opened IdTypes
  import opened Utf8

  datatype Option<+T> = None | Some(value: T)

  datatype BEField = BEField(name: string)

  /** A token, as its bytes. */
  datatype Token = Token(text: seq<Byte>)

  /** A value handed to the index, seen through its tokenizer. */
  datatype Values = Nil | Parsed(tokens: seq<Token>) | Unsupported

  /** `TokenizeValue` and `TokenizeAssign`: an absent value has no tokens. */
  function Tokenize(v: Values): (r: Option<seq<Token>>)
    ensures r.None? <==> v.Unsupported?
    ensures r.Some? ==> TokenSet(v) == set t | t in r.value
  {
    match v
    case Nil => Some([])
    case Parsed(tokens) => Some(tokens)
    case Unsupported => None
  }

  function TokenSet(v: Values): set<Token> {
    if v.Parsed? then set t | t in v.tokens else {}
  }

  datatype ValueOpt = EQ | GT | LT | Between

  datatype BoolValues = BoolValues(incl: bool, value: Values, operator: ValueOpt)

  datatype Conjunction = Conjunction(expressions: map<BEField, seq<BoolValues>>)

  datatype Document = Document(id: DocID, version: nat, cons: seq<Conjunction>)

  type Assignments = map<BEField, Values>

  // ----- the size of a conjunction

  /** The fields that carry an include expression. */
  function IncludeFields(conj: Conjunction): set<BEField> {
    set f | f in conj.expressions && HasInclude(conj.expressions[f])
  }

  predicate HasInclude(exprs: seq<BoolValues>) {
    exists i :: 0 <= i < |exprs| && exprs[i].incl
  }

  method AnyInclude(bvs: seq<BoolValues>) returns (found: bool)
    ensures found == HasInclude(bvs)
  {
    for i := 0 to |bvs|
      invariant forall j :: 0 <= j < i ==> !bvs[j].incl
    {
      if bvs[i].incl {
        return true;
      }
    }
    return false;
  }

  lemma CountOne(conj: Conjunction, todo: set<BEField>, f: BEField)
    requires f in todo && todo <= conj.expressions.Keys
    ensures |IncludeFields(conj) - (todo - {f})|
            == |IncludeFields(conj) - todo| + if HasInclude(conj.expressions[f]) then 1 else 0
  {
    var done := IncludeFields(conj) - todo;
    assert IncludeFields(conj) - (todo - {f}) == if HasInclude(conj.expressions[f]) then done + {f} else done;
  }

  /** Counts the fields that carry an include expression, visiting them in any order. */
  method CalcConjSize(conj: Conjunction) returns (size: nat)
    ensures size == |IncludeFields(conj)|
  {
    size := 0;
    var todo := conj.expressions.Keys;
    assert IncludeFields(conj) - todo == {};
    while todo != {}
      invariant todo <= conj.expressions.Keys
      invariant size == |IncludeFields(conj) - todo|
      decreases todo
    {
      var field :| field in todo;
      var found := AnyInclude(conj.expressions[field]);
      CountOne(conj, todo, field);
      if found {
        size := size + 1;
      }
      todo := todo - {field};
    }
    assert IncludeFields(conj) - {} == IncludeFields(conj);
  }

  // ----- the meaning of a document

  /** The query tokens of a field. */
  function QueryTokens(q: Assignments, f: BEField): set<Token> {
    if f in q then TokenSet(q[f]) else {}
  }

  predicate Meets(bv: BoolValues, tokens: set<Token>) {
    TokenSet(bv.value) * tokens != {}
  }

  /** Includes on one field are alternatives; any exclude that is met rules the field out. */
  predicate FieldHolds(exprs: seq<BoolValues>, tokens: set<Token>) {
    && (HasInclude(exprs) ==> exists i :: 0 <= i < |exprs| && exprs[i].incl && Meets(exprs[i], tokens))
    && forall i :: 0 <= i < |exprs| && !exprs[i].incl ==> !Meets(exprs[i], tokens)
  }

  predicate ConjHolds(conj: Conjunction, q: Assignments) {
    forall f :: f in conj.expressions ==> FieldHolds(conj.expressions[f], QueryTokens(q, f))
  }

  predicate DocMatches(doc: Document, q: Assignments) {
    exists i :: 0 <= i < |doc.cons| && ConjHolds(doc.cons[i], q)
  }
}
