/** The leaf arms of the parse-tree walk: how an operator symbol, an integer, string
    or bool literal, or an identifier becomes one token, and how a parenthesised,
    `&&` or `||` group collects its children's tokens. The grammar-driven traversal
    that produces these leaves is not part of this model. */
module Parser {
  import opened Values
  import opened Text

  /** The thirteen operator symbols the grammar's `ops` rule accepts. */
  const OperatorSymbols: set<string> :=
    {"+", "-", "/", "*", "==", "^", "&&", "%", "<", "<=", "||", ">", ">="}

  /** The symbol an operator is written with, when it has one. */
  function SymbolOf(op: Operator): Option<string>
  {
    match op
    case Add => Some("+")
    case Sub => Some("-")
    case Divide => Some("/")
    case Multiply => Some("*")
    case Equal => Some("==")
    case Power => Some("^")
    case LogicalAnd => Some("&&")
    case Modulo => Some("%")
    case Inferior => Some("<")
    case InferiorEqual => Some("<=")
    case LogicalOr => Some("||")
    case Superior => Some(">")
    case SuperiorEqual => Some(">=")
    case NullOp => None
    case NotEqual => None
  }

  /** The `ops` arm: an operator token; any other symbol reaches `todo!()`. The
      mapping is one-to-one: the operator found is written with exactly that symbol. */
  function OperatorToken(symbol: string): (r: Result<Value>)
    ensures r.Ok? <==> symbol in OperatorSymbols
    ensures r.Ok? ==> r.value.Operation? && SymbolOf(r.value.op) == Some(symbol)
    ensures r.Failure? ==> r.error.Panic?
  {
    match symbol
    case "+" => Ok(Operation(Add))
    case "-" => Ok(Operation(Sub))
    case "/" => Ok(Operation(Divide))
    case "*" => Ok(Operation(Multiply))
    case "==" => Ok(Operation(Equal))
    case "^" => Ok(Operation(Power))
    case "&&" => Ok(Operation(LogicalAnd))
    case "%" => Ok(Operation(Modulo))
    case "<" => Ok(Operation(Inferior))
    case "<=" => Ok(Operation(InferiorEqual))
    case "||" => Ok(Operation(LogicalOr))
    case ">" => Ok(Operation(Superior))
    case ">=" => Ok(Operation(SuperiorEqual))
    case _ => Failure(Panic("not yet implemented"))
  }

  /** Every operator that has a symbol is produced from exactly that symbol. */
  lemma SymbolRoundTrip(op: Operator)
    requires SymbolOf(op).Some?
    ensures OperatorToken(SymbolOf(op).value) == Ok(Operation(op))
  {
  }

  /** The `integer` arm: the literal text parsed as an `i64`; an out-of-range literal
      makes `unwrap` panic. */
  function IntegerToken(text: string): (r: Result<Value>)
    ensures r.Ok? ==> r.value.Integer? && InI64(r.value.n) && ParseI64(text) == Some(r.value.n)
    ensures r.Failure? <==> ParseI64(text).None?
  {
    match ParseI64(text)
    case Some(v) => Ok(Integer(v))
    case None => Failure(Panic("called `Result::unwrap()` on an `Err` value"))
  }

  /** The `string` arm: the literal text with every leading and trailing quote removed. */
  function StringToken(text: string): (r: Value)
    ensures r.String?
    ensures |r.s| == 0 || (r.s[0] != '"' && r.s[|r.s| - 1] != '"')
    ensures exists i, j | 0 <= i <= j <= |text| ::
              r.s == text[i..j]
              && (forall k | 0 <= k < i :: text[k] == '"')
              && (forall k | j <= k < |text| :: text[k] == '"')
  {
    QuotesStripped(text);
    String(TrimStartChar(TrimEndChar(text, '"'), '"'))
  }

  /** Stripping the quotes at both ends keeps a contiguous middle part of the text. */
  lemma QuotesStripped(text: string)
    ensures var b := TrimStartChar(TrimEndChar(text, '"'), '"');
            exists i, j | 0 <= i <= j <= |text| ::
              b == text[i..j]
              && (forall k | 0 <= k < i :: text[k] == '"')
              && (forall k | j <= k < |text| :: text[k] == '"')
  {
    var a := TrimEndChar(text, '"');
    var b := TrimStartChar(a, '"');
    var i, j := |a| - |b|, |a|;
    assert b == text[i..j];
    forall k | 0 <= k < i ensures text[k] == '"' {
      assert text[k] == a[k];
    }
  }

  /** A quoted literal whose body neither starts nor ends with a quote reads back as
      that body. */
  lemma {:induction false} StringTokenQuoted(body: string)
    requires |body| == 0 || (body[0] != '"' && body[|body| - 1] != '"')
    ensures StringToken("\"" + body + "\"") == String(body)
  {
    var text := "\"" + body + "\"";
    var front := "\"" + body;
    assert text[|text| - 1] == '"';
    assert text[..|text| - 1] == front;
    assert TrimEndChar(text, '"') == TrimEndChar(front, '"');
    if |body| > 0 {
      assert front[|front| - 1] == body[|body| - 1];
      assert TrimEndChar(front, '"') == front;
    } else {
      assert front == "\"";
      assert front[..0] == "";
      assert TrimEndChar(front, '"') == TrimEndChar("", '"') == "";
    }
    if |body| > 0 {
      assert ("\"" + body)[1..] == body;
      assert TrimStartChar(body, '"') == body;
    } else {
      assert TrimStartChar("\"", '"') == TrimStartChar("", '"');
    }
  }

  /** The `bool` arm: true exactly for the text `true`. */
  function BoolToken(text: string): (r: Value)
    ensures r.Bool? && (r.b <==> text == "true")
  {
    Bool(text == "true")
  }

  /** The `identifier` arm: `Null` is the null value, any other name a variable
      reference with the quotes at its ends removed. */
  function IdentifierToken(text: string): (r: Value)
    ensures text == "Null" <==> r == Null
    ensures text != "Null" ==> r.VariableIdentifier? && StringToken(text).s == r.ident
  {
    if text == "Null" then Null
    else VariableIdentifier(TrimStartChar(TrimEndChar(text, '"'), '"'))
  }

  /** The tokens of consecutive children, concatenated in order. */
  function Concat(children: seq<seq<Value>>): seq<Value>
  {
    if |children| == 0 then [] else Concat(children[..|children| - 1]) + children[|children| - 1]
  }

  /** Where the tokens of child `i` start in the concatenation. */
  function Offset(children: seq<seq<Value>>, i: nat): nat
    requires i <= |children|
  {
    |Concat(children[..i])|
  }

  /** Concatenation keeps every child whole and in order: token `k` of child `i`
      sits at that child's offset plus `k`. */
  lemma {:induction false} ConcatInOrder(children: seq<seq<Value>>, i: nat, k: nat)
    requires i < |children| && k < |children[i]|
    ensures Offset(children, i) + k < |Concat(children)|
    ensures Concat(children)[Offset(children, i) + k] == children[i][k]
    decreases |children|
  {
    var n := |children|;
    var init := children[..n - 1];
    assert Concat(children) == Concat(init) + children[n - 1];
    if i == n - 1 {
      assert children[..i] == init;
    } else {
      assert init[..i] == children[..i];
      ConcatInOrder(init, i, k);
    }
  }

  /** The `priority` arm: the children's tokens in one parenthesised group. */
  function PriorityToken(children: seq<seq<Value>>): Value
  {
    Priority(Concat(children))
  }

  /** The `and_operation` arm. */
  function AndToken(children: seq<seq<Value>>): Value
  {
    And(Concat(children))
  }

  /** The `or_operation` arm. */
  function OrToken(children: seq<seq<Value>>): Value
  {
    Or(Concat(children))
  }
}
