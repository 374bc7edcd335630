/**
  * The token vocabulary shared by the lexer (src/lexer.rs) and the parser (src/parser.rs).
  * The parser matches more token types than the lexer shown emits (blocks, booleans, keywords,
  * typed numerals); this one datatype covers every type either side uses.
  */
module Tokens {
  import opened Wrappers

  /** The payload of a numeral token: a float numeral once the literal contains a '.'. */
  datatype NumeralKind = IntegerNumeral | FloatNumeral

  datatype AdditiveSubtype = Add | Sub
  datatype MultiplicativeSubtype = Mul | Div
  datatype CompSubtype = Eq | Neq | Gt | Lt | Gte | Lte
  datatype BooleanSubtype = And | Or
  datatype UnarySubtype = Min | Not

  /** The operator class a token carries; the evaluator dispatches on it. */
  datatype OperatorType =
    | Additive(additive: AdditiveSubtype)
    | Multiplicative(multiplicative: MultiplicativeSubtype)
    | Exponential
    | Comp(comp: CompSubtype)
    | Boolean(boolean: BooleanSubtype)
    | Unary(unary: UnarySubtype)

  datatype TokenType =
    | Operator
    | NumeralLiteral(kind: NumeralKind)
    | BooleanLiteral
    | StringLiteral
    | Symbol
    | ParenthesisL
    | ParenthesisR
    | BlockStart
    | BlockEnd
    | Declaration
    | FunctionDeclaration
    | ConditionalIf
    | ConditionalElse
    | Return
    | Assignment
    | EndOfstatement
    | ArgumentSeparator
    | Eof

  /** A token with its columns `start`/`end` and its `line`; `value` is its text, absent on Eof. */
  datatype Token = Token(
    start: nat,
    end: nat,
    line: nat,
    tokenType: TokenType,
    operatorType: Option<OperatorType>,
    value: Option<string>)

  /** The binding power of an operator written `text`: only the five arithmetic operators rank above 0. */
  function Precedence(text: string): (p: int)
    ensures 0 <= p <= 3
    ensures p > 0 <==> text in {"^", "*", "/", "+", "-"}
    ensures p == 3 <==> text == "^"
    ensures p == 2 <==> text == "*" || text == "/"
    ensures p == 1 <==> text == "+" || text == "-"
  {
    match text
    case "^" => 3
    case "*" | "/" => 2
    case "+" | "-" => 1
    case _ => 0
  }

  /**
    * The order the binding powers put the operators in: `^` above `*` and `/`, which share a
    * level above `+` and `-`, which share a level above every other text.
    */
  lemma PrecedenceOrder(other: string)
    requires other !in {"^", "*", "/", "+", "-"}
    ensures Precedence("^") > Precedence("*") == Precedence("/") > Precedence("+") == Precedence("-") > Precedence(other)
    ensures Precedence(other) == 0
  {
  }

  /** The binding power of each arithmetic operator class; the other classes rank 0. */
  function Rank(op: OperatorType): nat {
    match op
    case Exponential => 3
    case Multiplicative(_) => 2
    case Additive(_) => 1
    case _ => 0
  }

  /**
    * `operator_predecende` as the parser uses it: the binding power and whether the operator
    * associates to the right, which only `^` does. A token without text has no precedence
    * (the source unwraps the text and panics).
    */
  function OperatorPrecedence(t: Token): (r: Option<(int, bool)>)
    ensures r.None? <==> t.value.None?
    ensures r.Some? ==> r.value.0 == Precedence(t.value.value) && (r.value.1 <==> t.value.value == "^")
  {
    match t.value
    case None => None
    case Some(text) => Some((Precedence(text), text == "^"))
  }
}
