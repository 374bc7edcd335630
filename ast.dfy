/**
  * The syntax tree the parser (src/parser.rs) builds and the evaluator
  * (src/interpreter/core.rs) walks. Its shape is read off the constructors those two files use.
  */
module Ast {
  import opened Wrappers
  import opened Tokens

  /**
    * A literal as the parser leaves it. A numeral keeps its text and whether it was written with
    * a dot; turning that text into a number is the value layer's business.
    */
  datatype LiteralValue =
    | Bool(b: bool)
    | Number(kind: NumeralKind, text: string)
    | Text(s: string)

  /** `func name(arguments) { block }` */
  datatype FunctionDef = FunctionDef(identifier: string, arguments: seq<string>, block: seq<Expression>)

  /** The `Option<Block>` else branch of a conditional. */
  datatype ElseBranch = NoElse | Else(block: seq<Expression>)

  datatype Expression =
    | Program(body: seq<Expression>)
    | Statement(inner: Expression)
    | Declaration(name: string, init: Expression)
    | FunctionDeclaration(def: FunctionDef)
    | IfConditional(condition: Expression, ifBlock: seq<Expression>, elseBlock: ElseBranch)
    | Return(result: Expression)
    | FunctionCall(callee: string, arguments: seq<Expression>, location: nat)
    | Identifier(name: string)
    | Literal(literal: LiteralValue)
    | UnaryOperation(operator: OperatorType, operand: Expression)
    | BinaryOperation(left: Expression, op: OperatorType, right: Expression)

  type Block = seq<Expression>
}
