/**
  * The recursive-descent parser of src/parser.rs: a `pos` cursor over the token vector, with
  * binding-power climbing for binary operators.
  *
  * Each `...At` function says what the parse routine of the same name returns when started at
  * `pos`: the node and the position after it, or the error. The class `Parser` runs the routines
  * over its own cursor and is proved to compute these functions.
  */
module Parser {
  import opened Wrappers
  import opened Tokens
  import Ast

  /** The kinds of `ParserError` (src/parser_errors.rs), with the token each one names. */
  datatype ParseError =
    | UnrecognizedToken(token: Token)
    | UnexpectedToken(expected: TokenType, found: Token)
    | UnexpectedEOF
    | UnexpectedEmptyValue

  /** What a routine parsed and the cursor after it, or why it failed. */
  type Parsed<T> = Result<(T, nat), ParseError>

  /**
    * Operator tokens carry both their text and their operator class. The lexer's tokens do
    * (LexerProperties.LexFromEndsWithEof); without text `operator_predecende` would panic.
    */
  ghost predicate OperatorsComplete(ts: seq<Token>) {
    forall t <- ts :: t.tokenType == Operator ==> t.value.Some? && t.operatorType.Some?
  }

  ghost predicate Ready(ts: seq<Token>, pos: nat) {
    pos <= |ts| && OperatorsComplete(ts)
  }

  /** `digest`: the current token when it has the expected type, and the cursor one further. */
  function DigestAt(ts: seq<Token>, pos: nat, expected: TokenType): (r: Parsed<Token>)
    ensures r.Ok? <==> pos < |ts| && ts[pos].tokenType == expected
    ensures r.Ok? ==> r.value == (ts[pos], pos + 1)
    ensures r.Err? ==> r.error == if pos < |ts| then UnexpectedToken(expected, ts[pos]) else UnexpectedEOF
  {
    if pos >= |ts| then Err(UnexpectedEOF)
    else if ts[pos].tokenType != expected then Err(UnexpectedToken(expected, ts[pos]))
    else Ok((ts[pos], pos + 1))
  }

  /**
    * `build_node` for a token that is a whole term: a symbol is a name, the others literals.
    * A boolean literal is true exactly when its text is `true`.
    */
  function Leaf(t: Token): (r: Result<Ast.Expression, ParseError>)
    requires t.tokenType.Symbol? || t.tokenType.StringLiteral? || t.tokenType.BooleanLiteral? || t.tokenType.NumeralLiteral?
    ensures r.Ok? <==> t.value.Some?
    ensures r.Err? ==> r.error == UnexpectedEmptyValue
    ensures r.Ok? ==> (r.value.Identifier? <==> t.tokenType.Symbol?)
  {
    match t.value
    case None => Err(UnexpectedEmptyValue)
    case Some(text) =>
      Ok(match t.tokenType
        case Symbol => Ast.Identifier(text)
        case StringLiteral => Ast.Literal(Ast.Text(text))
        case BooleanLiteral => Ast.Literal(Ast.Bool(text == "true"))
        case NumeralLiteral(kind) => Ast.Literal(Ast.Number(kind, text)))
  }

  /**
    * After a list element: `)` is left for the caller, anything else must be a comma, and the
    * end of the tokens is an error.
    */
  function SeparatorAt(ts: seq<Token>, pos: nat): (r: Result<nat, ParseError>)
    requires pos <= |ts|
    ensures r.Ok? ==> pos <= r.value <= |ts|
    ensures r.Ok? <==> pos < |ts| && ts[pos].tokenType in {ParenthesisR, ArgumentSeparator}
  {
    if pos >= |ts| then Err(UnexpectedEOF)
    else if ts[pos].tokenType != ParenthesisR then
      var comma :- DigestAt(ts, pos, ArgumentSeparator);
      Ok(comma.1)
    else Ok(pos)
  }

  /** `consume_statement_terminator`: every statement but `if` and `func` ends in `;`. */
  function TerminatorAt(ts: seq<Token>, pos: nat, stmt: Ast.Expression): (r: Result<nat, ParseError>)
    requires pos <= |ts|
    ensures stmt.IfConditional? || stmt.FunctionDeclaration? ==> r == Ok(pos)
    ensures !(stmt.IfConditional? || stmt.FunctionDeclaration?) ==>
      if pos < |ts| && ts[pos].tokenType == EndOfstatement then r == Ok(pos + 1) else r.Err?
  {
    if stmt.IfConditional? || stmt.FunctionDeclaration? then Ok(pos)
    else
      var semi :- DigestAt(ts, pos, EndOfstatement);
      Ok(semi.1)
  }

  /** Where `parse_block` may stop: at the end, before a `}`, or just after the `Eof` it consumed. */
  ghost predicate BlockStop(ts: seq<Token>, q: nat) {
    q == |ts| || (q < |ts| && ts[q].tokenType == BlockEnd) || (0 < q <= |ts| && ts[q - 1].tokenType == Eof)
  }

  /** `parse_block`: statements, each wrapped as a `Statement`, until `}`, `Eof` or the end. */
  function BlockAt(ts: seq<Token>, pos: nat): (r: Parsed<Ast.Block>)
    requires Ready(ts, pos)
    ensures r.Ok? ==> pos <= r.value.1 <= |ts| && BlockStop(ts, r.value.1)
    ensures r.Ok? ==> forall s <- r.value.0 :: s.Statement?
    decreases |ts| - pos, 7
  {
    if pos >= |ts| then Ok(([], pos))
    else if ts[pos].tokenType == Eof then Ok(([], pos + 1))
    else if ts[pos].tokenType == BlockEnd then Ok(([], pos))
    else
      var stmt :- StatementAt(ts, pos);
      var p :- TerminatorAt(ts, stmt.1, stmt.0);
      var rest :- BlockAt(ts, p);
      Ok(([Ast.Statement(stmt.0)] + rest.0, rest.1))
  }

  /** `parse_block_with_delimiters`: `{`, a block, `}`. */
  function DelimitedBlockAt(ts: seq<Token>, pos: nat): (r: Parsed<Ast.Block>)
    requires Ready(ts, pos)
    ensures r.Ok? ==> pos < r.value.1 <= |ts|
    decreases |ts| - pos, 6
  {
    var open :- DigestAt(ts, pos, BlockStart);
    var body :- BlockAt(ts, open.1);
    var close :- DigestAt(ts, body.1, BlockEnd);
    Ok((body.0, close.1))
  }

  /** `parse_statement`: dispatch on the first token of the statement. */
  function StatementAt(ts: seq<Token>, pos: nat): (r: Parsed<Ast.Expression>)
    requires Ready(ts, pos)
    ensures r.Ok? ==> pos < r.value.1 <= |ts|
    decreases |ts| - pos, 6
  {
    if pos >= |ts| then Err(UnexpectedEOF)
    else
      match ts[pos].tokenType
      case NumeralLiteral(_) | BooleanLiteral | Operator | Symbol | StringLiteral => ExpressionAt(ts, pos, 0)
      case Declaration => DeclarationAt(ts, pos)
      case FunctionDeclaration => FunctionDeclarationAt(ts, pos)
      case ConditionalIf => ConditionalAt(ts, pos)
      case Return => ReturnAt(ts, pos)
      case _ => Err(UnrecognizedToken(ts[pos]))
  }

  /** `parse_declaration`: `let name = expression`. */
  function DeclarationAt(ts: seq<Token>, pos: nat): (r: Parsed<Ast.Expression>)
    requires Ready(ts, pos)
    ensures r.Ok? ==> pos < r.value.1 <= |ts| && r.value.0.Declaration?
    decreases |ts| - pos, 5
  {
    var keyword :- DigestAt(ts, pos, Declaration);
    var symbol :- DigestAt(ts, keyword.1, Symbol);
    var assign :- DigestAt(ts, symbol.1, Assignment);
    var init :- ExpressionAt(ts, assign.1, 0);
    match symbol.0.value
    case None => Err(UnexpectedEOF)
    case Some(name) => Ok((Ast.Declaration(name, init.0), init.1))
  }

  /** `parse_return`: `return expression`. */
  function ReturnAt(ts: seq<Token>, pos: nat): (r: Parsed<Ast.Expression>)
    requires Ready(ts, pos)
    ensures r.Ok? ==> pos < r.value.1 <= |ts| && r.value.0.Return?
    decreases |ts| - pos, 5
  {
    var keyword :- DigestAt(ts, pos, Return);
    var result :- ExpressionAt(ts, keyword.1, 0);
    Ok((Ast.Return(result.0), result.1))
  }

  /** `parse_conditional`: `if (expression)` a branch, then optionally `else` a branch. */
  function ConditionalAt(ts: seq<Token>, pos: nat): (r: Parsed<Ast.Expression>)
    requires Ready(ts, pos)
    ensures r.Ok? ==> pos < r.value.1 <= |ts| && r.value.0.IfConditional?
    decreases |ts| - pos, 5
  {
    var keyword :- DigestAt(ts, pos, ConditionalIf);
    var open :- DigestAt(ts, keyword.1, ParenthesisL);
    var condition :- ExpressionAt(ts, open.1, 0);
    var close :- DigestAt(ts, condition.1, ParenthesisR);
    var ifBlock :- StatementOrBlockAt(ts, close.1);
    var elseBlock :- ElseBranchAt(ts, ifBlock.1);
    Ok((Ast.IfConditional(condition.0, ifBlock.0, elseBlock.0), elseBlock.1))
  }

  /** The optional tail of `parse_conditional`: `else` and a branch, or nothing. */
  function ElseBranchAt(ts: seq<Token>, pos: nat): (r: Parsed<Ast.ElseBranch>)
    requires Ready(ts, pos)
    ensures r.Ok? ==> pos <= r.value.1 <= |ts|
    ensures r.Ok? && r.value.0.Else? ==> pos < |ts| && ts[pos].tokenType == ConditionalElse
    decreases |ts| - pos, 5
  {
    if pos < |ts| && ts[pos].tokenType == ConditionalElse then
      var elseBlock :- StatementOrBlockAt(ts, pos + 1);
      Ok((Ast.Else(elseBlock.0), elseBlock.1))
    else
      Ok((Ast.NoElse, pos))
  }

  /** `parse_statement_or_block`: a braced block, or one terminated statement as a block of one. */
  function StatementOrBlockAt(ts: seq<Token>, pos: nat): (r: Parsed<Ast.Block>)
    requires Ready(ts, pos)
    ensures r.Ok? ==> pos < r.value.1 <= |ts|
    decreases |ts| - pos, 7
  {
    if pos < |ts| && ts[pos].tokenType == BlockStart then DelimitedBlockAt(ts, pos)
    else
      var stmt :- StatementAt(ts, pos);
      var p :- TerminatorAt(ts, stmt.1, stmt.0);
      Ok(([stmt.0], p))
  }

  /** The parameter list of `parse_function_declaration`: names separated by commas, up to `)`. */
  function ParamsAt(ts: seq<Token>, pos: nat): (r: Parsed<seq<string>>)
    requires pos <= |ts|
    ensures r.Ok? ==> pos <= r.value.1 <= |ts|
    decreases |ts| - pos
  {
    if pos >= |ts| || ts[pos].tokenType == ParenthesisR then Ok(([], pos))
    else
      var param :- DigestAt(ts, pos, Symbol);
      match param.0.value
      case None => Err(UnexpectedEmptyValue)
      case Some(name) =>
        var p :- SeparatorAt(ts, param.1);
        var rest :- ParamsAt(ts, p);
        Ok(([name] + rest.0, rest.1))
  }

  /** `parse_function_declaration`: `func name(parameters) { block }`. */
  function FunctionDeclarationAt(ts: seq<Token>, pos: nat): (r: Parsed<Ast.Expression>)
    requires Ready(ts, pos)
    ensures r.Ok? ==> pos < r.value.1 <= |ts| && r.value.0.FunctionDeclaration?
    decreases |ts| - pos, 5
  {
    var keyword :- DigestAt(ts, pos, FunctionDeclaration);
    var name :- DigestAt(ts, keyword.1, Symbol);
    var open :- DigestAt(ts, name.1, ParenthesisL);
    var params :- ParamsAt(ts, open.1);
    var close :- DigestAt(ts, params.1, ParenthesisR);
    var body :- DelimitedBlockAt(ts, close.1);
    match name.0.value
    case None => Err(UnexpectedEmptyValue)
    case Some(identifier) => Ok((Ast.FunctionDeclaration(Ast.FunctionDef(identifier, params.0, body.0)), body.1))
  }

  /**
    * `parse_expression`: a symbol directly followed by `(` is a call and is returned as it is;
    * anything else is a binary expression at binding power `prec`.
    */
  function ExpressionAt(ts: seq<Token>, pos: nat, prec: int): (r: Parsed<Ast.Expression>)
    requires Ready(ts, pos)
    ensures r.Ok? ==> pos < r.value.1 <= |ts|
    decreases |ts| - pos, 4
  {
    if pos >= |ts| then Err(UnexpectedEOF)
    else if ts[pos].tokenType == Symbol && pos + 1 < |ts| && ts[pos + 1].tokenType == ParenthesisL then
      MethodCallAt(ts, pos)
    else
      BinaryAt(ts, pos, prec)
  }

  /** `parse_method_call`: `name(arguments)`, located at the line of its name. */
  function MethodCallAt(ts: seq<Token>, pos: nat): (r: Parsed<Ast.Expression>)
    requires Ready(ts, pos)
    ensures r.Ok? ==> pos < r.value.1 <= |ts| && r.value.0.FunctionCall?
    decreases |ts| - pos, 3
  {
    var name :- DigestAt(ts, pos, Symbol);
    var open :- DigestAt(ts, name.1, ParenthesisL);
    var args :- MethodArgsAt(ts, open.1);
    var close :- DigestAt(ts, args.1, ParenthesisR);
    match name.0.value
    case None => Err(UnexpectedEOF)
    case Some(callee) => Ok((Ast.FunctionCall(callee, args.0, name.0.line), close.1))
  }

  /** `parse_method_args`: expressions separated by commas, up to `)`. */
  function MethodArgsAt(ts: seq<Token>, pos: nat): (r: Parsed<seq<Ast.Expression>>)
    requires Ready(ts, pos)
    ensures r.Ok? ==> pos <= r.value.1 <= |ts|
    decreases |ts| - pos, 5
  {
    if pos >= |ts| || ts[pos].tokenType == ParenthesisR then Ok(([], pos))
    else
      var arg :- ExpressionAt(ts, pos, 0);
      var p :- SeparatorAt(ts, arg.1);
      var rest :- MethodArgsAt(ts, p);
      Ok(([arg.0] + rest.0, rest.1))
  }

  /** `parse_binary_expression`: a term, then the operator loop. */
  function BinaryAt(ts: seq<Token>, pos: nat, prec: int): (r: Parsed<Ast.Expression>)
    requires Ready(ts, pos)
    ensures r.Ok? ==> pos < r.value.1 <= |ts|
    decreases |ts| - pos, 3
  {
    var left :- TermAt(ts, pos);
    OperatorLoop(ts, left.0, left.1, prec)
  }

  /** The binding power the right operand of an operator token is parsed at. */
  function RightPrecedence(t: Token): (p: int)
    requires t.value.Some?
    ensures p == Precedence(t.value.value) <==> t.value.value == "^"
    ensures Precedence(t.value.value) <= p <= Precedence(t.value.value) + 1
  {
    var (opPrec, isRight) := OperatorPrecedence(t).value;
    if isRight then opPrec else opPrec + 1
  }

  /**
    * The loop of `parse_binary_expression` with `left` parsed so far: an operator binding at
    * least `prec` takes `left` as its left operand and a right operand parsed one level tighter,
    * or at the same level for a right-associative operator.
    */
  function OperatorLoop(ts: seq<Token>, left: Ast.Expression, pos: nat, prec: int): (r: Parsed<Ast.Expression>)
    requires Ready(ts, pos)
    ensures r.Ok? ==> pos <= r.value.1 <= |ts|
    decreases |ts| - pos, 1
  {
    if pos >= |ts| || ts[pos].tokenType != Operator then Ok((left, pos))
    else
      var t := ts[pos];
      assert t in ts;
      if OperatorPrecedence(t).value.0 < prec then Ok((left, pos))
      else
        var right :- ExpressionAt(ts, pos + 1, RightPrecedence(t));
        OperatorLoop(ts, Ast.BinaryOperation(left, t.operatorType.value, right.0), right.1, prec)
  }

  /**
    * `parse_term`: a prefix `-` or `!` applied to one term, a name or literal, or a parenthesised
    * expression.
    */
  function TermAt(ts: seq<Token>, pos: nat): (r: Parsed<Ast.Expression>)
    requires Ready(ts, pos)
    ensures r.Ok? ==> pos < r.value.1 <= |ts|
    decreases |ts| - pos, 2
  {
    if pos >= |ts| then Err(UnexpectedEOF)
    else
      var t := ts[pos];
      match t.tokenType
      case Operator =>
        if t.operatorType == Some(Additive(Sub)) || t.operatorType == Some(Unary(Not)) then
          var operand :- TermAt(ts, pos + 1);
          var op := if t.operatorType == Some(Additive(Sub)) then Min else Not;
          Ok((Ast.UnaryOperation(Unary(op), operand.0), operand.1))
        else Err(UnrecognizedToken(t))
      case Symbol | StringLiteral | BooleanLiteral | NumeralLiteral(_) =>
        var e :- Leaf(t);
        Ok((e, pos + 1))
      case ParenthesisL =>
        var inner :- ExpressionAt(ts, pos + 1, 0);
        var close :- DigestAt(ts, inner.1, ParenthesisR);
        Ok((inner.0, close.1))
      case _ => Err(UnrecognizedToken(t))
  }

  /** `parse`: the block from the cursor to its end, as a `Program`. */
  function ProgramAt(ts: seq<Token>, pos: nat): (r: Result<Ast.Expression, ParseError>)
    requires Ready(ts, pos)
    ensures r.Ok? ==> r.value.Program?
    ensures r.Err? <==> BlockAt(ts, pos).Err?
  {
    var body :- BlockAt(ts, pos);
    Ok(Ast.Program(body.0))
  }

  /** A routine's result paired with the cursor it left behind, as the `...At` functions give it. */
  function Located<T>(r: Result<T, ParseError>, pos: nat): Parsed<T> {
    match r
    case Ok(v) => Ok((v, pos))
    case Err(e) => Err(e)
  }

  /** A list parse with `xs` in front of what it parsed. */
  function Prefix<T>(xs: seq<T>, r: Parsed<seq<T>>): Parsed<seq<T>> {
    match r
    case Ok((ys, p)) => Ok((xs + ys, p))
    case Err(e) => Err(e)
  }

  lemma PrefixEmpty<T>(r: Parsed<seq<T>>)
    ensures Prefix([], r) == r
  {
    match r
    case Ok((ys, p)) => assert [] + ys == ys;
    case Err(_) =>
  }

  lemma PrefixTwice<T>(xs: seq<T>, ys: seq<T>, r: Parsed<seq<T>>)
    ensures Prefix(xs, Prefix(ys, r)) == Prefix(xs + ys, r)
  {
    match r
    case Ok((zs, p)) => assert xs + (ys + zs) == (xs + ys) + zs;
    case Err(_) =>
  }

  /** The parser state: a cursor into the token vector of the lexer. */
  class Parser {
    var pos: nat
    const tokens: seq<Token>

    ghost predicate Valid()
      reads this
    {
      Ready(tokens, pos)
    }

    /** `Parser::new`: the cursor at the first token. */
    constructor(tokens: seq<Token>)
      requires OperatorsComplete(tokens)
      ensures Valid() && this.tokens == tokens && pos == 0
    {
      this.tokens := tokens;
      pos := 0;
    }

    /** `peek`: the token at index `at`, if there is one. */
    function Peek(at: nat): (r: Option<Token>)
      reads this
      ensures r.Some? <==> at < |tokens|
      ensures r.Some? ==> r.value == tokens[at]
    {
      if at < |tokens| then Some(tokens[at]) else None
    }

    /** `peek_type_is`: there is a current token and it has the expected type. */
    function PeekTypeIs(expected: TokenType): (b: bool)
      reads this
      ensures b <==> pos < |tokens| && tokens[pos].tokenType == expected
    {
      Peek(pos).Some? && Peek(pos).value.tokenType == expected
    }

    /**
      * `digest`: consumes the current token when it has the expected type; otherwise fails and
      * leaves the cursor where it was.
      */
    method Digest(expected: TokenType) returns (r: Result<Token, ParseError>)
      requires Valid()
      modifies this
      ensures Valid() && Located(r, pos) == DigestAt(tokens, old(pos), expected)
      ensures pos == if r.Ok? then old(pos) + 1 else old(pos)
    {
      if pos >= |tokens| {
        return Err(UnexpectedEOF);
      }
      var token := tokens[pos];
      if token.tokenType != expected {
        return Err(UnexpectedToken(expected, token));
      }
      pos := pos + 1;
      return Ok(token);
    }

    /** `parse` */
    method Parse() returns (r: Result<Ast.Expression, ParseError>)
      requires Valid()
      modifies this
      ensures Valid() && r == ProgramAt(tokens, old(pos))
    {
      var body :- ParseBlock();
      return Ok(Ast.Program(body));
    }

    /** `consume_statement_terminator` */
    method ConsumeStatementTerminator(stmt: Ast.Expression) returns (r: Result<(), ParseError>)
      requires Valid()
      modifies this
      ensures Valid()
      ensures (if r.Ok? then Ok(pos) else Err(r.error)) == TerminatorAt(tokens, old(pos), stmt)
    {
      if stmt.IfConditional? || stmt.FunctionDeclaration? {
        return Ok(());
      }
      var semi :- Digest(EndOfstatement);
      return Ok(());
    }

    /** `parse_function_declaration`, with its parameter loop. */
    method ParseFunctionDeclaration() returns (r: Result<Ast.Expression, ParseError>)
      requires Valid()
      modifies this
      ensures Valid() && Located(r, pos) == FunctionDeclarationAt(tokens, old(pos))
      decreases |tokens| - pos, 5
    {
      var keyword :- Digest(FunctionDeclaration);
      var identifier :- Digest(Symbol);
      var open :- Digest(ParenthesisL);
      var args :- ParseParameters();
      var close :- Digest(ParenthesisR);
      var block :- ParseBlockWithDelimiters();
      if identifier.value.None? {
        return Err(UnexpectedEmptyValue);
      }
      return Ok(Ast.FunctionDeclaration(Ast.FunctionDef(identifier.value.value, args, block)));
    }

    /** The parameter loop of `parse_function_declaration`, up to (not including) the `)`. */
    method ParseParameters() returns (r: Result<seq<string>, ParseError>)
      requires Valid()
      modifies this
      ensures Valid() && Located(r, pos) == ParamsAt(tokens, old(pos))
    {
      ghost var start := pos;
      var args: seq<string> := [];
      PrefixEmpty(ParamsAt(tokens, pos));
      while pos < |tokens|
        invariant Valid() && start <= pos
        invariant ParamsAt(tokens, start) == Prefix(args, ParamsAt(tokens, pos))
        decreases |tokens| - pos
      {
        if tokens[pos].tokenType == ParenthesisR {
          break;
        }
        var param :- Digest(Symbol);
        if param.value.None? {
          return Err(UnexpectedEmptyValue);
        }
        if pos < |tokens| {
          if tokens[pos].tokenType != ParenthesisR {
            var comma :- Digest(ArgumentSeparator);
          }
        } else {
          return Err(UnexpectedEOF);
        }
        PrefixTwice(args, [param.value.value], ParamsAt(tokens, pos));
        args := args + [param.value.value];
      }
      assert ParamsAt(tokens, pos) == Ok(([], pos));
      assert args + [] == args;
      return Ok(args);
    }

    /** `parse_block_with_delimiters` */
    method ParseBlockWithDelimiters() returns (r: Result<Ast.Block, ParseError>)
      requires Valid()
      modifies this
      ensures Valid() && Located(r, pos) == DelimitedBlockAt(tokens, old(pos))
      decreases |tokens| - pos, 6
    {
      var open :- Digest(BlockStart);
      var block :- ParseBlock();
      var close :- Digest(BlockEnd);
      return Ok(block);
    }

    /** `parse_block`: the statement loop, stopping at `}`, after `Eof`, or at the end. */
    method ParseBlock() returns (r: Result<Ast.Block, ParseError>)
      requires Valid()
      modifies this
      ensures Valid() && Located(r, pos) == BlockAt(tokens, old(pos))
      decreases |tokens| - pos, 7
    {
      var body: seq<Ast.Expression> := [];
      PrefixEmpty(BlockAt(tokens, pos));
      while pos < |tokens|
        invariant Valid() && old(pos) <= pos
        invariant BlockAt(tokens, old(pos)) == Prefix(body, BlockAt(tokens, pos))
        decreases |tokens| - pos
      {
        var token := tokens[pos];
        if token.tokenType == Eof {
          var eof := Digest(Eof);
          assert body + [] == body;
          return Ok(body);
        }
        if token.tokenType == BlockEnd {
          break;
        }
        var stmt :- ParseStatement();
        var terminated :- ConsumeStatementTerminator(stmt);
        PrefixTwice(body, [Ast.Statement(stmt)], BlockAt(tokens, pos));
        body := body + [Ast.Statement(stmt)];
      }
      assert body + [] == body;
      return Ok(body);
    }

    /** `parse_statement` */
    method ParseStatement() returns (r: Result<Ast.Expression, ParseError>)
      requires Valid()
      modifies this
      ensures Valid() && Located(r, pos) == StatementAt(tokens, old(pos))
      decreases |tokens| - pos, 6
    {
      if pos >= |tokens| {
        return Err(UnexpectedEOF);
      }
      match tokens[pos].tokenType {
        case NumeralLiteral(_) | BooleanLiteral | Operator | Symbol | StringLiteral =>
          r := ParseExpression(0);
        case Declaration =>
          r := ParseDeclaration();
        case FunctionDeclaration =>
          r := ParseFunctionDeclaration();
        case ConditionalIf =>
          r := ParseConditional();
        case Return =>
          r := ParseReturn();
        case _ =>
          r := Err(UnrecognizedToken(tokens[pos]));
      }
    }

    /** `parse_declaration` */
    method ParseDeclaration() returns (r: Result<Ast.Expression, ParseError>)
      requires Valid()
      modifies this
      ensures Valid() && Located(r, pos) == DeclarationAt(tokens, old(pos))
      decreases |tokens| - pos, 5
    {
      var keyword :- Digest(Declaration);
      var symbol :- Digest(Symbol);
      var assign :- Digest(Assignment);
      var expr :- ParseExpression(0);
      if symbol.value.None? {
        return Err(UnexpectedEOF);
      }
      return Ok(Ast.Declaration(symbol.value.value, expr));
    }

    /** `parse_return` */
    method ParseReturn() returns (r: Result<Ast.Expression, ParseError>)
      requires Valid()
      modifies this
      ensures Valid() && Located(r, pos) == ReturnAt(tokens, old(pos))
      decreases |tokens| - pos, 5
    {
      var keyword :- Digest(Return);
      var expr :- ParseExpression(0);
      return Ok(Ast.Return(expr));
    }

    /** `parse_conditional` */
    method ParseConditional() returns (r: Result<Ast.Expression, ParseError>)
      requires Valid()
      modifies this
      ensures Valid() && Located(r, pos) == ConditionalAt(tokens, old(pos))
      decreases |tokens| - pos, 5
    {
      var keyword :- Digest(ConditionalIf);
      var open :- Digest(ParenthesisL);
      var expr :- ParseExpression(0);
      var close :- Digest(ParenthesisR);
      var ifBlock :- ParseStatementOrBlock();
      var elseBlock :- ParseElseBranch();
      return Ok(Ast.IfConditional(expr, ifBlock, elseBlock));
    }

    /** The tail of `parse_conditional`: an `else` branch when the next token is `else`. */
    method ParseElseBranch() returns (r: Result<Ast.ElseBranch, ParseError>)
      requires Valid()
      modifies this
      ensures Valid() && Located(r, pos) == ElseBranchAt(tokens, old(pos))
      decreases |tokens| - pos, 5
    {
      if PeekTypeIs(ConditionalElse) {
        var elseKeyword := Digest(ConditionalElse);
        var block :- ParseStatementOrBlock();
        return Ok(Ast.Else(block));
      }
      return Ok(Ast.NoElse);
    }

    /** `parse_statement_or_block` */
    method ParseStatementOrBlock() returns (r: Result<Ast.Block, ParseError>)
      requires Valid()
      modifies this
      ensures Valid() && Located(r, pos) == StatementOrBlockAt(tokens, old(pos))
      decreases |tokens| - pos, 7
    {
      if PeekTypeIs(BlockStart) {
        r := ParseBlockWithDelimiters();
        return;
      }
      var stmt :- ParseStatement();
      var terminated :- ConsumeStatementTerminator(stmt);
      return Ok([stmt]);
    }

    /** `parse_expression` */
    method ParseExpression(precedence: int) returns (r: Result<Ast.Expression, ParseError>)
      requires Valid()
      modifies this
      ensures Valid() && Located(r, pos) == ExpressionAt(tokens, old(pos), precedence)
      decreases |tokens| - pos, 4
    {
      if pos >= |tokens| {
        return Err(UnexpectedEOF);
      }
      var next := Peek(pos + 1);
      if tokens[pos].tokenType == Symbol && next.Some? && next.value.tokenType == ParenthesisL {
        r := ParseMethodCall();
      } else {
        r := ParseBinaryExpression(precedence);
      }
    }

    /** `parse_method_call` */
    method ParseMethodCall() returns (r: Result<Ast.Expression, ParseError>)
      requires Valid()
      modifies this
      ensures Valid() && Located(r, pos) == MethodCallAt(tokens, old(pos))
      decreases |tokens| - pos, 3
    {
      var name :- Digest(Symbol);
      var open :- Digest(ParenthesisL);
      var args :- ParseMethodArgs();
      var close :- Digest(ParenthesisR);
      if name.value.None? {
        return Err(UnexpectedEOF);
      }
      return Ok(Ast.FunctionCall(name.value.value, args, name.line));
    }

    /** `parse_method_args` */
    method ParseMethodArgs() returns (r: Result<seq<Ast.Expression>, ParseError>)
      requires Valid()
      modifies this
      ensures Valid() && Located(r, pos) == MethodArgsAt(tokens, old(pos))
      decreases |tokens| - pos, 5
    {
      var args: seq<Ast.Expression> := [];
      PrefixEmpty(MethodArgsAt(tokens, pos));
      while pos < |tokens|
        invariant Valid() && old(pos) <= pos
        invariant MethodArgsAt(tokens, old(pos)) == Prefix(args, MethodArgsAt(tokens, pos))
        decreases |tokens| - pos
      {
        if tokens[pos].tokenType == ParenthesisR {
          break;
        }
        var arg :- ParseExpression(0);
        if pos < |tokens| {
          if tokens[pos].tokenType != ParenthesisR {
            var comma :- Digest(ArgumentSeparator);
          }
        } else {
          return Err(UnexpectedEOF);
        }
        PrefixTwice(args, [arg], MethodArgsAt(tokens, pos));
        args := args + [arg];
      }
      assert args + [] == args;
      return Ok(args);
    }

    /** `parse_binary_expression`: a term, then the operator loop reassigning `left`. */
    method ParseBinaryExpression(precedence: int) returns (r: Result<Ast.Expression, ParseError>)
      requires Valid()
      modifies this
      ensures Valid() && Located(r, pos) == BinaryAt(tokens, old(pos), precedence)
      decreases |tokens| - pos, 3
    {
      var left :- ParseTerm();
      while true
        invariant Valid() && old(pos) < pos
        invariant BinaryAt(tokens, old(pos), precedence) == OperatorLoop(tokens, left, pos, precedence)
        decreases |tokens| - pos
      {
        if pos >= |tokens| || tokens[pos].tokenType != Operator {
          break;
        }
        var opToken := tokens[pos];
        assert opToken in tokens;
        var (opPrecedence, isRight) := OperatorPrecedence(opToken).value;
        if opPrecedence < precedence {
          break;
        }
        var consumed := Digest(Operator);
        var nextPrecedence := if isRight then opPrecedence else opPrecedence + 1;
        var right :- ParseExpression(nextPrecedence);
        left := Ast.BinaryOperation(left, opToken.operatorType.value, right);
      }
      return Ok(left);
    }

    /** `parse_term` */
    method ParseTerm() returns (r: Result<Ast.Expression, ParseError>)
      requires Valid()
      modifies this
      ensures Valid() && Located(r, pos) == TermAt(tokens, old(pos))
      decreases |tokens| - pos, 2
    {
      if pos >= |tokens| {
        return Err(UnexpectedEOF);
      }
      var token := tokens[pos];
      match token.tokenType {
        case Operator =>
          if token.operatorType == Some(Additive(Sub)) || token.operatorType == Some(Unary(Not)) {
            r := ParsePrefixed();
          } else {
            return Err(UnrecognizedToken(token));
          }
        case Symbol | StringLiteral | BooleanLiteral | NumeralLiteral(_) =>
          var literal := Digest(token.tokenType);
          r := Leaf(token);
        case ParenthesisL =>
          r := ParseParenthesised();
        case _ =>
          return Err(UnrecognizedToken(token));
      }
    }

    /** The prefix branches of `parse_term`: a `-` or `!` token and the term it applies to. */
    method ParsePrefixed() returns (r: Result<Ast.Expression, ParseError>)
      requires Valid() && pos < |tokens| && tokens[pos].tokenType == Operator
      requires tokens[pos].operatorType == Some(Additive(Sub)) || tokens[pos].operatorType == Some(Unary(Not))
      modifies this
      ensures Valid() && Located(r, pos) == TermAt(tokens, old(pos))
      decreases |tokens| - pos, 1
    {
      if tokens[pos].operatorType == Some(Additive(Sub)) {
        var minus := Digest(Operator);
        var literal :- ParseTerm();
        return Ok(Ast.UnaryOperation(Unary(Min), literal));
      } else {
        var not := Digest(Operator);
        var literal :- ParseTerm();
        return Ok(Ast.UnaryOperation(Unary(Not), literal));
      }
    }

    /** The parenthesis branch of `parse_term`: `(`, an expression, `)`. */
    method ParseParenthesised() returns (r: Result<Ast.Expression, ParseError>)
      requires Valid() && pos < |tokens| && tokens[pos].tokenType == ParenthesisL
      modifies this
      ensures Valid() && Located(r, pos) == TermAt(tokens, old(pos))
      decreases |tokens| - pos, 1
    {
      var open := Digest(ParenthesisL);
      var expr :- ParseExpression(0);
      var close :- Digest(ParenthesisR);
      return Ok(expr);
    }
  }
}
