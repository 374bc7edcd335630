/** How the parser of src/parser.rs groups, delimits and rejects token sequences. */
module ParserProperties {
  import opened Wrappers
  import opened Tokens
  import Ast
  import Lexer
  import LexerProperties
  import opened Parser

  /** A token `parse_term` turns into a leaf: a name or a literal with its text. */
  ghost predicate IsLeaf(t: Token) {
    && (t.tokenType.Symbol? || t.tokenType.StringLiteral? || t.tokenType.BooleanLiteral? || t.tokenType.NumeralLiteral?)
    && t.value.Some?
  }

  /** An operator token as the lexer emits it. */
  ghost predicate IsOperator(t: Token) {
    t.tokenType == Operator && t.value.Some? && t.operatorType.Some?
  }

  function LeafNode(t: Token): Ast.Expression
    requires t.tokenType.Symbol? || t.tokenType.StringLiteral? || t.tokenType.BooleanLiteral? || t.tokenType.NumeralLiteral?
    requires t.value.Some?
  {
    Leaf(t).value
  }

  function Punctuation(tokenType: TokenType): Token {
    Token(0, 0, 1, tokenType, None, Some(""))
  }

  function Name(text: string): Token {
    Token(0, 0, 1, Symbol, None, Some(text))
  }

  function OperatorToken(text: string, op: OperatorType): Token {
    Token(0, 0, 1, Operator, Some(op), Some(text))
  }

  /** A leaf followed by neither an operator nor `(` is an expression on its own. */
  lemma LoneLeaf(ts: seq<Token>, pos: nat, prec: int)
    requires Ready(ts, pos) && pos < |ts| && IsLeaf(ts[pos])
    requires pos + 1 < |ts| ==> ts[pos + 1].tokenType !in {Operator, ParenthesisL}
    ensures ExpressionAt(ts, pos, prec) == Ok((LeafNode(ts[pos]), pos + 1))
  {
    assert TermAt(ts, pos) == Ok((LeafNode(ts[pos]), pos + 1));
    assert OperatorLoop(ts, LeafNode(ts[pos]), pos + 1, prec) == Ok((LeafNode(ts[pos]), pos + 1));
    assert BinaryAt(ts, pos, prec) == Ok((LeafNode(ts[pos]), pos + 1));
  }

  /** The tokens of the lexer always satisfy what the parser needs of operator tokens. */
  lemma LexedTokensAreComplete(program: string)
    requires Lexer.Lex(program).Lexed?
    ensures OperatorsComplete(Lexer.Lex(program).tokens)
  {
    var ts := Lexer.Lex(program).tokens;
    LexerProperties.LexFromEndsWithEof(program, Lexer.Start());
    forall t <- ts | t.tokenType == Operator
      ensures t.value.Some? && t.operatorType.Some?
    {
      var i :| 0 <= i < |ts| && ts[i] == t;
      assert i < |ts| - 1;
      assert Lexer.Emitted(ts[i]);
    }
  }

  /**
    * Grouping of `a o1 b o2 c`: the second operator is taken into the right operand of the first
    * exactly when its binding power reaches the level that operand is parsed at, which is one above
    * the first operator's for a left-associative operator and equal to it for `^`.
    */
  lemma TwoOperatorGrouping(a: Token, o1: Token, b: Token, o2: Token, c: Token)
    requires IsLeaf(a) && IsLeaf(b) && IsLeaf(c) && IsOperator(o1) && IsOperator(o2)
    ensures var ts := [a, o1, b, o2, c];
      var (ea, eb, ec) := (LeafNode(a), LeafNode(b), LeafNode(c));
      var (op1, op2) := (o1.operatorType.value, o2.operatorType.value);
      ExpressionAt(ts, 0, 0) == Ok((
        if OperatorPrecedence(o2).value.0 >= RightPrecedence(o1)
        then Ast.BinaryOperation(ea, op1, Ast.BinaryOperation(eb, op2, ec))
        else Ast.BinaryOperation(Ast.BinaryOperation(ea, op1, eb), op2, ec), 5))
  {
    var ts := [a, o1, b, o2, c];
    assert OperatorsComplete(ts);
    var (ea, eb, ec) := (LeafNode(a), LeafNode(b), LeafNode(c));
    var (op1, op2) := (o1.operatorType.value, o2.operatorType.value);
    var inner := RightPrecedence(o1);
    assert TermAt(ts, 0) == Ok((ea, 1));
    assert TermAt(ts, 2) == Ok((eb, 3));
    LoneLeaf(ts, 4, RightPrecedence(o2));
    if OperatorPrecedence(o2).value.0 >= inner {
      var bc := Ast.BinaryOperation(eb, op2, ec);
      assert OperatorLoop(ts, bc, 5, inner) == Ok((bc, 5));
      assert OperatorLoop(ts, eb, 3, inner) == Ok((bc, 5));
      assert ExpressionAt(ts, 2, inner) == Ok((bc, 5));
      var abc := Ast.BinaryOperation(ea, op1, bc);
      assert OperatorLoop(ts, abc, 5, 0) == Ok((abc, 5));
      assert OperatorLoop(ts, ea, 1, 0) == Ok((abc, 5));
    } else {
      assert OperatorLoop(ts, eb, 3, inner) == Ok((eb, 3));
      assert ExpressionAt(ts, 2, inner) == Ok((eb, 3));
      var ab := Ast.BinaryOperation(ea, op1, eb);
      var abc := Ast.BinaryOperation(ab, op2, ec);
      assert OperatorLoop(ts, abc, 5, 0) == Ok((abc, 5));
      assert OperatorLoop(ts, ab, 3, 0) == Ok((abc, 5));
      assert OperatorLoop(ts, ea, 1, 0) == Ok((abc, 5));
    }
  }

  /** `a - b - c` is `(a - b) - c`: operators of equal binding power nest to the left. */
  lemma SubtractionNestsLeft()
    ensures ExpressionAt([Name("a"), OperatorToken("-", Additive(Sub)), Name("b"), OperatorToken("-", Additive(Sub)), Name("c")], 0, 0)
      == Ok((Ast.BinaryOperation(Ast.BinaryOperation(Ast.Identifier("a"), Additive(Sub), Ast.Identifier("b")),
                                 Additive(Sub), Ast.Identifier("c")), 5))
  {
    TwoOperatorGrouping(Name("a"), OperatorToken("-", Additive(Sub)), Name("b"), OperatorToken("-", Additive(Sub)), Name("c"));
  }

  /** `a ^ b ^ c` is `a ^ (b ^ c)`, so `2^3^2` is 512. */
  lemma PowerNestsRight()
    ensures ExpressionAt([Name("a"), OperatorToken("^", Exponential), Name("b"), OperatorToken("^", Exponential), Name("c")], 0, 0)
      == Ok((Ast.BinaryOperation(Ast.Identifier("a"), Exponential,
                                 Ast.BinaryOperation(Ast.Identifier("b"), Exponential, Ast.Identifier("c"))), 5))
  {
    TwoOperatorGrouping(Name("a"), OperatorToken("^", Exponential), Name("b"), OperatorToken("^", Exponential), Name("c"));
  }

  /** `a + b * c` is `a + (b * c)` and `a * b + c` is `(a * b) + c`. */
  lemma ProductBindsTighterThanSum()
    ensures ExpressionAt([Name("a"), OperatorToken("+", Additive(Add)), Name("b"), OperatorToken("*", Multiplicative(Mul)), Name("c")], 0, 0)
      == Ok((Ast.BinaryOperation(Ast.Identifier("a"), Additive(Add),
                                 Ast.BinaryOperation(Ast.Identifier("b"), Multiplicative(Mul), Ast.Identifier("c"))), 5))
    ensures ExpressionAt([Name("a"), OperatorToken("*", Multiplicative(Mul)), Name("b"), OperatorToken("+", Additive(Add)), Name("c")], 0, 0)
      == Ok((Ast.BinaryOperation(Ast.BinaryOperation(Ast.Identifier("a"), Multiplicative(Mul), Ast.Identifier("b")),
                                 Additive(Add), Ast.Identifier("c")), 5))
  {
    TwoOperatorGrouping(Name("a"), OperatorToken("+", Additive(Add)), Name("b"), OperatorToken("*", Multiplicative(Mul)), Name("c"));
    TwoOperatorGrouping(Name("a"), OperatorToken("*", Multiplicative(Mul)), Name("b"), OperatorToken("+", Additive(Add)), Name("c"));
  }

  /** A prefix `-` or `!` applies to the single term after it, before any binary operator. */
  lemma PrefixAppliesToOneTerm(prefix: Token, a: Token, o: Token, b: Token)
    requires IsOperator(prefix) && prefix.operatorType.value in {Additive(Sub), Unary(Not)}
    requires IsLeaf(a) && IsOperator(o) && IsLeaf(b)
    ensures var unary := if prefix.operatorType.value == Additive(Sub) then Min else Not;
      ExpressionAt([prefix, a, o, b], 0, 0)
      == Ok((Ast.BinaryOperation(Ast.UnaryOperation(Unary(unary), LeafNode(a)), o.operatorType.value, LeafNode(b)), 4))
  {
    var ts := [prefix, a, o, b];
    assert OperatorsComplete(ts);
    var unary := if prefix.operatorType.value == Additive(Sub) then Min else Not;
    var ua := Ast.UnaryOperation(Unary(unary), LeafNode(a));
    assert TermAt(ts, 1) == Ok((LeafNode(a), 2));
    assert TermAt(ts, 0) == Ok((ua, 2));
    LoneLeaf(ts, 3, RightPrecedence(o));
    var e := Ast.BinaryOperation(ua, o.operatorType.value, LeafNode(b));
    assert OperatorLoop(ts, e, 4, 0) == Ok((e, 4));
    assert OperatorLoop(ts, ua, 2, 0) == Ok((e, 4));
  }

  /**
    * An expression that starts with `name(` is the call alone: the operator after the closing
    * parenthesis is not consumed, so `f() + b;` fails at the `+` where `;` was expected.
    */
  lemma CallSkipsOperatorLoop(o: Token, b: Token)
    requires IsOperator(o) && IsLeaf(b)
    ensures var ts := [Name("f"), Punctuation(ParenthesisL), Punctuation(ParenthesisR), o, b, Punctuation(EndOfstatement)];
      && ExpressionAt(ts, 0, 0) == Ok((Ast.FunctionCall("f", [], 1), 3))
      && BlockAt(ts, 0) == Err(UnexpectedToken(EndOfstatement, o))
  {
    var ts := [Name("f"), Punctuation(ParenthesisL), Punctuation(ParenthesisR), o, b, Punctuation(EndOfstatement)];
    assert OperatorsComplete(ts);
    assert MethodArgsAt(ts, 2) == Ok(([], 2));
    assert MethodCallAt(ts, 0) == Ok((Ast.FunctionCall("f", [], 1), 3));
    assert StatementAt(ts, 0) == Ok((Ast.FunctionCall("f", [], 1), 3));
    assert TerminatorAt(ts, 3, Ast.FunctionCall("f", [], 1)) == Err(UnexpectedToken(EndOfstatement, o));
  }

  /** As a right operand a call still ends the operand: `x + f() * z` is `(x + f()) * z`. */
  lemma CallAsRightOperand()
    ensures var ts := [Name("x"), OperatorToken("+", Additive(Add)), Name("f"), Punctuation(ParenthesisL),
                       Punctuation(ParenthesisR), OperatorToken("*", Multiplicative(Mul)), Name("z")];
      ExpressionAt(ts, 0, 0) == Ok((Ast.BinaryOperation(
        Ast.BinaryOperation(Ast.Identifier("x"), Additive(Add), Ast.FunctionCall("f", [], 1)),
        Multiplicative(Mul), Ast.Identifier("z")), 7))
  {
    var ts := [Name("x"), OperatorToken("+", Additive(Add)), Name("f"), Punctuation(ParenthesisL),
               Punctuation(ParenthesisR), OperatorToken("*", Multiplicative(Mul)), Name("z")];
    assert OperatorsComplete(ts);
    var call := Ast.FunctionCall("f", [], 1);
    assert MethodArgsAt(ts, 4) == Ok(([], 4));
    assert ExpressionAt(ts, 2, 2) == Ok((call, 5));
    var sum := Ast.BinaryOperation(Ast.Identifier("x"), Additive(Add), call);
    LoneLeaf(ts, 6, 3);
    var e := Ast.BinaryOperation(sum, Multiplicative(Mul), Ast.Identifier("z"));
    assert OperatorLoop(ts, e, 7, 0) == Ok((e, 7));
    assert OperatorLoop(ts, sum, 5, 0) == Ok((e, 7));
    assert TermAt(ts, 0) == Ok((Ast.Identifier("x"), 1));
    assert OperatorLoop(ts, Ast.Identifier("x"), 1, 0) == Ok((e, 7));
  }

  /** A comma before the closing parenthesis is accepted, in arguments and in parameters. */
  lemma TrailingCommaAccepted(a: Token)
    requires IsLeaf(a) && a.tokenType == Symbol
    ensures MethodArgsAt([a, Punctuation(ArgumentSeparator), Punctuation(ParenthesisR)], 0) == Ok(([LeafNode(a)], 2))
    ensures ParamsAt([a, Punctuation(ArgumentSeparator), Punctuation(ParenthesisR)], 0) == Ok(([a.value.value], 2))
  {
    var ts := [a, Punctuation(ArgumentSeparator), Punctuation(ParenthesisR)];
    assert OperatorsComplete(ts);
    LoneLeaf(ts, 0, 0);
    assert SeparatorAt(ts, 1) == Ok(2);
    assert MethodArgsAt(ts, 2) == Ok(([], 2));
    assert [LeafNode(a)] + [] == [LeafNode(a)];
    assert DigestAt(ts, 0, Symbol) == Ok((a, 1));
    assert ParamsAt(ts, 2) == Ok(([], 2));
    assert [a.value.value] + [] == [a.value.value];
  }

  /**
    * The tokens of a list of names separated by commas, with a comma after the last name too
    * when `trailing` holds.
    */
  ghost function NameList(names: seq<string>, trailing: bool): seq<Token>
    decreases |names|
  {
    if names == [] then []
    else if |names| == 1 && !trailing then [Name(names[0])]
    else [Name(names[0]), Punctuation(ArgumentSeparator)] + NameList(names[1..], trailing)
  }

  function Identifiers(names: seq<string>): (es: seq<Ast.Expression>)
    ensures |es| == |names| && forall i | 0 <= i < |names| :: es[i] == Ast.Identifier(names[i])
    decreases |names|
  {
    if names == [] then [] else [Ast.Identifier(names[0])] + Identifiers(names[1..])
  }

  /**
    * A parameter list of any length, with or without a trailing comma, up to `)`, gives its
    * names in order and stops at the `)`.
    */
  lemma {:induction false} ParamListAccepted(ts: seq<Token>, pos: nat, names: seq<string>, trailing: bool)
    requires pos + |NameList(names, trailing)| < |ts|
    requires ts[pos..pos + |NameList(names, trailing)|] == NameList(names, trailing)
    requires ts[pos + |NameList(names, trailing)|].tokenType == ParenthesisR
    ensures ParamsAt(ts, pos) == Ok((names, pos + |NameList(names, trailing)|))
    decreases |names|
  {
    var list := NameList(names, trailing);
    if names != [] {
      assert ts[pos] == list[0] == Name(names[0]);
      assert DigestAt(ts, pos, Symbol) == Ok((ts[pos], pos + 1));
      if |names| == 1 && !trailing {
        assert SeparatorAt(ts, pos + 1) == Ok(pos + 1);
        assert ParamsAt(ts, pos + 1) == Ok(([], pos + 1));
        assert [names[0]] + [] == names;
      } else {
        var more := NameList(names[1..], trailing);
        assert ts[pos + 1] == list[1] == Punctuation(ArgumentSeparator);
        assert SeparatorAt(ts, pos + 1) == Ok(pos + 2);
        assert ts[pos + 2..pos + 2 + |more|] == list[2..] == more;
        ParamListAccepted(ts, pos + 2, names[1..], trailing);
        assert [names[0]] + names[1..] == names;
      }
    }
  }

  /** One name argument followed by `,` or `)`: the name, then whatever the rest of the list gives. */
  lemma ArgStep(ts: seq<Token>, pos: nat, name: string)
    requires Ready(ts, pos) && pos + 1 < |ts| && ts[pos] == Name(name)
    requires ts[pos + 1].tokenType in {ArgumentSeparator, ParenthesisR}
    ensures var next := if ts[pos + 1].tokenType == ParenthesisR then pos + 1 else pos + 2;
      && MethodArgsAt(ts, next).Ok? == MethodArgsAt(ts, pos).Ok?
      && (MethodArgsAt(ts, next).Ok? ==>
            MethodArgsAt(ts, pos).value == ([Ast.Identifier(name)] + MethodArgsAt(ts, next).value.0, MethodArgsAt(ts, next).value.1))
      && (MethodArgsAt(ts, next).Err? ==> MethodArgsAt(ts, pos) == MethodArgsAt(ts, next))
  {
    LoneLeaf(ts, pos, 0);
    assert LeafNode(ts[pos]) == Ast.Identifier(name);
  }

  /**
    * An argument list of names of any length, with or without a trailing comma, up to `)`, gives
    * the names as expressions in order and stops at the `)`.
    */
  lemma {:induction false} ArgListAccepted(ts: seq<Token>, pos: nat, names: seq<string>, trailing: bool)
    requires Ready(ts, pos)
    requires pos + |NameList(names, trailing)| < |ts|
    requires ts[pos..pos + |NameList(names, trailing)|] == NameList(names, trailing)
    requires ts[pos + |NameList(names, trailing)|].tokenType == ParenthesisR
    ensures MethodArgsAt(ts, pos) == Ok((Identifiers(names), pos + |NameList(names, trailing)|))
    decreases |names|
  {
    var list := NameList(names, trailing);
    if names != [] {
      assert ts[pos] == list[0] == Name(names[0]);
      if |names| == 1 && !trailing {
        assert MethodArgsAt(ts, pos + 1) == Ok(([], pos + 1));
        ArgStep(ts, pos, names[0]);
        assert Identifiers(names) == [Ast.Identifier(names[0])] + [];
      } else {
        var more := NameList(names[1..], trailing);
        assert |list| == 2 + |more|;
        assert ts[pos + 1] == list[1] == Punctuation(ArgumentSeparator);
        assert ts[pos + 2..pos + 2 + |more|] == list[2..] == more;
        ArgListAccepted(ts, pos + 2, names[1..], trailing);
        ArgStep(ts, pos, names[0]);
        assert Identifiers(names) == [Ast.Identifier(names[0])] + Identifiers(names[1..]);
      }
    }
  }

  /**
    * A list of any length in which the comma after some name is missing fails where that comma
    * was expected, with `UnexpectedToken` of the token that follows the name. The names before it
    * are each followed by their comma.
    */
  lemma {:induction false} MissingCommaRejected(ts: seq<Token>, pos: nat, names: seq<string>, a: string, b: Token)
    requires Ready(ts, pos)
    requires pos + |NameList(names, true)| + 1 < |ts|
    requires ts[pos..pos + |NameList(names, true)|] == NameList(names, true)
    requires ts[pos + |NameList(names, true)|] == Name(a) && ts[pos + |NameList(names, true)| + 1] == b
    requires b.tokenType !in {ArgumentSeparator, ParenthesisR, Operator, ParenthesisL}
    ensures ParamsAt(ts, pos) == Err(UnexpectedToken(ArgumentSeparator, b))
    ensures MethodArgsAt(ts, pos) == Err(UnexpectedToken(ArgumentSeparator, b))
    decreases |names|
  {
    var list := NameList(names, true);
    if names == [] {
      assert DigestAt(ts, pos, Symbol) == Ok((Name(a), pos + 1));
      assert SeparatorAt(ts, pos + 1) == Err(UnexpectedToken(ArgumentSeparator, b));
      LoneLeaf(ts, pos, 0);
    } else {
      var more := NameList(names[1..], true);
      assert |list| == 2 + |more|;
      assert ts[pos] == list[0] == Name(names[0]);
      assert ts[pos + 1] == list[1] == Punctuation(ArgumentSeparator);
      assert ts[pos + 2..pos + 2 + |more|] == list[2..] == more;
      MissingCommaRejected(ts, pos + 2, names[1..], a, b);
      assert DigestAt(ts, pos, Symbol) == Ok((ts[pos], pos + 1));
      assert SeparatorAt(ts, pos + 1) == Ok(pos + 2);
      ArgStep(ts, pos, names[0]);
    }
  }

  /**
    * An `if` or `else` branch without braces is the one statement after it, not wrapped as a
    * `Statement`; with braces it is the delimited block.
    */
  lemma BranchIsBlockOrOneStatement(ts: seq<Token>, pos: nat)
    requires Ready(ts, pos)
    ensures pos < |ts| && ts[pos].tokenType == BlockStart ==> StatementOrBlockAt(ts, pos) == DelimitedBlockAt(ts, pos)
    ensures !(pos < |ts| && ts[pos].tokenType == BlockStart) && StatementOrBlockAt(ts, pos).Ok? ==>
      && StatementAt(ts, pos).Ok?
      && StatementOrBlockAt(ts, pos).value.0 == [StatementAt(ts, pos).value.0]
  {
  }

  /** A statement cannot start with any token but a term, `let`, `func`, `if` or `return`. */
  lemma StatementStartRejected(ts: seq<Token>, pos: nat)
    requires Ready(ts, pos) && pos < |ts|
    requires !(ts[pos].tokenType.NumeralLiteral? || ts[pos].tokenType in
               {BooleanLiteral, Operator, Symbol, StringLiteral, Declaration, FunctionDeclaration, ConditionalIf, Return})
    ensures StatementAt(ts, pos) == Err(UnrecognizedToken(ts[pos]))
  {
  }

  /** The tokens `parse_term` accepts first: a leaf, `(`, or the prefix operators `-` and `!`. */
  ghost predicate StartsTerm(t: Token) {
    || t.tokenType.NumeralLiteral?
    || t.tokenType in {BooleanLiteral, Symbol, StringLiteral, ParenthesisL}
    || (t.tokenType == Operator && t.operatorType in {Some(Additive(Sub)), Some(Unary(Not))})
  }

  /**
    * `return` needs an expression: followed by a token that cannot start a term (`;` in
    * `return;`, say) it is rejected at that token, and at the end of the tokens it is an early end.
    */
  lemma ReturnNeedsExpression(ts: seq<Token>, pos: nat)
    requires Ready(ts, pos) && pos < |ts| && ts[pos].tokenType == Return
    ensures pos + 1 == |ts| ==> StatementAt(ts, pos) == Err(UnexpectedEOF)
    ensures pos + 1 < |ts| && !StartsTerm(ts[pos + 1]) ==> StatementAt(ts, pos) == Err(UnrecognizedToken(ts[pos + 1]))
  {
    assert DigestAt(ts, pos, Return) == Ok((ts[pos], pos + 1));
    if pos + 1 < |ts| && !StartsTerm(ts[pos + 1]) {
      assert TermAt(ts, pos + 1) == Err(UnrecognizedToken(ts[pos + 1]));
      assert ExpressionAt(ts, pos + 1, 0) == Err(UnrecognizedToken(ts[pos + 1]));
    }
  }

  /** A stray `}` ends the program: whatever follows it is never parsed. */
  lemma StrayBraceEndsProgram(rest: seq<Token>)
    requires OperatorsComplete(rest)
    ensures var ts := [Name("a"), Punctuation(EndOfstatement), Punctuation(BlockEnd)] + rest;
      ProgramAt(ts, 0) == Ok(Ast.Program([Ast.Statement(Ast.Identifier("a"))]))
  {
    var ts := [Name("a"), Punctuation(EndOfstatement), Punctuation(BlockEnd)] + rest;
    assert OperatorsComplete(ts) by {
      forall t <- ts
        ensures t.tokenType == Operator ==> t.value.Some? && t.operatorType.Some?
      {
        if t !in rest {
          assert t in [Name("a"), Punctuation(EndOfstatement), Punctuation(BlockEnd)];
        }
      }
    }
    LoneLeaf(ts, 0, 0);
    assert StatementAt(ts, 0) == Ok((Ast.Identifier("a"), 1));
    assert TerminatorAt(ts, 1, Ast.Identifier("a")) == Ok(2);
    assert BlockAt(ts, 2) == Ok(([], 2));
    assert ts[0] == Name("a");
    assert [Ast.Statement(Ast.Identifier("a"))] + [] == [Ast.Statement(Ast.Identifier("a"))];
    assert BlockAt(ts, 0) == Ok(([Ast.Statement(Ast.Identifier("a"))], 2));
  }
}
