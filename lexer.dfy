/**
  * The lexer of src/lexer.rs: a character loop over `pos`, with `line` and `line_pos` counters,
  * that emits a token vector ending in `Eof`.
  *
  * `LexFrom` specifies the whole loop as a function of the cursor; `TokenParser.Parse` is the loop
  * itself and is proved to compute it. Where the source never finishes (the `l` branch that
  * consumes nothing), exits the process (`token_parse_error`) or panics (`unwrap` past the end),
  * the outcome says so instead of a token vector.
  */
module Lexer {
  import opened Wrappers
  import opened Tokens

  /** Where the lexer stands: index into the program, current line and column, both from 1. */
  datatype Cursor = Cursor(pos: nat, line: nat, linePos: nat)

  ghost predicate ValidCursor(program: string, c: Cursor) {
    c.pos <= |program| && c.linePos >= 1
  }

  /** The cursor of a fresh `TokenParser::new`. */
  function Start(): Cursor {
    Cursor(0, 1, 1)
  }

  /** Why lexing produced no token vector. */
  datatype LexFailure =
    | MalformedNumberLiteral(ch: char, line: nat, column: nat) // a second '.' in a numeral
    | UnrecognizedCharacter(ch: char, line: nat, column: nat)  // no branch matches
    | UnwrapPanic(at: nat)  // `l` among the last two characters: `unwrap` on `None`
    | Hangs(at: nat)        // `l` not followed by `et`: the loop never advances again

  datatype LexOutcome = Lexed(tokens: seq<Token>) | Failed(failure: LexFailure)

  /** One pass of the main loop: the tokens it pushes and the cursor after it, or a failure. */
  datatype StepResult = Emit(emitted: seq<Token>, next: Cursor) | Fail(failure: LexFailure)

  predicate IsDigit(ch: char) {
    '0' <= ch <= '9'
  }

  predicate IsAsciiAlphabetic(ch: char) {
    ('a' <= ch <= 'z') || ('A' <= ch <= 'Z')
  }

  /** The characters that continue an identifier. */
  predicate IsIdentifierChar(ch: char) {
    IsAsciiAlphabetic(ch) || IsDigit(ch) || ch == '_'
  }

  /** The characters that continue a numeral. */
  predicate IsNumeralChar(ch: char) {
    IsDigit(ch) || ch == '.'
  }

  predicate IsOperatorChar(ch: char) {
    ch == '+' || ch == '-' || ch == '*' || ch == '/' || ch == '^'
  }

  /** The character at index `i`, if any (`peek`, `peek_with_offset`). */
  function CharAt(program: string, i: nat): (r: Option<char>)
    ensures r.Some? <==> i < |program|
    ensures r.Some? ==> r.value == program[i]
  {
    if i < |program| then Some(program[i]) else None
  }

  /** `digest`: one character consumed; a newline starts the next line at column 1. */
  function Advance(program: string, c: Cursor): (d: Cursor)
    requires c.pos < |program|
    ensures d.pos == c.pos + 1
    ensures d.line != c.line <==> program[c.pos] == '\n'
    ensures d.line != c.line ==> d.line == c.line + 1 && d.linePos == 1
    ensures d.line == c.line ==> d.linePos == c.linePos + 1
  {
    if program[c.pos] == '\n' then Cursor(c.pos + 1, c.line + 1, 1)
    else Cursor(c.pos + 1, c.line, c.linePos + 1)
  }

  /** The operator class the lexer attaches to an operator character. */
  function OperatorTypeOf(ch: char): (op: OperatorType)
    requires IsOperatorChar(ch)
    ensures 0 < Rank(op) == Precedence([ch])
  {
    match ch
    case '+' =>
      assert [ch] == "+";
      Additive(Add)
    case '-' =>
      assert [ch] == "-";
      Additive(Sub)
    case '*' =>
      assert [ch] == "*";
      Multiplicative(Mul)
    case '/' =>
      assert [ch] == "/";
      Multiplicative(Div)
    case '^' =>
      assert [ch] == "^";
      Exponential
  }

  /** The cursor after a `//` comment: up to and including the next newline, or the end. */
  function CommentEnd(program: string, c: Cursor): (d: Cursor)
    requires ValidCursor(program, c)
    ensures ValidCursor(program, d) && c.pos <= d.pos
    decreases |program| - c.pos
  {
    if c.pos >= |program| then c
    else if program[c.pos] == '\n' then Advance(program, c)
    else CommentEnd(program, Advance(program, c))
  }

  /**
    * The text of a string literal from just after its opening quote, whether the closing quote
    * was found, and the cursor after the closing quote (or at the end of the program).
    */
  function StringScan(program: string, c: Cursor): (r: (string, bool, Cursor))
    requires ValidCursor(program, c)
    ensures ValidCursor(program, r.2) && c.pos <= r.2.pos
    decreases |program| - c.pos
  {
    if c.pos >= |program| then ("", false, c)
    else if program[c.pos] == '"' then ("", true, Advance(program, c))
    else
      var (text, closed, d) := StringScan(program, Advance(program, c));
      ([program[c.pos]] + text, closed, d)
  }

  /** The rest of an identifier: the longest run of identifier characters at the cursor. */
  function IdentifierScan(program: string, c: Cursor): (r: (string, Cursor))
    requires ValidCursor(program, c)
    ensures ValidCursor(program, r.1) && c.pos <= r.1.pos
    decreases |program| - c.pos
  {
    if c.pos < |program| && IsIdentifierChar(program[c.pos]) then
      var (text, d) := IdentifierScan(program, Advance(program, c));
      ([program[c.pos]] + text, d)
    else ("", c)
  }

  /**
    * The rest of a numeral: the longest run of digits and dots at the cursor, with the final
    * `is_floating` flag; a dot met while `floating` already holds fails at that dot's cursor.
    */
  function NumberScan(program: string, c: Cursor, floating: bool): (r: Result<(string, Cursor, bool), Cursor>)
    requires ValidCursor(program, c)
    ensures r.Ok? ==> ValidCursor(program, r.value.1) && c.pos <= r.value.1.pos
    ensures r.Err? ==> ValidCursor(program, r.error) && r.error.pos < |program| && program[r.error.pos] == '.'
    decreases |program| - c.pos
  {
    if c.pos < |program| && IsNumeralChar(program[c.pos]) then
      if program[c.pos] == '.' && floating then Err(c)
      else
        match NumberScan(program, Advance(program, c), floating || program[c.pos] == '.')
        case Err(e) => Err(e)
        case Ok((text, d, f)) => Ok(([program[c.pos]] + text, d, f))
    else Ok(("", c, floating))
  }

  /**
    * What holds of every token the main loop pushes: it is not `Eof`, it carries its text, and an
    * operator's binding power read from its text agrees with the rank of the class it carries.
    */
  ghost predicate Emitted(t: Token) {
    && t.tokenType != Eof
    && t.value.Some?
    && (t.tokenType == Operator ==>
          t.operatorType.Some? && 0 < Rank(t.operatorType.value) == Precedence(t.value.value))
  }

  /** A one-character token pushed before its character is digested (operators, parentheses, commas). */
  function PunctuationToken(c: Cursor, tokenType: TokenType, operatorType: Option<OperatorType>, ch: char): Token
    requires c.linePos >= 1
  {
    Token(c.linePos - 1, c.linePos, c.line, tokenType, operatorType, Some([ch]))
  }

  /** A one-character token pushed after its character is digested (`;` and `=`); `d` is the cursor after it. */
  function TerminatorToken(d: Cursor, tokenType: TokenType, ch: char): Token
    requires d.linePos >= 1
  {
    Token(d.linePos - 1, d.linePos, d.line, tokenType, None, Some([ch]))
  }

  /** The numeral branch of the main loop: a digit and the run of digits and dots after it. */
  function NumeralStep(program: string, c: Cursor): (r: StepResult)
    requires ValidCursor(program, c) && c.pos < |program|
    ensures r.Emit? ==> ValidCursor(program, r.next) && c.pos < r.next.pos && |r.emitted| == 1
    ensures r.Emit? ==> forall t <- r.emitted :: Emitted(t)
  {
    match NumberScan(program, Advance(program, c), false)
    case Err(e) => Fail(MalformedNumberLiteral('.', e.line, e.linePos))
    case Ok((text, d, floating)) =>
      Emit([Token(c.linePos, d.linePos, d.line, NumeralLiteral(if floating then FloatNumeral else IntegerNumeral), None, Some([program[c.pos]] + text))], d)
  }

  /**
    * One pass of the main loop of `parse` at a cursor under which there is a character.
    * Every branch consumes at least one character or fails, and only the `l` branch can hang.
    */
  function Step(program: string, c: Cursor): (r: StepResult)
    requires ValidCursor(program, c) && c.pos < |program|
    ensures r.Emit? ==> ValidCursor(program, r.next) && c.pos < r.next.pos && |r.emitted| <= 1
    ensures r.Emit? ==> forall t <- r.emitted :: Emitted(t)
    ensures r.Fail? && r.failure.Hangs? ==> program[c.pos] == 'l' && r.failure.at == c.pos
  {
    var ch := program[c.pos];
    if ch == ' ' || ch == '\n' then
      Emit([], Advance(program, c))
    else if ch == '/' && CharAt(program, c.pos + 1).GetOr(' ') == '/' then
      Emit([], CommentEnd(program, Advance(program, Advance(program, c))))
    else if ch == ';' then
      var d := Advance(program, c);
      Emit([TerminatorToken(d, EndOfstatement, ';')], d)
    else if ch == '=' then
      var d := Advance(program, c);
      Emit([TerminatorToken(d, Assignment, '=')], d)
    else if ch == 'l' then
      if c.pos + 2 >= |program| then Fail(UnwrapPanic(c.pos))
      else if program[c.pos + 1] == 'e' && program[c.pos + 2] == 't' then
        var d := Advance(program, Advance(program, Advance(program, c)));
        Emit([Token(c.linePos, d.linePos, d.line, Declaration, None, Some("let"))], d)
      else Fail(Hangs(c.pos))
    else if ch == '"' then
      var (text, closed, d) := StringScan(program, Advance(program, c));
      if closed then Emit([Token(c.linePos, d.linePos, d.line, StringLiteral, None, Some(text))], d)
      else Emit([], d)
    else if IsAsciiAlphabetic(ch) then
      var (text, d) := IdentifierScan(program, Advance(program, c));
      Emit([Token(c.linePos, d.linePos, d.line, Symbol, None, Some([ch] + text))], d)
    else if IsDigit(ch) then
      NumeralStep(program, c)
    else if IsOperatorChar(ch) then
      Emit([PunctuationToken(c, Operator, Some(OperatorTypeOf(ch)), ch)], Advance(program, c))
    else if ch == '(' then
      Emit([PunctuationToken(c, ParenthesisL, None, ch)], Advance(program, c))
    else if ch == ')' then
      Emit([PunctuationToken(c, ParenthesisR, None, ch)], Advance(program, c))
    else if ch == ',' then
      Emit([PunctuationToken(c, ArgumentSeparator, None, ch)], Advance(program, c))
    else
      Fail(UnrecognizedCharacter(ch, c.line, c.linePos))
  }

  /** The terminal token pushed after the loop: no text, zero width at the final column. */
  function EofToken(c: Cursor): (t: Token)
    ensures t.tokenType == Eof && t.value.None? && t.operatorType.None?
    ensures t.start == t.end == c.linePos && t.line == c.line
  {
    Token(c.linePos, c.linePos, c.line, Eof, None, None)
  }

  function Prepend(tokens: seq<Token>, o: LexOutcome): LexOutcome {
    match o
    case Lexed(rest) => Lexed(tokens + rest)
    case Failed(f) => Failed(f)
  }

  /** What `parse` returns when started at cursor `c`. */
  function LexFrom(program: string, c: Cursor): (r: LexOutcome)
    requires ValidCursor(program, c)
    ensures r.Lexed? ==> r.tokens != []
    decreases |program| - c.pos
  {
    if c.pos >= |program| then Lexed([EofToken(c)])
    else
      match Step(program, c)
      case Emit(emitted, d) => Prepend(emitted, LexFrom(program, d))
      case Fail(f) => Failed(f)
  }

  /** The whole lexer: `TokenParser::new(program).parse()`. */
  function Lex(program: string): (r: LexOutcome)
    ensures program == "" ==> r == Lexed([Token(1, 1, 1, Eof, None, None)])
    ensures r.Lexed? ==> r.tokens != []
  {
    LexFrom(program, Start())
  }

  /** Regrouping a concatenation of three texts. */
  lemma AppendRegroup<T>(a: seq<T>, b: seq<T>, c: seq<T>)
    ensures a + (b + c) == (a + b) + c
  {
  }

  lemma PrependTwice(a: seq<Token>, b: seq<Token>, o: LexOutcome)
    ensures Prepend(a, Prepend(b, o)) == Prepend(a + b, o)
  {
    if o.Lexed? {
      AppendRegroup(a, b, o.tokens);
    }
  }

  /** A numeral scan with `text` in front of its text. */
  function Prefixed(text: string, r: Result<(string, Cursor, bool), Cursor>): Result<(string, Cursor, bool), Cursor> {
    match r
    case Err(e) => Err(e)
    case Ok((rest, d, f)) => Ok((text + rest, d, f))
  }

  lemma PrefixedEmpty(r: Result<(string, Cursor, bool), Cursor>)
    ensures Prefixed("", r) == r
  {
    if r.Ok? {
      assert "" + r.value.0 == r.value.0;
    }
  }

  lemma PrefixedTwice(a: string, b: string, r: Result<(string, Cursor, bool), Cursor>)
    ensures Prefixed(a, Prefixed(b, r)) == Prefixed(a + b, r)
  {
    if r.Ok? {
      AppendRegroup(a, b, r.value.0);
    }
  }

  /** `TokenParser`: the program as characters and the cursor that `digest` moves. */
  class TokenParser {
    var pos: nat
    var linePos: nat
    var line: nat
    const program: string

    ghost predicate Valid()
      reads this
    {
      pos <= |program| && linePos >= 1
    }

    function At(): Cursor
      reads this
    {
      Cursor(pos, line, linePos)
    }

    constructor (program: string)
      ensures Valid() && this.program == program && At() == Start()
    {
      this.program := program;
      pos, linePos, line := 0, 1, 1;
    }

    /** Consumes the character under the cursor and returns it. */
    method Digest() returns (ch: char)
      requires Valid() && pos < |program|
      modifies this
      ensures Valid() && ch == program[old(pos)] && At() == Advance(program, old(At()))
    {
      pos := pos + 1;
      ch := program[pos - 1];
      if ch == '\n' {
        line := line + 1;
        linePos := 1;
      } else {
        linePos := linePos + 1;
      }
    }

    function Peek(): (r: Option<char>)
      reads this
      ensures r.Some? <==> pos < |program|
      ensures r.Some? ==> r.value == program[pos]
    {
      CharAt(program, pos)
    }

    function PeekWithOffset(offset: nat): (r: Option<char>)
      reads this
      ensures r.Some? <==> pos + offset < |program|
      ensures r.Some? ==> r.value == program[pos + offset]
    {
      CharAt(program, pos + offset)
    }

    /** The inner loop of the comment branch, started after `//`. */
    method SkipComment()
      requires Valid()
      modifies this
      ensures Valid() && At() == CommentEnd(program, old(At()))
    {
      while Peek().Some?
        invariant Valid()
        invariant CommentEnd(program, At()) == CommentEnd(program, old(At()))
        decreases |program| - pos
      {
        var next := Peek().value;
        if next == '\n' {
          var _ := Digest();
          break;
        }
        var _ := Digest();
      }
    }

    /** The inner loop of the string branch, started after the opening quote. */
    method ReadString() returns (text: string, closed: bool)
      requires Valid()
      modifies this
      ensures Valid() && (text, closed, At()) == StringScan(program, old(At()))
    {
      text, closed := "", false;
      assert text + StringScan(program, At()).0 == StringScan(program, At()).0;
      while Peek().Some?
        invariant Valid()
        invariant !closed
        invariant text + StringScan(program, At()).0 == StringScan(program, old(At())).0
        invariant StringScan(program, At()).1 == StringScan(program, old(At())).1
        invariant StringScan(program, At()).2 == StringScan(program, old(At())).2
        decreases |program| - pos
      {
        var d := Peek().value;
        if d == '"' {
          var _ := Digest();
          closed := true;
          assert text + "" == text;
          return;
        }
        ghost var c := At();
        var ch := Digest();
        ghost var rest := StringScan(program, At());
        assert StringScan(program, c) == ([ch] + rest.0, rest.1, rest.2);
        AppendRegroup(text, [ch], rest.0);
        text := text + [ch];
      }
      assert text + StringScan(program, At()).0 == text;
    }

    /** The inner loop of the identifier branch, started after the first letter. */
    method ReadIdentifier() returns (text: string)
      requires Valid()
      modifies this
      ensures Valid() && (text, At()) == IdentifierScan(program, old(At()))
    {
      ghost var whole := IdentifierScan(program, At());
      text := "";
      assert text + whole.0 == whole.0;
      while Peek().Some?
        invariant Valid()
        invariant text + IdentifierScan(program, At()).0 == whole.0
        invariant IdentifierScan(program, At()).1 == whole.1
        decreases |program| - pos
      {
        var d := Peek().value;
        if !IsIdentifierChar(d) {
          break;
        }
        ghost var c := At();
        var _ := Digest();
        ghost var rest := IdentifierScan(program, At());
        assert IdentifierScan(program, c) == ([d] + rest.0, rest.1);
        AppendRegroup(text, [d], rest.0);
        text := text + [d];
      }
      assert IdentifierScan(program, At()) == ("", At());
      assert text + "" == text;
    }

    /** The inner loop of the numeral branch, started after the first digit. */
    method ReadNumber() returns (r: Result<(string, bool), Cursor>)
      requires Valid()
      modifies this
      ensures Valid()
      ensures match NumberScan(program, old(At()), false)
        case Err(e) => r == Err(e) && At() == e
        case Ok((text, d, floating)) => r == Ok((text, floating)) && At() == d
    {
      var text, floating := "", false;
      PrefixedEmpty(NumberScan(program, At(), floating));
      while Peek().Some? && IsNumeralChar(Peek().value)
        invariant Valid()
        invariant NumberScan(program, old(At()), false) == Prefixed(text, NumberScan(program, At(), floating))
        decreases |program| - pos
      {
        ghost var before := NumberScan(program, At(), floating);
        if Peek().value == '.' {
          if floating {
            return Err(At());
          }
          floating := true;
        }
        var ch := Digest();
        assert before == Prefixed([ch], NumberScan(program, At(), floating));
        PrefixedTwice(text, [ch], NumberScan(program, At(), floating));
        text := text + [ch];
      }
      assert text + "" == text;
      r := Ok((text, floating));
    }

    /**
      * One pass of the body of `parse`'s main loop, at a cursor under which there is a
      * character: the tokens it pushes, or how the lexer stops.
      */
    method Next() returns (r: StepResult)
      requires Valid() && pos < |program|
      modifies this
      ensures Valid() && r == Step(program, old(At()))
      ensures r.Emit? ==> At() == r.next
    {
      var c := Peek().value;
      if c == ' ' || c == '\n' {
        var _ := Digest();
        r := Emit([], At());
      } else if c == '/' && PeekWithOffset(1).GetOr(' ') == '/' {
        var _ := Digest();
        var _ := Digest();
        SkipComment();
        r := Emit([], At());
      } else if c == ';' {
        var _ := Digest();
        r := Emit([TerminatorToken(At(), EndOfstatement, ';')], At());
      } else if c == '=' {
        var _ := Digest();
        r := Emit([TerminatorToken(At(), Assignment, '=')], At());
      } else if c == 'l' {
        var start := linePos;
        var d := PeekWithOffset(1);
        var e := PeekWithOffset(2);
        if d.None? || e.None? {
          return Fail(UnwrapPanic(pos));
        }
        if d.value == 'e' && e.value == 't' {
          var _ := Digest();
          var _ := Digest();
          var _ := Digest();
          r := Emit([Token(start, linePos, line, Declaration, None, Some("let"))], At());
        } else {
          // Nothing was consumed: the main loop would take this branch again forever.
          r := Fail(Hangs(pos));
        }
      } else if c == '"' {
        var start := linePos;
        var _ := Digest();
        var text, closed := ReadString();
        if closed {
          r := Emit([Token(start, linePos, line, StringLiteral, None, Some(text))], At());
        } else {
          r := Emit([], At());
        }
      } else if IsAsciiAlphabetic(c) {
        var start := linePos;
        var first := Digest();
        var rest := ReadIdentifier();
        r := Emit([Token(start, linePos, line, Symbol, None, Some([first] + rest))], At());
      } else if IsDigit(c) {
        var start := linePos;
        var first := Digest();
        var number := ReadNumber();
        match number {
          case Err(at) =>
            r := Fail(MalformedNumberLiteral('.', at.line, at.linePos));
          case Ok((rest, floating)) =>
            var kind := if floating then FloatNumeral else IntegerNumeral;
            r := Emit([Token(start, linePos, line, NumeralLiteral(kind), None, Some([first] + rest))], At());
        }
      } else if IsOperatorChar(c) {
        var token := PunctuationToken(At(), Operator, Some(OperatorTypeOf(c)), c);
        var _ := Digest();
        r := Emit([token], At());
      } else if c == '(' || c == ')' || c == ',' {
        var tokenType := if c == '(' then ParenthesisL else if c == ')' then ParenthesisR else ArgumentSeparator;
        var token := PunctuationToken(At(), tokenType, None, c);
        var _ := Digest();
        r := Emit([token], At());
      } else {
        r := Fail(UnrecognizedCharacter(c, line, linePos));
      }
    }

    /** `parse`: the main loop; the result is what `LexFrom` gives at the starting cursor. */
    method Parse() returns (r: LexOutcome)
      requires Valid()
      modifies this
      ensures r == LexFrom(program, old(At()))
    {
      ghost var whole := LexFrom(program, At());
      var tokens: seq<Token> := [];
      assert Prepend([], whole) == whole by {
        if whole.Lexed? {
          assert [] + whole.tokens == whole.tokens;
        }
      }
      while Peek().Some?
        invariant Valid()
        invariant whole == Prepend(tokens, LexFrom(program, At()))
        decreases |program| - pos
      {
        ghost var c := At();
        var step := Next();
        match step {
          case Fail(f) =>
            assert LexFrom(program, c) == Failed(f);
            return Failed(f);
          case Emit(emitted, _) =>
            assert LexFrom(program, c) == Prepend(emitted, LexFrom(program, At()));
            PrependTwice(tokens, emitted, LexFrom(program, At()));
            tokens := tokens + emitted;
        }
      }
      assert LexFrom(program, At()) == Lexed([EofToken(At())]);
      r := Lexed(tokens + [EofToken(At())]);
    }
  }
}
