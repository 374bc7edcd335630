/** What the lexer of src/lexer.rs guarantees, and where it does not finish. */
module LexerProperties {
  import opened Wrappers
  import opened Tokens
  import opened Lexer

  /** The output ends in the one `Eof` token, which has no text; every token before it carries text. */
  ghost predicate EndsWithEof(ts: seq<Token>) {
    && |ts| >= 1
    && ts[|ts| - 1].tokenType == Eof && ts[|ts| - 1].value == None
    && forall i | 0 <= i < |ts| - 1 :: Emitted(ts[i])
  }

  lemma {:induction false} LexFromEndsWithEof(program: string, c: Cursor)
    requires ValidCursor(program, c)
    ensures LexFrom(program, c).Lexed? ==> EndsWithEof(LexFrom(program, c).tokens)
    decreases |program| - c.pos
  {
    if c.pos >= |program| {
      assert LexFrom(program, c) == Lexed([EofToken(c)]);
    } else {
      match Step(program, c)
      case Emit(emitted, d) =>
        LexFromEndsWithEof(program, d);
        assert LexFrom(program, c) == Prepend(emitted, LexFrom(program, d));
        PrependEmitted(emitted, LexFrom(program, d));
      case Fail(f) =>
        assert LexFrom(program, c) == Failed(f);
    }
  }

  /** Tokens the main loop pushes in front of a well-formed output keep it well formed. */
  lemma PrependEmitted(emitted: seq<Token>, o: LexOutcome)
    requires forall t <- emitted :: Emitted(t)
    requires o.Lexed? ==> EndsWithEof(o.tokens)
    ensures Prepend(emitted, o).Lexed? ==> EndsWithEof(Prepend(emitted, o).tokens)
  {
    if o.Lexed? {
      var rest := o.tokens;
      var ts := emitted + rest;
      assert ts[|ts| - 1] == rest[|rest| - 1];
      forall i | 0 <= i < |ts| - 1
        ensures Emitted(ts[i])
      {
        if i < |emitted| {
          assert ts[i] in emitted;
        } else {
          assert ts[i] == rest[i - |emitted|];
        }
      }
    }
  }

  /** `parse` ends with exactly one `Eof`, the last token, and it has value `None`. */
  lemma LexEndsWithEof(program: string)
    ensures Lex(program).Lexed? ==>
      var ts := Lex(program).tokens;
      && |ts| >= 1
      && ts[|ts| - 1].tokenType == Eof && ts[|ts| - 1].value == None
      && forall i | 0 <= i < |ts| - 1 :: ts[i].tokenType != Eof
  {
    LexFromEndsWithEof(program, Start());
  }

  /**
    * The operator tokens the lexer emits carry an operator class whose rank agrees with the
    * binding power the parser reads from their text, and only `^` associates to the right.
    */
  lemma LexedOperatorPrecedence(program: string, i: nat)
    requires Lex(program).Lexed? && i < |Lex(program).tokens|
    requires Lex(program).tokens[i].tokenType == Operator
    ensures var t := Lex(program).tokens[i];
      && t.operatorType.Some?
      && OperatorPrecedence(t) == Some((Rank(t.operatorType.value), t.operatorType.value == Exponential))
      && Rank(t.operatorType.value) > 0
  {
    LexFromEndsWithEof(program, Start());
    var t := Lex(program).tokens[i];
    assert Emitted(t);
    var text := t.value.value;
    assert Precedence(text) > 0;
    assert text in {"^", "*", "/", "+", "-"};
  }

  /** The cursor after `digest` has been called `n` times on a fresh lexer. */
  function Walk(program: string, n: nat): (c: Cursor)
    requires n <= |program|
    ensures c.pos == n && ValidCursor(program, c)
  {
    if n == 0 then Start() else Advance(program, Walk(program, n - 1))
  }

  /**
    * `digest` keeps the line counter equal to one more than the newlines consumed so far, and
    * the column at 1 just after a newline, one further after any other character.
    */
  lemma {:induction false} WalkCountsLines(program: string, n: nat)
    requires n <= |program|
    ensures Walk(program, n).line == 1 + multiset(program[..n])['\n']
    ensures n > 0 ==> Walk(program, n).linePos == if program[n - 1] == '\n' then 1 else Walk(program, n - 1).linePos + 1
  {
    if n > 0 {
      WalkCountsLines(program, n - 1);
      assert program[..n] == program[..n - 1] + [program[n - 1]];
    }
  }

  /** Spaces, newlines and `//` comments are consumed without emitting a token. */
  lemma SkippedCharactersEmitNothing(program: string, c: Cursor)
    requires ValidCursor(program, c) && c.pos < |program|
    requires || program[c.pos] == ' ' || program[c.pos] == '\n'
             || (program[c.pos] == '/' && c.pos + 1 < |program| && program[c.pos + 1] == '/')
    ensures Step(program, c).Emit? && Step(program, c).emitted == []
  {
  }

  /**
    * A comment runs up to and including the first newline after it, or to the end of the
    * program: no newline is skipped before the last consumed character.
    */
  lemma {:induction false} CommentEndsAfterNewline(program: string, c: Cursor)
    requires ValidCursor(program, c)
    ensures var d := CommentEnd(program, c);
      && (forall i | c.pos <= i < d.pos - 1 :: program[i] != '\n')
      && (d.pos < |program| ==> c.pos < d.pos && program[d.pos - 1] == '\n')
      && (c.pos < d.pos && program[d.pos - 1] != '\n' ==> d.pos == |program|)
    decreases |program| - c.pos
  {
    if c.pos < |program| && program[c.pos] != '\n' {
      CommentEndsAfterNewline(program, Advance(program, c));
    }
  }

  /** The number of dots in a text. */
  function Dots(s: string): nat {
    multiset(s)['.']
  }

  lemma DotsCons(ch: char, s: string)
    ensures Dots([ch] + s) == Dots(s) + (if ch == '.' then 1 else 0)
  {
    assert multiset([ch] + s) == multiset{ch} + multiset(s);
  }

  /** A slice is its first character followed by the rest. */
  lemma SliceCons(s: string, i: nat, j: nat)
    requires i < j <= |s|
    ensures s[i..j] == [s[i]] + s[i + 1..j]
  {
  }

  /** A successful numeral scan's text is exactly the maximal run of digits and dots at the cursor. */
  lemma {:induction false} NumberScanRun(program: string, c: Cursor, floating: bool)
    requires ValidCursor(program, c) && NumberScan(program, c, floating).Ok?
    ensures var (text, d, f) := NumberScan(program, c, floating).value;
      && text == program[c.pos..d.pos]
      && (forall i | c.pos <= i < d.pos :: IsNumeralChar(program[i]))
      && (d.pos == |program| || !IsNumeralChar(program[d.pos]))
    decreases |program| - c.pos
  {
    if c.pos < |program| && IsNumeralChar(program[c.pos]) {
      var ch := program[c.pos];
      var next := Advance(program, c);
      NumberScanRun(program, next, floating || ch == '.');
      var (text, d, f) := NumberScan(program, next, floating || ch == '.').value;
      assert NumberScan(program, c, floating).value == ([ch] + text, d, f);
      assert program[c.pos..d.pos] == [ch] + program[next.pos..d.pos];
    }
  }

  /**
    * The run of a successful numeral scan holds at most one dot counting the one already `seen`,
    * and the final flag says whether there is one.
    */
  lemma {:induction false} NumberScanDots(program: string, c: Cursor, floating: bool)
    requires ValidCursor(program, c) && NumberScan(program, c, floating).Ok?
    ensures var (text, d, f) := NumberScan(program, c, floating).value;
      var seen := if floating then 1 else 0;
      && seen + Dots(text) <= 1
      && (f <==> seen + Dots(text) == 1)
    decreases |program| - c.pos
  {
    if c.pos < |program| && IsNumeralChar(program[c.pos]) {
      var ch := program[c.pos];
      var next := Advance(program, c);
      NumberScanDots(program, next, floating || ch == '.');
      var (text, d, f) := NumberScan(program, next, floating || ch == '.').value;
      assert NumberScan(program, c, floating).value == ([ch] + text, d, f);
      DotsCons(ch, text);
    }
  }

  /**
    * A successful numeral scan covers the maximal run of digits and dots and its text is exactly
    * that run; the run holds at most one dot counting the one already `seen`, and the final flag
    * says whether there is one.
    */
  lemma NumberScanOk(program: string, c: Cursor, floating: bool)
    requires ValidCursor(program, c) && NumberScan(program, c, floating).Ok?
    ensures var (text, d, f) := NumberScan(program, c, floating).value;
      var seen := if floating then 1 else 0;
      && text == program[c.pos..d.pos]
      && (forall i | c.pos <= i < d.pos :: IsNumeralChar(program[i]))
      && (d.pos == |program| || !IsNumeralChar(program[d.pos]))
      && seen + Dots(text) <= 1
      && (f <==> seen + Dots(text) == 1)
  {
    NumberScanRun(program, c, floating);
    NumberScanDots(program, c, floating);
  }

  /** A numeral scan fails exactly at the dot that would be the second one of the run. */
  lemma {:induction false} NumberScanErr(program: string, c: Cursor, floating: bool)
    requires ValidCursor(program, c) && NumberScan(program, c, floating).Err?
    ensures var e := NumberScan(program, c, floating).error;
      && c.pos <= e.pos < |program| && program[e.pos] == '.'
      && (forall i | c.pos <= i < e.pos :: IsNumeralChar(program[i]))
      && (if floating then 1 else 0) + Dots(program[c.pos..e.pos]) == 1
  {
    NumberScanErrRun(program, c, floating);
    NumberScanErrDots(program, c, floating);
  }

  /** The run before a failing dot is made of digits and dots. */
  lemma {:induction false} NumberScanErrRun(program: string, c: Cursor, floating: bool)
    requires ValidCursor(program, c) && NumberScan(program, c, floating).Err?
    ensures var e := NumberScan(program, c, floating).error;
      && c.pos <= e.pos
      && (forall i | c.pos <= i < e.pos :: IsNumeralChar(program[i]))
    decreases |program| - c.pos
  {
    var ch := program[c.pos];
    if !(ch == '.' && floating) {
      var next := Advance(program, c);
      NumberScanErrRun(program, next, floating || ch == '.');
      assert NumberScan(program, c, floating).error == NumberScan(program, next, floating || ch == '.').error;
    }
  }

  /** The run before a failing dot holds exactly one dot counting the one already `seen`. */
  lemma {:induction false} NumberScanErrDots(program: string, c: Cursor, floating: bool)
    requires ValidCursor(program, c) && NumberScan(program, c, floating).Err?
    ensures var e := NumberScan(program, c, floating).error;
      && c.pos <= e.pos
      && (if floating then 1 else 0) + Dots(program[c.pos..e.pos]) == 1
    decreases |program| - c.pos
  {
    var ch := program[c.pos];
    if !(ch == '.' && floating) {
      var next := Advance(program, c);
      NumberScanErrDots(program, next, floating || ch == '.');
      var e := NumberScan(program, next, floating || ch == '.').error;
      assert NumberScan(program, c, floating).error == e;
      assert program[c.pos..e.pos] == [ch] + program[next.pos..e.pos];
      DotsCons(ch, program[next.pos..e.pos]);
    }
  }

  /**
    * A digit starts one `NumeralLiteral` whose text is exactly the consumed run of digits and
    * dots, a float numeral when the run holds a dot; a second dot in the run fails the lexer.
    */
  lemma NumeralLiteralIsConsumedText(program: string, c: Cursor)
    requires ValidCursor(program, c) && c.pos < |program| && IsDigit(program[c.pos])
    ensures Step(program, c).Emit? ==>
      var ts, d := Step(program, c).emitted, Step(program, c).next;
      && |ts| == 1 && ts[0].tokenType.NumeralLiteral?
      && ts[0].value == Some(program[c.pos..d.pos])
      && (forall i | c.pos <= i < d.pos :: IsNumeralChar(program[i]))
      && (d.pos == |program| || !IsNumeralChar(program[d.pos]))
      && Dots(program[c.pos..d.pos]) <= 1
      && (ts[0].tokenType.kind == FloatNumeral <==> Dots(program[c.pos..d.pos]) == 1)
    ensures Step(program, c).Fail? ==>
      && Step(program, c).failure.MalformedNumberLiteral?
      && exists e :: c.pos < e < |program| && program[e] == '.'
           && (forall i | c.pos <= i < e :: IsNumeralChar(program[i]))
           && Dots(program[c.pos..e]) == 1
  {
    assert Step(program, c) == NumeralStep(program, c);
    if NumeralStep(program, c).Emit? {
      NumeralStepEmits(program, c, NumeralStep(program, c).emitted, NumeralStep(program, c).next);
    } else {
      NumeralStepFails(program, c);
    }
  }

  /** The emitting half of `NumeralLiteralIsConsumedText`. */
  lemma NumeralStepEmits(program: string, c: Cursor, ts: seq<Token>, d: Cursor)
    requires ValidCursor(program, c) && c.pos < |program| && IsDigit(program[c.pos])
    requires NumeralStep(program, c) == Emit(ts, d)
    ensures
      && |ts| == 1 && ts[0].tokenType.NumeralLiteral?
      && ts[0].value == Some(program[c.pos..d.pos])
      && (forall i | c.pos <= i < d.pos :: IsNumeralChar(program[i]))
      && (d.pos == |program| || !IsNumeralChar(program[d.pos]))
      && Dots(program[c.pos..d.pos]) <= 1
      && (ts[0].tokenType.kind == FloatNumeral <==> Dots(program[c.pos..d.pos]) == 1)
  {
    var ch := program[c.pos];
    var next := Advance(program, c);
    var (text, d', f) := NumberScan(program, next, false).value;
    var kind := if f then FloatNumeral else IntegerNumeral;
    assert NumeralStep(program, c) == Emit([Token(c.linePos, d'.linePos, d'.line, NumeralLiteral(kind), None, Some([ch] + text))], d');
    assert d' == d && ts[0].value == Some([ch] + text) && ts[0].tokenType == NumeralLiteral(kind);
    NumberScanRun(program, next, false);
    SliceCons(program, c.pos, d.pos);
    assert [ch] + text == program[c.pos..d.pos];
    forall i | c.pos <= i < d.pos
      ensures IsNumeralChar(program[i])
    {
      if i == c.pos {
        assert IsNumeralChar(ch);
      }
    }
    assert Dots([ch] + text) <= 1 && (f <==> Dots([ch] + text) == 1) by {
      NumberScanDots(program, next, false);
      DotsCons(ch, text);
    }
  }

  /** The failing half of `NumeralLiteralIsConsumedText`. */
  lemma NumeralStepFails(program: string, c: Cursor)
    requires ValidCursor(program, c) && c.pos < |program| && IsDigit(program[c.pos])
    requires NumeralStep(program, c).Fail?
    ensures NumeralStep(program, c).failure.MalformedNumberLiteral?
    ensures exists e ::
      && c.pos < e < |program| && program[e] == '.'
      && (forall i | c.pos <= i < e :: IsNumeralChar(program[i]))
      && Dots(program[c.pos..e]) == 1
  {
    var ch := program[c.pos];
    var next := Advance(program, c);
    NumberScanErr(program, next, false);
    var e := NumberScan(program, next, false).error;
    assert NumeralStep(program, c) == Fail(MalformedNumberLiteral('.', e.line, e.linePos));
    assert program[c.pos..e.pos] == [ch] + program[next.pos..e.pos];
    DotsCons(ch, program[next.pos..e.pos]);
    assert IsNumeralChar(program[c.pos]);
    assert c.pos < e.pos < |program| && program[e.pos] == '.';
  }

  /**
    * A string scan stops after the first closing quote, and its text is every character before
    * that quote; without a closing quote it runs to the end of the program.
    */
  lemma {:induction false} StringScanStopsAtQuote(program: string, c: Cursor)
    requires ValidCursor(program, c)
    ensures var (text, closed, d) := StringScan(program, c);
      && '"' !in text
      && (closed ==> c.pos < d.pos && program[d.pos - 1] == '"' && text == program[c.pos..d.pos - 1])
      && (!closed ==> d.pos == |program| && text == program[c.pos..])
    decreases |program| - c.pos
  {
    if c.pos < |program| && program[c.pos] != '"' {
      var next := Advance(program, c);
      StringScanStopsAtQuote(program, next);
      var (text, closed, d) := StringScan(program, next);
      if closed {
        assert program[c.pos..d.pos - 1] == [program[c.pos]] + program[next.pos..d.pos - 1];
      } else {
        assert program[c.pos..] == [program[c.pos]] + program[next.pos..];
      }
    }
  }

  /**
    * A string literal's value is the characters strictly between its quotes; an unterminated
    * string consumes the rest of the program and emits no token.
    */
  lemma StringLiteralBetweenQuotes(program: string, c: Cursor)
    requires ValidCursor(program, c) && c.pos < |program| && program[c.pos] == '"'
    ensures Step(program, c).Emit?
    ensures var ts, d := Step(program, c).emitted, Step(program, c).next;
      if '"' in program[c.pos + 1..] then
        && |ts| == 1 && ts[0].tokenType == StringLiteral
        && program[d.pos - 1] == '"'
        && ts[0].value == Some(program[c.pos + 1..d.pos - 1])
        && '"' !in program[c.pos + 1..d.pos - 1]
      else
        ts == [] && d.pos == |program|
  {
    var next := Advance(program, c);
    StringScanStopsAtQuote(program, next);
    var (text, closed, d) := StringScan(program, next);
    if closed {
      assert program[d.pos - 1] in program[c.pos + 1..];
    } else {
      assert program[c.pos + 1..] == text;
    }
  }

  /** An identifier scan covers exactly the maximal run of letters, digits and `_`. */
  lemma {:induction false} IdentifierScanIsMaximal(program: string, c: Cursor)
    requires ValidCursor(program, c)
    ensures var (text, d) := IdentifierScan(program, c);
      && text == program[c.pos..d.pos]
      && (forall i | c.pos <= i < d.pos :: IsIdentifierChar(program[i]))
      && (d.pos == |program| || !IsIdentifierChar(program[d.pos]))
    decreases |program| - c.pos
  {
    if c.pos < |program| && IsIdentifierChar(program[c.pos]) {
      var next := Advance(program, c);
      IdentifierScanIsMaximal(program, next);
      var (text, d) := IdentifierScan(program, next);
      assert program[c.pos..d.pos] == [program[c.pos]] + program[next.pos..d.pos];
    }
  }

  /**
    * An ASCII letter other than `l` starts a `Symbol` covering the maximal following run of
    * ASCII letters, digits and `_`.
    */
  lemma SymbolIsMaximalRun(program: string, c: Cursor)
    requires ValidCursor(program, c) && c.pos < |program|
    requires IsAsciiAlphabetic(program[c.pos]) && program[c.pos] != 'l'
    ensures Step(program, c).Emit?
    ensures var ts, d := Step(program, c).emitted, Step(program, c).next;
      && |ts| == 1 && ts[0].tokenType == Symbol
      && ts[0].value == Some(program[c.pos..d.pos])
      && (forall i | c.pos < i < d.pos :: IsIdentifierChar(program[i]))
      && (d.pos == |program| || !IsIdentifierChar(program[d.pos]))
  {
    var next := Advance(program, c);
    IdentifierScanIsMaximal(program, next);
    var (text, d) := IdentifierScan(program, next);
    assert program[c.pos..d.pos] == [program[c.pos]] + program[next.pos..d.pos];
  }

  /**
    * The `l` branch: `let` is consumed whole; an `l` among the last two characters panics on
    * `unwrap`; any other `l` consumes nothing, so the loop would never advance.
    */
  lemma LetBranch(program: string, c: Cursor)
    requires ValidCursor(program, c) && c.pos < |program| && program[c.pos] == 'l'
    ensures c.pos + 2 >= |program| ==> Step(program, c) == Fail(UnwrapPanic(c.pos))
    ensures c.pos + 2 < |program| && program[c.pos..c.pos + 3] == "let" ==>
      Step(program, c).Emit? && Step(program, c).next.pos == c.pos + 3
      && Step(program, c).emitted[0].tokenType == Declaration
    ensures c.pos + 2 < |program| && program[c.pos..c.pos + 3] != "let" ==>
      Step(program, c) == Fail(Hangs(c.pos))
  {
    if c.pos + 2 < |program| {
      assert program[c.pos..c.pos + 3] == [program[c.pos], program[c.pos + 1], program[c.pos + 2]];
    }
  }

  /** A program declaring a name that starts with `l` never finishes lexing. */
  lemma DeclaringLenHangs()
    ensures Lex("let len = 1;") == Failed(Hangs(4))
  {
    var p := "let len = 1;";
    assert |p| == 12 && p[0] == 'l' && p[1] == 'e' && p[2] == 't' && p[3] == ' ';
    assert p[4] == 'l' && p[5] == 'e' && p[6] == 'n';
    var c3 := Cursor(3, 1, 4);
    var c4 := Cursor(4, 1, 5);
    var let := Token(1, 4, 1, Declaration, None, Some("let"));
    assert Step(p, Start()) == Emit([let], c3);
    assert Step(p, c3) == Emit([], c4);
    assert Step(p, c4) == Fail(Hangs(4));
    assert LexFrom(p, c4) == Failed(Hangs(4));
    assert LexFrom(p, c3) == Failed(Hangs(4));
  }

  /** An `l` as the last character of the program makes the lexer panic. */
  lemma TrailingLPanics()
    ensures Lex("x = l") == Failed(UnwrapPanic(4))
  {
    var p := "x = l";
    assert |p| == 5 && p[0] == 'x' && p[1] == ' ' && p[2] == '=' && p[3] == ' ' && p[4] == 'l';
    assert Step(p, Start()).next == Cursor(1, 1, 2);
    assert Step(p, Cursor(1, 1, 2)).next == Cursor(2, 1, 3);
    assert Step(p, Cursor(2, 1, 3)).next == Cursor(3, 1, 4);
    assert Step(p, Cursor(3, 1, 4)).next == Cursor(4, 1, 5);
    assert LexFrom(p, Cursor(4, 1, 5)) == Failed(UnwrapPanic(4));
    assert LexFrom(p, Cursor(3, 1, 4)) == Failed(UnwrapPanic(4));
    assert LexFrom(p, Cursor(2, 1, 3)) == Failed(UnwrapPanic(4));
  }

  /** An unterminated string vanishes: the program lexes to `Eof` alone. */
  lemma UnterminatedStringVanishes()
    ensures Lex("\"abc") == Lexed([EofToken(Cursor(4, 1, 5))])
  {
    var p := "\"abc";
    assert |p| == 4 && p[0] == '"' && p[1] == 'a' && p[2] == 'b' && p[3] == 'c';
    StringLiteralBetweenQuotes(p, Start());
    assert Step(p, Start()) == Emit([], Cursor(4, 1, 5));
  }
}
