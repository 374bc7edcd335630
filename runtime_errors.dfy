/**
  * Runtime errors of src/interpreter/runtime_errors.rs together with the stack frames of
  * src/interpreter/call_stack.rs they carry, and the text an error is displayed as.
  */
module RuntimeErrors {
  import opened Wrappers

  /** A frame of the call stack: the function's name and, for a user call, the source line of the call. */
  datatype StackFrame = StackFrame(functionName: string, location: Option<nat>)

  /** An error message and the frames attached to it, innermost last. */
  datatype RuntimeError = RuntimeError(message: string, stack: seq<StackFrame>)

  /**
    * How an evaluation can end without a value: a `RuntimeError` returned through `Err`, a Rust
    * panic (an `unwrap` on `None`, `unreachable!`, an explicit `panic!`), or, in this model only,
    * running out of the fuel that bounds user-function calls.
    */
  datatype Fault = Raised(error: RuntimeError) | Panicked(reason: string) | OutOfFuel

  /** `RuntimeError::new`: a message with no frames. */
  function NewError(message: string): (e: RuntimeError)
    ensures e.message == message && e.stack == []
  {
    RuntimeError(message, [])
  }

  /** `with_frame`: the frame goes on top of the error's stack; the message stays. */
  function WithFrame(e: RuntimeError, frame: StackFrame): (r: RuntimeError)
    ensures r.message == e.message && r.stack == e.stack + [frame]
  {
    e.(stack := e.stack + [frame])
  }

  predicate IsDigit(c: char) {
    '0' <= c <= '9'
  }

  function DigitValue(c: char): (d: nat)
    requires IsDigit(c)
    ensures d < 10
  {
    c as int - '0' as int
  }

  /** The decimal text of a location, as `usize::to_string` writes it: no sign, no leading zeros. */
  function DecimalText(n: nat): (s: string)
    ensures |s| > 0 && forall i | 0 <= i < |s| :: IsDigit(s[i])
    ensures |s| > 1 ==> s[0] != '0'
    decreases n
  {
    var d := [(('0' as int) + n % 10) as char];
    if n < 10 then d else DecimalText(n / 10) + d
  }

  /** Reads a run of decimal digits back as a number. */
  function DecimalValue(s: string): nat
    requires forall i | 0 <= i < |s| :: IsDigit(s[i])
  {
    if s == [] then 0 else 10 * DecimalValue(s[..|s| - 1]) + DigitValue(s[|s| - 1])
  }

  /** A location's text denotes that location, so distinct locations are displayed differently. */
  lemma {:induction false} DecimalTextRoundTrip(n: nat)
    ensures DecimalValue(DecimalText(n)) == n
    decreases n
  {
    var s := DecimalText(n);
    if n >= 10 {
      DecimalTextRoundTrip(n / 10);
      assert s[..|s| - 1] == DecimalText(n / 10);
    }
  }

  /** The text a frame's location is displayed as: its number, or `?` for a frame without one. */
  function LocationText(location: Option<nat>): (s: string)
    ensures location.None? <==> s == "?"
    ensures location.Some? ==> (forall i | 0 <= i < |s| :: IsDigit(s[i])) && DecimalValue(s) == location.value
  {
    match location
    case None => "?"
    case Some(n) =>
      DecimalTextRoundTrip(n);
      DecimalText(n)
  }

  /** One line of the displayed call stack. */
  function FrameLine(frame: StackFrame): (line: string)
    ensures |line| > 5 && line[..5] == "  at " && line[|line| - 1] == '\n'
  {
    "  at " + frame.functionName + " (" + LocationText(frame.location) + ")\n"
  }

  /** The displayed frames, innermost (last pushed) first. */
  function FramesText(stack: seq<StackFrame>): (text: string)
    ensures text == "" <==> stack == []
    ensures stack != [] ==> text[|text| - 1] == '\n'
    decreases |stack|
  {
    if stack == [] then "" else FrameLine(stack[|stack| - 1]) + FramesText(stack[..|stack| - 1])
  }

  /** `Display for RuntimeError`. */
  function Render(e: RuntimeError): (text: string)
    ensures |text| > 0 && text[|text| - 1] == '\n'
  {
    "Runtime Error: " + e.message + "\n" + (if e.stack == [] then "" else "Call stack:\n" + FramesText(e.stack))
  }

  /** Regrouping a concatenation of four texts. */
  lemma ConcatRegroup(a: string, b: string, c: string, d: string)
    ensures a + (b + (c + d)) == a + b + c + d
  {
  }

  /** Attaching a frame adds exactly that frame's line at the top of the displayed stack. */
  lemma WithFrameShowsFirst(e: RuntimeError, frame: StackFrame)
    ensures Render(WithFrame(e, frame))
         == "Runtime Error: " + e.message + "\n" + "Call stack:\n" + FrameLine(frame) + FramesText(e.stack)
  {
    var r := WithFrame(e, frame);
    assert r.stack[..|r.stack| - 1] == e.stack;
    var line, rest := FrameLine(frame), FramesText(e.stack);
    assert FramesText(r.stack) == line + rest;
    ConcatRegroup("Runtime Error: " + e.message + "\n", "Call stack:\n", line, rest);
  }

  /** The displayed frames list the stack in reverse: the outermost frame comes last. */
  lemma {:induction false} FramesTextOutermostLast(frame: StackFrame, stack: seq<StackFrame>)
    ensures FramesText([frame] + stack) == FramesText(stack) + FrameLine(frame)
    decreases |stack|
  {
    var s := [frame] + stack;
    if stack != [] {
      assert s[..|s| - 1] == [frame] + stack[..|stack| - 1];
      FramesTextOutermostLast(frame, stack[..|stack| - 1]);
    }
  }

  /** The display opens with the message line, whatever the stack. */
  lemma RenderStartsWithMessage(e: RuntimeError)
    ensures var head := "Runtime Error: " + e.message + "\n";
      |head| <= |Render(e)| && Render(e)[..|head|] == head
  {
  }

  /** A call-stack section follows the message line exactly when the error carries frames. */
  lemma RenderHasStackSectionIff(e: RuntimeError)
    ensures var head := "Runtime Error: " + e.message + "\n";
      && (|Render(e)| > |head| <==> e.stack != [])
      && (e.stack != [] ==> Render(e)[|head|..|head| + 12] == "Call stack:\n")
  {
    var head := "Runtime Error: " + e.message + "\n";
    if e.stack != [] {
      var rest := "Call stack:\n" + FramesText(e.stack);
      assert Render(e) == head + rest;
      assert Render(e)[|head|..|head| + 12] == rest[..12];
    }
  }

  /** An error without frames is displayed as its message line alone. */
  lemma RenderWithoutStack(message: string)
    ensures Render(NewError(message)) == "Runtime Error: " + message + "\n"
  {
  }
}
