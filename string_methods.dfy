/** The string built-ins of src/interpreter/methods/string.rs. */
module StringMethods {
  import opened Wrappers
  import opened Values
  import opened RuntimeErrors

  /** The textual forms of the arguments, in argument order. */
  function ConcatText(ops: ValueOps, args: seq<Value>): (text: string)
    ensures args == [] ==> text == ""
    ensures |args| == 1 ==> text == ops.toText(args[0])
    decreases |args|
  {
    if args == [] then "" else ConcatText(ops, args[..|args| - 1]) + ops.toText(args[|args| - 1])
  }

  /** Concatenating over two argument lists is concatenating their texts. */
  lemma {:induction false} ConcatTextAppend(ops: ValueOps, a: seq<Value>, b: seq<Value>)
    ensures ConcatText(ops, a + b) == ConcatText(ops, a) + ConcatText(ops, b)
    decreases |b|
  {
    if b == [] {
      assert a + b == a;
    } else {
      var b' := b[..|b| - 1];
      assert (a + b)[..|a + b| - 1] == a + b';
      ConcatTextAppend(ops, a, b');
    }
  }

  /** Each argument contributes its text, in order: the result is the texts laid end to end. */
  lemma {:induction false} ConcatTextOneByOne(ops: ValueOps, args: seq<Value>, i: nat)
    requires i < |args|
    ensures ConcatText(ops, args) == ConcatText(ops, args[..i]) + ops.toText(args[i]) + ConcatText(ops, args[i + 1..])
  {
    assert args == args[..i] + [args[i]] + args[i + 1..];
    ConcatTextAppend(ops, args[..i] + [args[i]], args[i + 1..]);
    ConcatTextAppend(ops, args[..i], [args[i]]);
    assert ConcatText(ops, [args[i]]) == ConcatText(ops, []) + ops.toText(args[i]);
  }

  /** The length of the concatenation is the sum of the lengths of the texts. */
  function TextLengths(ops: ValueOps, args: seq<Value>): nat
    decreases |args|
  {
    if args == [] then 0 else TextLengths(ops, args[..|args| - 1]) + |ops.toText(args[|args| - 1])|
  }

  lemma {:induction false} ConcatTextLength(ops: ValueOps, args: seq<Value>)
    ensures |ConcatText(ops, args)| == TextLengths(ops, args)
    decreases |args|
  {
    if args != [] {
      ConcatTextLength(ops, args[..|args| - 1]);
    }
  }

  /**
    * `fn_str_concat`: always a string, made of the arguments' textual forms in order, and the empty
    * string for no arguments. The conversion `String::convert(...).unwrap()` is taken to give back
    * the text unchanged.
    */
  method StrConcat(ops: ValueOps, args: seq<Value>) returns (r: Value)
    ensures r.String? && r.s == ConcatText(ops, args)
    ensures args == [] ==> r == String("")
  {
    var text := "";
    for i := 0 to |args|
      invariant text == ConcatText(ops, args[..i])
    {
      assert args[..i + 1][..i] == args[..i];
      text := text + ops.toText(args[i]);
    }
    assert args[..|args|] == args;
    return String(text);
  }

  /** `fn_to_number`: converts the first argument, ignoring the rest; with none, `unwrap` panics. */
  function ToNumber(ops: ValueOps, args: seq<Value>): (r: Result<Value, Fault>)
    ensures args == [] <==> r.Err?
    ensures r.Err? ==> r.error.Panicked?
    ensures args != [] ==> r == Ok(ops.convertToNumber(args[0]))
  {
    if args == [] then Err(Panicked("called `Option::unwrap()` on a `None` value"))
    else Ok(ops.convertToNumber(args[0]))
  }

  /** Only the first argument matters to `to_number`. */
  lemma ToNumberReadsFirstOnly(ops: ValueOps, v: Value, rest: seq<Value>, rest': seq<Value>)
    ensures ToNumber(ops, [v] + rest) == ToNumber(ops, [v] + rest')
  {
  }
}
