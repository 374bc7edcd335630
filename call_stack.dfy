/** The call stack of src/interpreter/call_stack.rs. */
module CallStacks {
  import opened RuntimeErrors

  /** The frames after `push`. */
  function Pushed(frames: seq<StackFrame>, frame: StackFrame): (r: seq<StackFrame>)
    ensures |r| == |frames| + 1 && r[|frames|] == frame && r[..|frames|] == frames
  {
    frames + [frame]
  }

  /** The frames after `pop`: the top one goes; popping an empty stack leaves it empty. */
  function Popped(frames: seq<StackFrame>): (r: seq<StackFrame>)
    ensures frames == [] ==> r == []
    ensures frames != [] ==> |r| == |frames| - 1 && frames == r + [frames[|frames| - 1]]
  {
    if frames == [] then [] else frames[..|frames| - 1]
  }

  /** A pop undoes the push before it, so a call leaves the stack as it found it. */
  lemma PopUndoesPush(frames: seq<StackFrame>, frame: StackFrame)
    ensures Popped(Pushed(frames, frame)) == frames
  {
  }

  /** The error after `attach_to_error`: every frame, outermost first, added on top of its own. */
  function Attached(frames: seq<StackFrame>, e: RuntimeError): (r: RuntimeError)
    ensures r.message == e.message && r.stack == e.stack + frames
    decreases |frames|
  {
    if frames == [] then e else WithFrame(Attached(frames[..|frames| - 1], e), frames[|frames| - 1])
  }

  /** Attaching the stack once to a fresh error displays the frames innermost first. */
  lemma AttachedRender(frames: seq<StackFrame>, message: string)
    requires frames != []
    ensures Render(Attached(frames, NewError(message)))
         == "Runtime Error: " + message + "\n" + "Call stack:\n" + FramesText(frames)
  {
    var r := Attached(frames, NewError(message));
    assert r.stack == frames by {
      assert [] + frames == frames;
    }
    var head, rest := "Runtime Error: " + message + "\n", FramesText(frames);
    assert Render(r) == head + ("Call stack:\n" + rest);
    assert head + ("Call stack:\n" + rest) == head + "Call stack:\n" + rest;
  }

  class CallStack {
    var frames: seq<StackFrame>

    /** `CallStack::new`: no frames. */
    constructor()
      ensures frames == []
    {
      frames := [];
    }

    /** `push`. */
    method Push(frame: StackFrame)
      modifies this
      ensures frames == Pushed(old(frames), frame)
    {
      frames := frames + [frame];
    }

    /** `pop`. */
    method Pop()
      modifies this
      ensures frames == Popped(old(frames))
    {
      if frames != [] {
        frames := frames[..|frames| - 1];
      }
    }

    /** `attach_to_error`: adds every frame, from the outermost, to the error's stack. */
    method AttachToError(e: RuntimeError) returns (r: RuntimeError)
      ensures r.message == e.message && r.stack == e.stack + frames
    {
      r := e;
      for i := 0 to |frames|
        invariant r.message == e.message && r.stack == e.stack + frames[..i]
      {
        r := WithFrame(r, frames[i]);
        assert frames[..i + 1] == frames[..i] + [frames[i]];
      }
      assert frames[..|frames|] == frames;
    }
  }
}
