/**
  * The execution context of src/interpreter/execution_context.rs: the function-depth counter with
  * its stack of return slots, the scope arena with the current-scope pointer, and the call stack.
  * `Ctx` is the value of all of it at one moment; each operation is a member function of `Ctx`
  * giving the state after it, and the class `ExecutionContext` performs the same operations in
  * place.
  */
module ExecutionContexts {
  import opened Wrappers
  import opened Values
  import opened Scopes
  import opened RuntimeErrors
  import opened CallStacks
  import Ast

  datatype Ctx = Ctx(
    depth: nat,
    returnValues: seq<Option<Value>>,
    scopes: seq<Scope>,
    current: nat,
    frames: seq<StackFrame>)
  {
    /**
      * The invariant every operation keeps: one return slot per active function, a well-formed
      * arena, and a current scope that exists.
      */
    ghost predicate Valid() {
      && |returnValues| == depth
      && WellFormed(scopes)
      && current < |scopes|
    }

    /** `enter_function`: one level deeper, with an empty return slot on top. */
    function EnterFunction(): (c: Ctx)
      ensures c.depth == depth + 1 && c.returnValues == returnValues + [None]
      ensures c.scopes == scopes && c.current == current && c.frames == frames
      ensures Valid() ==> c.Valid()
    {
      this.(depth := depth + 1, returnValues := returnValues + [None])
    }

    /**
      * `exit_function_with_return`: at depth 0 nothing happens and there is no value; otherwise
      * the depth drops by one and the top slot is popped and returned.
      */
    function ExitFunction(): (r: (Option<Value>, Ctx))
      ensures depth == 0 ==> r == (None, this)
      ensures depth > 0 && returnValues != [] ==>
        && r.0 == returnValues[|returnValues| - 1]
        && r.1 == this.(depth := depth - 1, returnValues := returnValues[..|returnValues| - 1])
      ensures Valid() ==> r.1.Valid()
    {
      if depth == 0 then (None, this)
      else
        var c := this.(depth := depth - 1);
        if returnValues == [] then (None, c)
        else (returnValues[|returnValues| - 1], c.(returnValues := returnValues[..|returnValues| - 1]))
    }

    /** `is_in_function`. */
    predicate IsInFunction(): (b: bool)
      ensures Valid() ==> (b <==> returnValues != [])
    {
      depth > 0
    }

    /**
      * `set_return_value`: the top slot, and only it, now holds `v`. With no slot the source
      * panics; callers check `is_in_function` first.
      */
    function SetReturnValue(v: Value): (c: Ctx)
      requires returnValues != []
      ensures |c.returnValues| == |returnValues|
      ensures c.returnValues[|returnValues| - 1] == Some(v)
      ensures c.returnValues[..|returnValues| - 1] == returnValues[..|returnValues| - 1]
      ensures c.depth == depth && c.scopes == scopes && c.current == current && c.frames == frames
      ensures Valid() ==> c.Valid()
    {
      this.(returnValues := returnValues[|returnValues| - 1 := Some(v)])
    }

    /**
      * `enter_new_scope`: a fresh scope whose parent is the current one becomes current; the
      * result is the pair (old current, new scope).
      */
    function EnterNewScope(): (r: ((nat, nat), Ctx))
      ensures r.0 == (current, |scopes|)
      ensures r.1.scopes == scopes + [Scope(Some(current), map[], map[])] && r.1.current == |scopes|
      ensures r.1.depth == depth && r.1.returnValues == returnValues && r.1.frames == frames
      ensures Valid() ==> r.1.Valid()
    {
      var parent := current;
      var scopes' := scopes + [Scope(Some(parent), map[], map[])];
      NewScopeWellFormedFromCurrent(scopes, parent);
      ((parent, |scopes'| - 1), this.(scopes := scopes', current := |scopes'| - 1))
    }

    /** `restore_scope`: the current scope is exactly `id`; nothing else changes. */
    function RestoreScope(id: nat): (c: Ctx)
      ensures c.current == id
      ensures c.depth == depth && c.returnValues == returnValues && c.scopes == scopes && c.frames == frames
    {
      this.(current := id)
    }

    /** `define_variable_in_scope`: binds the name in the current scope. */
    function DefineVariable(name: string, v: Value): (c: Ctx)
      requires current < |scopes|
      ensures c.scopes == VariableDefined(scopes, current, name, v)
      ensures c.depth == depth && c.returnValues == returnValues && c.current == current && c.frames == frames
      ensures Valid() ==> c.Valid()
    {
      this.(scopes := VariableDefined(scopes, current, name, v))
    }

    /** `define_function_in_scope`: binds the function's name in the current scope. */
    function DefineFunction(name: string, def: Ast.FunctionDef): (c: Ctx)
      requires current < |scopes|
      ensures c.scopes == FunctionDefined(scopes, current, name, def)
      ensures c.depth == depth && c.returnValues == returnValues && c.current == current && c.frames == frames
      ensures Valid() ==> c.Valid()
    {
      this.(scopes := FunctionDefined(scopes, current, name, def))
    }

    /** `lookup_variable_in_scope`: the nearest binding seen from the current scope. */
    function LookupVariable(name: string): (r: Option<Value>)
      ensures r.Some? <==> Resolve(scopes, current, Variables, name).Some?
      ensures r.Some? ==> current < |scopes|
    {
      VariableLookup(scopes, current, name)
    }

    /** `lookup_function_in_scope`. */
    function LookupFunction(name: string): (r: Option<Ast.FunctionDef>)
      ensures r.Some? <==> Resolve(scopes, current, Functions, name).Some?
      ensures r.Some? ==> current < |scopes|
    {
      FunctionLookup(scopes, current, name)
    }

    /** `push_frame`. */
    function PushFrame(name: string, location: Option<nat>): (c: Ctx)
      ensures c.frames == Pushed(frames, StackFrame(name, location))
      ensures c.depth == depth && c.returnValues == returnValues && c.scopes == scopes && c.current == current
      ensures Valid() ==> c.Valid()
    {
      this.(frames := frames + [StackFrame(name, location)])
    }

    /** `pop_frame`. */
    function PopFrame(): (c: Ctx)
      ensures c.frames == Popped(frames)
      ensures c.depth == depth && c.returnValues == returnValues && c.scopes == scopes && c.current == current
      ensures Valid() ==> c.Valid()
    {
      this.(frames := Popped(frames))
    }

    /** `attach_stack`: the error with the current frames on top of its own; the context is read only. */
    function AttachStack(e: RuntimeError): (r: RuntimeError)
      ensures r.message == e.message && r.stack == e.stack + frames
    {
      Attached(frames, e)
    }
  }

  /** `ExecutionContext::new`: one root scope, current, at depth 0, with no slots and no frames. */
  function NewContext(): (c: Ctx)
    ensures c.Valid()
    ensures c.scopes == [Scope(None, map[], map[])] && c.current == 0
    ensures c.depth == 0 && c.returnValues == [] && c.frames == []
  {
    Ctx(0, [], [Scope(None, map[], map[])], 0, [])
  }

  lemma NewScopeWellFormedFromCurrent(scopes: seq<Scope>, current: nat)
    ensures WellFormed(scopes) && current < |scopes| ==> WellFormed(scopes + [Scope(Some(current), map[], map[])])
  {
    if WellFormed(scopes) && current < |scopes| {
      NewScopeWellFormed(scopes, Some(current));
    }
  }

  /** Leaving a function just entered gives back an empty return and the context before entry. */
  lemma EnterThenExit(c: Ctx)
    ensures c.EnterFunction().ExitFunction() == (None, c)
  {
    var rv := c.returnValues + [None];
    assert rv[..|rv| - 1] == c.returnValues;
  }

  /** A value stored by `return` in a function is what leaving that function yields. */
  lemma ExitYieldsStoredValue(c: Ctx, v: Value)
    ensures c.EnterFunction().SetReturnValue(v).ExitFunction() == (Some(v), c)
  {
    var rv := (c.returnValues + [None])[|c.returnValues| := Some(v)];
    assert rv[..|rv| - 1] == c.returnValues;
  }

  /** The last store wins: a second `return` value overwrites the first. */
  lemma LastReturnWins(c: Ctx, v: Value, w: Value)
    requires c.returnValues != []
    ensures c.SetReturnValue(v).SetReturnValue(w) == c.SetReturnValue(w)
  {
  }

  /** Leaving a scope entered from the current one restores the current scope and its lookups. */
  lemma EnterThenRestoreScope(c: Ctx, name: string)
    requires c.Valid()
    ensures var (ids, c') := c.EnterNewScope();
      && c'.RestoreScope(ids.0).current == c.current
      && c'.RestoreScope(ids.0).LookupVariable(name) == c.LookupVariable(name)
      && c'.RestoreScope(ids.0).LookupFunction(name) == c.LookupFunction(name)
  {
    var s := Scope(Some(c.current), map[], map[]);
    AppendKeepsResolve(c.scopes, s, c.current, Variables, name);
    AppendKeepsResolve(c.scopes, s, c.current, Functions, name);
  }

  /** A name not bound in a fresh scope resolves from it as from its parent. */
  lemma NewScopeSeesParent(c: Ctx, name: string)
    requires c.Valid()
    ensures c.EnterNewScope().1.LookupVariable(name) == c.LookupVariable(name)
    ensures c.EnterNewScope().1.LookupFunction(name) == c.LookupFunction(name)
  {
    var s := Scope(Some(c.current), map[], map[]);
    AppendKeepsResolve(c.scopes, s, c.current, Variables, name);
    AppendKeepsResolve(c.scopes, s, c.current, Functions, name);
  }

  /** The stack attached to an error is the frame stack, outermost first, after the error's own frames. */
  lemma PushedFrameAttachedLast(c: Ctx, e: RuntimeError, name: string, location: Option<nat>)
    ensures c.PushFrame(name, location).AttachStack(e).stack == e.stack + c.frames + [StackFrame(name, location)]
  {
  }

  /** The context of src/interpreter/execution_context.rs, updated in place. */
  class ExecutionContext {
    var functionDepth: nat
    var returnValues: seq<Option<Value>>
    const scopeArena: ScopeArena
    var currentScope: nat
    const callStack: CallStack

    /** The whole context as a value. */
    function Snapshot(): Ctx
      reads this, scopeArena, callStack
    {
      Ctx(functionDepth, returnValues, scopeArena.scopes, currentScope, callStack.frames)
    }

    ghost predicate Valid()
      reads this, scopeArena, callStack
    {
      Snapshot().Valid()
    }

    /** `ExecutionContext::new`. */
    constructor()
      ensures Snapshot() == NewContext() && Valid()
      ensures fresh(scopeArena) && fresh(callStack)
    {
      var arena := new ScopeArena();
      var root := arena.NewScope(None);
      var stack := new CallStack();
      functionDepth := 0;
      returnValues := [];
      scopeArena := arena;
      currentScope := root;
      callStack := stack;
    }

    method EnterFunction()
      modifies this
      ensures Snapshot() == old(Snapshot()).EnterFunction()
    {
      functionDepth := functionDepth + 1;
      returnValues := returnValues + [None];
    }

    method ExitFunctionWithReturn() returns (r: Option<Value>)
      modifies this
      ensures (r, Snapshot()) == old(Snapshot()).ExitFunction()
    {
      if functionDepth == 0 {
        return None;
      }
      functionDepth := functionDepth - 1;
      if returnValues == [] {
        return None;
      }
      r := returnValues[|returnValues| - 1];
      returnValues := returnValues[..|returnValues| - 1];
    }

    method EnterNewScope() returns (parent: nat, child: nat)
      modifies this, scopeArena
      ensures ((parent, child), Snapshot()) == old(Snapshot()).EnterNewScope()
    {
      parent := currentScope;
      child := scopeArena.NewScope(Some(parent));
      currentScope := child;
    }

    method DefineVariableInScope(name: string, v: Value)
      requires currentScope < |scopeArena.scopes|
      modifies scopeArena
      ensures Snapshot() == old(Snapshot()).DefineVariable(name, v)
    {
      scopeArena.DefineVariable(currentScope, name, v);
    }

    method DefineFunctionInScope(name: string, def: Ast.FunctionDef)
      requires currentScope < |scopeArena.scopes|
      modifies scopeArena
      ensures Snapshot() == old(Snapshot()).DefineFunction(name, def)
    {
      scopeArena.DefineFunction(currentScope, name, def);
    }

    method LookupFunctionInScope(name: string) returns (r: Option<Ast.FunctionDef>)
      requires Valid()
      ensures r == Snapshot().LookupFunction(name)
    {
      r := scopeArena.LookupFunction(currentScope, name);
    }

    method LookupVariableInScope(name: string) returns (r: Option<Value>)
      requires Valid()
      ensures r == Snapshot().LookupVariable(name)
    {
      r := scopeArena.LookupVariable(currentScope, name);
    }

    method RestoreScope(id: nat)
      modifies this
      ensures Snapshot() == old(Snapshot()).RestoreScope(id)
    {
      currentScope := id;
    }

    method IsInFunction() returns (r: bool)
      ensures r == Snapshot().IsInFunction()
    {
      r := functionDepth > 0;
    }

    method SetReturnValue(v: Value)
      requires returnValues != []
      modifies this
      ensures Snapshot() == old(Snapshot()).SetReturnValue(v)
    {
      returnValues := returnValues[|returnValues| - 1 := Some(v)];
    }

    method PushFrame(name: string, location: Option<nat>)
      modifies callStack
      ensures Snapshot() == old(Snapshot()).PushFrame(name, location)
    {
      callStack.Push(StackFrame(name, location));
    }

    method PopFrame()
      modifies callStack
      ensures Snapshot() == old(Snapshot()).PopFrame()
    {
      callStack.Pop();
    }

    method AttachStack(e: RuntimeError) returns (r: RuntimeError)
      ensures r == Snapshot().AttachStack(e)
    {
      r := callStack.AttachToError(e);
      AttachedIsUnique(callStack.frames, e, r);
    }
  }

  /** `attach_to_error`'s loop and `Attached` agree: the result is determined by message and stack. */
  lemma AttachedIsUnique(frames: seq<StackFrame>, e: RuntimeError, r: RuntimeError)
    requires r.message == e.message && r.stack == e.stack + frames
    ensures r == Attached(frames, e)
  {
  }
}
