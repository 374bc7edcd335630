/** Properties of the evaluator of src/interpreter/core.rs, proved of `Semantics`. */
module SemanticsProperties {
  import opened Wrappers
  import opened Values
  import opened Scopes
  import opened RuntimeErrors
  import opened CallStacks
  import opened ExecutionContexts
  import opened Semantics
  import Tokens
  import Lexer
  import Ast

  /**
    * A block runs in its own scope: after it completes, the scope that was current is current
    * again and every name resolves from it as before, whatever the block bound.
    */
  lemma BlockScopeIsLocal(env: Env, block: seq<Ast.Expression>, c: Ctx, fuel: nat, name: string)
    requires c.Valid()
    ensures var (r, c') := EvalBlock(env, block, c, fuel);
      r.Ok? ==>
        && c'.current == c.current
        && c'.LookupVariable(name) == c.LookupVariable(name)
        && c'.LookupFunction(name) == c.LookupFunction(name)
  {
    var (r, c') := EvalBlock(env, block, c, fuel);
    if r.Ok? {
      ExtendKeepsLookups(c.scopes, c'.scopes, c.current, name);
    }
  }

  /** The nodes that can make `evaluate` yield `Break`: a `return`, possibly wrapped, or a whole program. */
  predicate MayBreak(e: Ast.Expression) {
    match e
    case Return(_) => true
    case Program(_) => true
    case Statement(inner) => MayBreak(inner)
    case _ => false
  }

  /**
    * Only `return` breaks: every other statement, including an `if` whose branch returned,
    * yields `Continue` when it succeeds.
    */
  lemma {:induction false} OnlyReturnBreaks(env: Env, e: Ast.Expression, c: Ctx, fuel: nat)
    requires c.Valid()
    ensures Evaluate(env, e, c, fuel).0 == Ok(Break) ==> MayBreak(e)
    decreases e
  {
    match e
    case Statement(inner) =>
      assert Evaluate(env, e, c, fuel) == Evaluate(env, inner, c, fuel);
      OnlyReturnBreaks(env, inner, c, fuel);
    case Declaration(_, _) =>
      assert Evaluate(env, e, c, fuel) == EvalStatement(env, e, c, fuel);
    case FunctionCall(_, _, _) =>
      assert Evaluate(env, e, c, fuel) == EvalStatement(env, e, c, fuel);
    case _ =>
  }

  /** An `if` never stops its block, even when the branch it ran executed a `return`. */
  lemma ConditionalNeverBreaks(env: Env, cond: Ast.Expression, ifBlock: seq<Ast.Expression>, elseBlock: Ast.ElseBranch, c: Ctx, fuel: nat)
    requires c.Valid()
    ensures Evaluate(env, Ast.IfConditional(cond, ifBlock, elseBlock), c, fuel).0 != Ok(Break)
    ensures Evaluate(env, Ast.Statement(Ast.IfConditional(cond, ifBlock, elseBlock)), c, fuel).0 != Ok(Break)
  {
  }

  /** A block stops at the first statement that yields `Break`; the statements after it are not run. */
  lemma BreakSkipsRest(env: Env, first: Ast.Expression, rest: seq<Ast.Expression>, c: Ctx, fuel: nat)
    requires c.Valid()
    requires Evaluate(env, first, c, fuel).0 == Ok(Break)
    ensures EvalStatements(env, [first] + rest, c, fuel) == Evaluate(env, first, c, fuel)
  {
    assert ([first] + rest)[0] == first;
  }

  /** A block yields `Break` only when one of its statements can. */
  lemma {:induction false} BlockBreaksOnlyOnReturn(env: Env, block: seq<Ast.Expression>, c: Ctx, fuel: nat)
    requires c.Valid()
    ensures EvalStatements(env, block, c, fuel).0 == Ok(Break) ==> exists i | 0 <= i < |block| :: MayBreak(block[i])
    decreases |block|
  {
    if block != [] {
      OnlyReturnBreaks(env, block[0], c, fuel);
      var (r, c1) := Evaluate(env, block[0], c, fuel);
      if r.Ok? && r.value == Continue {
        BlockBreaksOnlyOnReturn(env, block[1..], c1, fuel);
        if EvalStatements(env, block[1..], c1, fuel).0 == Ok(Break) {
          var i :| 0 <= i < |block[1..]| && MayBreak(block[1..][i]);
          assert block[1..][i] == block[i + 1];
        }
      }
    }
  }

  /** `return` outside a function is an error carrying the frames, and changes nothing. */
  lemma ReturnOutsideFunction(env: Env, result: Ast.Expression, c: Ctx, fuel: nat)
    requires c.Valid() && c.depth == 0
    ensures Evaluate(env, Ast.Return(result), c, fuel)
         == (Err(Raised(RuntimeError("Attempting to return outside a function block", c.frames))), c)
  {
    assert [] + c.frames == c.frames;
  }

  /** `return` inside a function stores the value in the top slot, and only there, and yields `Break`. */
  lemma ReturnInsideFunction(env: Env, result: Ast.Expression, c: Ctx, fuel: nat)
    requires c.Valid() && c.depth > 0
    ensures var (r, c1) := EvalExpr(env, result, c, fuel);
      r.Ok? ==>
        && Evaluate(env, Ast.Return(result), c, fuel) == (Ok(Break), c1.SetReturnValue(r.value))
        && c1.SetReturnValue(r.value).returnValues == c.returnValues[|c.returnValues| - 1 := Some(r.value)]
  {
  }

  /**
    * `&&` short-circuits: with a falsy left operand the result is `false` and the right operand is
    * never evaluated (the context is the one the left operand left); otherwise the right operand
    * is evaluated after the left and the two are combined.
    */
  lemma AndShortCircuits(env: Env, left: Ast.Expression, right: Ast.Expression, c: Ctx, fuel: nat)
    requires c.Valid()
    ensures var (l, c1) := EvalExpr(env, left, c, fuel);
      l.Ok? ==>
        var o := EvalExpr(env, Ast.BinaryOperation(left, Tokens.Boolean(Tokens.And), right), c, fuel);
        && (!env.ops.toBool(l.value) ==> o == (Ok(Boolean(false)), c1))
        && (env.ops.toBool(l.value) ==>
              var (rv, c2) := EvalExpr(env, right, c1, fuel);
              o == (if rv.Ok? then Ok(env.ops.and(l.value, rv.value)) else rv, c2))
  {
    var e := Ast.BinaryOperation(left, Tokens.Boolean(Tokens.And), right);
    var (l, c1) := EvalExpr(env, left, c, fuel);
    if l.Ok? {
      if !env.ops.toBool(l.value) {
        assert EvalExpr(env, e, c, fuel) == (Ok(Boolean(false)), c1);
      } else {
        var (rv, c2) := EvalExpr(env, right, c1, fuel);
        assert EvalExpr(env, e, c, fuel) == (if rv.Ok? then Ok(env.ops.and(l.value, rv.value)) else rv, c2);
      }
    }
  }

  /** `||` short-circuits on a truthy left operand, with result `true`. */
  lemma OrShortCircuits(env: Env, left: Ast.Expression, right: Ast.Expression, c: Ctx, fuel: nat)
    requires c.Valid()
    ensures var (l, c1) := EvalExpr(env, left, c, fuel);
      l.Ok? ==>
        var o := EvalExpr(env, Ast.BinaryOperation(left, Tokens.Boolean(Tokens.Or), right), c, fuel);
        && (env.ops.toBool(l.value) ==> o == (Ok(Boolean(true)), c1))
        && (!env.ops.toBool(l.value) ==>
              var (rv, c2) := EvalExpr(env, right, c1, fuel);
              o == (if rv.Ok? then Ok(env.ops.or(l.value, rv.value)) else rv, c2))
  {
    var e := Ast.BinaryOperation(left, Tokens.Boolean(Tokens.Or), right);
    var (l, c1) := EvalExpr(env, left, c, fuel);
    if l.Ok? {
      if env.ops.toBool(l.value) {
        assert EvalExpr(env, e, c, fuel) == (Ok(Boolean(true)), c1);
      } else {
        var (rv, c2) := EvalExpr(env, right, c1, fuel);
        assert EvalExpr(env, e, c, fuel) == (if rv.Ok? then Ok(env.ops.or(l.value, rv.value)) else rv, c2);
      }
    }
  }

  /**
    * The class the lexer attaches to an operator character selects the value operation that
    * character names: `+` adds, `-` subtracts, `*` multiplies, `/` divides, `^` raises.
    */
  lemma LexedOperatorApplies(ops: ValueOps, ch: char)
    requires Lexer.IsOperatorChar(ch)
    ensures !Lexer.OperatorTypeOf(ch).Unary?
    ensures var f := BinaryOp(ops, Lexer.OperatorTypeOf(ch));
      && (ch == '+' ==> f == ops.add)
      && (ch == '-' ==> f == ops.sub)
      && (ch == '*' ==> f == ops.mul)
      && (ch == '/' ==> f == ops.div)
      && (ch == '^' ==> f == ops.power)
  {
  }

  /**
    * `let` evaluates its initializer before binding, so an initializer naming the variable being
    * declared reads the binding already visible, here from an outer scope: `let x = x + 1`.
    */
  lemma LetReadsOuterBinding(env: Env, name: string, one: Ast.LiteralValue, c: Ctx, fuel: nat, v: Value)
    requires c.Valid() && c.LookupVariable(name) == Some(v)
    ensures var init := Ast.BinaryOperation(Ast.Identifier(name), Tokens.Additive(Tokens.Add), Ast.Literal(one));
      var (r, c') := Evaluate(env, Ast.Declaration(name, init), c, fuel);
      && r == Ok(Continue)
      && c'.LookupVariable(name) == Some(env.ops.add(v, LiteralValue(env.ops, one)))
  {
    var init := Ast.BinaryOperation(Ast.Identifier(name), Tokens.Additive(Tokens.Add), Ast.Literal(one));
    var sum := env.ops.add(v, LiteralValue(env.ops, one));
    assert EvalExpr(env, Ast.Identifier(name), c, fuel) == (Ok(v), c);
    assert EvalExpr(env, Ast.Literal(one), c, fuel) == (Ok(LiteralValue(env.ops, one)), c);
    assert EvalExpr(env, init, c, fuel) == (Ok(sum), c);
    assert EvalAssignment(env, name, init, c, fuel) == (Ok(()), c.DefineVariable(name, sum));
    assert Evaluate(env, Ast.Declaration(name, init), c, fuel) == (Ok(Continue), c.DefineVariable(name, sum));
    DefineVisibleLocally(c.scopes, c.current, name, sum);
  }

  /** No name occurs twice. */
  predicate Distinct(names: seq<string>) {
    forall i, j | 0 <= i < j < |names| :: names[i] != names[j]
  }

  /**
    * Parameter binding: a name that is not a parameter resolves as before; with distinct
    * parameters, each resolves to the argument in its position.
    */
  lemma {:induction false} BindParamsBinds(c: Ctx, params: seq<string>, args: seq<Value>, n: string)
    requires |params| == |args| && c.current < |c.scopes|
    ensures n !in params ==> BindParams(c, params, args).LookupVariable(n) == c.LookupVariable(n)
    ensures BindParams(c, params, args).LookupFunction(n) == c.LookupFunction(n)
    ensures BindParams(c, params, args).scopes[c.current].parent == c.scopes[c.current].parent
    ensures Distinct(params) ==>
      forall i | 0 <= i < |params| && params[i] == n :: BindParams(c, params, args).LookupVariable(n) == Some(args[i])
    decreases |params|
  {
    if params != [] {
      var c1 := c.DefineVariable(params[0], args[0]);
      BindParamsBinds(c1, params[1..], args[1..], n);
      DefineOtherNameResolve(c.scopes, c.current, params[0], args[0], c.current, Functions, n);
      if n != params[0] {
        DefineOtherNameInvisible(c.scopes, c.current, params[0], args[0], c.current, n);
      }
      if Distinct(params) {
        forall i | 0 <= i < |params| && params[i] == n
          ensures BindParams(c, params, args).LookupVariable(n) == Some(args[i])
        {
          if i == 0 {
            assert n !in params[1..] by {
              forall j | 0 <= j < |params[1..]| ensures params[1..][j] != n {
                assert params[1..][j] == params[j + 1];
              }
            }
            DefineVisibleLocally(c.scopes, c.current, n, args[0]);
          } else {
            assert params[1..][i - 1] == n;
          }
        }
      }
    }
  }

  /**
    * The context a user function's body runs in: one level deeper with an empty return slot on
    * top, the call's frame pushed, a fresh scope whose parent is the caller's current scope,
    * each (distinct) parameter bound to its argument, and every other name resolving exactly as
    * at the call site. User functions are thus dynamically scoped: the body sees the caller's
    * variables and functions, not those of the scope the function was declared in.
    */
  lemma CallBodyContext(env: Env, name: string, arguments: seq<Ast.Expression>, location: nat, def: Ast.FunctionDef, c: Ctx, fuel: nat, n: string)
    requires c.Valid()
    ensures var (ar, c1) := EvalArgs(env, arguments, c, fuel);
      ar.Ok? && |def.arguments| == |ar.value| ==>
        var (ids, c2) := c1.EnterNewScope();
        var c4 := BindParams(c2, def.arguments, ar.value).PushFrame(name, Some(location)).EnterFunction();
        && ids.0 == c.current
        && c4.Valid()
        && c4.depth == c.depth + 1
        && c4.returnValues == c.returnValues + [None]
        && c4.frames == c.frames + [StackFrame(name, Some(location))]
        && c4.scopes[c4.current].parent == Some(c.current)
        && (n !in def.arguments ==> c4.LookupVariable(n) == c.LookupVariable(n))
        && c4.LookupFunction(n) == c.LookupFunction(n)
        && (Distinct(def.arguments) ==>
              forall i | 0 <= i < |def.arguments| && def.arguments[i] == n :: c4.LookupVariable(n) == Some(ar.value[i]))
  {
    var (ar, c1) := EvalArgs(env, arguments, c, fuel);
    if ar.Ok? && |def.arguments| == |ar.value| {
      var (ids, c2) := c1.EnterNewScope();
      ExtendKeepsLookups(c.scopes, c1.scopes, c.current, n);
      NewScopeSeesParent(c1, n);
      BindParamsBinds(c2, def.arguments, ar.value, n);
      assert c2.scopes[c2.current].parent == Some(c.current);
    }
  }

  /**
    * The arity is checked after the arguments are evaluated and before any scope, frame or return
    * slot is set up: the error carries the caller's frames only, and the context is the one the
    * arguments left, still in the caller's scope.
    */
  lemma ArityCheckedFirst(env: Env, name: string, arguments: seq<Ast.Expression>, location: nat, def: Ast.FunctionDef, c: Ctx, fuel: nat)
    requires c.Valid() && c.LookupFunction(name) == Some(def)
    ensures var (ar, c1) := EvalArgs(env, arguments, c, fuel);
      ar.Ok? && |def.arguments| != |ar.value| ==>
        && EvalCall(env, Ast.FunctionCall(name, arguments, location), c, fuel)
           == (Err(Raised(RuntimeError(ArityMessage(name, |def.arguments|, |arguments|), c.frames))), c1)
        && c1.current == c.current && c1.depth == c.depth && c1.frames == c.frames
  {
    assert [] + c.frames == c.frames;
  }

  /**
    * A built-in's runtime error carries the caller's frames but not the built-in's own: its frame
    * is popped before the stack is attached.
    */
  lemma BuiltinErrorOmitsOwnFrame(env: Env, name: string, arguments: seq<Ast.Expression>, location: nat, c: Ctx, fuel: nat, err: RuntimeError)
    requires c.Valid() && c.LookupFunction(name) == None
    ensures var (ar, c2) := EvalArgs(env, arguments, c.PushFrame(name, Some(location)), fuel);
      ar.Ok? && GetMethod(env.builtins, name, ar.value) == Err(Raised(err)) ==>
        EvalCall(env, Ast.FunctionCall(name, arguments, location), c, fuel)
          == (Err(Raised(RuntimeError(err.message, err.stack + c.frames))), c2.PopFrame())
        && c2.PopFrame().frames == c.frames
  {
    PopUndoesPush(c.frames, StackFrame(name, Some(location)));
  }

  /** A call of a name that is neither a user function in scope nor a built-in is an error. */
  lemma UnknownFunction(env: Env, name: string, arguments: seq<Ast.Expression>, location: nat, c: Ctx, fuel: nat)
    requires c.Valid() && c.LookupFunction(name) == None && name !in env.builtins
    ensures var (ar, c2) := EvalArgs(env, arguments, c.PushFrame(name, Some(location)), fuel);
      ar.Ok? ==>
        EvalCall(env, Ast.FunctionCall(name, arguments, location), c, fuel)
          == (Err(Raised(RuntimeError("Method not found: " + name, c.frames))), c2.PopFrame())
  {
    PopUndoesPush(c.frames, StackFrame(name, Some(location)));
    assert [] + c.frames == c.frames;
  }

  /** A statement with no `return` anywhere in its blocks (calls may return inside their own bodies). */
  predicate ReturnFree(e: Ast.Expression)
    decreases e
  {
    match e
    case Return(_) => false
    case Program(body) => BlockReturnFree(body)
    case Statement(inner) => ReturnFree(inner)
    case IfConditional(_, ifBlock, elseBlock) =>
      BlockReturnFree(ifBlock) && (elseBlock.Else? ==> BlockReturnFree(elseBlock.block))
    case _ => true
  }

  predicate BlockReturnFree(block: seq<Ast.Expression>)
    decreases block
  {
    forall i | 0 <= i < |block| :: ReturnFree(block[i])
  }

  /** A statement without `return` that succeeds leaves every return slot as it was. */
  lemma {:induction false} ReturnFreeKeepsSlots(env: Env, e: Ast.Expression, c: Ctx, fuel: nat)
    requires c.Valid() && ReturnFree(e)
    ensures var (r, c') := Evaluate(env, e, c, fuel); r.Ok? ==> c'.returnValues == c.returnValues
    decreases Size(e), 3
  {
    match e
    case Program(body) =>
      BlockReturnFreeKeepsSlots(env, body, c, fuel);
    case Statement(inner) =>
      assert Evaluate(env, e, c, fuel) == Evaluate(env, inner, c, fuel);
      ReturnFreeKeepsSlots(env, inner, c, fuel);
    case IfConditional(cond, ifBlock, elseBlock) =>
      ConditionalKeepsSlots(env, cond, ifBlock, elseBlock, c, fuel);
    case Declaration(name, init) =>
      assert Evaluate(env, e, c, fuel).1 == EvalAssignment(env, name, init, c, fuel).1;
    case FunctionCall(_, _, _) =>
      assert Evaluate(env, e, c, fuel) == EvalStatement(env, e, c, fuel);
    case _ =>
  }

  lemma {:induction false} ConditionalKeepsSlots(env: Env, cond: Ast.Expression, ifBlock: seq<Ast.Expression>, elseBlock: Ast.ElseBranch, c: Ctx, fuel: nat)
    requires c.Valid() && BlockReturnFree(ifBlock) && (elseBlock.Else? ==> BlockReturnFree(elseBlock.block))
    ensures var (r, c') := EvalConditional(env, cond, ifBlock, elseBlock, c, fuel); r.Ok? ==> c'.returnValues == c.returnValues
    decreases Size(cond) + SizeBlock(ifBlock) + SizeElse(elseBlock), 2
  {
    var (r, c1) := EvalExpr(env, cond, c, fuel);
    if r.Ok? {
      if env.ops.toBool(r.value) {
        BlockReturnFreeKeepsSlots(env, ifBlock, c1, fuel);
      } else if elseBlock.Else? {
        BlockReturnFreeKeepsSlots(env, elseBlock.block, c1, fuel);
      }
    }
  }

  lemma {:induction false} BlockReturnFreeKeepsSlots(env: Env, block: seq<Ast.Expression>, c: Ctx, fuel: nat)
    requires c.Valid() && BlockReturnFree(block)
    ensures var (r, c') := EvalBlock(env, block, c, fuel); r.Ok? ==> c'.returnValues == c.returnValues
    decreases SizeBlock(block), 1
  {
    var (ids, c1) := c.EnterNewScope();
    StatementsReturnFreeKeepSlots(env, block, c1, fuel);
  }

  lemma {:induction false} StatementsReturnFreeKeepSlots(env: Env, block: seq<Ast.Expression>, c: Ctx, fuel: nat)
    requires c.Valid() && BlockReturnFree(block)
    ensures var (r, c') := EvalStatements(env, block, c, fuel); r.Ok? ==> c'.returnValues == c.returnValues
    decreases SizeBlock(block), 0
  {
    if block != [] {
      ElementSmaller(block, 0);
      ReturnFreeKeepsSlots(env, block[0], c, fuel);
      var (r, c1) := Evaluate(env, block[0], c, fuel);
      if r.Ok? && r.value == Continue {
        assert BlockReturnFree(block[1..]) by {
          forall i | 0 <= i < |block[1..]| ensures ReturnFree(block[1..][i]) {
            assert block[1..][i] == block[i + 1];
          }
        }
        StatementsReturnFreeKeepSlots(env, block[1..], c1, fuel);
      }
    }
  }

  /**
    * A user function whose body has no `return` yields `Integer(0)`, and the call leaves the
    * caller's return slots, frames and current scope as they were.
    */
  lemma FunctionWithoutReturnYieldsZero(env: Env, name: string, arguments: seq<Ast.Expression>, location: nat, def: Ast.FunctionDef, c: Ctx, fuel: nat)
    requires c.Valid() && c.LookupFunction(name) == Some(def) && BlockReturnFree(def.block)
    ensures var (r, c') := EvalCall(env, Ast.FunctionCall(name, arguments, location), c, fuel);
      r.Ok? ==>
        && r.value == Integer(0)
        && c'.returnValues == c.returnValues && c'.frames == c.frames && c'.current == c.current
  {
    var e := Ast.FunctionCall(name, arguments, location);
    var (ar, c1) := EvalArgs(env, arguments, c, fuel);
    if ar.Ok? {
      assert EvalCall(env, e, c, fuel) == InvokeUser(env, e, def, ar.value, c1, fuel);
      InvokeWithoutReturnYieldsZero(env, e, def, ar.value, c1, fuel);
    }
  }

  /** The invocation step of `FunctionWithoutReturnYieldsZero`, on evaluated arguments. */
  lemma InvokeWithoutReturnYieldsZero(env: Env, e: Ast.Expression, def: Ast.FunctionDef, args: seq<Value>, c: Ctx, fuel: nat)
    requires c.Valid() && e.FunctionCall? && BlockReturnFree(def.block)
    ensures var (r, c') := InvokeUser(env, e, def, args, c, fuel);
      r.Ok? ==>
        && r.value == Integer(0)
        && c'.returnValues == c.returnValues && c'.frames == c.frames && c'.current == c.current
  {
    var frame := StackFrame(e.callee, Some(e.location));
    if |def.arguments| == |args| && fuel > 0 {
      var (ids, c2) := c.EnterNewScope();
      var c4 := BindParams(c2, def.arguments, args).PushFrame(e.callee, Some(e.location)).EnterFunction();
      assert c4.Valid() && c4.returnValues == c.returnValues + [None] && c4.depth == c.depth + 1;
      assert c4.frames == Pushed(c.frames, frame);
      BlockReturnFreeKeepsSlots(env, def.block, c4, fuel - 1);
      var (br, c5) := EvalBlock(env, def.block, c4, fuel - 1);
      if br.Ok? {
        assert c5.depth == c4.depth && c5.frames == c4.frames;
        var (slot, c6) := c5.ExitFunction();
        assert slot == None && c6.returnValues == c.returnValues;
        PopUndoesPush(c.frames, frame);
        assert InvokeUser(env, e, def, args, c, fuel) == (Ok(Integer(0)), c6.PopFrame().RestoreScope(ids.0));
      }
    }
  }

  /**
    * A `return` inside an `if` does not leave the function: the `if` drops the branch's `Break`,
    * the statements after it run, and a later `return` overwrites the stored value. In
    * `if (true) { return a; } return b;` the function's value is `b`.
    */
  lemma ReturnInsideIfDoesNotStop(env: Env, cond: Ast.LiteralValue, a: Ast.LiteralValue, b: Ast.LiteralValue, c: Ctx, fuel: nat)
    requires c.Valid() && c.depth > 0
    requires env.ops.toBool(LiteralValue(env.ops, cond))
    ensures var body := [Ast.IfConditional(Ast.Literal(cond), [Ast.Return(Ast.Literal(a))], Ast.NoElse), Ast.Return(Ast.Literal(b))];
      var (r, c') := EvalStatements(env, body, c, fuel);
      && r == Ok(Break)
      && c'.returnValues == c.returnValues[|c.returnValues| - 1 := Some(LiteralValue(env.ops, b))]
  {
    var va := LiteralValue(env.ops, a);
    var vb := LiteralValue(env.ops, b);
    var ifNode := Ast.IfConditional(Ast.Literal(cond), [Ast.Return(Ast.Literal(a))], Ast.NoElse);
    var body := [ifNode, Ast.Return(Ast.Literal(b))];
    var (ids, c1) := c.EnterNewScope();
    assert EvalExpr(env, Ast.Literal(a), c1, fuel) == (Ok(va), c1);
    assert EvalReturn(env, Ast.Return(Ast.Literal(a)), c1, fuel) == (Ok(()), c1.SetReturnValue(va));
    assert Evaluate(env, Ast.Return(Ast.Literal(a)), c1, fuel) == (Ok(Break), c1.SetReturnValue(va));
    assert EvalStatements(env, [Ast.Return(Ast.Literal(a))], c1, fuel) == (Ok(Break), c1.SetReturnValue(va));
    var c2 := c1.SetReturnValue(va).RestoreScope(c.current);
    assert EvalBlock(env, [Ast.Return(Ast.Literal(a))], c, fuel) == (Ok(Break), c2);
    assert EvalExpr(env, Ast.Literal(cond), c, fuel) == (Ok(LiteralValue(env.ops, cond)), c);
    assert EvalConditional(env, Ast.Literal(cond), [Ast.Return(Ast.Literal(a))], Ast.NoElse, c, fuel) == (Ok(()), c2);
    assert Evaluate(env, ifNode, c, fuel) == (Ok(Continue), c2);
    assert c2.Valid() && c2.depth > 0;
    assert EvalExpr(env, Ast.Literal(b), c2, fuel) == (Ok(vb), c2);
    assert EvalReturn(env, Ast.Return(Ast.Literal(b)), c2, fuel) == (Ok(()), c2.SetReturnValue(vb));
    assert Evaluate(env, Ast.Return(Ast.Literal(b)), c2, fuel) == (Ok(Break), c2.SetReturnValue(vb));
    assert body[1..] == [Ast.Return(Ast.Literal(b))];
    assert EvalStatements(env, body[1..], c2, fuel) == (Ok(Break), c2.SetReturnValue(vb));
    assert EvalStatements(env, body, c, fuel) == (Ok(Break), c2.SetReturnValue(vb));
  }

  /**
    * Dynamic scoping, end to end: a parameterless function whose body is `return x;` yields the
    * value `x` has at the call site, whichever scope the function was declared in.
    */
  lemma CalleeSeesCallerVariable(env: Env, name: string, location: nat, def: Ast.FunctionDef, x: string, v: Value, c: Ctx, fuel: nat)
    requires c.Valid() && c.LookupFunction(name) == Some(def) && c.LookupVariable(x) == Some(v)
    requires def.arguments == [] && def.block == [Ast.Return(Ast.Identifier(x))]
    requires fuel > 0
    ensures var (r, c') := EvalCall(env, Ast.FunctionCall(name, [], location), c, fuel);
      r == Ok(v) && c'.returnValues == c.returnValues && c'.frames == c.frames && c'.current == c.current
  {
    var e := Ast.FunctionCall(name, [], location);
    assert EvalArgs(env, [], c, fuel) == (Ok([]), c);
    assert EvalCall(env, e, c, fuel) == InvokeUser(env, e, def, [], c, fuel);
    CallBodyContext(env, name, [], location, def, c, fuel, x);
    InvokeSeesCallerVariable(env, e, def, x, v, c, fuel);
  }

  /** The invocation step of `CalleeSeesCallerVariable`, once the body's context sees `x`. */
  lemma InvokeSeesCallerVariable(env: Env, e: Ast.Expression, def: Ast.FunctionDef, x: string, v: Value, c: Ctx, fuel: nat)
    requires c.Valid() && e.FunctionCall? && fuel > 0
    requires def.arguments == [] && def.block == [Ast.Return(Ast.Identifier(x))]
    requires var (_, c2) := c.EnterNewScope();
      BindParams(c2, [], []).PushFrame(e.callee, Some(e.location)).EnterFunction().LookupVariable(x) == Some(v)
    ensures var (r, c') := InvokeUser(env, e, def, [], c, fuel);
      r == Ok(v) && c'.returnValues == c.returnValues && c'.frames == c.frames && c'.current == c.current
  {
    var frame := StackFrame(e.callee, Some(e.location));
    var (ids, c2) := c.EnterNewScope();
    var c4 := BindParams(c2, [], []).PushFrame(e.callee, Some(e.location)).EnterFunction();
    assert c4.Valid() && c4.returnValues == c.returnValues + [None] && c4.depth == c.depth + 1;
    assert c4.frames == Pushed(c.frames, frame);
    var (ids', c5) := c4.EnterNewScope();
    NewScopeSeesParent(c4, x);
    assert EvalExpr(env, Ast.Identifier(x), c5, fuel - 1) == (Ok(v), c5);
    assert Evaluate(env, Ast.Return(Ast.Identifier(x)), c5, fuel - 1) == (Ok(Break), c5.SetReturnValue(v));
    assert EvalStatements(env, def.block, c5, fuel - 1) == (Ok(Break), c5.SetReturnValue(v));
    var c6 := c5.SetReturnValue(v).RestoreScope(c4.current);
    assert EvalBlock(env, def.block, c4, fuel - 1) == (Ok(Break), c6);
    var (slot, c7) := c6.ExitFunction();
    assert slot == Some(v) && c7.returnValues == c.returnValues;
    PopUndoesPush(c.frames, frame);
    assert InvokeUser(env, e, def, [], c, fuel) == (Ok(v), c7.PopFrame().RestoreScope(c.current));
  }
}
