/**
  * The `Interpreter` of src/interpreter/core.rs, which evaluates a syntax tree by updating its
  * execution context in place. Every method leaves the context, and returns the outcome, that the
  * function of the same name in `Semantics` gives for the context it started from.
  */
module Interpreters {
  import opened Wrappers
  import opened Values
  import opened RuntimeErrors
  import opened ExecutionContexts
  import Tokens
  import Ast
  import Sem = Semantics

  class Interpreter {
    const ctx: ExecutionContext
    const env: Sem.Env

    /** `Interpreter::new`: a fresh context. */
    constructor(env: Sem.Env)
      ensures this.env == env && ctx.Snapshot() == NewContext() && ctx.Valid()
      ensures fresh(ctx) && fresh(ctx.scopeArena) && fresh(ctx.callStack)
    {
      this.env := env;
      ctx := new ExecutionContext();
    }

    /** `run` */
    method Run(node: Option<Ast.Expression>, fuel: nat) returns (r: Result<(), Fault>)
      requires ctx.Valid()
      modifies ctx, ctx.scopeArena, ctx.callStack
      ensures (r, ctx.Snapshot()) == Sem.Run(env, node, old(ctx.Snapshot()), fuel)
    {
      if node.None? {
        return Ok(());
      }
      var flow := Evaluate(node.value, fuel);
      if flow.Err? {
        return Err(flow.error);
      }
      return Ok(());
    }

    /** `evaluate` */
    method Evaluate(e: Ast.Expression, fuel: nat) returns (r: Result<Sem.Flow, Fault>)
      requires ctx.Valid()
      modifies ctx, ctx.scopeArena, ctx.callStack
      ensures (r, ctx.Snapshot()) == Sem.Evaluate(env, e, old(ctx.Snapshot()), fuel)
      decreases fuel, Sem.Size(e), 5
    {
      match e {
        case Program(body) =>
          r := EvaluateProgram(body, fuel);
        case BinaryOperation(_, _, _) =>
          var v := EvaluateExpression(e, fuel);
          r := if v.Ok? then Ok(Sem.Continue) else Err(v.error);
        case Statement(_) =>
          r := EvaluateStatement(e, fuel);
        case Declaration(_, _) =>
          r := EvaluateStatement(e, fuel);
        case FunctionCall(_, _, _) =>
          r := EvaluateStatement(e, fuel);
        case IfConditional(cond, ifBlock, elseBlock) =>
          var done := EvaluateConditional(cond, ifBlock, elseBlock, fuel);
          r := if done.Ok? then Ok(Sem.Continue) else Err(done.error);
        case Return(_) =>
          var done := EvaluateReturn(e, fuel);
          r := if done.Ok? then Ok(Sem.Break) else Err(done.error);
        case FunctionDeclaration(def) =>
          EvaluateFunctionDefinition(def);
          r := Ok(Sem.Continue);
        case Identifier(_) =>
          r := Err(Panicked("Unexpected AST node"));
        case Literal(_) =>
          r := Err(Panicked("Unexpected AST node"));
        case UnaryOperation(_, _) =>
          r := Err(Panicked("Unexpected AST node"));
      }
    }

    /** `evaluate_program` */
    method EvaluateProgram(body: seq<Ast.Expression>, fuel: nat) returns (r: Result<Sem.Flow, Fault>)
      requires ctx.Valid()
      modifies ctx, ctx.scopeArena, ctx.callStack
      ensures (r, ctx.Snapshot()) == Sem.EvalProgram(env, body, old(ctx.Snapshot()), fuel)
      decreases fuel, Sem.SizeBlock(body), 3
    {
      r := EvaluateBlock(body, fuel);
    }

    /** `evaluate_return` */
    method EvaluateReturn(e: Ast.Expression, fuel: nat) returns (r: Result<(), Fault>)
      requires ctx.Valid()
      modifies ctx, ctx.scopeArena, ctx.callStack
      ensures (r, ctx.Snapshot()) == Sem.EvalReturn(env, e, old(ctx.Snapshot()), fuel)
      decreases fuel, Sem.Size(e), 4
    {
      var inFunction := ctx.IsInFunction();
      if !inFunction {
        var err := ErrorWithStack("Attempting to return outside a function block");
        return Err(err);
      }
      if e.Return? {
        var v := EvaluateExpression(e.result, fuel);
        if v.Err? {
          return Err(v.error);
        }
        ctx.SetReturnValue(v.value);
        return Ok(());
      } else {
        var err := ErrorWithStack("Expected a return expression");
        return Err(err);
      }
    }

    /** `evaluate_block` */
    method EvaluateBlock(block: seq<Ast.Expression>, fuel: nat) returns (r: Result<Sem.Flow, Fault>)
      requires ctx.Valid()
      modifies ctx, ctx.scopeArena, ctx.callStack
      ensures (r, ctx.Snapshot()) == Sem.EvalBlock(env, block, old(ctx.Snapshot()), fuel)
      decreases fuel, Sem.SizeBlock(block), 2
    {
      var parent, child := ctx.EnterNewScope();
      ghost var entered := ctx.Snapshot();
      var breakInvoked := false;
      var i := 0;
      while i < |block|
        invariant 0 <= i <= |block| && ctx.Valid()
        invariant Sem.EvalStatements(env, block, entered, fuel) == Sem.EvalStatements(env, block[i..], ctx.Snapshot(), fuel)
        decreases |block| - i
      {
        assert block[i..][0] == block[i] && block[i..][1..] == block[i + 1..];
        Sem.ElementSmaller(block, i);
        var flow := Evaluate(block[i], fuel);
        if flow.Err? {
          return Err(flow.error);
        }
        if flow.value == Sem.Break {
          breakInvoked := true;
          break;
        }
        i := i + 1;
      }
      ctx.RestoreScope(parent);
      return Ok(if breakInvoked then Sem.Break else Sem.Continue);
    }

    /** `evaluate_statement` */
    method EvaluateStatement(e: Ast.Expression, fuel: nat) returns (r: Result<Sem.Flow, Fault>)
      requires ctx.Valid()
      modifies ctx, ctx.scopeArena, ctx.callStack
      ensures (r, ctx.Snapshot()) == Sem.EvalStatement(env, e, old(ctx.Snapshot()), fuel)
      decreases fuel, Sem.Size(e), 4
    {
      if e.Statement? {
        r := Evaluate(e.inner, fuel);
      } else if e.Declaration? {
        var done := EvaluateAssignment(e.name, e.init, fuel);
        r := if done.Ok? then Ok(Sem.Continue) else Err(done.error);
      } else if e.FunctionCall? {
        var v := EvaluateFunctionCall(e, fuel);
        r := if v.Ok? then Ok(Sem.Continue) else Err(v.error);
      } else {
        var err := ErrorWithStack("Unexpected AST node");
        r := Err(err);
      }
    }

    /** `evaluate_conditional` */
    method EvaluateConditional(cond: Ast.Expression, ifBlock: seq<Ast.Expression>, elseBlock: Ast.ElseBranch, fuel: nat)
      returns (r: Result<(), Fault>)
      requires ctx.Valid()
      modifies ctx, ctx.scopeArena, ctx.callStack
      ensures (r, ctx.Snapshot()) == Sem.EvalConditional(env, cond, ifBlock, elseBlock, old(ctx.Snapshot()), fuel)
      decreases fuel, Sem.Size(cond) + Sem.SizeBlock(ifBlock) + Sem.SizeElse(elseBlock), 4
    {
      var v := EvaluateExpression(cond, fuel);
      if v.Err? {
        return Err(v.error);
      }
      if env.ops.toBool(v.value) {
        var flow := EvaluateBlock(ifBlock, fuel);
        if flow.Err? {
          return Err(flow.error);
        }
      } else if elseBlock.Else? {
        var flow := EvaluateBlock(elseBlock.block, fuel);
        if flow.Err? {
          return Err(flow.error);
        }
      }
      return Ok(());
    }

    /** `evaluate_assignment` */
    method EvaluateAssignment(name: string, init: Ast.Expression, fuel: nat) returns (r: Result<(), Fault>)
      requires ctx.Valid()
      modifies ctx, ctx.scopeArena, ctx.callStack
      ensures (r, ctx.Snapshot()) == Sem.EvalAssignment(env, name, init, old(ctx.Snapshot()), fuel)
      decreases fuel, Sem.Size(init), 4
    {
      var v := EvaluateExpression(init, fuel);
      if v.Err? {
        return Err(v.error);
      }
      ctx.DefineVariableInScope(name, v.value);
      return Ok(());
    }

    /** `evaluate_function_definition` */
    method EvaluateFunctionDefinition(def: Ast.FunctionDef)
      requires ctx.Valid()
      modifies ctx.scopeArena
      ensures ctx.Snapshot() == Sem.EvalFunctionDefinition(def, old(ctx.Snapshot()))
    {
      ctx.DefineFunctionInScope(def.identifier, def);
    }

    /** `evaluate_function_call` */
    method EvaluateFunctionCall(e: Ast.Expression, fuel: nat) returns (r: Result<Value, Fault>)
      requires ctx.Valid() && e.FunctionCall?
      modifies ctx, ctx.scopeArena, ctx.callStack
      ensures (r, ctx.Snapshot()) == Sem.EvalCall(env, e, old(ctx.Snapshot()), fuel)
      decreases fuel, Sem.Size(e), 2
    {
      var name := e.callee;
      var found := ctx.LookupFunctionInScope(name);
      if found.Some? {
        r := CallUserFunction(e, found.value, fuel);
      } else {
        r := CallBuiltin(e, fuel);
      }
    }

    /** The branch of `evaluate_function_call` for a function found in scope. */
    method CallUserFunction(e: Ast.Expression, def: Ast.FunctionDef, fuel: nat) returns (r: Result<Value, Fault>)
      requires ctx.Valid() && e.FunctionCall? && ctx.Snapshot().LookupFunction(e.callee) == Some(def)
      modifies ctx, ctx.scopeArena, ctx.callStack
      ensures (r, ctx.Snapshot()) == Sem.EvalCall(env, e, old(ctx.Snapshot()), fuel)
      decreases fuel, Sem.Size(e), 1
    {
      var args := EvaluateArguments(e.arguments, fuel);
      if args.Err? {
        return Err(args.error);
      }
      r := InvokeUserFunction(e, def, args.value, fuel);
    }

    /** The user-function branch of `evaluate_function_call` once the arguments are evaluated. */
    method InvokeUserFunction(e: Ast.Expression, def: Ast.FunctionDef, values: seq<Value>, fuel: nat) returns (r: Result<Value, Fault>)
      requires ctx.Valid() && e.FunctionCall?
      modifies ctx, ctx.scopeArena, ctx.callStack
      ensures (r, ctx.Snapshot()) == Sem.InvokeUser(env, e, def, values, old(ctx.Snapshot()), fuel)
      decreases fuel, Sem.Size(e), 0
    {
      var name := e.callee;
      if |def.arguments| != |values| {
        var err := ErrorWithStack(Sem.ArityMessage(name, |def.arguments|, |values|));
        return Err(err);
      }
      ghost var c := ctx.Snapshot();
      var parent, child := ctx.EnterNewScope();
      ghost var c2 := ctx.Snapshot();
      BindParameters(def.arguments, values);
      ctx.PushFrame(name, Some(e.location));
      ctx.EnterFunction();
      ghost var c4 := ctx.Snapshot();
      assert c4 == Sem.BindParams(c2, def.arguments, values).PushFrame(name, Some(e.location)).EnterFunction();
      if fuel == 0 {
        return Err(OutOfFuel);
      }
      var flow := EvaluateBlock(def.block, fuel - 1);
      ghost var c5 := ctx.Snapshot();
      assert (flow, c5) == Sem.EvalBlock(env, def.block, c4, fuel - 1);
      if flow.Err? {
        return Err(flow.error);
      }
      var returned := ctx.ExitFunctionWithReturn();
      var value := returned.GetOr(Integer(0));
      ctx.PopFrame();
      ctx.RestoreScope(parent);
      assert Sem.InvokeUser(env, e, def, values, c, fuel) == (Ok(value), ctx.Snapshot());
      return Ok(value);
    }

    /** The loop of `evaluate_function_call` that defines each parameter to its argument. */
    method BindParameters(params: seq<string>, values: seq<Value>)
      requires ctx.Valid() && |params| == |values|
      modifies ctx.scopeArena
      ensures ctx.Snapshot() == Sem.BindParams(old(ctx.Snapshot()), params, values)
    {
      ghost var start := ctx.Snapshot();
      for i := 0 to |values|
        invariant ctx.Valid() && ctx.Snapshot().current == start.current
        invariant Sem.BindParams(start, params, values) == Sem.BindParams(ctx.Snapshot(), params[i..], values[i..])
      {
        ctx.DefineVariableInScope(params[i], values[i]);
      }
    }

    /** The branch of `evaluate_function_call` for a built-in method. */
    method CallBuiltin(e: Ast.Expression, fuel: nat) returns (r: Result<Value, Fault>)
      requires ctx.Valid() && e.FunctionCall? && ctx.Snapshot().LookupFunction(e.callee) == None
      modifies ctx, ctx.scopeArena, ctx.callStack
      ensures (r, ctx.Snapshot()) == Sem.EvalCall(env, e, old(ctx.Snapshot()), fuel)
      decreases fuel, Sem.Size(e), 1
    {
      var name := e.callee;
      ctx.PushFrame(name, Some(e.location));
      var args := EvaluateArguments(e.arguments, fuel);
      if args.Err? {
        return Err(args.error);
      }
      var result := Sem.GetMethod(env.builtins, name, args.value);
      ctx.PopFrame();
      match result {
        case Ok(v) =>
          return Ok(v);
        case Err(Raised(err)) =>
          var attached := ctx.AttachStack(err);
          return Err(Raised(attached));
        case Err(f) =>
          return Err(f);
      }
    }

    /** `evaluate_arguments` */
    method EvaluateArguments(args: seq<Ast.Expression>, fuel: nat) returns (r: Result<seq<Value>, Fault>)
      requires ctx.Valid()
      modifies ctx, ctx.scopeArena, ctx.callStack
      ensures (r, ctx.Snapshot()) == Sem.EvalArgs(env, args, old(ctx.Snapshot()), fuel)
      decreases fuel, Sem.SizeBlock(args), 0
    {
      ghost var start := ctx.Snapshot();
      var results: seq<Value> := [];
      PrefixedNothing(Sem.EvalArgs(env, args, start, fuel));
      assert args[0..] == args;
      for i := 0 to |args|
        invariant ctx.Valid()
        invariant Sem.EvalArgs(env, args, start, fuel) == Prefixed(results, Sem.EvalArgs(env, args[i..], ctx.Snapshot(), fuel))
      {
        assert args[i..][0] == args[i] && args[i..][1..] == args[i + 1..];
        Sem.ElementSmaller(args, i);
        var v := EvaluateExpression(args[i], fuel);
        if v.Err? {
          return Err(v.error);
        }
        PrefixedOneMore(results, v.value, Sem.EvalArgs(env, args[i + 1..], ctx.Snapshot(), fuel));
        results := results + [v.value];
      }
      assert args[|args|..] == [] && results + [] == results;
      return Ok(results);
    }

    /** `evaluate_expression` */
    method EvaluateExpression(e: Ast.Expression, fuel: nat) returns (r: Result<Value, Fault>)
      requires ctx.Valid()
      modifies ctx, ctx.scopeArena, ctx.callStack
      ensures (r, ctx.Snapshot()) == Sem.EvalExpr(env, e, old(ctx.Snapshot()), fuel)
      decreases fuel, Sem.Size(e), 3
    {
      match e {
        case Identifier(name) =>
          var found := ctx.LookupVariableInScope(name);
          if found.None? {
            var err := ErrorWithStack("Undefined variable " + name);
            return Err(err);
          }
          return Ok(found.value);
        case Literal(literal) =>
          return Ok(Sem.LiteralValue(env.ops, literal));
        case FunctionCall(_, _, _) =>
          r := EvaluateFunctionCall(e, fuel);
        case UnaryOperation(_, _) =>
          r := EvaluateUnaryOperation(e, fuel);
        case BinaryOperation(_, _, _) =>
          r := EvaluateBinaryOperation(e, fuel);
        case _ =>
          var err := ErrorWithStack("Unrecognized node " + env.describe(e));
          return Err(err);
      }
    }

    /** The unary-operation branch of `evaluate_expression`. */
    method EvaluateUnaryOperation(e: Ast.Expression, fuel: nat) returns (r: Result<Value, Fault>)
      requires ctx.Valid() && e.UnaryOperation?
      modifies ctx, ctx.scopeArena, ctx.callStack
      ensures (r, ctx.Snapshot()) == Sem.EvalExpr(env, e, old(ctx.Snapshot()), fuel)
      decreases fuel, Sem.Size(e), 2
    {
      ghost var c0 := ctx.Snapshot();
      var v := EvaluateExpression(e.operand, fuel);
      ghost var c1 := ctx.Snapshot();
      assert (v, c1) == Sem.EvalExpr(env, e.operand, c0, fuel);
      if v.Err? {
        return v;
      }
      match e.operator {
        case Unary(Min) =>
          return Ok(env.ops.mul(MinusOne, v.value));
        case Unary(Not) =>
          return Ok(Boolean(!env.ops.toBool(v.value)));
        case _ =>
          return Err(Panicked("internal error: entered unreachable code"));
      }
    }

    /** The binary-operation branch of `evaluate_expression`, with the short circuits of `&&` and `||`. */
    method EvaluateBinaryOperation(e: Ast.Expression, fuel: nat) returns (r: Result<Value, Fault>)
      requires ctx.Valid() && e.BinaryOperation?
      modifies ctx, ctx.scopeArena, ctx.callStack
      ensures (r, ctx.Snapshot()) == Sem.EvalExpr(env, e, old(ctx.Snapshot()), fuel)
      decreases fuel, Sem.Size(e), 2
    {
      var op := e.op;
      var l := EvaluateExpression(e.left, fuel);
      if l.Err? {
        return l;
      }
      if op == Tokens.Boolean(Tokens.And) {
        if !env.ops.toBool(l.value) {
          return Ok(Boolean(false));
        }
        var rv := EvaluateExpression(e.right, fuel);
        if rv.Err? {
          return rv;
        }
        return Ok(env.ops.and(l.value, rv.value));
      }
      if op == Tokens.Boolean(Tokens.Or) {
        if env.ops.toBool(l.value) {
          return Ok(Boolean(true));
        }
        var rv := EvaluateExpression(e.right, fuel);
        if rv.Err? {
          return rv;
        }
        return Ok(env.ops.or(l.value, rv.value));
      }
      var rv := EvaluateExpression(e.right, fuel);
      if rv.Err? {
        return rv;
      }
      if op.Unary? {
        var err := ErrorWithStack("Unary operation unexpected");
        return Err(err);
      }
      return Ok(Sem.BinaryOp(env.ops, op)(l.value, rv.value));
    }

    /** `error_with_stack` */
    method ErrorWithStack(message: string) returns (f: Fault)
      ensures f == Sem.ErrorWithStack(ctx.Snapshot(), message)
    {
      var err := ctx.AttachStack(NewError(message));
      return Raised(err);
    }
  }

  lemma PrefixedNothing(o: Sem.Outcome<seq<Value>>)
    ensures Prefixed([], o) == o
  {
    if o.0.Ok? {
      assert [] + o.0.value == o.0.value;
    }
  }

  lemma PrefixedOneMore(values: seq<Value>, v: Value, o: Sem.Outcome<seq<Value>>)
    ensures Prefixed(values, (if o.0.Ok? then Ok([v] + o.0.value) else Err(o.0.error), o.1)) == Prefixed(values + [v], o)
  {
    if o.0.Ok? {
      assert values + ([v] + o.0.value) == values + [v] + o.0.value;
    }
  }

  /** An argument-list outcome with `values` in front of the values it produced. */
  function Prefixed(values: seq<Value>, o: Sem.Outcome<seq<Value>>): Sem.Outcome<seq<Value>> {
    (if o.0.Ok? then Ok(values + o.0.value) else o.0, o.1)
  }
}
