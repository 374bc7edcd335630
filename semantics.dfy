/**
  * What the tree-walking evaluator of src/interpreter/core.rs computes, as functions from a syntax
  * tree and an execution context to an outcome and the context afterwards. Each function is
  * the meaning of the `Interpreter` method of the same name; the `Interpreter` class performs them
  * in place. The context is returned on every path, including errors, because the source leaves it
  * as it stands when an error propagates.
  *
  * User functions may recurse without end, so every evaluation carries `fuel`, spent one unit per
  * user-function call; running out is the `OutOfFuel` fault, which the source does not have.
  */
module Semantics {
  import opened Wrappers
  import opened Values
  import opened Scopes
  import opened RuntimeErrors
  import opened CallStacks
  import opened ExecutionContexts
  import Tokens
  import Ast

  /** `ControlFlow`: whether the enclosing block goes on (`Continue`) or stops (`Break`). */
  datatype Flow = Continue | Break

  /** A built-in method, as `get_method` runs it on the evaluated arguments. */
  type Builtin = seq<Value> -> Result<Value, Fault>

  /**
    * What the evaluator relies on but this model does not define: the value operations, the
    * registered built-ins by name, and the `{:?}` text of a node, used in one error message.
    */
  datatype Env = Env(ops: ValueOps, builtins: map<string, Builtin>, describe: Ast.Expression -> string)

  type Outcome<T> = (Result<T, Fault>, Ctx)

  /** Syntactic size, the measure that bounds evaluation between two user-function calls. */
  function Size(e: Ast.Expression): nat
    decreases e
  {
    match e
    case Program(body) => 1 + SizeBlock(body)
    case Statement(inner) => 1 + Size(inner)
    case Declaration(_, init) => 1 + Size(init)
    case FunctionDeclaration(_) => 1
    case IfConditional(cond, ifBlock, elseBlock) => 1 + Size(cond) + SizeBlock(ifBlock) + SizeElse(elseBlock)
    case Return(result) => 1 + Size(result)
    case FunctionCall(_, arguments, _) => 1 + SizeBlock(arguments)
    case Identifier(_) => 1
    case Literal(_) => 1
    case UnaryOperation(_, operand) => 1 + Size(operand)
    case BinaryOperation(left, _, right) => 1 + Size(left) + Size(right)
  }

  function SizeBlock(b: seq<Ast.Expression>): nat
    decreases b
  {
    if b == [] then 0 else 1 + Size(b[0]) + SizeBlock(b[1..])
  }

  function SizeElse(b: Ast.ElseBranch): nat
    decreases b
  {
    match b
    case NoElse => 0
    case Else(block) => SizeBlock(block)
  }

  /** Every node of a block is smaller than the block. */
  lemma {:induction false} ElementSmaller(b: seq<Ast.Expression>, i: nat)
    requires i < |b|
    ensures Size(b[i]) < SizeBlock(b)
    decreases i
  {
    if i > 0 {
      ElementSmaller(b[1..], i - 1);
      assert b[1..][i - 1] == b[i];
    }
  }

  /** The return slots below the top one. */
  function DropLast<T>(s: seq<T>): seq<T> {
    if s == [] then [] else s[..|s| - 1]
  }

  /** Every scope that existed before, except possibly `except`, is as it was; none was removed. */
  ghost predicate Keeps(c: Ctx, c': Ctx, except: Option<nat>) {
    && |c'.scopes| >= |c.scopes|
    && forall k | 0 <= k < |c.scopes| && Some(k) != except :: c'.scopes[k] == c.scopes[k]
  }

  /** Still in the same function: the same depth and frames, and only the top return slot may differ. */
  ghost predicate SameFunction(c: Ctx, c': Ctx) {
    && c'.depth == c.depth
    && c'.frames == c.frames
    && |c'.returnValues| == |c.returnValues|
    && DropLast(c'.returnValues) == DropLast(c.returnValues)
  }

  /**
    * What a successful expression leaves as it was: the depth, the return slots, the frames, the
    * current scope and every existing scope. Its only effect on the context is new scopes.
    */
  ghost predicate ExprClean(c: Ctx, c': Ctx) {
    && c'.depth == c.depth
    && c'.returnValues == c.returnValues
    && c'.frames == c.frames
    && c'.current == c.current
    && Keeps(c, c', None)
  }

  /** What a successful block leaves as it was: everything but new scopes and the top return slot. */
  ghost predicate BlockClean(c: Ctx, c': Ctx) {
    SameFunction(c, c') && c'.current == c.current && Keeps(c, c', None)
  }

  /** A successful statement may also bind names in the current scope. */
  ghost predicate StatementClean(c: Ctx, c': Ctx) {
    SameFunction(c, c') && c'.current == c.current && Keeps(c, c', Some(c.current))
  }

  /** What every evaluation keeps, whatever its outcome: a valid context, and no scope removed. */
  ghost predicate Grown(c: Ctx, c': Ctx) {
    c'.Valid() && |c'.scopes| >= |c.scopes|
  }

  /** `error_with_stack`: a runtime error carrying the current frames; the context is not changed. */
  function ErrorWithStack(c: Ctx, message: string): (f: Fault)
    ensures f.Raised? && f.error.message == message && f.error.stack == c.frames
  {
    Raised(c.AttachStack(NewError(message)))
  }

  /** The message of an arity mismatch. */
  function ArityMessage(name: string, expected: nat, got: nat): (m: string)
    ensures var head := "Function '" + name + "' expected ";
      |head| < |m| && m[..|head|] == head
  {
    "Function '" + name + "' expected " + DecimalText(expected) + " arguments, got " + DecimalText(got)
  }

  /** `get_method` (src/interpreter/methods/mod.rs): runs the registered method, if any. */
  function GetMethod(builtins: map<string, Builtin>, name: string, args: seq<Value>): (r: Result<Value, Fault>)
    ensures name !in builtins ==> r == Err(Raised(NewError("Method not found: " + name)))
    ensures name in builtins ==> r == builtins[name](args)
  {
    if name in builtins then builtins[name](args) else Err(Raised(NewError("Method not found: " + name)))
  }

  /**
    * The parameter binding of `evaluate_function_call`: each parameter is defined in the current
    * scope to the argument in the same position, first to last.
    */
  function BindParams(c: Ctx, params: seq<string>, args: seq<Value>): (c': Ctx)
    requires |params| == |args| && c.current < |c.scopes|
    ensures c'.depth == c.depth && c'.returnValues == c.returnValues && c'.frames == c.frames
    ensures c'.current == c.current && |c'.scopes| == |c.scopes|
    ensures forall k | 0 <= k < |c.scopes| && k != c.current :: c'.scopes[k] == c.scopes[k]
    ensures c.Valid() ==> c'.Valid()
    decreases |params|
  {
    if params == [] then c else BindParams(c.DefineVariable(params[0], args[0]), params[1..], args[1..])
  }

  /**
    * `run`: evaluates the root node; with no node (`evaluate(None)`, the end of the program) there
    * is nothing to do. The flow is dropped.
    */
  function Run(env: Env, node: Option<Ast.Expression>, c: Ctx, fuel: nat): (o: Outcome<()>)
    requires c.Valid()
    ensures Grown(c, o.1)
    ensures node.None? ==> o == (Ok(()), c)
  {
    match node
    case None => (Ok(()), c)
    case Some(e) =>
      var (r, c1) := Evaluate(env, e, c, fuel);
      (if r.Ok? then Ok(()) else Err(r.error), c1)
  }

  /** `evaluate`: runs one node of a block and says whether the block goes on. */
  function Evaluate(env: Env, e: Ast.Expression, c: Ctx, fuel: nat): (o: Outcome<Flow>)
    requires c.Valid()
    ensures Grown(c, o.1)
    ensures o.0.Ok? ==> StatementClean(c, o.1)
    decreases fuel, Size(e), 5
  {
    match e
    case Program(body) => EvalProgram(env, body, c, fuel)
    case BinaryOperation(_, _, _) =>
      var (r, c1) := EvalExpr(env, e, c, fuel);
      (if r.Ok? then Ok(Continue) else Err(r.error), c1)
    case Statement(_) => EvalStatement(env, e, c, fuel)
    case Declaration(_, _) => EvalStatement(env, e, c, fuel)
    case FunctionCall(_, _, _) => EvalStatement(env, e, c, fuel)
    case IfConditional(cond, ifBlock, elseBlock) =>
      var (r, c1) := EvalConditional(env, cond, ifBlock, elseBlock, c, fuel);
      (if r.Ok? then Ok(Continue) else Err(r.error), c1)
    case Return(_) =>
      var (r, c1) := EvalReturn(env, e, c, fuel);
      (if r.Ok? then Ok(Break) else Err(r.error), c1)
    case FunctionDeclaration(def) => (Ok(Continue), EvalFunctionDefinition(def, c))
    case Identifier(_) => (Err(Panicked("Unexpected AST node")), c)
    case Literal(_) => (Err(Panicked("Unexpected AST node")), c)
    case UnaryOperation(_, _) => (Err(Panicked("Unexpected AST node")), c)
  }

  /** `evaluate_program`: the program's body is a block. */
  function EvalProgram(env: Env, body: seq<Ast.Expression>, c: Ctx, fuel: nat): (o: Outcome<Flow>)
    requires c.Valid()
    ensures Grown(c, o.1)
    ensures o.0.Ok? ==> BlockClean(c, o.1)
    decreases fuel, SizeBlock(body), 3
  {
    EvalBlock(env, body, c, fuel)
  }

  /**
    * `evaluate_return`: outside a function an error; inside, the value goes into the top return
    * slot.
    */
  function EvalReturn(env: Env, e: Ast.Expression, c: Ctx, fuel: nat): (o: Outcome<()>)
    requires c.Valid()
    ensures Grown(c, o.1)
    ensures o.0.Ok? ==> StatementClean(c, o.1)
    decreases fuel, Size(e), 4
  {
    if !c.IsInFunction() then (Err(ErrorWithStack(c, "Attempting to return outside a function block")), c)
    else if e.Return? then
      var (r, c1) := EvalExpr(env, e.result, c, fuel);
      if r.Err? then (Err(r.error), c1)
      else (Ok(()), c1.SetReturnValue(r.value))
    else (Err(ErrorWithStack(c, "Expected a return expression")), c)
  }

  /**
    * `evaluate_block`: the statements run in a fresh child of the current scope until one yields
    * `Break`; on success the previous scope is current again. An error leaves the child current.
    */
  function EvalBlock(env: Env, block: seq<Ast.Expression>, c: Ctx, fuel: nat): (o: Outcome<Flow>)
    requires c.Valid()
    ensures Grown(c, o.1)
    ensures o.0.Ok? ==> BlockClean(c, o.1)
    decreases fuel, SizeBlock(block), 2
  {
    var (ids, c1) := c.EnterNewScope();
    var (r, c2) := EvalStatements(env, block, c1, fuel);
    if r.Err? then (r, c2) else (r, c2.RestoreScope(ids.0))
  }

  /** The loop of `evaluate_block`: the first `Break` ends it and is its result. */
  function EvalStatements(env: Env, block: seq<Ast.Expression>, c: Ctx, fuel: nat): (o: Outcome<Flow>)
    requires c.Valid()
    ensures Grown(c, o.1)
    ensures o.0.Ok? ==> StatementClean(c, o.1)
    decreases fuel, SizeBlock(block), 1
  {
    if block == [] then (Ok(Continue), c)
    else
      var (r, c1) := Evaluate(env, block[0], c, fuel);
      if r.Err? || r.value == Break then (r, c1)
      else EvalStatements(env, block[1..], c1, fuel)
  }

  /** `evaluate_statement`: a wrapped node, a `let`, or a call whose value is dropped. */
  function EvalStatement(env: Env, e: Ast.Expression, c: Ctx, fuel: nat): (o: Outcome<Flow>)
    requires c.Valid()
    ensures Grown(c, o.1)
    ensures o.0.Ok? ==> StatementClean(c, o.1)
    decreases fuel, Size(e), 4
  {
    match e
    case Statement(inner) => Evaluate(env, inner, c, fuel)
    case Declaration(name, init) =>
      var (r, c1) := EvalAssignment(env, name, init, c, fuel);
      (if r.Ok? then Ok(Continue) else Err(r.error), c1)
    case FunctionCall(_, _, _) =>
      var (r, c1) := EvalCall(env, e, c, fuel);
      (if r.Ok? then Ok(Continue) else Err(r.error), c1)
    case _ => (Err(ErrorWithStack(c, "Unexpected AST node")), c)
  }

  /**
    * `evaluate_conditional`: the branch the condition selects runs as a block; its own flow is
    * dropped.
    */
  function EvalConditional(env: Env, cond: Ast.Expression, ifBlock: seq<Ast.Expression>, elseBlock: Ast.ElseBranch, c: Ctx, fuel: nat): (o: Outcome<()>)
    requires c.Valid()
    ensures Grown(c, o.1)
    ensures o.0.Ok? ==> BlockClean(c, o.1)
    decreases fuel, Size(cond) + SizeBlock(ifBlock) + SizeElse(elseBlock), 4
  {
    var (r, c1) := EvalExpr(env, cond, c, fuel);
    if r.Err? then (Err(r.error), c1)
    else if env.ops.toBool(r.value) then
      var (b, c2) := EvalBlock(env, ifBlock, c1, fuel);
      (if b.Ok? then Ok(()) else Err(b.error), c2)
    else if elseBlock.Else? then
      var (b, c2) := EvalBlock(env, elseBlock.block, c1, fuel);
      (if b.Ok? then Ok(()) else Err(b.error), c2)
    else (Ok(()), c1)
  }

  /** `evaluate_assignment`: the initializer is evaluated first, then bound in the current scope. */
  function EvalAssignment(env: Env, name: string, init: Ast.Expression, c: Ctx, fuel: nat): (o: Outcome<()>)
    requires c.Valid()
    ensures Grown(c, o.1)
    ensures o.0.Ok? ==> StatementClean(c, o.1)
    decreases fuel, Size(init), 4
  {
    var (r, c1) := EvalExpr(env, init, c, fuel);
    if r.Err? then (Err(r.error), c1)
    else (Ok(()), c1.DefineVariable(name, r.value))
  }

  /** `evaluate_function_definition`: binds the declaration under its name in the current scope. */
  function EvalFunctionDefinition(def: Ast.FunctionDef, c: Ctx): (c': Ctx)
    requires c.Valid()
    ensures Grown(c, c') && StatementClean(c, c')
    ensures c'.LookupFunction(def.identifier) == Some(def)
  {
    c.DefineFunction(def.identifier, def)
  }

  /**
    * `evaluate_function_call`. A user function found from the current scope: the arguments are
    * evaluated in the caller's scope and the function is invoked on them. Otherwise a built-in: a
    * frame is pushed, the arguments evaluated, the method run and the frame popped, and an error it
    * raises gets the remaining frames attached.
    */
  function EvalCall(env: Env, e: Ast.Expression, c: Ctx, fuel: nat): (o: Outcome<Value>)
    requires c.Valid()
    requires e.FunctionCall?
    ensures Grown(c, o.1)
    ensures o.0.Ok? ==> ExprClean(c, o.1)
    decreases fuel, Size(e), 2
  {
    var name := e.callee;
    match c.LookupFunction(name)
    case Some(def) =>
      var (ar, c1) := EvalArgs(env, e.arguments, c, fuel);
      if ar.Err? then (Err(ar.error), c1)
      else InvokeUser(env, e, def, ar.value, c1, fuel)
    case None =>
      var c1 := c.PushFrame(name, Some(e.location));
      var (ar, c2) := EvalArgs(env, e.arguments, c1, fuel);
      if ar.Err? then (Err(ar.error), c2)
      else
        var c3 := c2.PopFrame();
        match GetMethod(env.builtins, name, ar.value)
        case Ok(v) => (Ok(v), c3)
        case Err(Raised(err)) => (Err(Raised(c3.AttachStack(err))), c3)
        case Err(f) => (Err(f), c3)
  }

  /**
    * The user-function branch of `evaluate_function_call` once the arguments are evaluated: the
    * arity is checked, the parameters are bound in a child of the caller's current scope, a frame
    * and a return slot are pushed, the body runs as a block, and the stored return value (or
    * `Integer(0)`) is the result once frame, slot and scope are given back.
    */
  function InvokeUser(env: Env, e: Ast.Expression, def: Ast.FunctionDef, args: seq<Value>, c: Ctx, fuel: nat): (o: Outcome<Value>)
    requires c.Valid()
    requires e.FunctionCall?
    ensures Grown(c, o.1)
    ensures o.0.Ok? ==> ExprClean(c, o.1)
    decreases fuel, Size(e), 1
  {
    var name := e.callee;
    if |def.arguments| != |args| then
      (Err(ErrorWithStack(c, ArityMessage(name, |def.arguments|, |args|))), c)
    else
      var (ids, c2) := c.EnterNewScope();
      var c3 := BindParams(c2, def.arguments, args);
      var c4 := c3.PushFrame(name, Some(e.location)).EnterFunction();
      assert c4.Valid() && Keeps(c, c4, None) && c4.current == |c.scopes|;
      assert c4.returnValues == c.returnValues + [None] && c4.depth == c.depth + 1;
      if fuel == 0 then (Err(OutOfFuel), c4)
      else
        var (br, c5) := EvalBlock(env, def.block, c4, fuel - 1);
        if br.Err? then (Err(br.error), c5)
        else
          var (slot, c6) := c5.ExitFunction();
          assert c5.frames == c4.frames == c.frames + [StackFrame(name, Some(e.location))];
          assert c6.returnValues == c.returnValues;
          (Ok(slot.GetOr(Integer(0))), c6.PopFrame().RestoreScope(ids.0))
  }

  /** `evaluate_arguments`: left to right, stopping at the first error. */
  function EvalArgs(env: Env, args: seq<Ast.Expression>, c: Ctx, fuel: nat): (o: Outcome<seq<Value>>)
    requires c.Valid()
    ensures Grown(c, o.1)
    ensures o.0.Ok? ==> ExprClean(c, o.1) && |o.0.value| == |args|
    decreases fuel, SizeBlock(args), 1
  {
    if args == [] then (Ok([]), c)
    else
      var (r, c1) := EvalExpr(env, args[0], c, fuel);
      if r.Err? then (Err(r.error), c1)
      else
        var (rs, c2) := EvalArgs(env, args[1..], c1, fuel);
        if rs.Err? then (Err(rs.error), c2)
        else (Ok([r.value] + rs.value), c2)
  }

  /** The value of a literal node. */
  function LiteralValue(ops: ValueOps, literal: Ast.LiteralValue): (v: Value)
    ensures literal.Bool? ==> v == Boolean(literal.b)
    ensures literal.Text? ==> v == String(literal.s)
    ensures literal.Number? ==> v == ops.numeral(literal.kind, literal.text)
  {
    match literal
    case Bool(b) => Boolean(b)
    case Number(kind, text) => ops.numeral(kind, text)
    case Text(s) => String(s)
  }

  /**
    * The operation a binary operator applies to its two values once both are evaluated (a
    * short-circuited `&&` or `||` never gets here); a unary class is an error before this table.
    */
  function BinaryOp(ops: ValueOps, op: Tokens.OperatorType): (f: (Value, Value) -> Value)
    requires !op.Unary?
    ensures op.Exponential? ==> f == ops.power
    ensures op.Multiplicative? ==> f == if op.multiplicative == Tokens.Mul then ops.mul else ops.div
    ensures op.Additive? ==> f == if op.additive == Tokens.Add then ops.add else ops.sub
    ensures op.Boolean? ==> f == if op.boolean == Tokens.And then ops.and else ops.or
  {
    match op
    case Exponential => ops.power
    case Multiplicative(Mul) => ops.mul
    case Multiplicative(Div) => ops.div
    case Additive(Sub) => ops.sub
    case Additive(Add) => ops.add
    case Comp(Eq) => ops.eq
    case Comp(Neq) => ops.neq
    case Comp(Gt) => ops.gt
    case Comp(Lt) => ops.lt
    case Comp(Gte) => ops.gte
    case Comp(Lte) => ops.lte
    case Boolean(And) => ops.and
    case Boolean(Or) => ops.or
  }

  /** `evaluate_expression`. */
  function EvalExpr(env: Env, e: Ast.Expression, c: Ctx, fuel: nat): (o: Outcome<Value>)
    requires c.Valid()
    ensures Grown(c, o.1)
    ensures o.0.Ok? ==> ExprClean(c, o.1)
    decreases fuel, Size(e), 3
  {
    match e
    case Identifier(name) =>
      (match c.LookupVariable(name)
       case Some(v) => (Ok(v), c)
       case None => (Err(ErrorWithStack(c, "Undefined variable " + name)), c))
    case Literal(literal) => (Ok(LiteralValue(env.ops, literal)), c)
    case FunctionCall(_, _, _) => EvalCall(env, e, c, fuel)
    case UnaryOperation(operator, operand) =>
      var (r, c1) := EvalExpr(env, operand, c, fuel);
      if r.Err? then (r, c1)
      else (match operator
        case Unary(Min) => Ok(env.ops.mul(MinusOne, r.value))
        case Unary(Not) => Ok(Boolean(!env.ops.toBool(r.value)))
        case _ => Err(Panicked("internal error: entered unreachable code")), c1)
    case BinaryOperation(left, op, right) =>
      var (l, c1) := EvalExpr(env, left, c, fuel);
      if l.Err? then (l, c1)
      else if op == Tokens.Boolean(Tokens.And) && !env.ops.toBool(l.value) then (Ok(Boolean(false)), c1)
      else if op == Tokens.Boolean(Tokens.Or) && env.ops.toBool(l.value) then (Ok(Boolean(true)), c1)
      else
        var (r, c2) := EvalExpr(env, right, c1, fuel);
        if r.Err? then (r, c2)
        else if op.Unary? then (Err(ErrorWithStack(c2, "Unary operation unexpected")), c2)
        else (Ok(BinaryOp(env.ops, op)(l.value, r.value)), c2)
    case _ => (Err(ErrorWithStack(c, "Unrecognized node " + env.describe(e))), c)
  }
}
