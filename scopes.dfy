/**
  * The scope arena of src/interpreter/scope.rs: a vector of scopes, each pointing at its parent by
  * index, with a lookup that walks the parent chain. scope.rs gives a scope a variable map only;
  * the function map is the one the execution context's `define_function` and `lookup_function`
  * calls act on, given the same define/lookup discipline as the variables.
  */
module Scopes {
  import opened Wrappers
  import opened Values
  import Ast

  datatype Scope = Scope(parent: Option<nat>, variables: map<string, Value>, functions: map<string, Ast.FunctionDef>)

  /** Which of a scope's two maps a define or lookup acts on. */
  datatype Namespace = Variables | Functions

  predicate Binds(s: Scope, ns: Namespace, name: string) {
    if ns == Variables then name in s.variables else name in s.functions
  }

  /**
    * Every parent was created before its child. Scopes made by `new_scope` with the current scope
    * as parent satisfy this, and it is what makes the lookup walk terminate.
    */
  ghost predicate WellFormed(scopes: seq<Scope>) {
    forall i | 0 <= i < |scopes| :: scopes[i].parent.Some? ==> scopes[i].parent.value < i
  }

  /** Scope `k` is reached from scope `id` by following parents (including `id` itself). */
  ghost predicate OnChain(scopes: seq<Scope>, id: nat, k: nat)
    decreases id
  {
    id < |scopes| && (k == id || (scopes[id].parent.Some? && scopes[id].parent.value < id && OnChain(scopes, scopes[id].parent.value, k)))
  }

  /**
    * The index of the scope whose binding `lookup` finds: the first scope on the parent chain of `id`
    * that binds `name`. The walk only follows parents older than their child, which in a
    * well-formed arena are all of them.
    */
  function Resolve(scopes: seq<Scope>, id: nat, ns: Namespace, name: string): (r: Option<nat>)
    ensures r.Some? ==> r.value <= id && r.value < |scopes| && Binds(scopes[r.value], ns, name)
    decreases id
  {
    if id >= |scopes| then None
    else if Binds(scopes[id], ns, name) then Some(id)
    else
      match scopes[id].parent
      case None => None
      case Some(p) => if p < id then Resolve(scopes, p, ns, name) else None
  }

  /** `lookup` on the variable maps. */
  function VariableLookup(scopes: seq<Scope>, id: nat, name: string): (r: Option<Value>)
    ensures r.Some? <==> Resolve(scopes, id, Variables, name).Some?
    ensures id >= |scopes| ==> r.None?
  {
    match Resolve(scopes, id, Variables, name)
    case Some(k) => Some(scopes[k].variables[name])
    case None => None
  }

  /** `lookup_function`: the walk of `lookup` on the function maps. */
  function FunctionLookup(scopes: seq<Scope>, id: nat, name: string): (r: Option<Ast.FunctionDef>)
    ensures r.Some? <==> Resolve(scopes, id, Functions, name).Some?
    ensures id >= |scopes| ==> r.None?
  {
    match Resolve(scopes, id, Functions, name)
    case Some(k) => Some(scopes[k].functions[name])
    case None => None
  }

  /** `define` on the variable map of scope `id`: that one entry changes, nothing else. */
  function VariableDefined(scopes: seq<Scope>, id: nat, name: string, value: Value): seq<Scope>
    requires id < |scopes|
  {
    scopes[id := scopes[id].(variables := scopes[id].variables[name := value])]
  }

  /** `define_function`: `define` on the function map of scope `id`. */
  function FunctionDefined(scopes: seq<Scope>, id: nat, name: string, def: Ast.FunctionDef): seq<Scope>
    requires id < |scopes|
  {
    scopes[id := scopes[id].(functions := scopes[id].functions[name := def])]
  }

  /** Only scopes created no later than `id` lie on its chain. */
  lemma {:induction false} ChainGoesDown(scopes: seq<Scope>, id: nat, k: nat)
    requires OnChain(scopes, id, k)
    ensures k <= id && k < |scopes|
    decreases id
  {
    if k != id {
      ChainGoesDown(scopes, scopes[id].parent.value, k);
    }
  }

  /**
    * `lookup` finds the nearest binding: the scope it resolves to is on the chain and binds the
    * name, and no scope between it and the start does; it finds nothing exactly when no scope on
    * the chain binds the name.
    */
  lemma {:induction false} ResolveFindsNearest(scopes: seq<Scope>, id: nat, ns: Namespace, name: string)
    requires WellFormed(scopes)
    ensures match Resolve(scopes, id, ns, name)
      case Some(k) =>
        && OnChain(scopes, id, k)
        && forall j: nat | j < |scopes| && OnChain(scopes, id, j) && k < j :: !Binds(scopes[j], ns, name)
      case None =>
        forall j: nat | j < |scopes| && OnChain(scopes, id, j) :: !Binds(scopes[j], ns, name)
    decreases id
  {
    if id < |scopes| && !Binds(scopes[id], ns, name) && scopes[id].parent.Some? {
      var p := scopes[id].parent.value;
      ResolveFindsNearest(scopes, p, ns, name);
      forall j: nat | j < |scopes| && OnChain(scopes, id, j) && Binds(scopes[j], ns, name)
        ensures OnChain(scopes, p, j)
      {
      }
    } else if id < |scopes| && Binds(scopes[id], ns, name) {
      forall j: nat | OnChain(scopes, id, j)
        ensures j <= id
      {
        ChainGoesDown(scopes, id, j);
      }
    }
  }

  /** `lookup` from a scope id out of range finds nothing. */
  lemma LookupOutOfRange(scopes: seq<Scope>, id: nat, name: string)
    requires id >= |scopes|
    ensures VariableLookup(scopes, id, name) == None && FunctionLookup(scopes, id, name) == None
  {
  }

  /** A scope off the chain of `id` does not affect what is found from `id`. */
  lemma {:induction false} ResolveIgnoresOffChain(scopes: seq<Scope>, scopes': seq<Scope>, id: nat, ns: Namespace, name: string)
    requires |scopes'| == |scopes|
    requires forall k: nat | k < |scopes| && OnChain(scopes, id, k) :: scopes'[k] == scopes[k]
    ensures Resolve(scopes', id, ns, name) == Resolve(scopes, id, ns, name)
    ensures forall k: nat | OnChain(scopes, id, k) :: OnChain(scopes', id, k)
    decreases id
  {
    if id < |scopes| {
      assert OnChain(scopes, id, id);
      var p := scopes[id].parent;
      if p.Some? && p.value < id {
        forall k: nat | k < |scopes| && OnChain(scopes, p.value, k)
          ensures scopes'[k] == scopes[k]
        {
          assert OnChain(scopes, id, k);
        }
        ResolveIgnoresOffChain(scopes, scopes', p.value, ns, name);
      }
    }
  }

  /**
    * Shadowing is local: defining a variable in a scope that is not on the chain of `id` (a child
    * scope, say) leaves every lookup from `id` as it was.
    */
  lemma DefineOffChainInvisible(scopes: seq<Scope>, k: nat, name: string, value: Value, id: nat, n: string)
    requires k < |scopes| && !OnChain(scopes, id, k)
    ensures VariableLookup(VariableDefined(scopes, k, name, value), id, n) == VariableLookup(scopes, id, n)
    ensures FunctionLookup(VariableDefined(scopes, k, name, value), id, n) == FunctionLookup(scopes, id, n)
  {
    var scopes' := VariableDefined(scopes, k, name, value);
    ResolveIgnoresOffChain(scopes, scopes', id, Variables, n);
    ResolveIgnoresOffChain(scopes, scopes', id, Functions, n);
  }

  /** A child scope is never on the chain of the scopes created before it. */
  lemma ChildOffParentChain(scopes: seq<Scope>, id: nat, child: nat)
    requires id < child
    ensures !OnChain(scopes, id, child)
  {
    if OnChain(scopes, id, child) {
      ChainGoesDown(scopes, id, child);
    }
  }

  /** A define is seen from the scope it was made in, whatever the outer scopes bind. */
  lemma DefineVisibleLocally(scopes: seq<Scope>, k: nat, name: string, value: Value)
    requires k < |scopes|
    ensures VariableLookup(VariableDefined(scopes, k, name, value), k, name) == Some(value)
  {
  }

  /** Defining a variable changes no lookup of any other name, from any scope. */
  lemma {:induction false} DefineOtherNameResolve(scopes: seq<Scope>, k: nat, name: string, value: Value, id: nat, ns: Namespace, n: string)
    requires k < |scopes| && (ns == Variables ==> n != name)
    ensures Resolve(VariableDefined(scopes, k, name, value), id, ns, n) == Resolve(scopes, id, ns, n)
    decreases id
  {
    if id < |scopes| {
      var p := scopes[id].parent;
      if p.Some? && p.value < id {
        DefineOtherNameResolve(scopes, k, name, value, p.value, ns, n);
      }
    }
  }

  /** Shadowing is by name: a define is invisible to lookups of other names and of functions. */
  lemma DefineOtherNameInvisible(scopes: seq<Scope>, k: nat, name: string, value: Value, id: nat, n: string)
    requires k < |scopes| && n != name
    ensures VariableLookup(VariableDefined(scopes, k, name, value), id, n) == VariableLookup(scopes, id, n)
    ensures FunctionLookup(VariableDefined(scopes, k, name, value), id, n) == FunctionLookup(scopes, id, n)
  {
    DefineOtherNameResolve(scopes, k, name, value, id, Variables, n);
    DefineOtherNameResolve(scopes, k, name, value, id, Functions, n);
  }

  /**
    * Adding scopes, and changing only scopes created after `id`, leaves every lookup from `id` as
    * it was.
    */
  lemma {:induction false} ExtendKeepsResolve(scopes: seq<Scope>, scopes': seq<Scope>, id: nat, ns: Namespace, name: string)
    requires id < |scopes| <= |scopes'|
    requires forall k | 0 <= k < |scopes| :: scopes'[k] == scopes[k]
    ensures Resolve(scopes', id, ns, name) == Resolve(scopes, id, ns, name)
    decreases id
  {
    var p := scopes[id].parent;
    if p.Some? && p.value < id {
      ExtendKeepsResolve(scopes, scopes', p.value, ns, name);
    }
  }

  /** Appending a scope leaves every lookup from the existing scopes as it was. */
  lemma AppendKeepsResolve(scopes: seq<Scope>, s: Scope, id: nat, ns: Namespace, name: string)
    requires id < |scopes|
    ensures Resolve(scopes + [s], id, ns, name) == Resolve(scopes, id, ns, name)
  {
    ExtendKeepsResolve(scopes, scopes + [s], id, ns, name);
  }

  /** Lookups from `id` in an arena extended as in `ExtendKeepsResolve`. */
  lemma ExtendKeepsLookups(scopes: seq<Scope>, scopes': seq<Scope>, id: nat, name: string)
    requires id < |scopes| <= |scopes'|
    requires forall k | 0 <= k < |scopes| :: scopes'[k] == scopes[k]
    ensures VariableLookup(scopes', id, name) == VariableLookup(scopes, id, name)
    ensures FunctionLookup(scopes', id, name) == FunctionLookup(scopes, id, name)
  {
    ExtendKeepsResolve(scopes, scopes', id, Variables, name);
    ExtendKeepsResolve(scopes, scopes', id, Functions, name);
  }

  /** `new_scope` keeps the arena well formed exactly when the parent is an existing scope. */
  lemma NewScopeWellFormed(scopes: seq<Scope>, parent: Option<nat>)
    requires WellFormed(scopes)
    ensures WellFormed(scopes + [Scope(parent, map[], map[])]) <==> (parent.Some? ==> parent.value < |scopes|)
  {
    var scopes' := scopes + [Scope(parent, map[], map[])];
    assert scopes'[|scopes|].parent == parent;
    forall i | 0 <= i < |scopes|
      ensures scopes'[i] == scopes[i]
    {
    }
  }

  /** The arena of src/interpreter/scope.rs. */
  class ScopeArena {
    var scopes: seq<Scope>

    ghost predicate Valid()
      reads this
    {
      WellFormed(scopes)
    }

    /** `ScopeArena::new`: no scopes. */
    constructor()
      ensures scopes == [] && Valid()
    {
      scopes := [];
    }

    /** `new_scope`: appends an empty scope with the given parent and returns its index. */
    method NewScope(parent: Option<nat>) returns (id: nat)
      modifies this
      ensures scopes == old(scopes) + [Scope(parent, map[], map[])]
      ensures id == |old(scopes)|
      ensures old(Valid()) && (parent.Some? ==> parent.value < id) ==> Valid()
    {
      scopes := scopes + [Scope(parent, map[], map[])];
      id := |scopes| - 1;
    }

    /** `define` on the variable map; indexing a missing scope would panic. */
    method DefineVariable(id: nat, name: string, value: Value)
      requires id < |scopes|
      modifies this
      ensures scopes == VariableDefined(old(scopes), id, name, value)
      ensures old(Valid()) ==> Valid()
    {
      var scope := scopes[id];
      scopes := scopes[id := scope.(variables := scope.variables[name := value])];
    }

    /** `define_function`: `define` on the function map. */
    method DefineFunction(id: nat, name: string, def: Ast.FunctionDef)
      requires id < |scopes|
      modifies this
      ensures scopes == FunctionDefined(old(scopes), id, name, def)
      ensures old(Valid()) ==> Valid()
    {
      var scope := scopes[id];
      scopes := scopes[id := scope.(functions := scope.functions[name := def])];
    }

    /** The walk of `lookup`: from `id` up the parents to the first scope binding `name`. */
    method Find(id: nat, ns: Namespace, name: string) returns (r: Option<nat>)
      requires Valid()
      ensures r == Resolve(scopes, id, ns, name)
    {
      var scopeId: nat := id;
      while scopeId < |scopes|
        invariant Resolve(scopes, scopeId, ns, name) == Resolve(scopes, id, ns, name)
        decreases scopeId
      {
        var scope := scopes[scopeId];
        if Binds(scope, ns, name) {
          return Some(scopeId);
        }
        match scope.parent {
          case Some(parent) =>
            scopeId := parent;
          case None =>
            return None;
        }
      }
      return None;
    }

    /** `lookup` on the variable maps. */
    method LookupVariable(id: nat, name: string) returns (r: Option<Value>)
      requires Valid()
      ensures r == VariableLookup(scopes, id, name)
    {
      var owner := Find(id, Variables, name);
      if owner.Some? {
        return Some(scopes[owner.value].variables[name]);
      }
      return None;
    }

    /** `lookup_function`: the walk of `lookup` on the function maps. */
    method LookupFunction(id: nat, name: string) returns (r: Option<Ast.FunctionDef>)
      requires Valid()
      ensures r == FunctionLookup(scopes, id, name)
    {
      var owner := Find(id, Functions, name);
      if owner.Some? {
        return Some(scopes[owner.value].functions[name]);
      }
      return None;
    }
  }
}
