/**
 * ast_walker.go as it runs: the context is a map that `func` updates in
 * place and that a closure call copies. Every method is proved to compute
 * what the matching function of `Semantics` defines, context included.
 */
module Walker {
  import opened Int64
  import opened Options
  import opened Lexer
  import opened Semantics

  /** Go's `map[string]any` context, shared by reference. */
  class Context {
    var vars: Bindings

    constructor()
      ensures vars == map[]
    {
      vars := map[];
    }
  }

  /**
   * A method result `r` leaving the context as `vars` agrees with the
   * reference result `spec`: the same value and the same context on success,
   * the same error on failure (after a panic the context is never used again).
   */
  predicate Agrees(r: Result<RValue>, vars: Bindings, spec: Result<Done>) {
    if spec.Ok? then r == Ok(spec.value.value) && vars == spec.value.ctx
    else r == Err(spec.error)
  }

  /** The values `vs` put in front of the argument values a result holds. */
  function PrependAll(vs: seq<RValue>, r: Result<Evaluated>): Result<Evaluated> {
    if r.Ok? then Ok(Evaluated(vs + r.value.values, r.value.ctx)) else r
  }

  /** copyContext: a new map with every binding of `src`. */
  method CopyContext(src: Context) returns (out: Context)
    ensures fresh(out) && out.vars == src.vars
  {
    out := new Context();
    var keys := src.vars.Keys;
    while keys != {}
      invariant keys <= src.vars.Keys
      invariant out.vars.Keys == src.vars.Keys - keys
      invariant forall k :: k in out.vars ==> out.vars[k] == src.vars[k]
      decreases keys
    {
      var k :| k in keys;
      out.vars := out.vars[k := src.vars[k]];
      keys := keys - {k};
    }
  }

  /** astWalk2: one tree node. */
  method AstWalk2(v: Value, ctx: Context, fuel: nat) returns (r: Result<RValue>)
    modifies ctx
    ensures Agrees(r, ctx.vars, Eval(v, old(ctx.vars), fuel))
    decreases fuel, Size(v), 0
  {
    if v.Literal? {
      var t := v.token;
      if t.kind == Integer {
        match ParseInt64(t.value)
        case Some(n) => return Ok(Int(n));
        case None => return Err(NotAnInteger(t.value));
      } else if t.kind == Identifier {
        return Ok(Lookup(ctx.vars, t.value));
      }
      return Err(NilDereference);
    }
    r := AstWalk(v.items, ctx, fuel);
  }

  /** astWalk: a call form, dispatched to a builtin or to a closure of the context. */
  method AstWalk(ast: seq<Value>, ctx: Context, fuel: nat) returns (r: Result<RValue>)
    modifies ctx
    ensures Agrees(r, ctx.vars, EvalCall(ast, old(ctx.vars), fuel))
    decreases fuel, SizeSeq(ast), 2
  {
    if |ast| == 0 {
      return Err(IndexOutOfRange);
    }
    if !ast[0].Literal? {
      return Err(NilDereference);
    }
    var name := ast[0].token.value;
    var tail := ast[1..];
    assert SizeSeq(ast) == Size(ast[0]) + SizeSeq(tail);
    if name == "if" {
      r := If(tail, ctx, fuel);
      return;
    } else if name == "+" {
      r := Plus(tail, ctx, fuel);
      return;
    } else if name == "-" {
      r := Minus(tail, ctx, fuel);
      return;
    } else if name == "begin" {
      r := Begin(tail, ctx, fuel);
      return;
    } else if name == "func" {
      r := Func(tail, ctx);
      return;
    }
    var f := Lookup(ctx.vars, name);
    if !f.Closure? {
      return Err(NotCallable(name));
    }
    ghost var c0 := ctx.vars;
    var args: seq<RValue> := [];
    var k := 0;
    PrependNothing(EvalArgs(tail, c0, fuel));
    while k < |tail|
      invariant 0 <= k <= |tail|
      invariant EvalArgs(tail, c0, fuel) == PrependAll(args, EvalArgs(tail[k..], ctx.vars, fuel))
    {
      SizeAt(tail, k);
      ghost var before := ctx.vars;
      var v := AstWalk2(tail[k], ctx, fuel);
      assert tail[k..][0] == tail[k] && tail[k..][1..] == tail[k + 1..];
      if v.Err? {
        assert EvalArgs(tail[k..], before, fuel) == Err(v.error);
        assert EvalArgs(tail, c0, fuel) == Err(v.error);
        return Err(v.error);
      }
      assert EvalArgs(tail[k..], before, fuel) == Prepend(v.value, EvalArgs(tail[k + 1..], ctx.vars, fuel));
      PrependStep(args, v.value, EvalArgs(tail[k + 1..], ctx.vars, fuel));
      args := args + [v.value];
      k := k + 1;
    }
    assert tail[k..] == [] && args + [] == args;
    assert EvalArgs(tail, c0, fuel) == Ok(Evaluated(args, ctx.vars));
    r := CallClosure(f, args, ctx, fuel);
  }

  lemma PrependNothing(r: Result<Evaluated>)
    ensures PrependAll([], r) == r
  {
    if r.Ok? {
      assert [] + r.value.values == r.value.values;
    }
  }

  lemma PrependStep(vs: seq<RValue>, v: RValue, r: Result<Evaluated>)
    ensures PrependAll(vs, Prepend(v, r)) == PrependAll(vs + [v], r)
  {
    if r.Ok? {
      assert vs + ([v] + r.value.values) == (vs + [v]) + r.value.values;
    }
  }

  /**
   * A user closure called with evaluated arguments and the caller's context:
   * the caller's context is copied, never changed.
   */
  method CallClosure(f: RValue, args: seq<RValue>, ctx: Context, fuel: nat) returns (r: Result<RValue>)
    requires f.Closure?
    ensures r == Apply(f, args, ctx.vars, fuel)
    decreases fuel, 0, 3
  {
    var child := CopyContext(ctx);
    if |f.params| != |args| {
      return Err(ArityMismatch(|f.params|, f.name, |args|));
    }
    var i := 0;
    while i < |f.params|
      invariant 0 <= i <= |f.params|
      invariant Bind(f.params, args, ctx.vars) == Bind(f.params[i..], args[i..], child.vars)
    {
      assert f.params[i..][0] == f.params[i];
      assert f.params[i..][1..] == f.params[i + 1..] && args[i..][1..] == args[i + 1..];
      if !f.params[i].Literal? {
        return Err(NilDereference);
      }
      child.vars := child.vars[f.params[i].token.value := args[i]];
      i := i + 1;
    }
    assert f.params[i..] == [] && args[i..] == [];
    if fuel == 0 {
      return Err(OutOfFuel);
    }
    var body := AstWalk(f.body, child, fuel - 1);
    if body.Err? {
      return Err(body.error);
    }
    return Ok(body.value);
  }

  /** The `if` builtin. */
  method If(args: seq<Value>, ctx: Context, fuel: nat) returns (r: Result<RValue>)
    modifies ctx
    ensures Agrees(r, ctx.vars, EvalIf(args, old(ctx.vars), fuel))
    decreases fuel, SizeSeq(args), 1
  {
    if |args| == 0 {
      return Err(IndexOutOfRange);
    }
    SizeAt(args, 0);
    var cond := AstWalk2(args[0], ctx, fuel);
    if cond.Err? {
      return cond;
    }
    if |args| < 3 {
      return Err(IndexOutOfRange);
    }
    if !cond.value.Bool? {
      return Err(NotBool);
    }
    SizeAt(args, 1);
    SizeAt(args, 2);
    if cond.value.b {
      r := AstWalk2(args[1], ctx, fuel);
    } else {
      r := AstWalk2(args[2], ctx, fuel);
    }
  }

  /** The `+` builtin: a running int64 total over the arguments. */
  method Plus(args: seq<Value>, ctx: Context, fuel: nat) returns (r: Result<RValue>)
    modifies ctx
    ensures Agrees(r, ctx.vars, SumFrom(args, 0, old(ctx.vars), fuel))
    decreases fuel, SizeSeq(args), 1
  {
    ghost var c0 := ctx.vars;
    var i: int64 := 0;
    var k := 0;
    while k < |args|
      invariant 0 <= k <= |args|
      invariant SumFrom(args, 0, c0, fuel) == SumFrom(args[k..], i, ctx.vars, fuel)
    {
      SizeAt(args, k);
      assert args[k..][0] == args[k] && args[k..][1..] == args[k + 1..];
      var v := AstWalk2(args[k], ctx, fuel);
      if v.Err? {
        return v;
      }
      if !v.value.Int? {
        return Err(NotInt);
      }
      i := Add(i, v.value.n);
      k := k + 1;
    }
    assert args[k..] == [];
    return Ok(Int(i));
  }

  /** The `-` builtin: the first argument, then a running int64 difference. */
  method Minus(args: seq<Value>, ctx: Context, fuel: nat) returns (r: Result<RValue>)
    modifies ctx
    ensures Agrees(r, ctx.vars, EvalMinus(args, old(ctx.vars), fuel))
    decreases fuel, SizeSeq(args), 2
  {
    if |args| == 0 {
      return Err(IndexOutOfRange);
    }
    SizeAt(args, 0);
    var first := AstWalk2(args[0], ctx, fuel);
    if first.Err? {
      return first;
    }
    if !first.value.Int? {
      return Err(NotInt);
    }
    var i := first.value.n;
    var rest := args[1..];
    assert SizeSeq(args) == Size(args[0]) + SizeSeq(rest);
    ghost var c1 := ctx.vars;
    var k := 0;
    while k < |rest|
      invariant 0 <= k <= |rest|
      invariant DiffFrom(rest, first.value.n, c1, fuel) == DiffFrom(rest[k..], i, ctx.vars, fuel)
    {
      SizeAt(rest, k);
      assert rest[k..][0] == rest[k] && rest[k..][1..] == rest[k + 1..];
      var v := AstWalk2(rest[k], ctx, fuel);
      if v.Err? {
        return v;
      }
      if !v.value.Int? {
        return Err(NotInt);
      }
      i := Sub(i, v.value.n);
      k := k + 1;
    }
    assert rest[k..] == [];
    return Ok(Int(i));
  }

  /** The `begin` builtin: every argument in order, keeping the last value. */
  method Begin(args: seq<Value>, ctx: Context, fuel: nat) returns (r: Result<RValue>)
    modifies ctx
    ensures Agrees(r, ctx.vars, LastFrom(args, Nil, old(ctx.vars), fuel))
    decreases fuel, SizeSeq(args), 1
  {
    ghost var c0 := ctx.vars;
    var last := Nil;
    var k := 0;
    while k < |args|
      invariant 0 <= k <= |args|
      invariant LastFrom(args, Nil, c0, fuel) == LastFrom(args[k..], last, ctx.vars, fuel)
    {
      SizeAt(args, k);
      assert args[k..][0] == args[k] && args[k..][1..] == args[k + 1..];
      var v := AstWalk2(args[k], ctx, fuel);
      if v.Err? {
        return v;
      }
      last := v.value;
      k := k + 1;
    }
    assert args[k..] == [];
    return Ok(last);
  }

  /** The `func` builtin: bind a closure under its name in this very context. */
  method Func(args: seq<Value>, ctx: Context) returns (r: Result<RValue>)
    modifies ctx
    ensures Agrees(r, ctx.vars, EvalFunc(args, old(ctx.vars)))
  {
    if |args| == 0 {
      return Err(IndexOutOfRange);
    }
    if !args[0].Literal? {
      return Err(NilDereference);
    }
    var functionName := args[0].token.value;
    if |args| < 2 {
      return Err(IndexOutOfRange);
    }
    if !args[1].List? {
      return Err(NilDereference);
    }
    var params := args[1].items;
    if |args| < 3 {
      return Err(IndexOutOfRange);
    }
    if !args[2].List? {
      return Err(NilDereference);
    }
    var body := args[2].items;
    ctx.vars := ctx.vars[functionName := Closure(functionName, params, body)];
    return Ok(ctx.vars[functionName]);
  }
}
