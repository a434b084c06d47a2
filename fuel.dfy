/**
 * The closure-call bound `fuel` of `Semantics` only cuts evaluation short:
 * a result other than `OutOfFuel` stays the same under any larger bound.
 * So all bounds that finish agree, and the results under growing bounds
 * describe the single outcome of the unbounded Go evaluation (or its
 * divergence, when every bound runs out).
 *
 * One lemma per function of `Semantics`, each following that function's
 * own recursion and termination measure on the smaller bound `f`.
 */
module Fuel {
  import opened Int64
  import opened Options
  import opened Semantics

  lemma {:induction false} EvalMono(v: Value, ctx: Bindings, f: nat, g: nat)
    requires f <= g
    ensures Eval(v, ctx, f) != Err(OutOfFuel) ==> Eval(v, ctx, g) == Eval(v, ctx, f)
    decreases f, Size(v), 0
  {
    match v
    case Literal(_) =>
    case List(items) => EvalCallMono(items, ctx, f, g);
  }

  lemma {:induction false} EvalCallMono(ast: seq<Value>, ctx: Bindings, f: nat, g: nat)
    requires f <= g
    ensures EvalCall(ast, ctx, f) != Err(OutOfFuel) ==> EvalCall(ast, ctx, g) == EvalCall(ast, ctx, f)
    decreases f, SizeSeq(ast), 2
  {
    if |ast| > 0 && ast[0].Literal? {
      var name := ast[0].token.value;
      if name in Builtins {
        BuiltinMono(name, ast[1..], ctx, f, g);
      } else {
        var fn := Lookup(ctx, name);
        if fn.Closure? {
          EvalArgsMono(ast[1..], ctx, f, g);
          match EvalArgs(ast[1..], ctx, f)
          case Err(_) =>
          case Ok(Evaluated(args, ctx')) => ApplyMono(fn, args, ctx', f, g);
        }
      }
    }
  }

  lemma {:induction false} BuiltinMono(name: string, args: seq<Value>, ctx: Bindings, f: nat, g: nat)
    requires name in Builtins && f <= g
    ensures Builtin(name, args, ctx, f) != Err(OutOfFuel) ==> Builtin(name, args, ctx, g) == Builtin(name, args, ctx, f)
    decreases f, SizeSeq(args), 3
  {
    if name == "if" {
      EvalIfMono(args, ctx, f, g);
    } else if name == "+" {
      SumFromMono(args, 0, ctx, f, g);
    } else if name == "-" {
      EvalMinusMono(args, ctx, f, g);
    } else if name == "begin" {
      LastFromMono(args, Nil, ctx, f, g);
    }
  }

  lemma {:induction false} EvalIfMono(args: seq<Value>, ctx: Bindings, f: nat, g: nat)
    requires f <= g
    ensures EvalIf(args, ctx, f) != Err(OutOfFuel) ==> EvalIf(args, ctx, g) == EvalIf(args, ctx, f)
    decreases f, SizeSeq(args), 1
  {
    if |args| > 0 {
      SizeAt(args, 0);
      EvalMono(args[0], ctx, f, g);
      match Eval(args[0], ctx, f)
      case Err(_) =>
      case Ok(Done(cond, ctx')) =>
        if |args| >= 3 && cond.Bool? {
          SizeAt(args, 1);
          SizeAt(args, 2);
          EvalMono(args[1], ctx', f, g);
          EvalMono(args[2], ctx', f, g);
        }
    }
  }

  lemma {:induction false} SumFromMono(rest: seq<Value>, acc: int64, ctx: Bindings, f: nat, g: nat)
    requires f <= g
    ensures SumFrom(rest, acc, ctx, f) != Err(OutOfFuel) ==> SumFrom(rest, acc, ctx, g) == SumFrom(rest, acc, ctx, f)
    decreases f, SizeSeq(rest), 1
  {
    if rest != [] {
      EvalMono(rest[0], ctx, f, g);
      match Eval(rest[0], ctx, f)
      case Err(_) =>
      case Ok(Done(v, ctx')) =>
        if v.Int? {
          SumFromMono(rest[1..], Add(acc, v.n), ctx', f, g);
        }
    }
  }

  lemma {:induction false} EvalMinusMono(args: seq<Value>, ctx: Bindings, f: nat, g: nat)
    requires f <= g
    ensures EvalMinus(args, ctx, f) != Err(OutOfFuel) ==> EvalMinus(args, ctx, g) == EvalMinus(args, ctx, f)
    decreases f, SizeSeq(args), 2
  {
    if |args| > 0 {
      EvalMono(args[0], ctx, f, g);
      match Eval(args[0], ctx, f)
      case Err(_) =>
      case Ok(Done(v, ctx')) =>
        if v.Int? {
          DiffFromMono(args[1..], v.n, ctx', f, g);
        }
    }
  }

  lemma {:induction false} DiffFromMono(rest: seq<Value>, acc: int64, ctx: Bindings, f: nat, g: nat)
    requires f <= g
    ensures DiffFrom(rest, acc, ctx, f) != Err(OutOfFuel) ==> DiffFrom(rest, acc, ctx, g) == DiffFrom(rest, acc, ctx, f)
    decreases f, SizeSeq(rest), 1
  {
    if rest != [] {
      EvalMono(rest[0], ctx, f, g);
      match Eval(rest[0], ctx, f)
      case Err(_) =>
      case Ok(Done(v, ctx')) =>
        if v.Int? {
          DiffFromMono(rest[1..], Sub(acc, v.n), ctx', f, g);
        }
    }
  }

  lemma {:induction false} LastFromMono(rest: seq<Value>, last: RValue, ctx: Bindings, f: nat, g: nat)
    requires f <= g
    ensures LastFrom(rest, last, ctx, f) != Err(OutOfFuel) ==> LastFrom(rest, last, ctx, g) == LastFrom(rest, last, ctx, f)
    decreases f, SizeSeq(rest), 1
  {
    if rest != [] {
      EvalMono(rest[0], ctx, f, g);
      match Eval(rest[0], ctx, f)
      case Err(_) =>
      case Ok(Done(v, ctx')) => LastFromMono(rest[1..], v, ctx', f, g);
    }
  }

  lemma {:induction false} EvalArgsMono(rest: seq<Value>, ctx: Bindings, f: nat, g: nat)
    requires f <= g
    ensures EvalArgs(rest, ctx, f) != Err(OutOfFuel) ==> EvalArgs(rest, ctx, g) == EvalArgs(rest, ctx, f)
    decreases f, SizeSeq(rest), 1
  {
    if rest != [] {
      EvalMono(rest[0], ctx, f, g);
      match Eval(rest[0], ctx, f)
      case Err(_) =>
      case Ok(Done(v, ctx')) => EvalArgsMono(rest[1..], ctx', f, g);
    }
  }

  lemma {:induction false} ApplyMono(fn: RValue, args: seq<RValue>, ctx: Bindings, f: nat, g: nat)
    requires fn.Closure? && f <= g
    ensures Apply(fn, args, ctx, f) != Err(OutOfFuel) ==> Apply(fn, args, ctx, g) == Apply(fn, args, ctx, f)
    decreases f, 0, 3
  {
    if |fn.params| == |args| && f > 0 {
      match Bind(fn.params, args, ctx)
      case None =>
      case Some(child) => EvalCallMono(fn.body, child, f - 1, g - 1);
    }
  }

  /** Two bounds under which a node finishes give the same result. */
  lemma EvalDeterminate(v: Value, ctx: Bindings, f: nat, g: nat)
    ensures Eval(v, ctx, f) != Err(OutOfFuel) && Eval(v, ctx, g) != Err(OutOfFuel) ==>
            Eval(v, ctx, f) == Eval(v, ctx, g)
  {
    if f <= g {
      EvalMono(v, ctx, f, g);
    } else {
      EvalMono(v, ctx, g, f);
    }
  }
}
