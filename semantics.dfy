/**
 * The meaning of ast_walker.go as functions: `Eval` is astWalk2 (one tree
 * node), `EvalCall` is astWalk (a call form), and one function per builtin.
 * The context that `func` mutates in place is threaded through: every
 * successful evaluation returns the value together with the context after it.
 * A panic or a failed type assertion of the original is an `Err` result.
 *
 * User recursion may diverge, so every closure invocation spends one unit of
 * `fuel`; everything else recurses on the structure of the tree.
 */
module Semantics {
  import opened Int64
  import opened Options
  import opened Lexer

  /** A tree node: one literal token, or a list of nodes. */
  datatype Value = Literal(token: Token) | List(items: seq<Value>)

  /**
   * A runtime value: Go's `any` holding an `int64`, a `bool` or a user closure,
   * or Go's nil (the zero value that looking up an unbound name gives).
   * A closure is its name, its parameter nodes and its body call form.
   */
  datatype RValue =
    | Int(n: int64)
    | Bool(b: bool)
    | Closure(name: string, params: seq<Value>, body: seq<Value>)
    | Nil

  /** A context: names to runtime values. */
  type Bindings = map<string, RValue>

  datatype Error =
    | IndexOutOfRange                                   // `args[k]` or `ast[0]` past the end
    | NilDereference                                    // `*v.literal` on a list, `*v.list` on a literal
    | NotBool                                           // `condition.(bool)` failed
    | NotInt                                            // `.(int64)` failed
    | NotCallable(name: string)                         // `ctx[name].(func…)` failed
    | ArityMismatch(expected: nat, name: string, got: nat)
    | NotAnInteger(text: string)                        // strconv.ParseInt failed
    | OutOfFuel                                         // the closure-call bound was reached

  datatype Result<+T> = Ok(value: T) | Err(error: Error)

  /** A value and the context after computing it. */
  datatype Done = Done(value: RValue, ctx: Bindings)

  /** Argument values, left to right, and the context after computing them. */
  datatype Evaluated = Evaluated(values: seq<RValue>, ctx: Bindings)

  /** The builtin table, populated once before evaluation starts. */
  const Builtins: set<string> := {"if", "+", "-", "begin", "func"}

  /** `ctx[name]` in Go: the bound value, or nil when the name is unbound. */
  function Lookup(ctx: Bindings, name: string): RValue {
    if name in ctx then ctx[name] else Nil
  }

  predicate AllDigits(s: string) {
    forall i :: 0 <= i < |s| ==> IsDigit(s[i])
  }

  /** The number a string of decimal digits denotes. */
  function DecimalValue(ds: string): nat
    requires AllDigits(ds)
  {
    if ds == [] then 0 else 10 * DecimalValue(ds[..|ds| - 1]) + (ds[|ds| - 1] as int - '0' as int)
  }

  /**
   * strconv.ParseInt(s, 10, 64): an optional sign, at least one decimal digit
   * and nothing else, denoting a number in the int64 range.
   */
  function ParseInt64(s: string): Option<int64> {
    if |s| > 0 && (s[0] == '+' || s[0] == '-') then
      var digits := s[1..];
      if digits == [] || !AllDigits(digits) then None
      else
        var v: int := if s[0] == '-' then -(DecimalValue(digits) as int) else DecimalValue(digits);
        if InRange(v) then Some(v as int64) else None
    else if s == [] || !AllDigits(s) then None
    else if DecimalValue(s) <= MaxValue then Some(DecimalValue(s) as int64)
    else None
  }

  /** Tree sizes, for the termination argument. */
  function Size(v: Value): (n: nat)
    ensures n >= 1
  {
    match v
    case Literal(_) => 1
    case List(items) => 1 + SizeSeq(items)
  }

  function SizeSeq(vs: seq<Value>): nat {
    if vs == [] then 0 else Size(vs[0]) + SizeSeq(vs[1..])
  }

  lemma {:induction false} SizeAt(vs: seq<Value>, i: nat)
    requires i < |vs|
    ensures Size(vs[i]) <= SizeSeq(vs)
  {
    if i > 0 {
      SizeAt(vs[1..], i - 1);
    }
  }

  /** astWalk2: a literal's value, or a list evaluated as a call form. */
  function Eval(v: Value, ctx: Bindings, fuel: nat): Result<Done>
    decreases fuel, Size(v), 0
  {
    match v
    case Literal(t) =>
      if t.kind == Integer then
        match ParseInt64(t.value)
        case Some(n) => Ok(Done(Int(n), ctx))
        case None => Err(NotAnInteger(t.value))
      else if t.kind == Identifier then
        Ok(Done(Lookup(ctx, t.value), ctx))
      else
        // A syntax token falls out of the switch and reaches `*v.list`.
        Err(NilDereference)
    case List(items) => EvalCall(items, ctx, fuel)
  }

  /**
   * astWalk: the head names a builtin, which gets the unevaluated tail, or a
   * closure in the context, which gets the tail's values and the caller's
   * context. The caller's context after the call is the one the arguments
   * left: the closure works in a copy.
   */
  function EvalCall(ast: seq<Value>, ctx: Bindings, fuel: nat): Result<Done>
    decreases fuel, SizeSeq(ast), 2
  {
    if |ast| == 0 then Err(IndexOutOfRange)
    else if !ast[0].Literal? then Err(NilDereference)
    else
      var name := ast[0].token.value;
      if name in Builtins then Builtin(name, ast[1..], ctx, fuel)
      else
        var f := Lookup(ctx, name);
        if !f.Closure? then Err(NotCallable(name))
        else
          match EvalArgs(ast[1..], ctx, fuel)
          case Err(e) => Err(e)
          case Ok(Evaluated(args, ctx')) =>
            match Apply(f, args, ctx', fuel)
            case Err(e) => Err(e)
            case Ok(r) => Ok(Done(r, ctx'))
  }

  /** The builtin named `name`, given its unevaluated arguments. */
  function Builtin(name: string, args: seq<Value>, ctx: Bindings, fuel: nat): Result<Done>
    requires name in Builtins
    decreases fuel, SizeSeq(args), 3
  {
    if name == "if" then EvalIf(args, ctx, fuel)
    else if name == "+" then SumFrom(args, 0, ctx, fuel)
    else if name == "-" then EvalMinus(args, ctx, fuel)
    else if name == "begin" then LastFrom(args, Nil, ctx, fuel)
    else EvalFunc(args, ctx)
  }

  /** `if`: the condition, then the branch it selects; it indexes `args[1]` and `args[2]` either way. */
  function EvalIf(args: seq<Value>, ctx: Bindings, fuel: nat): Result<Done>
    decreases fuel, SizeSeq(args), 1
  {
    if |args| == 0 then Err(IndexOutOfRange)
    else
      SizeAt(args, 0);
      match Eval(args[0], ctx, fuel)
      case Err(e) => Err(e)
      case Ok(Done(cond, ctx')) =>
        if |args| < 3 then Err(IndexOutOfRange)
        else if !cond.Bool? then Err(NotBool)
        else
          SizeAt(args, 1);
          SizeAt(args, 2);
          if cond.b then Eval(args[1], ctx', fuel) else Eval(args[2], ctx', fuel)
  }

  /** The loop of `+` from the remaining arguments `rest` on, with running total `acc`. */
  function SumFrom(rest: seq<Value>, acc: int64, ctx: Bindings, fuel: nat): Result<Done>
    decreases fuel, SizeSeq(rest), 1
  {
    if rest == [] then Ok(Done(Int(acc), ctx))
    else
      match Eval(rest[0], ctx, fuel)
      case Err(e) => Err(e)
      case Ok(Done(v, ctx')) =>
        if v.Int? then SumFrom(rest[1..], Add(acc, v.n), ctx', fuel) else Err(NotInt)
  }

  /** `-`: the first argument, then the loop subtracting the others. */
  function EvalMinus(args: seq<Value>, ctx: Bindings, fuel: nat): Result<Done>
    decreases fuel, SizeSeq(args), 2
  {
    if |args| == 0 then Err(IndexOutOfRange)
    else
      match Eval(args[0], ctx, fuel)
      case Err(e) => Err(e)
      case Ok(Done(v, ctx')) =>
        if v.Int? then DiffFrom(args[1..], v.n, ctx', fuel) else Err(NotInt)
  }

  /** The loop of `-` over the remaining arguments `rest`, with running difference `acc`. */
  function DiffFrom(rest: seq<Value>, acc: int64, ctx: Bindings, fuel: nat): Result<Done>
    decreases fuel, SizeSeq(rest), 1
  {
    if rest == [] then Ok(Done(Int(acc), ctx))
    else
      match Eval(rest[0], ctx, fuel)
      case Err(e) => Err(e)
      case Ok(Done(v, ctx')) =>
        if v.Int? then DiffFrom(rest[1..], Sub(acc, v.n), ctx', fuel) else Err(NotInt)
  }

  /** The loop of `begin`: `last` is the most recent value (Go's nil before the first). */
  function LastFrom(rest: seq<Value>, last: RValue, ctx: Bindings, fuel: nat): Result<Done>
    decreases fuel, SizeSeq(rest), 1
  {
    if rest == [] then Ok(Done(last, ctx))
    else
      match Eval(rest[0], ctx, fuel)
      case Err(e) => Err(e)
      case Ok(Done(v, ctx')) => LastFrom(rest[1..], v, ctx', fuel)
  }

  /**
   * `func name (params…) (body…)`: binds the closure under `name` in the
   * current context, overwriting any earlier binding, and returns it.
   */
  function EvalFunc(args: seq<Value>, ctx: Bindings): Result<Done> {
    if |args| == 0 then Err(IndexOutOfRange)
    else if !args[0].Literal? then Err(NilDereference)
    else if |args| < 2 then Err(IndexOutOfRange)
    else if !args[1].List? then Err(NilDereference)
    else if |args| < 3 then Err(IndexOutOfRange)
    else if !args[2].List? then Err(NilDereference)
    else
      var f := Closure(args[0].token.value, args[1].items, args[2].items);
      Ok(Done(f, ctx[args[0].token.value := f]))
  }

  /** The argument loop of astWalk: evaluate `rest` left to right, threading the context. */
  function EvalArgs(rest: seq<Value>, ctx: Bindings, fuel: nat): Result<Evaluated>
    decreases fuel, SizeSeq(rest), 1
  {
    if rest == [] then Ok(Evaluated([], ctx))
    else
      match Eval(rest[0], ctx, fuel)
      case Err(e) => Err(e)
      case Ok(Done(v, ctx')) => Prepend(v, EvalArgs(rest[1..], ctx', fuel))
  }

  function Prepend(v: RValue, r: Result<Evaluated>): Result<Evaluated> {
    match r
    case Err(e) => Err(e)
    case Ok(Evaluated(vs, ctx)) => Ok(Evaluated([v] + vs, ctx))
  }

  /** The parameter loop of a closure: each parameter node's text bound, in order, to its argument. */
  function Bind(params: seq<Value>, args: seq<RValue>, ctx: Bindings): Option<Bindings>
    requires |params| == |args|
  {
    if params == [] then Some(ctx)
    else if !params[0].Literal? then None
    else Bind(params[1..], args[1..], ctx[params[0].token.value := args[0]])
  }

  /**
   * Calling closure `f`: the arity check, the parameters bound in a copy of
   * the caller's context `ctx`, then the body as one call form.
   */
  function Apply(f: RValue, args: seq<RValue>, ctx: Bindings, fuel: nat): Result<RValue>
    requires f.Closure?
    decreases fuel, 0, 3
  {
    if |f.params| != |args| then Err(ArityMismatch(|f.params|, f.name, |args|))
    else
      match Bind(f.params, args, ctx)
      case None => Err(NilDereference)
      case Some(child) =>
        if fuel == 0 then Err(OutOfFuel)
        else
          match EvalCall(f.body, child, fuel - 1)
          case Err(e) => Err(e)
          case Ok(d) => Ok(d.value)
  }
}
