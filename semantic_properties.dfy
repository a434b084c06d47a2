/**
 * What the evaluator of ast_walker.go guarantees, stated about the functions
 * of `Semantics`: arithmetic, sequencing, the short-circuit of `if`, the
 * precedence of builtins, positional binding in a copied context, dynamic
 * scoping, and worked examples.
 */
module SemanticProperties {
  import opened Int64
  import opened Options
  import opened Lexer
  import opened Semantics

  predicate AllInts(vs: seq<RValue>) {
    forall i :: 0 <= i < |vs| ==> vs[i].Int?
  }

  /** The exact (unwrapped) sum of integer values. */
  function Sum(vs: seq<RValue>): int
    requires AllInts(vs)
  {
    if vs == [] then 0 else vs[0].n as int + Sum(vs[1..])
  }

  function Last(vs: seq<RValue>, default: RValue): RValue {
    if vs == [] then default else vs[|vs| - 1]
  }

  /** Evaluating a list of arguments yields one value per argument. */
  lemma {:induction false} EvalArgsLength(rest: seq<Value>, ctx: Bindings, fuel: nat)
    ensures EvalArgs(rest, ctx, fuel).Ok? ==> |EvalArgs(rest, ctx, fuel).value.values| == |rest|
    decreases rest
  {
    if rest != [] {
      match Eval(rest[0], ctx, fuel)
      case Err(_) =>
      case Ok(Done(v, ctx')) => EvalArgsLength(rest[1..], ctx', fuel);
    }
  }

  /** How `AllInts` and `Sum` take apart a value in front of the rest. */
  lemma ConsInts(v: RValue, vs: seq<RValue>)
    ensures AllInts([v] + vs) <==> v.Int? && AllInts(vs)
    ensures AllInts([v] + vs) ==> Sum([v] + vs) == v.n as int + Sum(vs)
  {
    var all := [v] + vs;
    assert all[0] == v && all[1..] == vs;
    if !AllInts(vs) {
      var i :| 0 <= i < |vs| && !vs[i].Int?;
      assert all[i + 1] == vs[i];
    }
  }

  /** One step of the `+` loop: adding `n` now, wrapped, and the rest later is adding it all at once. */
  lemma SumStep(acc: int64, n: int64, vs: seq<RValue>)
    requires AllInts(vs)
    ensures Wrap(Add(acc, n) as int + Sum(vs)) == Wrap(acc as int + (n as int + Sum(vs)))
  {
    WrapAbsorbs(acc as int + n as int, Sum(vs));
  }

  /** One step of the `-` loop, likewise. */
  lemma DiffStep(acc: int64, n: int64, vs: seq<RValue>)
    requires AllInts(vs)
    ensures Wrap(Sub(acc, n) as int - Sum(vs)) == Wrap(acc as int - (n as int + Sum(vs)))
  {
    WrapAbsorbs(acc as int - n as int, -Sum(vs));
  }

  /**
   * The loop of `+` computes the int64 wrap-around of the exact sum of the
   * values that left-to-right evaluation gives; a non-integer value among
   * them, nil included, is an error, and so is a failing evaluation.
   */
  lemma {:induction false} SumFromSums(rest: seq<Value>, acc: int64, ctx: Bindings, fuel: nat)
    ensures var r := EvalArgs(rest, ctx, fuel);
            if r.Ok? then
              SumFrom(rest, acc, ctx, fuel) ==
                if AllInts(r.value.values) then Ok(Done(Int(Wrap(acc as int + Sum(r.value.values))), r.value.ctx))
                else Err(NotInt)
            else SumFrom(rest, acc, ctx, fuel).Err?
    decreases rest
  {
    if rest != [] {
      match Eval(rest[0], ctx, fuel)
      case Err(_) =>
      case Ok(Done(v, ctx')) =>
        var acc' := if v.Int? then Add(acc, v.n) else acc;
        assert EvalArgs(rest, ctx, fuel) == Prepend(v, EvalArgs(rest[1..], ctx', fuel));
        assert SumFrom(rest, acc, ctx, fuel) == if v.Int? then SumFrom(rest[1..], acc', ctx', fuel) else Err(NotInt);
        SumFromSums(rest[1..], acc', ctx', fuel);
        match EvalArgs(rest[1..], ctx', fuel)
        case Err(_) =>
        case Ok(Evaluated(vs, ctx'')) =>
          ConsInts(v, vs);
          if v.Int? && AllInts(vs) {
            SumStep(acc, v.n, vs);
          }
    }
  }

  /** `+`: zero arguments give 0; otherwise the wrapped sum of the argument values. */
  lemma Plus(args: seq<Value>, ctx: Bindings, fuel: nat)
    ensures args == [] ==> Builtin("+", args, ctx, fuel) == Ok(Done(Int(0), ctx))
    ensures var r := EvalArgs(args, ctx, fuel);
            if r.Ok? then
              Builtin("+", args, ctx, fuel) ==
                if AllInts(r.value.values) then Ok(Done(Int(Wrap(Sum(r.value.values))), r.value.ctx)) else Err(NotInt)
            else Builtin("+", args, ctx, fuel).Err?
  {
    SumFromSums(args, 0, ctx, fuel);
  }

  /** The loop of `-`: the running difference minus the exact sum of the remaining values, wrapped. */
  lemma {:induction false} DiffFromSubtracts(rest: seq<Value>, acc: int64, ctx: Bindings, fuel: nat)
    ensures var r := EvalArgs(rest, ctx, fuel);
            if r.Ok? then
              DiffFrom(rest, acc, ctx, fuel) ==
                if AllInts(r.value.values) then Ok(Done(Int(Wrap(acc as int - Sum(r.value.values))), r.value.ctx))
                else Err(NotInt)
            else DiffFrom(rest, acc, ctx, fuel).Err?
    decreases rest
  {
    if rest != [] {
      match Eval(rest[0], ctx, fuel)
      case Err(_) =>
      case Ok(Done(v, ctx')) =>
        var acc' := if v.Int? then Sub(acc, v.n) else acc;
        assert EvalArgs(rest, ctx, fuel) == Prepend(v, EvalArgs(rest[1..], ctx', fuel));
        assert DiffFrom(rest, acc, ctx, fuel) == if v.Int? then DiffFrom(rest[1..], acc', ctx', fuel) else Err(NotInt);
        DiffFromSubtracts(rest[1..], acc', ctx', fuel);
        match EvalArgs(rest[1..], ctx', fuel)
        case Err(_) =>
        case Ok(Evaluated(vs, ctx'')) =>
          ConsInts(v, vs);
          if v.Int? && AllInts(vs) {
            DiffStep(acc, v.n, vs);
          }
    }
  }

  /**
   * `-`: no argument is an error; otherwise the first value minus each of the
   * others, wrapped. In particular one argument comes back unchanged.
   */
  lemma Minus(args: seq<Value>, ctx: Bindings, fuel: nat)
    ensures args == [] ==> Builtin("-", args, ctx, fuel) == Err(IndexOutOfRange)
    ensures var r := EvalArgs(args, ctx, fuel);
            args != [] && r.Ok? ==>
              var vs := r.value.values;
              && |vs| == |args|
              && Builtin("-", args, ctx, fuel) ==
                   if AllInts(vs) then Ok(Done(Int(Wrap(vs[0].n as int - Sum(vs[1..]))), r.value.ctx)) else Err(NotInt)
    ensures EvalArgs(args, ctx, fuel).Err? ==> Builtin("-", args, ctx, fuel).Err?
  {
    EvalArgsLength(args, ctx, fuel);
    if args != [] {
      match Eval(args[0], ctx, fuel)
      case Err(_) =>
      case Ok(Done(v, ctx')) =>
        assert EvalArgs(args, ctx, fuel) == Prepend(v, EvalArgs(args[1..], ctx', fuel));
        match EvalArgs(args[1..], ctx', fuel)
        case Err(_) =>
          if v.Int? {
            DiffFromSubtracts(args[1..], v.n, ctx', fuel);
          }
        case Ok(Evaluated(vs, ctx'')) => MinusCons(args, ctx, fuel, v, ctx', vs, ctx'');
    }
  }

  /** `-` once the first argument is `v` and the others are `vs`. */
  lemma MinusCons(args: seq<Value>, ctx: Bindings, fuel: nat, v: RValue, ctx': Bindings, vs: seq<RValue>, ctx'': Bindings)
    requires args != []
    requires Eval(args[0], ctx, fuel) == Ok(Done(v, ctx'))
    requires EvalArgs(args[1..], ctx', fuel) == Ok(Evaluated(vs, ctx''))
    ensures var all := [v] + vs;
            Builtin("-", args, ctx, fuel) ==
              if AllInts(all) then Ok(Done(Int(Wrap(all[0].n as int - Sum(all[1..]))), ctx'')) else Err(NotInt)
  {
    var all := [v] + vs;
    ConsInts(v, vs);
    assert all[0] == v && all[1..] == vs;
    if v.Int? {
      DiffFromSubtracts(args[1..], v.n, ctx', fuel);
    }
  }

  /** `-` with one integer argument returns it: there is no negation. */
  lemma MinusOne(arg: Value, ctx: Bindings, fuel: nat, n: int64, ctx': Bindings)
    requires Eval(arg, ctx, fuel) == Ok(Done(Int(n), ctx'))
    ensures Builtin("-", [arg], ctx, fuel) == Ok(Done(Int(n), ctx'))
  {
    assert Builtin("-", [arg], ctx, fuel) == EvalMinus([arg], ctx, fuel);
    assert [arg][1..] == [];
  }

  /** The loop of `begin` leaves the last value computed, or the starting one if there is none. */
  lemma {:induction false} LastFromIsLast(rest: seq<Value>, last: RValue, ctx: Bindings, fuel: nat)
    ensures var r := EvalArgs(rest, ctx, fuel);
            LastFrom(rest, last, ctx, fuel) ==
              if r.Ok? then Ok(Done(Last(r.value.values, last), r.value.ctx)) else Err(r.error)
    decreases rest
  {
    if rest != [] {
      match Eval(rest[0], ctx, fuel)
      case Err(_) =>
      case Ok(Done(v, ctx')) =>
        LastFromIsLast(rest[1..], v, ctx', fuel);
    }
  }

  /**
   * `begin` evaluates its arguments in order, each in the context the previous
   * one left, and returns the last value; with no arguments it returns nil.
   */
  lemma Begin(args: seq<Value>, ctx: Bindings, fuel: nat)
    ensures var r := EvalArgs(args, ctx, fuel);
            Builtin("begin", args, ctx, fuel) ==
              if r.Ok? then Ok(Done(Last(r.value.values, Nil), r.value.ctx)) else Err(r.error)
  {
    LastFromIsLast(args, Nil, ctx, fuel);
  }

  /**
   * `if`: exactly one branch is evaluated, in the context the condition left;
   * the other branch can be anything at all.
   */
  lemma IfShortCircuits(args: seq<Value>, other: Value, ctx: Bindings, fuel: nat, b: bool, ctx': Bindings)
    requires |args| >= 3
    requires Eval(args[0], ctx, fuel) == Ok(Done(Bool(b), ctx'))
    ensures Builtin("if", args, ctx, fuel) == Eval(if b then args[1] else args[2], ctx', fuel)
    ensures var args' := if b then args[..2] + [other] + args[3..] else args[..1] + [other] + args[2..];
            Builtin("if", args', ctx, fuel) == Builtin("if", args, ctx, fuel)
  {
    var args' := if b then args[..2] + [other] + args[3..] else args[..1] + [other] + args[2..];
    assert args'[0] == args[0] && |args'| == |args|;
    assert b ==> args'[1] == args[1];
    assert !b ==> args'[2] == args[2];
  }

  /** `if` fails on a condition that is not a boolean, and on fewer than three arguments. */
  lemma IfErrors(args: seq<Value>, ctx: Bindings, fuel: nat)
    ensures args == [] ==> Builtin("if", args, ctx, fuel) == Err(IndexOutOfRange)
    ensures args != [] && Eval(args[0], ctx, fuel).Ok? ==>
            var cond := Eval(args[0], ctx, fuel).value.value;
            (|args| < 3 ==> Builtin("if", args, ctx, fuel) == Err(IndexOutOfRange)) &&
            (|args| >= 3 && !cond.Bool? ==> Builtin("if", args, ctx, fuel) == Err(NotBool))
  {
  }

  /**
   * `func` binds, in the current context, a closure carrying its name, its
   * parameter nodes and its body, overwriting any binding of that name, and
   * returns it; a later sibling in a `begin` sees it.
   */
  lemma FuncBinds(loc: nat, name: Token, params: seq<Value>, body: seq<Value>, rest: seq<Value>, ctx: Bindings, fuel: nat)
    ensures var f := Closure(name.value, params, body);
            var def := List([Literal(Token("func", Identifier, loc)), Literal(name), List(params), List(body)]);
            && Eval(def, ctx, fuel) == Ok(Done(f, ctx[name.value := f]))
            && Builtin("begin", [def] + rest, ctx, fuel) == LastFrom(rest, f, ctx[name.value := f], fuel)
  {
    var def := List([Literal(Token("func", Identifier, loc)), Literal(name), List(params), List(body)]);
    assert ([def] + rest)[1..] == rest;
    assert def.items[1..] == [Literal(name), List(params), List(body)];
    assert Eval(def, ctx, fuel) == EvalCall(def.items, ctx, fuel);
    assert EvalCall(def.items, ctx, fuel) == Builtin("func", def.items[1..], ctx, fuel);
    assert Builtin("func", def.items[1..], ctx, fuel) == EvalFunc(def.items[1..], ctx);
  }

  /**
   * A head that names a builtin selects the builtin whatever the context binds
   * to that name: the builtin gets the unevaluated tail and the caller's context.
   */
  lemma BuiltinsTakePrecedence(ast: seq<Value>, ctx: Bindings, fuel: nat)
    requires |ast| > 0 && ast[0].Literal? && ast[0].token.value in Builtins
    ensures EvalCall(ast, ctx, fuel) == Builtin(ast[0].token.value, ast[1..], ctx, fuel)
  {
  }

  /**
   * A head that is not a builtin must be bound to a closure. Its arguments are
   * evaluated left to right in the caller's context first; the call then sees
   * the caller's context as the arguments left it, and hands that context back
   * unchanged.
   */
  lemma ClosureCall(ast: seq<Value>, ctx: Bindings, fuel: nat)
    requires |ast| > 0 && ast[0].Literal? && ast[0].token.value !in Builtins
    ensures var f := Lookup(ctx, ast[0].token.value);
            var r := EvalArgs(ast[1..], ctx, fuel);
            && (!f.Closure? ==> EvalCall(ast, ctx, fuel) == Err(NotCallable(ast[0].token.value)))
            && (f.Closure? && r.Err? ==> EvalCall(ast, ctx, fuel) == Err(r.error))
            && (f.Closure? && r.Ok? ==>
                  var call := Apply(f, r.value.values, r.value.ctx, fuel);
                  EvalCall(ast, ctx, fuel) == if call.Ok? then Ok(Done(call.value, r.value.ctx)) else Err(call.error))
  {
  }

  /** An argument count that differs from the parameter count is an error naming both counts and the closure. */
  lemma ArityChecked(f: RValue, args: seq<RValue>, ctx: Bindings, fuel: nat)
    requires f.Closure? && |f.params| != |args|
    ensures Apply(f, args, ctx, fuel) == Err(ArityMismatch(|f.params|, f.name, |args|))
  {
  }

  predicate LiteralParams(params: seq<Value>) {
    forall i :: 0 <= i < |params| ==> params[i].Literal?
  }

  /** The text of parameter node `p` (a literal). */
  function ParamName(p: Value): string
    requires p.Literal?
  {
    p.token.value
  }

  /** No parameter after position `i` has the same name as the one at `i`. */
  predicate LastWithName(params: seq<Value>, i: nat)
    requires LiteralParams(params) && i < |params|
  {
    forall j :: i < j < |params| ==> ParamName(params[j]) != ParamName(params[i])
  }

  predicate NamesNoParam(params: seq<Value>, name: string)
    requires LiteralParams(params)
  {
    forall j :: 0 <= j < |params| ==> ParamName(params[j]) != name
  }

  /**
   * Parameters are bound positionally in a copy of the context: binding fails
   * exactly when a parameter node is a list; otherwise each parameter name
   * (its last occurrence, when repeated) maps to its argument and every other
   * name keeps its binding from the context.
   */
  lemma {:induction false} BindPositional(params: seq<Value>, args: seq<RValue>, ctx: Bindings)
    requires |params| == |args|
    ensures Bind(params, args, ctx).Some? <==> LiteralParams(params)
    ensures LiteralParams(params) ==>
            var child := Bind(params, args, ctx).value;
            && (forall i :: 0 <= i < |params| && LastWithName(params, i) ==>
                  ParamName(params[i]) in child && child[ParamName(params[i])] == args[i])
            && (forall name :: NamesNoParam(params, name) ==>
                  Lookup(child, name) == Lookup(ctx, name) && (name in child <==> name in ctx))
    decreases params
  {
    if params != [] {
      if !params[0].Literal? {
        assert !LiteralParams(params);
      } else {
        var ctx' := ctx[params[0].token.value := args[0]];
        BindPositional(params[1..], args[1..], ctx');
        if LiteralParams(params) {
          assert LiteralParams(params[1..]) by {
            forall i | 0 <= i < |params| - 1 ensures params[1..][i].Literal? {
              assert params[1..][i] == params[i + 1];
            }
          }
          var child := Bind(params, args, ctx).value;
          forall i | 0 <= i < |params| && LastWithName(params, i)
            ensures ParamName(params[i]) in child && child[ParamName(params[i])] == args[i]
          {
            if i > 0 {
              assert params[1..][i - 1] == params[i];
              assert LastWithName(params[1..], i - 1) by {
                forall j | i - 1 < j < |params| - 1
                  ensures ParamName(params[1..][j]) != ParamName(params[1..][i - 1])
                {
                  assert params[1..][j] == params[j + 1];
                }
              }
            } else {
              assert NamesNoParam(params[1..], ParamName(params[0])) by {
                forall j | 0 <= j < |params| - 1 ensures ParamName(params[1..][j]) != ParamName(params[0]) {
                  assert params[1..][j] == params[j + 1];
                }
              }
            }
          }
          forall name | NamesNoParam(params, name)
            ensures Lookup(child, name) == Lookup(ctx, name) && (name in child <==> name in ctx)
          {
            assert NamesNoParam(params[1..], name) by {
              forall j | 0 <= j < |params| - 1 ensures ParamName(params[1..][j]) != name {
                assert params[1..][j] == params[j + 1];
              }
            }
            assert ParamName(params[0]) != name;
          }
        } else {
          var i :| 0 <= i < |params| && !params[i].Literal?;
          assert params[1..][i - 1] == params[i];
        }
      }
    } else {
      assert LiteralParams(params);
    }
  }

  /** An integer literal the lexer produced never fails to parse for want of digits: only its size matters. */
  lemma LexedIntegerParses(source: seq<char>, k: nat, ctx: Bindings, fuel: nat)
    requires k < |LexFrom(source, 0)| && LexFrom(source, 0)[k].kind == Integer
    ensures var t := LexFrom(source, 0)[k];
            && AllDigits(t.value)
            && Eval(Literal(t), ctx, fuel) ==
               if DecimalValue(t.value) <= MaxValue then Ok(Done(Int(DecimalValue(t.value) as int64), ctx))
               else Err(NotAnInteger(t.value))
  {
    LexWellFormed(source, 0);
    var t := LexFrom(source, 0)[k];
    assert TokenFits(source, SkipSpace(source, 0), t);
    assert IsDigit(t.value[0]);
  }

  /**
   * Literals: an identifier evaluates to its binding, nil when unbound, and
   * never fails; an integer evaluates to what ParseInt64 reads, and its text
   * is the error otherwise; a syntax token reaches the list dereference. None
   * of them changes the context. A call form whose head is a list fails.
   */
  lemma Literals(t: Token, ctx: Bindings, fuel: nat, rest: seq<Value>, items: seq<Value>)
    ensures t.kind == Identifier ==>
            Eval(Literal(t), ctx, fuel) == Ok(Done(if t.value in ctx then ctx[t.value] else Nil, ctx))
    ensures t.kind == Integer ==>
            var p := ParseInt64(t.value);
            Eval(Literal(t), ctx, fuel) == if p.Some? then Ok(Done(Int(p.value), ctx)) else Err(NotAnInteger(t.value))
    ensures t.kind == Syntax ==> Eval(Literal(t), ctx, fuel) == Err(NilDereference)
    ensures EvalCall([List(items)] + rest, ctx, fuel) == Err(NilDereference)
  {
  }

  /** The decimal digits of `n`, without leading zeros. */
  function DecimalDigits(n: nat): (s: string)
    ensures |s| > 0 && AllDigits(s)
  {
    var d := ['0' + (n % 10) as char];
    if n < 10 then d else DecimalDigits(n / 10) + d
  }

  /** The text Go's strconv.FormatInt(n, 10) gives. */
  function DecimalText(n: int64): string {
    if n < 0 then "-" + DecimalDigits(-(n as int)) else DecimalDigits(n as int)
  }

  lemma {:induction false} DecimalRoundTrip(n: nat)
    ensures DecimalValue(DecimalDigits(n)) == n
  {
    var s := DecimalDigits(n);
    if n >= 10 {
      DecimalRoundTrip(n / 10);
      assert s[..|s| - 1] == DecimalDigits(n / 10);
    }
  }

  /** Every int64 is read back from its decimal text, so integer literals denote every int64. */
  lemma ParseFormat(n: int64)
    ensures ParseInt64(DecimalText(n)) == Some(n)
  {
    if n < 0 {
      DecimalRoundTrip(-(n as int));
      assert DecimalText(n)[1..] == DecimalDigits(-(n as int));
    } else {
      DecimalRoundTrip(n as int);
    }
  }
}
