/**
 * Worked evaluations: the examples in the comments of ast_walker.go, and
 * programs that show how `func`, dynamic scoping, builtin precedence, the
 * arity check and divergence behave.
 */
module SemanticExamples {
  import opened Options
  import opened Lexer
  import opened Semantics
  import opened SemanticProperties

  function Name(s: string): Value {
    Literal(Token(s, Identifier, 0))
  }

  function Number(s: string): Value {
    Literal(Token(s, Integer, 0))
  }

  /** `( + 13 ( - 12 1 ) )` is 24. */
  lemma ArithmeticExample(fuel: nat)
    ensures Eval(List([Name("+"), Number("13"), List([Name("-"), Number("12"), Number("1")])]), map[], fuel)
            == Ok(Done(Int(24), map[]))
  {
    var inner := [Name("-"), Number("12"), Number("1")];
    assert DecimalValue("12") == 12 by {
      assert "12"[..1] == "1";
    }
    assert DecimalValue("13") == 13 by {
      assert "13"[..1] == "1";
    }
    assert Eval(Number("12"), map[], fuel) == Ok(Done(Int(12), map[]));
    assert Eval(Number("1"), map[], fuel) == Ok(Done(Int(1), map[]));
    assert Eval(Number("13"), map[], fuel) == Ok(Done(Int(13), map[]));
    var args := [Number("12"), Number("1")];
    assert inner[1..] == args && args[1..] == [Number("1")];
    assert DiffFrom(args[1..], 12, map[], fuel) == Ok(Done(Int(11), map[]));
    assert EvalMinus(args, map[], fuel) == Ok(Done(Int(11), map[]));
    assert Builtin("-", args, map[], fuel) == EvalMinus(args, map[], fuel);
    assert EvalCall(inner, map[], fuel) == Builtin("-", args, map[], fuel);
    assert Eval(List(inner), map[], fuel) == Ok(Done(Int(11), map[]));
    var outer := [Number("13"), List(inner)];
    assert outer[1..] == [List(inner)];
    assert SumFrom(outer[1..], 13, map[], fuel) == Ok(Done(Int(24), map[]));
    assert SumFrom(outer, 0, map[], fuel) == Ok(Done(Int(24), map[]));
    var whole := [Name("+"), Number("13"), List(inner)];
    assert whole[1..] == outer;
    assert Builtin("+", outer, map[], fuel) == SumFrom(outer, 0, map[], fuel);
    assert EvalCall(whole, map[], fuel) == Builtin("+", outer, map[], fuel);
  }

  /** The example file `( + 12 2 ) ( - 11 1 )`, wrapped in `begin`, is 10. */
  lemma BeginExample(fuel: nat)
    ensures Eval(List([Name("begin"), List([Name("+"), Number("12"), Number("2")]),
                                      List([Name("-"), Number("11"), Number("1")])]), map[], fuel)
            == Ok(Done(Int(10), map[]))
  {
    var first := [Name("+"), Number("12"), Number("2")];
    var second := [Name("-"), Number("11"), Number("1")];
    assert DecimalValue("12") == 12 by {
      assert "12"[..1] == "1";
    }
    assert DecimalValue("11") == 11 by {
      assert "11"[..1] == "1";
    }
    assert Eval(Number("12"), map[], fuel) == Ok(Done(Int(12), map[]));
    assert Eval(Number("11"), map[], fuel) == Ok(Done(Int(11), map[]));
    assert Eval(Number("2"), map[], fuel) == Ok(Done(Int(2), map[]));
    assert Eval(Number("1"), map[], fuel) == Ok(Done(Int(1), map[]));

    assert first[1..] == [Number("12"), Number("2")] && first[1..][1..] == [Number("2")];
    assert SumFrom(first[1..][1..], 12, map[], fuel) == Ok(Done(Int(14), map[]));
    assert Builtin("+", first[1..], map[], fuel) == SumFrom(first[1..], 0, map[], fuel);
    assert EvalCall(first, map[], fuel) == Builtin("+", first[1..], map[], fuel);
    assert Eval(List(first), map[], fuel) == Ok(Done(Int(14), map[]));

    assert second[1..] == [Number("11"), Number("1")] && second[1..][1..] == [Number("1")];
    assert DiffFrom(second[1..][1..], 11, map[], fuel) == Ok(Done(Int(10), map[]));
    assert Builtin("-", second[1..], map[], fuel) == EvalMinus(second[1..], map[], fuel);
    assert EvalCall(second, map[], fuel) == Builtin("-", second[1..], map[], fuel);
    assert Eval(List(second), map[], fuel) == Ok(Done(Int(10), map[]));

    var body := [List(first), List(second)];
    assert body[1..] == [List(second)];
    assert LastFrom(body[1..], Int(14), map[], fuel) == Ok(Done(Int(10), map[]));
    assert LastFrom(body, Nil, map[], fuel) == Ok(Done(Int(10), map[]));
    var program := [Name("begin"), List(first), List(second)];
    assert program[1..] == body;
    assert Builtin("begin", body, map[], fuel) == LastFrom(body, Nil, map[], fuel);
    assert EvalCall(program, map[], fuel) == Builtin("begin", body, map[], fuel);
  }

  /** `(func name (params…) (body…))` as a tree. */
  function Def(name: string, params: seq<Value>, body: seq<Value>): Value {
    List([Name("func"), Name(name), List(params), List(body)])
  }

  /** The body of `( + x 1 )` evaluated where `x` is 5 is 6. */
  lemma IncrementBody(ctx: Bindings, fuel: nat)
    requires Lookup(ctx, "x") == Int(5)
    ensures EvalCall([Name("+"), Name("x"), Number("1")], ctx, fuel) == Ok(Done(Int(6), ctx))
  {
    var body := [Name("+"), Name("x"), Number("1")];
    var args := body[1..];
    assert args == [Name("x"), Number("1")] && args[1..] == [Number("1")];
    assert Eval(Number("1"), ctx, fuel) == Ok(Done(Int(1), ctx));
    assert SumFrom(args[1..], 5, ctx, fuel) == Ok(Done(Int(6), ctx));
    assert SumFrom(args, 0, ctx, fuel) == Ok(Done(Int(6), ctx));
    assert Builtin("+", args, ctx, fuel) == SumFrom(args, 0, ctx, fuel);
  }

  /**
   * `(begin (func f (x) (+ x 1)) (f 5))` is 6 and leaves `f` bound; the
   * parameter `x` lived only in the call's copy of the context, so a trailing
   * `x` is nil, not an error.
   */
  lemma FuncExample(fuel: nat)
    requires fuel >= 1
    ensures var f := Closure("f", [Name("x")], [Name("+"), Name("x"), Number("1")]);
            var def := Def("f", [Name("x")], [Name("+"), Name("x"), Number("1")]);
            && Eval(List([Name("begin"), def, List([Name("f"), Number("5")])]), map[], fuel)
               == Ok(Done(Int(6), map["f" := f]))
            && Eval(List([Name("begin"), def, List([Name("f"), Number("5")]), Name("x")]), map[], fuel)
               == Ok(Done(Nil, map["f" := f]))
  {
    var params := [Name("x")];
    var body := [Name("+"), Name("x"), Number("1")];
    var f := Closure("f", params, body);
    var def := Def("f", params, body);
    var ctx1 := map["f" := f];
    var call := [Name("f"), Number("5")];

    assert call[1..] == [Number("5")] && call[1..][1..] == [] && [Int(5)] + [] == [Int(5)];
    assert Eval(Number("5"), ctx1, fuel) == Ok(Done(Int(5), ctx1));
    assert EvalArgs(call[1..], ctx1, fuel) == Ok(Evaluated([Int(5)], ctx1));
    var child := ctx1["x" := Int(5)];
    assert params[1..] == [] && [Int(5)][1..] == [];
    assert Bind(params, [Int(5)], ctx1) == Some(child);
    IncrementBody(child, fuel - 1);
    assert Apply(f, [Int(5)], ctx1, fuel) == Ok(Int(6));
    ClosureCall(call, ctx1, fuel);
    assert Eval(List(call), ctx1, fuel) == Ok(Done(Int(6), ctx1));

    var rest := [List(call)];
    FuncBinds(0, Token("f", Identifier, 0), params, body, rest, map[], fuel);
    assert rest[1..] == [];
    assert [Name("begin"), def, List(call)][1..] == [def] + rest;

    var rest' := [List(call), Name("x")];
    FuncBinds(0, Token("f", Identifier, 0), params, body, rest', map[], fuel);
    assert rest'[1..] == [Name("x")] && rest'[1..][1..] == [];
    assert Eval(Name("x"), ctx1, fuel) == Ok(Done(Nil, ctx1));
    assert LastFrom(rest'[1..], Int(6), ctx1, fuel) == Ok(Done(Nil, ctx1));
    assert LastFrom(rest', f, ctx1, fuel) == Ok(Done(Nil, ctx1));
    assert [Name("begin"), def, List(call), Name("x")][1..] == [def] + rest';
  }

  function G(): RValue {
    Closure("g", [], [Name("+"), Name("y"), Number("0")])
  }

  function H(): RValue {
    Closure("h", [Name("y")], [Name("g")])
  }

  /** The body `( + y 0 )` of `g` is the value of `y`, an error when `y` is nil. */
  lemma GBody(ctx: Bindings, fuel: nat)
    ensures Lookup(ctx, "y") == Int(7) ==> EvalCall(G().body, ctx, fuel) == Ok(Done(Int(7), ctx))
    ensures Lookup(ctx, "y") == Nil ==> EvalCall(G().body, ctx, fuel) == Err(NotInt)
  {
    var body := G().body;
    var sum := body[1..];
    assert sum == [Name("y"), Number("0")] && sum[1..] == [Number("0")] && sum[1..][1..] == [];
    assert EvalCall(body, ctx, fuel) == Builtin("+", sum, ctx, fuel);
    assert Builtin("+", sum, ctx, fuel) == SumFrom(sum, 0, ctx, fuel);
    assert Eval(Name("y"), ctx, fuel) == Ok(Done(Lookup(ctx, "y"), ctx));
    assert Eval(Number("0"), ctx, fuel) == Ok(Done(Int(0), ctx));
    if Lookup(ctx, "y") == Int(7) {
      assert SumFrom(sum[1..][1..], 7, ctx, fuel) == Ok(Done(Int(7), ctx));
      assert SumFrom(sum[1..], 7, ctx, fuel) == Ok(Done(Int(7), ctx));
      assert SumFrom(sum, 0, ctx, fuel) == Ok(Done(Int(7), ctx));
    } else if Lookup(ctx, "y") == Nil {
      assert SumFrom(sum, 0, ctx, fuel) == Err(NotInt);
    }
  }

  /** `(g)`: a call with no arguments that runs the body of `g` in a copy of the caller's context. */
  lemma CallG(ctx: Bindings, fuel: nat)
    requires Lookup(ctx, "g") == G() && fuel >= 1
    ensures Lookup(ctx, "y") == Int(7) ==> EvalCall([Name("g")], ctx, fuel) == Ok(Done(Int(7), ctx))
    ensures Lookup(ctx, "y") == Nil ==> EvalCall([Name("g")], ctx, fuel) == Err(NotInt)
  {
    assert [Name("g")][1..] == [];
    assert Bind([], [], ctx) == Some(ctx);
    GBody(ctx, fuel - 1);
    ClosureCall([Name("g")], ctx, fuel);
  }

  /** `(h 7)`: `h` binds `y` to 7 in its copy of the context and calls `g` there. */
  lemma CallH(ctx: Bindings, fuel: nat)
    requires Lookup(ctx, "h") == H() && Lookup(ctx, "g") == G() && fuel >= 2
    ensures EvalCall([Name("h"), Number("7")], ctx, fuel) == Ok(Done(Int(7), ctx))
  {
    var callH := [Name("h"), Number("7")];
    assert callH[1..] == [Number("7")] && callH[1..][1..] == [] && [Int(7)] + [] == [Int(7)];
    assert Eval(Number("7"), ctx, fuel) == Ok(Done(Int(7), ctx));
    assert EvalArgs(callH[1..], ctx, fuel) == Ok(Evaluated([Int(7)], ctx));
    var child := ctx["y" := Int(7)];
    assert [Name("y")][1..] == [] && [Int(7)][1..] == [];
    assert Bind([Name("y")], [Int(7)], ctx) == Some(child);
    CallG(child, fuel - 1);
    assert Apply(H(), [Int(7)], ctx, fuel) == Ok(Int(7));
    ClosureCall(callH, ctx, fuel);
  }

  /**
   * Scoping is dynamic: in `(begin (func g () (+ y 0)) (func h (y) (g)) (h 7))`
   * the body of `g` sees the `y` of its caller `h`, so the program is 7; called
   * from the top level, where `y` is unbound (nil), `g` fails on `+`.
   */
  lemma DynamicScopeExample(fuel: nat)
    requires fuel >= 2
    ensures var ctx := map["g" := G(), "h" := H()];
            && Eval(List([Name("begin"), Def("g", [], G().body), Def("h", H().params, H().body),
                          List([Name("h"), Number("7")])]), map[], fuel)
               == Ok(Done(Int(7), ctx))
            && EvalCall([Name("g")], ctx, fuel) == Err(NotInt)
  {
    var ctxG := map["g" := G()];
    var ctx := ctxG["h" := H()];
    assert ctx == map["g" := G(), "h" := H()];
    var callH := [Name("h"), Number("7")];
    CallH(ctx, fuel);
    CallG(ctx, fuel);
    var rest := [Def("h", H().params, H().body), List(callH)];
    FuncBinds(0, Token("g", Identifier, 0), [], G().body, rest, map[], fuel);
    FuncBinds(0, Token("h", Identifier, 0), H().params, H().body, [], ctxG, fuel);
    assert rest[1..] == [List(callH)] && rest[1..][1..] == [];
    assert LastFrom(rest[1..], H(), ctx, fuel) == Ok(Done(Int(7), ctx));
    assert [Name("begin"), Def("g", [], G().body), Def("h", H().params, H().body), List(callH)][1..]
        == [Def("g", [], G().body)] + rest;
  }

  /** `(begin (func f (a b) (+ a b)) (f 1))` fails the arity check: 2 expected by `f`, 1 given. */
  lemma ArityExample(fuel: nat)
    ensures Eval(List([Name("begin"), Def("f", [Name("a"), Name("b")], [Name("+"), Name("a"), Name("b")]),
                       List([Name("f"), Number("1")])]), map[], fuel)
            == Err(ArityMismatch(2, "f", 1))
  {
    var params := [Name("a"), Name("b")];
    var body := [Name("+"), Name("a"), Name("b")];
    var f := Closure("f", params, body);
    var ctx := map["f" := f];
    var call := [Name("f"), Number("1")];
    assert call[1..] == [Number("1")] && call[1..][1..] == [] && [Int(1)] + [] == [Int(1)];
    assert Eval(Number("1"), ctx, fuel) == Ok(Done(Int(1), ctx));
    assert EvalArgs(call[1..], ctx, fuel) == Ok(Evaluated([Int(1)], ctx));
    ClosureCall(call, ctx, fuel);
    var rest := [List(call)];
    FuncBinds(0, Token("f", Identifier, 0), params, body, rest, map[], fuel);
    assert rest[1..] == [];
    assert [Name("begin"), Def("f", params, body), List(call)][1..] == [Def("f", params, body)] + rest;
  }

  /**
   * `(begin (func + (x) (- x 1)) (+ 5))` is 5: `func` does bind `+` in the
   * context, but the head `+` still selects the builtin.
   */
  lemma PrecedenceExample(fuel: nat)
    ensures var plus := Closure("+", [Name("x")], [Name("-"), Name("x"), Number("1")]);
            Eval(List([Name("begin"), Def("+", plus.params, plus.body), List([Name("+"), Number("5")])]), map[], fuel)
            == Ok(Done(Int(5), map["+" := plus]))
  {
    var plus := Closure("+", [Name("x")], [Name("-"), Name("x"), Number("1")]);
    var ctx := map["+" := plus];
    var call := [Name("+"), Number("5")];
    assert call[1..] == [Number("5")] && call[1..][1..] == [];
    assert Eval(Number("5"), ctx, fuel) == Ok(Done(Int(5), ctx));
    assert SumFrom(call[1..], 0, ctx, fuel) == Ok(Done(Int(5), ctx));
    BuiltinsTakePrecedence(call, ctx, fuel);
    assert Builtin("+", call[1..], ctx, fuel) == SumFrom(call[1..], 0, ctx, fuel);
    var rest := [List(call)];
    FuncBinds(0, Token("+", Identifier, 0), plus.params, plus.body, rest, map[], fuel);
    assert rest[1..] == [];
    assert [Name("begin"), Def("+", plus.params, plus.body), List(call)][1..] == [Def("+", plus.params, plus.body)] + rest;
  }

  function Loop(): RValue {
    Closure("loop", [], [Name("loop")])
  }

  /** `(loop)`, where `loop` calls itself, exhausts any closure-call bound. */
  lemma {:induction false} LoopDiverges(ctx: Bindings, fuel: nat)
    requires Lookup(ctx, "loop") == Loop()
    ensures EvalCall([Name("loop")], ctx, fuel) == Err(OutOfFuel)
    decreases fuel
  {
    assert [Name("loop")][1..] == [];
    assert Bind([], [], ctx) == Some(ctx);
    if fuel > 0 {
      LoopDiverges(ctx, fuel - 1);
    }
    ClosureCall([Name("loop")], ctx, fuel);
  }

  /** `(begin (func loop () (loop)) (loop))` never produces a value. */
  lemma DivergenceExample(fuel: nat)
    ensures Eval(List([Name("begin"), Def("loop", [], Loop().body), List(Loop().body)]), map[], fuel) == Err(OutOfFuel)
  {
    var ctx := map["loop" := Loop()];
    LoopDiverges(ctx, fuel);
    var rest := [List(Loop().body)];
    FuncBinds(0, Token("loop", Identifier, 0), [], Loop().body, rest, map[], fuel);
    assert [Name("begin"), Def("loop", [], Loop().body), List(Loop().body)][1..] == [Def("loop", [], Loop().body)] + rest;
  }
}
