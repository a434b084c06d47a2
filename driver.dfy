/**
 * The driver of main.go: every top-level expression the parser returns
 * becomes one child of a list headed by the identifier `begin`, and that list
 * is evaluated in a fresh, empty context.
 *
 * The parser is not part of this model. It is a parameter: given the tokens
 * and an index it returns the tree of one expression and the index after it,
 * and the driver relies only on that index being larger than the one given.
 */
module Driver {
  import opened Lexer
  import opened Semantics
  import opened SemanticProperties
  import opened Fuel
  import Walker

  type Parser = (seq<Token>, nat) -> (seq<Value>, nat)

  /** The parser moves forward from every index inside the token list. */
  predicate Advances(tokens: seq<Token>, parse: Parser) {
    forall i: nat :: i < |tokens| ==> parse(tokens, i).1 > i
  }

  /** The head of the program: an identifier token `begin` at the zero location. */
  const BeginHead: Value := Literal(Token("begin", Identifier, 0))

  /** The trees of the top-level expressions from index `i` on, in order. */
  function TopLevel(tokens: seq<Token>, parse: Parser, i: nat): (r: seq<Value>)
    requires Advances(tokens, parse)
    ensures forall k :: 0 <= k < |r| ==> r[k].List?
    ensures i >= |tokens| <==> r == []
    decreases |tokens| - i
  {
    if i >= |tokens| then []
    else
      var (child, next) := parse(tokens, i);
      [List(child)] + TopLevel(tokens, parse, next)
  }

  /** The program tree the driver builds. */
  function Program(tokens: seq<Token>, parse: Parser): seq<Value>
    requires Advances(tokens, parse)
  {
    [BeginHead] + TopLevel(tokens, parse, 0)
  }

  /** The wrapping loop of main.go. */
  method BuildProgram(tokens: seq<Token>, parse: Parser) returns (a: seq<Value>)
    requires Advances(tokens, parse)
    ensures a == Program(tokens, parse)
  {
    var parseIndex: nat := 0;
    a := [BeginHead];
    while parseIndex < |tokens|
      invariant Program(tokens, parse) == a + TopLevel(tokens, parse, parseIndex)
      decreases |tokens| - parseIndex
    {
      var (childAst, nextIndex) := parse(tokens, parseIndex);
      a := a + [List(childAst)];
      parseIndex := nextIndex;
    }
    if parseIndex < |tokens| {
      // "Incomplete parse": the loop above only stops past the last token.
      assert false;
    }
  }

  /** What the program evaluates to under the closure-call bound `fuel`. */
  function Outcome(tokens: seq<Token>, parse: Parser, fuel: nat): Result<RValue>
    requires Advances(tokens, parse)
  {
    var r := EvalCall(Program(tokens, parse), map[], fuel);
    if r.Ok? then Ok(r.value.value) else Err(r.error)
  }

  /** Build the program, then walk it with a new empty context. */
  method Run(tokens: seq<Token>, parse: Parser, fuel: nat) returns (r: Result<RValue>)
    requires Advances(tokens, parse)
    ensures r == Outcome(tokens, parse, fuel)
  {
    var a := BuildProgram(tokens, parse);
    var ctx := new Walker.Context();
    r := Walker.AstWalk(a, ctx, fuel);
  }

  /**
   * The program is `begin` over the top-level expressions: it evaluates them
   * in order, each seeing the bindings the earlier ones made, and yields the
   * last one's value; without tokens it yields nil.
   */
  lemma {:induction false} OutcomeIsLast(tokens: seq<Token>, parse: Parser, fuel: nat)
    requires Advances(tokens, parse)
    ensures tokens == [] ==> Outcome(tokens, parse, fuel) == Ok(Nil)
    ensures var r := EvalArgs(TopLevel(tokens, parse, 0), map[], fuel);
            Outcome(tokens, parse, fuel) == if r.Ok? then Ok(Last(r.value.values, Nil)) else Err(r.error)
  {
    var p := Program(tokens, parse);
    assert p[0] == BeginHead && p[1..] == TopLevel(tokens, parse, 0);
    assert EvalCall(p, map[], fuel) == Builtin("begin", p[1..], map[], fuel);
    Begin(p[1..], map[], fuel);
  }

  /**
   * A larger closure-call bound can only turn `OutOfFuel` into a result:
   * every other outcome of the program is the same under all larger bounds.
   */
  lemma OutcomeMono(tokens: seq<Token>, parse: Parser, f: nat, g: nat)
    requires Advances(tokens, parse) && f <= g
    ensures Outcome(tokens, parse, f) != Err(OutOfFuel) ==> Outcome(tokens, parse, g) == Outcome(tokens, parse, f)
  {
    EvalCallMono(Program(tokens, parse), map[], f, g);
  }

  /** The program has at most one outcome: any two bounds that finish agree. */
  lemma OutcomeDeterminate(tokens: seq<Token>, parse: Parser, f: nat, g: nat)
    requires Advances(tokens, parse)
    ensures Outcome(tokens, parse, f) != Err(OutOfFuel) && Outcome(tokens, parse, g) != Err(OutOfFuel) ==>
            Outcome(tokens, parse, f) == Outcome(tokens, parse, g)
  {
    if f <= g {
      OutcomeMono(tokens, parse, f, g);
    } else {
      OutcomeMono(tokens, parse, g, f);
    }
  }
}
