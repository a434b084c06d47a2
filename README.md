# A verified model of a tiny Lisp interpreter and a byte tokenizer

The repository is a small Lisp-style interpreter written in Go, plus a separate
tokenizer experiment. This project models four parts of it in Dafny and proves
what they do:

- **the rune lexer** (`lex.go`): cursor-based scanners that turn a rune array
  into syntax, integer and identifier tokens;
- **the tree-walking evaluator** (`ast_walker.go`): `astWalk` and `astWalk2`
  evaluate a tree of values against a name-to-value context, with five
  builtins (`if`, `+`, `-`, `begin`, `func`) and user closures made by `func`;
- **the driver loop** (`main.go`, lines 25-51): every top-level expression
  becomes a child of one list headed by `begin`, which is evaluated in a fresh,
  empty context;
- **`GenerateToken`** (`compiler.go`): a longest-prefix byte tokenizer for a
  C-like token set.

Files and modules:

| file | module | contents |
|---|---|---|
| `options.dfy` | `Options` | the optional value that Go's nil token pointers become |
| `int64.dfy` | `Int64` | Go's `int64`, with wrap-around `+` and `-` |
| `lexer.dfy` | `Lexer` | the scanners as methods with their loops, proved against `SkipSpace`, `RunEnd` and `LexFrom`, and the properties of `lex`'s output |
| `semantics.dfy` | `Semantics` | the evaluator as functions: the context is threaded through, panics are `Err` results |
| `semantic_properties.dfy` | `SemanticProperties` | what each builtin, a closure call and each literal guarantee |
| `semantic_examples.dfy` | `SemanticExamples` | concrete programs evaluated end to end |
| `fuel.dfy` | `Fuel` | a larger closure-call bound changes no result except `OutOfFuel` |
| `walker.dfy` | `Walker` | the evaluator as it runs: a `Context` class whose map `func` updates in place and a closure call copies; each method is proved equal to its `Semantics` function |
| `driver.dfy` | `Driver` | the wrapping loop and the run from an empty context |
| `tokenizer.dfy` | `Tokenizer` | `GenerateToken` with its three loops, proved equal to an order-independent longest-match definition |

Modelling choices:

- Runtime values are `Int(int64) | Bool | Closure(name, params, body) | Nil`.
  `Nil` is Go's zero value, which looking up an unbound name gives. A closure
  is data: its name, its parameter nodes and its body.
- Every panic and every failed type assertion is an `Error` value. This covers
  an index past the end, a nil dereference, a non-boolean condition, a
  non-integer operand, a head that is not callable, an arity mismatch, and an
  integer literal that does not parse.
- User recursion can diverge, so each closure invocation spends one unit of
  `fuel`. Running out gives `OutOfFuel`. Everything else terminates on the size
  of the tree. The bound selects no behaviour of its own: a larger bound leaves
  every result other than `OutOfFuel` unchanged (`Fuel.EvalMono`,
  `Driver.OutcomeMono`), so all bounds that finish agree.
- The parser is not part of this model. The driver takes it as a function
  parameter and relies only on the index it returns being larger than the one
  it was given.
- `GenerateToken` iterates a Go map, whose order is unspecified. That order is
  a parameter of the method, which is proved to give the same result for every
  order.

Behaviour of the code that a reader may not expect. The model follows the
code in each case:

- An unbound identifier evaluates to Go's nil and is not an error: it is
  `ctx[token.value]` on a missing key (ast_walker.go:130).
- `begin` with no arguments gives nil, the initial value of `last`
  (ast_walker.go:47-54).
- A closure's body is one call form walked by `astWalk` (ast_walker.go:69), not
  an implicit `begin`.
- A closure copies the context it is *called* with, not the one it was made in
  (ast_walker.go:61-62 with 111), so scoping is dynamic
  (`SemanticExamples.DynamicScopeExample`).
- `+` and `-` wrap around modulo 2^64 as Go's `int64` does (ast_walker.go:34,
  42).
- `-` with no arguments is an index error on `args[0]` (ast_walker.go:40), not a
  separate arity error.

## Model

| member | source | states |
|---|---|---|
| Int64.Add | ast_walker.go:34 | Go's int64 `+`: congruent to the exact sum modulo 2^64 and equal to it when it is in range |
| Int64.Sub | ast_walker.go:42 | Go's int64 `-`: congruent to the exact difference modulo 2^64 and equal to it when it is in range |
| Int64.Wrap | ast_walker.go:32-34 | the two's-complement reading of the low 64 bits: congruent to its argument modulo 2^64 and equal to it in range; `WrapCongruent` and `WrapAbsorbs` show it depends only on the residue, so a running total may wrap at every step |
| Semantics.Lookup | ast_walker.go:130 | reference definition of `ctx[name]`: the binding, or nil when unbound; used by `SemanticProperties.Literals` and `ClosureCall` |
| Semantics.ParseInt64 | ast_walker.go:120-124 | reference definition of `strconv.ParseInt(s, 10, 64)`: optional sign, decimal digits, int64 range; `SemanticProperties.ParseFormat` proves every int64 is read back from its decimal text |
| Semantics.Eval | ast_walker.go:114-135 | reference definition of `astWalk2`; `Walker.AstWalk2` is proved equal to it, `SemanticProperties.Literals` states its literal cases and `Fuel.EvalMono` its independence of the bound |
| Semantics.EvalCall | ast_walker.go:95-112 | reference definition of `astWalk`; `Walker.AstWalk` is proved equal to it, `SemanticProperties.BuiltinsTakePrecedence` and `ClosureCall` state its dispatch |
| Semantics.Builtin | ast_walker.go:100-101 | reference definition of the builtin table's dispatch to the five builtins; `SemanticProperties.Plus`, `Minus`, `Begin`, `IfErrors` and `FuncBinds` state what each entry computes |
| Semantics.EvalIf | ast_walker.go:20-30 | reference definition of `if`; `Walker.If` is proved equal to it, `SemanticProperties.IfShortCircuits` and `IfErrors` state its behaviour |
| Semantics.SumFrom | ast_walker.go:31-38 | reference definition of the loop of `+`; `Walker.Plus` is proved equal to it, `SemanticProperties.SumFromSums` shows it is the wrapped sum |
| Semantics.EvalMinus | ast_walker.go:39-46 | reference definition of `-`; `Walker.Minus` is proved equal to it, `SemanticProperties.Minus` and `MinusOne` state its value |
| Semantics.DiffFrom | ast_walker.go:41-43 | reference definition of the loop of `-`; `SemanticProperties.DiffFromSubtracts` shows it is the wrapped difference |
| Semantics.LastFrom | ast_walker.go:47-54 | reference definition of the loop of `begin`; `Walker.Begin` is proved equal to it, `SemanticProperties.LastFromIsLast` shows it keeps the last value |
| Semantics.EvalFunc | ast_walker.go:55-72 | reference definition of `func`; `Walker.Func` is proved equal to it, `SemanticProperties.FuncBinds` states the binding |
| Semantics.EvalArgs | ast_walker.go:107-110 | reference definition of the argument loop of `astWalk`; `SemanticProperties.EvalArgsLength` gives one value per argument, and the fold lemmas are stated against it |
| Semantics.Bind | ast_walker.go:66-68 | reference definition of the parameter loop; `SemanticProperties.BindPositional` states what the child context binds |
| Semantics.Apply | ast_walker.go:61-70 | reference definition of calling a closure; `Walker.CallClosure` is proved equal to it, `SemanticProperties.ArityChecked` states the arity check and `Fuel.ApplyMono` the bound |
| Fuel.EvalMono | ast_walker.go:114-135 | a larger closure-call bound leaves every result of `Eval` other than `OutOfFuel` unchanged |
| Fuel.EvalCallMono | ast_walker.go:95-112 | the same for `EvalCall` |
| Fuel.BuiltinMono | ast_walker.go:100-101 | the same for the builtin dispatch |
| Fuel.EvalIfMono | ast_walker.go:20-30 | the same for `if` |
| Fuel.SumFromMono | ast_walker.go:31-38 | the same for the loop of `+` |
| Fuel.EvalMinusMono | ast_walker.go:39-46 | the same for `-` |
| Fuel.DiffFromMono | ast_walker.go:41-43 | the same for the loop of `-` |
| Fuel.LastFromMono | ast_walker.go:47-54 | the same for the loop of `begin` |
| Fuel.EvalArgsMono | ast_walker.go:107-110 | the same for the argument loop |
| Fuel.ApplyMono | ast_walker.go:61-70 | the same for a closure call, the only place the bound is spent |
| Fuel.EvalDeterminate | ast_walker.go:114-135 | any two bounds under which a node finishes give the same result: the bound selects no behaviour of its own |
| Lexer.SkipSpace | lex.go:27-37 | the least index at or after the cursor that is the end of the source or holds a non-space rune; every rune skipped is whitespace |
| Lexer.RunEnd | lex.go:60-68 | the end of the maximal run of runes satisfying the predicate from the cursor: every rune before it satisfies it, the one at it does not |
| Lexer.EatWhitespace | lex.go:27-37 | the loop returns exactly `SkipSpace` of the cursor |
| Lexer.LexSyntaxToken | lex.go:39-49 | on `(` or `)` the cursor advances by one and the token is that rune, of syntax kind, at the cursor; otherwise the cursor is unchanged and there is no token |
| Lexer.LexIntegerToken | lex.go:55-79 | the maximal run of ASCII digits at the cursor, located at its start and ending at the new cursor; no token and the original cursor when the run is empty |
| Lexer.LexIdentifierToken | lex.go:83-109 | the maximal run of runes that are neither whitespace nor `)` (so `(` and digits may occur inside); no token and the original cursor when the run is empty |
| Lexer.TokenEnd | lex.go:126-145 | a token starting at a non-space rune always ends strictly after it, within the source |
| Lexer.LexStep | lex.go:119-145 | one round of `lex`'s loop: the token found after the whitespace comes first, then the tokens from its end |
| Lexer.IsSpace | lex.go:29 | reference definition of `unicode.IsSpace`: the Latin-1 spaces and Unicode's White_Space runes; `Lexer.LexCovers` is stated in its terms |
| Lexer.LexFrom | lex.go:113-152 | reference definition of the tokens `lex` produces from a cursor; `Lexer.Lex` is proved equal to it, `LexWellFormed`, `LexLocationsIncrease`, `LexCovers` and `LexTokensDisjoint` state its properties |
| Lexer.LexRound | lex.go:126-145 | at a non-space rune, a `(` or `)` is found by the syntax lexer, a digit by the integer lexer and anything else by the identifier lexer, each giving the token `LexFrom` expects, with a non-empty identifier run |
| Lexer.Lex | lex.go:113-153 | the loop produces exactly `LexFrom(source, 0)`; the "Could not lex" panic is unreachable |
| Lexer.FirstTokenFits | lex.go:126-145 | the token starting at a non-space rune is non-empty, whitespace-free, equal to the source at its location and of a shape its kind allows |
| Lexer.LexWellFormed | lex.go:113-152 | every token of `lex` is non-empty, whitespace-free and equal to `source[location..location+len]`, and each ends before the next begins |
| Lexer.LexLocationsIncrease | lex.go:113-152 | token locations are strictly increasing |
| Lexer.LexCovers | lex.go:113-152 | a rune lies in some token if and only if it is not whitespace |
| Lexer.LexTokensDisjoint | lex.go:113-152 | no rune lies in two tokens |
| Lexer.LexExample | lex.go:111-112 | `" (+ 13 2  )"` lexes to `(`, `+`, `13`, `2`, `)` at locations 1, 2, 4, 7, 10 |
| Lexer.RunExamples | lex.go:52-53 | the runs of the comment examples of lexIntegerToken and lexIdentifierToken end where the comments say |
| SemanticProperties.EvalArgsLength | ast_walker.go:107-110 | argument evaluation that succeeds yields one value per argument expression |
| SemanticProperties.SumFromSums | ast_walker.go:31-38 | the loop of `+` gives the int64 wrap of the running total plus the exact sum of the left-to-right argument values; a non-integer value is `NotInt`; a failing argument fails the loop |
| SemanticProperties.Plus | ast_walker.go:31-38 | `+` with no arguments is 0; otherwise the wrapped sum of the argument values, and an error when one is not an integer (nil included) |
| SemanticProperties.DiffFromSubtracts | ast_walker.go:41-43 | the loop of `-` gives the int64 wrap of the running value minus the exact sum of the remaining values |
| SemanticProperties.Minus | ast_walker.go:39-46 | `-` with no arguments is an index error; otherwise the first value minus each of the others, wrapped |
| SemanticProperties.MinusOne | ast_walker.go:40-45 | `-` with one integer argument returns it unchanged: there is no negation |
| SemanticProperties.LastFromIsLast | ast_walker.go:49-51 | the loop of `begin` leaves the last value computed, or the starting value when there is none |
| SemanticProperties.Begin | ast_walker.go:47-54 | `begin` evaluates its arguments in order, threading the context, and returns the last value, or nil with no arguments |
| SemanticProperties.IfShortCircuits | ast_walker.go:20-30 | `if` with a boolean condition evaluates exactly the selected branch in the context the condition left; replacing the other branch changes nothing |
| SemanticProperties.IfErrors | ast_walker.go:20-30 | `if` with no arguments, or with fewer than three after a successful condition, is an index error; a non-boolean condition is `NotBool` |
| SemanticProperties.FuncBinds | ast_walker.go:55-72 | `func` returns the closure and binds it under its name in the current context, overwriting; later siblings of a `begin` see it |
| SemanticProperties.BuiltinsTakePrecedence | ast_walker.go:98-102 | a head naming a builtin runs the builtin on the unevaluated tail and the caller's context, whatever the context binds to that name |
| SemanticProperties.ClosureCall | ast_walker.go:104-111 | a head not bound to a closure is `NotCallable`; otherwise the arguments are evaluated left to right first; the call sees the context they left, and that context is the caller's afterwards |
| SemanticProperties.ArityChecked | ast_walker.go:63-65 | a call with the wrong number of arguments fails, naming the expected count, the closure and the actual count |
| SemanticProperties.BindPositional | ast_walker.go:66-68 | binding succeeds iff every parameter node is a literal; each parameter name (its last occurrence) maps to its argument; every other name keeps its binding |
| SemanticProperties.Literals | ast_walker.go:114-134 | an identifier is its binding or nil, without error; an integer is what ParseInt64 reads, else an error carrying the text; a syntax token and a list-headed call form are nil dereferences; the context is unchanged |
| SemanticProperties.ParseFormat | ast_walker.go:119-126 | every int64 is read back from its decimal text (round trip) |
| SemanticProperties.DecimalRoundTrip | ast_walker.go:120 | the value of the decimal digits of `n` is `n` |
| SemanticProperties.LexedIntegerParses | ast_walker.go:119-126 | an integer token produced by the lexer is all digits, and it evaluates to its value exactly when that value fits in int64 |
| SemanticExamples.ArithmeticExample | ast_walker.go:75-81 | `( + 13 ( - 12 1 ) )` is 24 |
| SemanticExamples.BeginExample | ast_walker.go:83-94 | the example file `( + 12 2 ) ( - 11 1 )` wrapped in `begin` is 10 |
| SemanticExamples.FuncExample | ast_walker.go:55-72 | `(begin (func f (x) (+ x 1)) (f 5))` is 6 and leaves `f` bound; a trailing `x` is nil because `x` lived only in the call's copy |
| SemanticExamples.DynamicScopeExample | ast_walker.go:61-69 | a closure's body sees the context of its caller: `g` reads the `y` of `h`, and fails on nil when called from the top level |
| SemanticExamples.ArityExample | ast_walker.go:63-65 | calling a two-parameter closure with one argument is `ArityMismatch(2, "f", 1)` |
| SemanticExamples.PrecedenceExample | ast_walker.go:98-102 | after `(func + (x) (- x 1))`, `(+ 5)` still runs the builtin and is 5 |
| SemanticExamples.LoopDiverges | ast_walker.go:61-69 | a self-calling closure exhausts any closure-call bound |
| SemanticExamples.DivergenceExample | ast_walker.go:55-72 | `(begin (func loop () (loop)) (loop))` never produces a value |
| Walker.CopyContext | ast_walker.go:10-17 | the loop builds a new context holding exactly the bindings of the source context |
| Walker.AstWalk2 | ast_walker.go:114-135 | evaluating a node with a context object gives the value and the new context that `Eval` defines, or its error |
| Walker.AstWalk | ast_walker.go:95-112 | dispatch, the argument loop and the call give what `EvalCall` defines, context included |
| Walker.CallClosure | ast_walker.go:61-70 | the copy, the arity check, the parameter loop and the body walk give what `Apply` defines, and the caller's context object is not modified |
| Walker.If | ast_walker.go:20-30 | the `if` builtin on a context object agrees with `EvalIf` |
| Walker.Plus | ast_walker.go:31-38 | the accumulating loop of `+` agrees with `SumFrom` from 0 |
| Walker.Minus | ast_walker.go:39-46 | the first argument and the subtracting loop of `-` agree with `EvalMinus` |
| Walker.Begin | ast_walker.go:47-54 | the loop of `begin` agrees with `LastFrom` from nil |
| Walker.Func | ast_walker.go:55-72 | `func` updates the context object in place with the new closure and returns it, as `EvalFunc` defines |
| Driver.TopLevel | main.go:35-43 | the top-level trees, one list node per `parse` call, none when the index is past the tokens |
| Driver.Program | main.go:25-43 | reference definition of the program tree: `begin` followed by the top-level trees; `Driver.BuildProgram` is proved equal to it |
| Driver.Outcome | main.go:49-51 | reference definition of the program's result under a bound; `Driver.Run` is proved equal to it, `OutcomeIsLast` states its value, `OutcomeMono` and `OutcomeDeterminate` its independence of the bound |
| Driver.BuildProgram | main.go:25-47 | the loop builds the list headed by the identifier `begin` followed by the top-level trees in order; "Incomplete parse" is unreachable |
| Driver.Run | main.go:49-51 | the result of walking the program from a new empty context is the program's value under `EvalCall` |
| Driver.OutcomeIsLast | main.go:49-51 | the program yields the last top-level value, every expression seeing the bindings of the earlier ones, or nil when there are no tokens |
| Driver.OutcomeMono | main.go:49-51 | a larger closure-call bound can only turn `OutOfFuel` into a result; any other outcome of the program stays the same |
| Driver.OutcomeDeterminate | main.go:49-51 | any two bounds under which the program finishes give the same outcome, so the outcomes under growing bounds describe one Go result |
| Tokenizer.Spelled | compiler.go:102-143 | reading the table backwards: a type it returns other than illegal is a table entry spelled exactly as given |
| Tokenizer.Spelling | compiler.go:102-143 | reference definition of the table `TokensStrings`, empty for a type without an entry; `Tokenizer.SpelledInverts` shows no two entries share a spelling |
| Tokenizer.Line | compiler.go:93-100 | reference definition of `srcStr`; `Tokenizer.FindLine` is proved equal to it, `LineOnly` and `NoNewlinePanics` state its effect |
| Tokenizer.LongestPrefix | compiler.go:145-153 | order-independent reference definition of the table loop's result; `Tokenizer.LongestMatch` characterises it as the longest matching entry |
| Tokenizer.Generate | compiler.go:73-188 | reference definition of `GenerateToken`'s result; `Tokenizer.GenerateToken` is proved equal to it for every map order, `ConsumedIsPrefix`, `GenerateLongest`, `GenerateWord`, `LineOnly` and `NoNewlinePanics` state its properties |
| Tokenizer.DigitSpellsNothing | compiler.go:102-143 | no spelling in the table starts with a digit |
| Tokenizer.SpelledInverts | compiler.go:102-143 | every table entry is found again from its spelling, so no two entries share one |
| Tokenizer.LongestPrefixIsLongest | compiler.go:145-153 | the search over prefix lengths finds a matching entry at least as long as every matching entry up to that length, or none |
| Tokenizer.LongestMatch | compiler.go:145-157 | the result is illegal iff no spelling is a prefix of the line; otherwise it is the matching entry with the longest spelling, and no other entry matches with that length |
| Tokenizer.FirstNewline | compiler.go:95-100 | the index of the first newline, or the length when there is none |
| Tokenizer.WordEnd | compiler.go:169-185 | the end of the maximal run of letters, `_` and digits |
| Tokenizer.FindLine | compiler.go:93-100 | the newline loop leaves `srcStr` as the bytes before the first newline, empty when there is none |
| Tokenizer.MatchTable | compiler.go:145-153 | the table loop, over any iteration order of the map, ends with the longest match and its length |
| Tokenizer.BestStep | compiler.go:146-151 | one round of the table loop keeps its invariant: the entry kept is a match at least as long as every matching entry seen so far, or there is none |
| Tokenizer.BestIsLongest | compiler.go:145-153 | what the table loop keeps over a full enumeration of the table is the longest match |
| Tokenizer.ScanWord | compiler.go:169-185 | the identifier and integer loops stop at the end of the maximal word run; reading `src[i]` instead of `srcStr[i]` changes nothing |
| Tokenizer.GenerateToken | compiler.go:73-188 | the whole function, for every iteration order of the table, gives what `Generate` defines |
| Tokenizer.ConsumedIsPrefix | compiler.go:155-187 | never more bytes consumed than the input; a table, identifier or integer token is exactly `src[:bytesConsumed]`; newline and space are one byte with an empty string; illegal consumes nothing |
| Tokenizer.GenerateLongest | compiler.go:145-157 | when an entry matches the line, the token is the matching entry with the longest spelling, unique at that length |
| Tokenizer.GenerateWord | compiler.go:159-187 | without a table match, a letter or `_` starts an identifier and a digit an integer over the maximal word run; any other byte gives illegal with 0 bytes |
| Tokenizer.LineOnly | compiler.go:93-100 | nothing after the first newline affects the result |
| Tokenizer.NoNewlinePanics | compiler.go:93-100 | without a newline, and not starting with a space, `srcStr` is empty and `srcStr[0]` panics |
| Tokenizer.LeadingBytes | compiler.go:79-91 | empty input is end of file with 0 bytes; a leading newline or space is one byte with an empty string |
| Tokenizer.KeywordPrefix | compiler.go:145-153 | `"ifx\n"` gives the keyword `if` with 2 bytes: there is no word-boundary check |
| Tokenizer.LongerOperatorWins | compiler.go:145-153 | `<=` beats `<` and `&&` beats `&` |
| Tokenizer.IntegerRun | compiler.go:178-184 | `"12ab+1\n"` gives the integer token `12ab`: letters may follow digits |

## Left out

- Input and output: reading `os.Args` and files, the debug dump and printing the result (main.go:10-18, 52; compiler.go:190-200).
- The parser, `newLexingContext` and `lc.lex()` are not part of this model. The driver takes `parse` as a parameter that must advance the index.
- `unicode.IsSpace` is written out as Go defines it: the Latin-1 spaces, then Unicode's White_Space property. The proofs use only that it is false for parentheses, digits and other non-space runes.
- `strconv.ParseInt` is modelled as an optional sign, one or more decimal digits and an int64 range check. Its two error kinds, syntax and range, are one error carrying the text.
- `OutOfFuel`: the bound on closure calls has no counterpart in Go, where a diverging program recurses until the stack overflows. The model does not say which programs diverge; it proves only that a larger bound never changes a finished result.
- Error messages: Go's error message text, the `fmt.Println` before the integer panic and the panic values themselves are not modelled; only which error happens.
- After a panic, the model says nothing about the context, since Go never uses it again.
- The global `builtins` map and its population (ast_walker.go:8, 19-73) are a fixed set of five names. A Go closure is a `Closure` value.
- `compiler.go` panics on an empty `srcStr` at line 171. The model returns `IndexPanic` there rather than requiring a newline.
- Lexer.LexSyntaxToken: requires the cursor to be inside the source. Go indexes `source[cursor]` without a check, and `lex` calls it only after finding a non-space rune.
