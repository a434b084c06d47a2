/**
 * The rune lexer of lex.go. A source is a sequence of runes (Dafny `char`s are
 * Unicode scalar values); a cursor is an index into it. Every scanner is a
 * method with the loop of the original, proved against a specification
 * function (`SkipSpace`, `RunEnd`, `LexFrom`) whose properties are proved here.
 */
module Lexer {
  import opened Options

  datatype TokenKind = Syntax | Identifier | Integer

  datatype Token = Token(value: string, kind: TokenKind, location: nat)

  /** Go's `unicode.IsSpace`: the Latin-1 spaces, then Unicode's White_Space property. */
  predicate IsSpace(r: char) {
    || r == '\t' || r == '\n' || r == '\U{000B}' || r == '\U{000C}' || r == '\r' || r == ' '
    || r == '\U{0085}' || r == '\U{00A0}' || r == '\U{1680}'
    || ('\U{2000}' <= r <= '\U{200A}')
    || r == '\U{2028}' || r == '\U{2029}' || r == '\U{202F}' || r == '\U{205F}' || r == '\U{3000}'
  }

  predicate IsDigit(r: char) {
    '0' <= r <= '9'
  }

  /** A rune that may continue an identifier: neither whitespace nor `)`. */
  predicate IsIdentifierRune(r: char) {
    !(IsSpace(r) || r == ')')
  }

  predicate IsParen(r: char) {
    r == '(' || r == ')'
  }

  /** The least index at or after `cursor` that is the end of `source` or holds a non-space rune. */
  function SkipSpace(source: seq<char>, cursor: nat): (c: nat)
    ensures cursor <= c
    ensures cursor >= |source| ==> c == cursor
    ensures cursor < |source| ==> c <= |source|
    ensures forall i :: cursor <= i < c ==> IsSpace(source[i])
    ensures c < |source| ==> !IsSpace(source[c])
    decreases |source| - cursor
  {
    if cursor < |source| && IsSpace(source[cursor]) then SkipSpace(source, cursor + 1) else cursor
  }

  /** The end of the maximal run of runes satisfying `p` that starts at `cursor`. */
  function RunEnd(source: seq<char>, cursor: nat, p: char -> bool): (c: nat)
    ensures cursor <= c
    ensures cursor >= |source| ==> c == cursor
    ensures cursor < |source| ==> c <= |source|
    ensures forall i :: cursor <= i < c ==> p(source[i])
    ensures c < |source| ==> !p(source[c])
    decreases |source| - cursor
  {
    if cursor < |source| && p(source[cursor]) then RunEnd(source, cursor + 1, p) else cursor
  }

  /** eatWhitespace: advance the cursor over whitespace. */
  method EatWhitespace(source: seq<char>, cursor: nat) returns (c: nat)
    ensures c == SkipSpace(source, cursor)
  {
    c := cursor;
    while c < |source|
      invariant cursor <= c
      invariant SkipSpace(source, c) == SkipSpace(source, cursor)
      decreases |source| - c
    {
      if IsSpace(source[c]) {
        c := c + 1;
        continue;
      }
      break;
    }
  }

  /** lexSyntaxToken: a one-rune token for `(` or `)`, otherwise nothing and the cursor unchanged. */
  method LexSyntaxToken(source: seq<char>, cursor: nat) returns (c: nat, t: Option<Token>)
    requires cursor < |source|
    ensures IsParen(source[cursor]) ==> c == cursor + 1 && t == Some(Token([source[cursor]], Syntax, cursor))
    ensures !IsParen(source[cursor]) ==> c == cursor && t == None
  {
    if source[cursor] == '(' || source[cursor] == ')' {
      return cursor + 1, Some(Token([source[cursor]], Syntax, cursor));
    }
    return cursor, None;
  }

  /** lexIntegerToken: the maximal run of ASCII digits at the cursor, or nothing if it is empty. */
  method LexIntegerToken(source: seq<char>, cursor: nat) returns (c: nat, t: Option<Token>)
    ensures var e := RunEnd(source, cursor, IsDigit);
            if e == cursor then c == cursor && t == None
            else c == e && t == Some(Token(source[cursor..e], Integer, cursor))
  {
    var originalCursor := cursor;
    var value: seq<char> := [];
    c := cursor;
    while c < |source|
      invariant originalCursor <= c
      invariant RunEnd(source, c, IsDigit) == RunEnd(source, originalCursor, IsDigit)
      invariant c <= |source| ==> value == source[originalCursor..c]
      invariant c > |source| ==> value == []
      decreases |source| - c
    {
      var r := source[c];
      if r >= '0' && r <= '9' {
        value := value + [r];
        c := c + 1;
        continue;
      }
      break;
    }
    if |value| == 0 {
      return originalCursor, None;
    }
    return c, Some(Token(value, Integer, originalCursor));
  }

  /** lexIdentifierToken: the maximal run of runes that are neither whitespace nor `)`. */
  method LexIdentifierToken(source: seq<char>, cursor: nat) returns (c: nat, t: Option<Token>)
    ensures var e := RunEnd(source, cursor, IsIdentifierRune);
            if e == cursor then c == cursor && t == None
            else c == e && t == Some(Token(source[cursor..e], Identifier, cursor))
  {
    var originalCursor := cursor;
    var value: seq<char> := [];
    c := cursor;
    while c < |source|
      invariant originalCursor <= c
      invariant RunEnd(source, c, IsIdentifierRune) == RunEnd(source, originalCursor, IsIdentifierRune)
      invariant c <= |source| ==> value == source[originalCursor..c]
      invariant c > |source| ==> value == []
      decreases |source| - c
    {
      var r := source[c];
      if !(IsSpace(r) || r == ')') {
        value := value + [r];
        c := c + 1;
        continue;
      }
      break;
    }
    if |value| == 0 {
      return originalCursor, None;
    }
    return c, Some(Token(value, Identifier, originalCursor));
  }

  /** Where the token that starts at the non-space rune `source[c]` ends. */
  function TokenEnd(source: seq<char>, c: nat): (e: nat)
    requires c < |source| && !IsSpace(source[c])
    ensures c < e <= |source|
  {
    if IsParen(source[c]) then c + 1
    else if IsDigit(source[c]) then RunEnd(source, c, IsDigit)
    else RunEnd(source, c, IsIdentifierRune)
  }

  /** The kind of the token that starts at `source[c]`. */
  function KindAt(source: seq<char>, c: nat): TokenKind
    requires c < |source|
  {
    if IsParen(source[c]) then Syntax
    else if IsDigit(source[c]) then Integer
    else Identifier
  }

  /**
   * The tokens `lex` produces from `cursor` on: skip whitespace, then try a
   * syntax token, an integer token and an identifier token, in that order.
   * The identifier case always consumes at least one rune, so the lexer's
   * "Could not lex" failure never happens.
   */
  function LexFrom(source: seq<char>, cursor: nat): seq<Token>
    requires cursor <= |source|
    decreases |source| - cursor
  {
    var c := SkipSpace(source, cursor);
    if c == |source| then []
    else
      var e := TokenEnd(source, c);
      [Token(source[c..e], KindAt(source, c), c)] + LexFrom(source, e)
  }

  /** One round of `lex`'s loop: the token found after the whitespace, then the rest. */
  lemma LexStep(source: seq<char>, cursor: nat)
    requires cursor <= |source| && SkipSpace(source, cursor) < |source|
    ensures var c := SkipSpace(source, cursor);
            LexFrom(source, cursor) == [Token(source[c..TokenEnd(source, c)], KindAt(source, c), c)] + LexFrom(source, TokenEnd(source, c))
  {
  }

  /**
   * Which of the three token lexers finds the token starting at the non-space
   * rune `source[c]`, and that what it finds is the token `LexFrom` expects.
   */
  lemma LexRound(source: seq<char>, c: nat)
    requires c < |source| && !IsSpace(source[c])
    ensures var e := TokenEnd(source, c);
            var tok := Token(source[c..e], KindAt(source, c), c);
            && (IsParen(source[c]) ==> e == c + 1 && tok == Token([source[c]], Syntax, c))
            && (!IsParen(source[c]) && RunEnd(source, c, IsDigit) != c ==>
                  e == RunEnd(source, c, IsDigit) && tok == Token(source[c..e], Integer, c))
            && (!IsParen(source[c]) && RunEnd(source, c, IsDigit) == c ==>
                  e == RunEnd(source, c, IsIdentifierRune) && e != c && tok == Token(source[c..e], Identifier, c))
  {
    assert [source[c]] == source[c..c + 1];
    if !IsParen(source[c]) && RunEnd(source, c, IsDigit) == c {
      assert IsIdentifierRune(source[c]);
    }
  }

  /** lex: the whole source to tokens. */
  method Lex(source: seq<char>) returns (tokens: seq<Token>)
    ensures tokens == LexFrom(source, 0)
  {
    tokens := [];
    var t: Option<Token>;
    var cursor: nat := 0;
    while cursor < |source|
      invariant cursor <= |source|
      invariant tokens + LexFrom(source, cursor) == LexFrom(source, 0)
      decreases |source| - cursor
    {
      ghost var before := cursor;
      cursor := EatWhitespace(source, cursor);
      if cursor == |source| {
        break;
      }
      ghost var start := cursor;
      ghost var end := TokenEnd(source, start);
      ghost var expected := Token(source[start..end], KindAt(source, start), start);
      LexStep(source, before);
      assert tokens + [expected] + LexFrom(source, end) == LexFrom(source, 0);
      LexRound(source, start);

      cursor, t := LexSyntaxToken(source, cursor);
      if t.Some? {
        assert t.value == expected && cursor == end;
        tokens := tokens + [t.value];
        continue;
      }

      cursor, t := LexIntegerToken(source, cursor);
      if t.Some? {
        assert t.value == expected && cursor == end;
        tokens := tokens + [t.value];
        continue;
      }

      cursor, t := LexIdentifierToken(source, cursor);
      if t.Some? {
        assert t.value == expected && cursor == end;
        tokens := tokens + [t.value];
        continue;
      }

      // "Could not lex": the rune at the cursor is not whitespace and not `)`.
      assert false;
    }
  }

  /** The runes of `source` that token `t` claims, from its location on. */
  predicate Spans(source: seq<char>, t: Token) {
    t.location + |t.value| <= |source| && source[t.location..t.location + |t.value|] == t.value
  }

  /** What each kind of token may look like. */
  predicate KindFits(t: Token) {
    match t.kind
    case Syntax => t.value == "(" || t.value == ")"
    case Integer => forall i :: 0 <= i < |t.value| ==> IsDigit(t.value[i])
    case Identifier =>
      && |t.value| > 0 && !IsParen(t.value[0]) && !IsDigit(t.value[0])
      && forall i :: 0 <= i < |t.value| ==> IsIdentifierRune(t.value[i])
  }

  /** A token as `lex` produces it from `from` on: non-empty, at its place in `source`, free of whitespace. */
  predicate TokenFits(source: seq<char>, from: nat, t: Token) {
    && from <= t.location
    && |t.value| > 0
    && Spans(source, t)
    && (forall i :: 0 <= i < |t.value| ==> !IsSpace(t.value[i]))
    && KindFits(t)
  }

  predicate InToken(t: Token, i: int) {
    t.location <= i < t.location + |t.value|
  }

  /** Every token fits, and each token ends at or before the next one starts. */
  predicate WellFormed(source: seq<char>, from: nat, tokens: seq<Token>) {
    && (forall k :: 0 <= k < |tokens| ==> TokenFits(source, from, tokens[k]))
    && (forall j, k :: 0 <= j < k < |tokens| ==> tokens[j].location + |tokens[j].value| <= tokens[k].location)
  }

  /** The token that starts at a non-space rune fits, whatever its kind. */
  lemma FirstTokenFits(source: seq<char>, c: nat)
    requires c < |source| && !IsSpace(source[c])
    ensures TokenFits(source, c, Token(source[c..TokenEnd(source, c)], KindAt(source, c), c))
  {
    var e := TokenEnd(source, c);
    var t := Token(source[c..e], KindAt(source, c), c);
    forall i | 0 <= i < |t.value| ensures !IsSpace(t.value[i]) {
      assert t.value[i] == source[c + i];
    }
    if KindAt(source, c) == Syntax {
      assert t.value == [source[c]];
    }
  }

  /** Tokens from `cursor` on are well formed, and none starts before the first non-space rune. */
  lemma {:induction false} LexWellFormed(source: seq<char>, cursor: nat)
    requires cursor <= |source|
    ensures WellFormed(source, SkipSpace(source, cursor), LexFrom(source, cursor))
    decreases |source| - cursor
  {
    var c := SkipSpace(source, cursor);
    if c < |source| {
      var e := TokenEnd(source, c);
      var t := Token(source[c..e], KindAt(source, c), c);
      var rest := LexFrom(source, e);
      assert LexFrom(source, cursor) == [t] + rest;
      FirstTokenFits(source, c);
      LexWellFormed(source, e);
      forall k | 0 <= k < |rest| ensures TokenFits(source, c, rest[k]) && e <= rest[k].location {
        assert TokenFits(source, SkipSpace(source, e), rest[k]);
      }
    }
  }

  /** Strictly increasing locations: a corollary of well-formedness. */
  lemma LexLocationsIncrease(source: seq<char>)
    ensures var tokens := LexFrom(source, 0);
            forall j, k :: 0 <= j < k < |tokens| ==> tokens[j].location < tokens[k].location
  {
    LexWellFormed(source, 0);
    var tokens := LexFrom(source, 0);
    forall j, k | 0 <= j < k < |tokens| ensures tokens[j].location < tokens[k].location {
      assert TokenFits(source, SkipSpace(source, 0), tokens[j]);
    }
  }

  ghost predicate InSomeToken(tokens: seq<Token>, i: int) {
    exists k :: 0 <= k < |tokens| && InToken(tokens[k], i)
  }

  /** A rune past the first token is in some token of the whole list iff it is in one of the rest. */
  lemma InSomeTokenCons(t: Token, rest: seq<Token>, i: int)
    requires !InToken(t, i)
    ensures InSomeToken([t] + rest, i) <==> InSomeToken(rest, i)
  {
    var tokens := [t] + rest;
    if InSomeToken(rest, i) {
      var k :| 0 <= k < |rest| && InToken(rest[k], i);
      assert InToken(tokens[k + 1], i);
    }
    if InSomeToken(tokens, i) {
      var k :| 0 <= k < |tokens| && InToken(tokens[k], i);
      assert InToken(rest[k - 1], i);
    }
  }

  /** Every non-whitespace rune from `cursor` on lies in some token, and no whitespace rune does. */
  lemma {:induction false} LexCovers(source: seq<char>, cursor: nat)
    requires cursor <= |source|
    ensures forall i :: cursor <= i < |source| ==> (!IsSpace(source[i]) <==> InSomeToken(LexFrom(source, cursor), i))
    decreases |source| - cursor
  {
    var tokens := LexFrom(source, cursor);
    var c := SkipSpace(source, cursor);
    LexWellFormed(source, cursor);
    if c < |source| {
      var e := TokenEnd(source, c);
      var t := tokens[0];
      var rest := LexFrom(source, e);
      assert tokens == [t] + rest;
      assert TokenFits(source, c, t);
      LexCovers(source, e);
      forall i | cursor <= i < |source| ensures !IsSpace(source[i]) <==> InSomeToken(tokens, i) {
        if i < c {
          assert !InSomeToken(tokens, i) by {
            forall k | 0 <= k < |tokens| ensures !InToken(tokens[k], i) {
              assert TokenFits(source, c, tokens[k]);
            }
          }
        } else if i < e {
          assert InToken(tokens[0], i);
          assert source[i] == t.value[i - c];
        } else {
          InSomeTokenCons(t, rest, i);
        }
      }
    } else {
      forall i | cursor <= i < |source| ensures IsSpace(source[i]) { }
    }
  }

  /** No rune lies in two tokens. */
  lemma LexTokensDisjoint(source: seq<char>, i: int, j: nat, k: nat)
    requires var tokens := LexFrom(source, 0); j < |tokens| && k < |tokens|
    requires InToken(LexFrom(source, 0)[j], i) && InToken(LexFrom(source, 0)[k], i)
    ensures j == k
  {
    LexWellFormed(source, 0);
  }

  lemma LexExampleTail(s: seq<char>)
    requires s == " (+ 13 2  )"
    ensures LexFrom(s, 6) == [Token("2", Integer, 7), Token(")", Syntax, 10)]
  {
    assert LexFrom(s, 11) == [];
    assert SkipSpace(s, 10) == 10;
    assert SkipSpace(s, 9) == 10;
    assert SkipSpace(s, 8) == 10;
    assert TokenEnd(s, 10) == 11 && s[10..11] == ")";
    assert LexFrom(s, 8) == [Token(")", Syntax, 10)];
    assert RunEnd(s, 7, IsDigit) == 8;
    assert SkipSpace(s, 6) == 7 && TokenEnd(s, 7) == 8 && s[7..8] == "2";
  }

  lemma LexExampleMiddle(s: seq<char>)
    requires s == " (+ 13 2  )"
    ensures LexFrom(s, 3) == [Token("13", Integer, 4)] + LexFrom(s, 6)
  {
    assert RunEnd(s, 6, IsDigit) == 6;
    assert RunEnd(s, 5, IsDigit) == 6;
    assert RunEnd(s, 4, IsDigit) == 6;
    assert SkipSpace(s, 3) == 4 && TokenEnd(s, 4) == 6 && s[4..6] == "13";
  }

  lemma LexExampleHead(s: seq<char>)
    requires s == " (+ 13 2  )"
    ensures LexFrom(s, 0) == [Token("(", Syntax, 1), Token("+", Identifier, 2)] + LexFrom(s, 3)
  {
    assert RunEnd(s, 2, IsIdentifierRune) == 3;
    assert SkipSpace(s, 2) == 2 && TokenEnd(s, 2) == 3 && s[2..3] == "+";
    assert LexFrom(s, 2) == [Token("+", Identifier, 2)] + LexFrom(s, 3);
    assert SkipSpace(s, 0) == 1 && TokenEnd(s, 1) == 2 && s[1..2] == "(";
  }

  /** The example in lex.go's own comment. */
  lemma LexExample(s: seq<char>)
    requires s == " (+ 13 2  )"
    ensures LexFrom(s, 0) ==
      [Token("(", Syntax, 1), Token("+", Identifier, 2), Token("13", Integer, 4),
       Token("2", Integer, 7), Token(")", Syntax, 10)]
  {
    LexExampleHead(s);
    LexExampleMiddle(s);
    LexExampleTail(s);
  }

  /** The examples in the comments above lexIntegerToken and lexIdentifierToken. */
  lemma RunExamples()
    ensures RunEnd("foo 123", 4, IsDigit) == 7
    ensures RunEnd("foo 12 3", 4, IsDigit) == 6
    ensures RunEnd("123 ab +", 4, IsIdentifierRune) == 6
    ensures RunEnd("123 ab123 +", 4, IsIdentifierRune) == 9
  {
  }
}
