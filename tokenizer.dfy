/**
 * GenerateToken of compiler.go: the first token of a byte buffer, for a
 * C-like token set. Operators, punctuation and keywords come from a table
 * searched for the longest spelling the current line starts with; failing
 * that, an identifier or an integer run; failing that, an illegal token.
 *
 * The table is a Go map, whose iteration order is unspecified, so the order
 * is a parameter of the method, and the method is proved to give the same
 * result for every order.
 */
module Tokenizer {
  /** A byte, written as the character with that code so that the table reads as text. */
  type Byte = c: char | c as int < 256

  datatype TokenType =
    | Illegal | EndOfFile | NewLine | Space
    | Ident | Int | Char | String
    | Add | Sub | Mul | Div | Rem | And | Or | Xor | Shl | Shr | BAnd | BOr
    | Eql | Lss | Gtr | Assign | Not | NotEql | LEql | GEql
    | LParen | RParen | LBrack | RBrack | LBrace | RBrace | Comma | Period | Semicolon | Colon
    | While | Break | Continue | If | Else | Func | Return | Var

  datatype TokenInfo = TokenInfo(tokType: TokenType, tokStr: seq<Byte>)

  /** What GenerateToken does: return a token and the bytes it consumed, or panic on an index. */
  datatype Outcome = Token(info: TokenInfo, consumed: nat) | IndexPanic

  /** The spelling table `TokensStrings`; the empty string for a type it has no entry for. */
  function Spelling(t: TokenType): seq<Byte> {
    match t
    case Add => "+"
    case Sub => "-"
    case Mul => "*"
    case Div => "/"
    case Rem => "%"
    case And => "&"
    case Or => "|"
    case Xor => "^"
    case Shl => "<<"
    case Shr => ">>"
    case BAnd => "&&"
    case BOr => "||"
    case Eql => "=="
    case Lss => "<"
    case Gtr => ">"
    case Assign => "="
    case Not => "!"
    case NotEql => "!="
    case LEql => "<="
    case GEql => ">="
    case LParen => "("
    case RParen => ")"
    case LBrack => "["
    case RBrack => "]"
    case LBrace => "{"
    case RBrace => "}"
    case Comma => ","
    case Period => "."
    case Semicolon => ";"
    case Colon => ":"
    case While => "while"
    case Break => "break"
    case Continue => "continue"
    case If => "if"
    case Else => "else"
    case Func => "func"
    case Return => "return"
    case Var => "var"
    case _ => ""
  }

  predicate InTable(t: TokenType) {
    Spelling(t) != []
  }

  /** The table read backwards: the type spelled `s`, or `Illegal` when no entry spells it. */
  function Spelled(s: seq<Byte>): (t: TokenType)
    ensures t != Illegal ==> InTable(t) && Spelling(t) == s
  {
    if |s| == 1 then SpelledOne(s[0])
    else if |s| == 2 then SpelledTwo(s[0], s[1])
    else SpelledWord(s)
  }

  function SpelledOne(c: Byte): (t: TokenType)
    ensures t != Illegal ==> InTable(t) && Spelling(t) == [c]
  {
    match c
    case '+' => Add
    case '-' => Sub
    case '*' => Mul
    case '/' => Div
    case '%' => Rem
    case '&' => And
    case '|' => Or
    case '^' => Xor
    case '<' => Lss
    case '>' => Gtr
    case '=' => Assign
    case '!' => Not
    case '(' => LParen
    case ')' => RParen
    case '[' => LBrack
    case ']' => RBrack
    case '{' => LBrace
    case '}' => RBrace
    case ',' => Comma
    case '.' => Period
    case ';' => Semicolon
    case ':' => Colon
    case _ => Illegal
  }

  function SpelledTwo(a: Byte, b: Byte): (t: TokenType)
    ensures t != Illegal ==> InTable(t) && Spelling(t) == [a, b]
  {
    if a == '<' && b == '<' then Shl
    else if a == '>' && b == '>' then Shr
    else if a == '&' && b == '&' then BAnd
    else if a == '|' && b == '|' then BOr
    else if a == '=' && b == '=' then Eql
    else if a == '!' && b == '=' then NotEql
    else if a == '<' && b == '=' then LEql
    else if a == '>' && b == '=' then GEql
    else if a == 'i' && b == 'f' then If
    else Illegal
  }

  function SpelledWord(s: seq<Byte>): (t: TokenType)
    ensures t != Illegal ==> InTable(t) && Spelling(t) == s
  {
    if s == "while" then While
    else if s == "break" then Break
    else if s == "continue" then Continue
    else if s == "else" then Else
    else if s == "func" then Func
    else if s == "return" then Return
    else if s == "var" then Var
    else Illegal
  }

  /** Every table entry is found again from its spelling, so no two entries share one. */
  lemma SpelledInverts(t: TokenType)
    requires InTable(t)
    ensures Spelled(Spelling(t)) == t
  {
    if t in {Add, Sub, Mul, Div, Rem, And, Or, Xor, Lss, Gtr, Assign, Not} {
      OperatorInverts(t);
    } else if t in {LParen, RParen, LBrack, RBrack, LBrace, RBrace} {
      BracketInverts(t);
    } else if t in {Comma, Period, Semicolon, Colon} {
      SeparatorInverts(t);
    } else if t in {Shl, Shr, BAnd, BOr, Eql, NotEql, LEql, GEql, If} {
      TwoBytesInverts(t);
    } else {
      assert t in {While, Break, Continue, Else, Func, Return, Var};
      KeywordInverts(t);
    }
  }

  /** The one-byte operators. */
  lemma OperatorInverts(t: TokenType)
    requires t in {Add, Sub, Mul, Div, Rem, And, Or, Xor, Lss, Gtr, Assign, Not}
    ensures Spelled(Spelling(t)) == t
  {
    match t
    case Add =>
    case Sub =>
    case Mul =>
    case Div =>
    case Rem =>
    case And =>
    case Or =>
    case Xor =>
    case Lss =>
    case Gtr =>
    case Assign =>
    case Not =>
  }

  /** The brackets. */
  lemma BracketInverts(t: TokenType)
    requires t in {LParen, RParen, LBrack, RBrack, LBrace, RBrace}
    ensures Spelled(Spelling(t)) == t
  {
    match t
    case LParen =>
    case RParen =>
    case LBrack =>
    case RBrack =>
    case LBrace =>
    case RBrace =>
  }

  /** The separators. */
  lemma SeparatorInverts(t: TokenType)
    requires t in {Comma, Period, Semicolon, Colon}
    ensures Spelled(Spelling(t)) == t
  {
    match t
    case Comma =>
    case Period =>
    case Semicolon =>
    case Colon =>
  }

  /** The two-byte operators and `if`. */
  lemma TwoBytesInverts(t: TokenType)
    requires t in {Shl, Shr, BAnd, BOr, Eql, NotEql, LEql, GEql, If}
    ensures Spelled(Spelling(t)) == t
  {
    match t
    case Shl =>
    case Shr =>
    case BAnd =>
    case BOr =>
    case Eql =>
    case NotEql =>
    case LEql =>
    case GEql =>
    case If =>
  }

  /** The longer keywords. */
  lemma KeywordInverts(t: TokenType)
    requires t in {While, Break, Continue, Else, Func, Return, Var}
    ensures Spelled(Spelling(t)) == t
  {
    match t
    case While =>
    case Break =>
    case Continue =>
    case Else =>
    case Func =>
    case Return =>
    case Var =>
  }

  /** The spelling of table entry `t` is a prefix of `s`. */
  predicate Matches(t: TokenType, s: seq<Byte>) {
    InTable(t) && |Spelling(t)| <= |s| && s[..|Spelling(t)|] == Spelling(t)
  }

  /** The longest prefix of `s` no longer than `n` that is a table spelling, as a token. */
  function LongestPrefix(s: seq<Byte>, n: nat): TokenInfo
    requires n <= |s|
  {
    if n == 0 then TokenInfo(Illegal, [])
    else if Spelled(s[..n]) != Illegal then TokenInfo(Spelled(s[..n]), s[..n])
    else LongestPrefix(s, n - 1)
  }

  lemma {:induction false} LongestPrefixIsLongest(s: seq<Byte>, n: nat)
    requires n <= |s|
    ensures var m := LongestPrefix(s, n);
            && (m.tokType == Illegal ==> m.tokStr == [] && forall t :: Matches(t, s) ==> |Spelling(t)| > n)
            && (m.tokType != Illegal ==>
                  && Matches(m.tokType, s) && m.tokStr == Spelling(m.tokType)
                  && forall t :: Matches(t, s) && |Spelling(t)| <= n ==> |Spelling(t)| <= |m.tokStr|)
  {
    if n > 0 {
      LongestPrefixIsLongest(s, n - 1);
      forall t | Matches(t, s) && |Spelling(t)| == n
        ensures Spelled(s[..n]) == t
      {
        SpelledInverts(t);
      }
    }
  }

  /**
   * Longest match over the whole table: when some entry's spelling is a prefix
   * of `s`, the result is the entry with the longest such spelling, and no
   * other entry has a spelling as long; otherwise the result is illegal.
   */
  lemma LongestMatch(s: seq<Byte>)
    ensures var m := LongestPrefix(s, |s|);
            && (m.tokType == Illegal <==> forall t :: !Matches(t, s))
            && (m.tokType == Illegal ==> m.tokStr == [])
            && (m.tokType != Illegal ==>
                  && Matches(m.tokType, s) && m.tokStr == Spelling(m.tokType)
                  && forall t :: Matches(t, s) ==>
                       |Spelling(t)| <= |m.tokStr| && (|Spelling(t)| == |m.tokStr| ==> t == m.tokType))
  {
    LongestPrefixIsLongest(s, |s|);
    var m := LongestPrefix(s, |s|);
    if m.tokType != Illegal {
      forall t | Matches(t, s) && |Spelling(t)| == |m.tokStr|
        ensures t == m.tokType
      {
        SpelledInverts(t);
        SpelledInverts(m.tokType);
      }
    }
  }

  predicate IsDigit(c: Byte) {
    '0' <= c <= '9'
  }

  /** A letter or an underscore. */
  predicate IsAlphabet(c: Byte) {
    ('A' <= c <= 'Z') || ('a' <= c <= 'z') || c == '_'
  }

  /** The index of the first newline at or after `from`, or `|src|` when there is none. */
  function FirstNewline(src: seq<Byte>, from: nat): (n: nat)
    requires from <= |src|
    ensures from <= n <= |src|
    ensures n < |src| ==> src[n] == '\n'
    ensures forall j :: from <= j < n ==> src[j] != '\n'
    decreases |src| - from
  {
    if from == |src| || src[from] == '\n' then from else FirstNewline(src, from + 1)
  }

  /** `srcStr`: the bytes before the first newline, or nothing when there is no newline. */
  function Line(src: seq<Byte>): seq<Byte> {
    var n := FirstNewline(src, 0);
    if n < |src| then src[..n] else []
  }

  /** The end of the maximal run of letters, underscores and digits starting at `i`. */
  function WordEnd(s: seq<Byte>, i: nat): (e: nat)
    requires i <= |s|
    ensures i <= e <= |s|
    ensures forall j :: i <= j < e ==> IsAlphabet(s[j]) || IsDigit(s[j])
    ensures e < |s| ==> !(IsAlphabet(s[e]) || IsDigit(s[e]))
    decreases |s| - i
  {
    if i < |s| && (IsAlphabet(s[i]) || IsDigit(s[i])) then WordEnd(s, i + 1) else i
  }

  /** The outcome GenerateToken is proved to have, whatever the table order. */
  function Generate(src: seq<Byte>): Outcome {
    if src == [] then Token(TokenInfo(EndOfFile, []), 0)
    else if src[0] == '\n' then Token(TokenInfo(NewLine, []), 1)
    else if src[0] == ' ' then Token(TokenInfo(Space, []), 1)
    else
      var line := Line(src);
      var m := LongestPrefix(line, |line|);
      if m.tokType != Illegal then Token(m, |m.tokStr|)
      else if line == [] then IndexPanic
      else if IsAlphabet(line[0]) then Token(TokenInfo(Ident, line[..WordEnd(line, 0)]), WordEnd(line, 0))
      else if IsDigit(line[0]) then Token(TokenInfo(Int, line[..WordEnd(line, 0)]), WordEnd(line, 0))
      else Token(TokenInfo(Illegal, []), 0)
  }

  /** `order` visits exactly the table's entries: one iteration order of the Go map. */
  predicate Enumerates(order: seq<TokenType>) {
    forall t :: t in order <==> InTable(t)
  }

  /** GenerateToken, with the map's iteration order given as `order`. */
  method GenerateToken(src: seq<Byte>, order: seq<TokenType>) returns (r: Outcome)
    requires Enumerates(order)
    ensures r == Generate(src)
  {
    var bytesConsumed := 0;
    var curToken := TokenInfo(Illegal, []);
    if |src| == 0 {
      curToken := curToken.(tokType := EndOfFile);
      bytesConsumed := 0;
      return Token(curToken, bytesConsumed);
    } else if src[0] == '\n' {
      curToken := curToken.(tokType := NewLine);
      bytesConsumed := 1;
      return Token(curToken, bytesConsumed);
    } else if src[0] == ' ' {
      curToken := curToken.(tokType := Space);
      bytesConsumed := 1;
      return Token(curToken, bytesConsumed);
    }
    var srcStr := FindLine(src);
    curToken, bytesConsumed := MatchTable(srcStr, order);
    LongestMatch(srcStr);
    if curToken.tokType != Illegal {
      return Token(curToken, bytesConsumed);
    }
    if |srcStr| == 0 {
      // `srcStr[0]` on an empty line: `src` holds no newline.
      return IndexPanic;
    }
    if IsAlphabet(srcStr[0]) {
      bytesConsumed := ScanWord(src, srcStr);
      curToken := TokenInfo(Ident, srcStr[..bytesConsumed]);
    } else if IsDigit(srcStr[0]) {
      bytesConsumed := ScanWord(src, srcStr);
      curToken := TokenInfo(Int, srcStr[..bytesConsumed]);
    }
    return Token(curToken, bytesConsumed);
  }

  /** The loop of GenerateToken that cuts `srcStr` at the first newline. */
  method FindLine(src: seq<Byte>) returns (srcStr: seq<Byte>)
    ensures srcStr == Line(src)
  {
    srcStr := [];
    var idx := 0;
    while idx < |src|
      invariant 0 <= idx <= |src|
      invariant forall j :: 0 <= j < idx ==> src[j] != '\n'
      invariant srcStr == []
    {
      if src[idx] == '\n' {
        assert FirstNewline(src, 0) == idx;
        srcStr := src[..idx];
        return;
      }
      idx := idx + 1;
    }
  }

  /**
   * The loop of GenerateToken over the table: an entry replaces the current
   * token when its spelling starts `srcStr` and no entry has matched yet or
   * the current one is shorter. Whatever the order, it is the longest match.
   */
  method MatchTable(srcStr: seq<Byte>, order: seq<TokenType>) returns (curToken: TokenInfo, bytesConsumed: nat)
    requires Enumerates(order)
    ensures curToken == LongestPrefix(srcStr, |srcStr|)
    ensures bytesConsumed == |curToken.tokStr|
  {
    curToken := TokenInfo(Illegal, []);
    bytesConsumed := 0;
    var k := 0;
    while k < |order|
      invariant 0 <= k <= |order|
      invariant bytesConsumed == |curToken.tokStr|
      invariant BestSoFar(srcStr, order, k, curToken)
    {
      ghost var before := curToken;
      var tokType := order[k];
      var tokStr := Spelling(tokType);
      assert InTable(tokType);
      if |srcStr| >= |tokStr| && srcStr[..|tokStr|] == tokStr {
        if curToken.tokType == Illegal || |curToken.tokStr| < |tokStr| {
          curToken := TokenInfo(tokType, tokStr);
          bytesConsumed := |tokStr|;
        }
      }
      BestStep(srcStr, order, k, before, curToken);
      k := k + 1;
    }
    BestIsLongest(srcStr, order, curToken);
  }

  /**
   * The state of the table loop after the first `k` entries of `order`: no
   * match yet and none among them, or a matching entry at least as long as
   * every matching one among them.
   */
  predicate BestSoFar(s: seq<Byte>, order: seq<TokenType>, k: nat, cur: TokenInfo)
    requires k <= |order|
  {
    && (cur.tokType == Illegal ==> cur.tokStr == [] && forall j :: 0 <= j < k ==> !Matches(order[j], s))
    && (cur.tokType != Illegal ==>
          && Matches(cur.tokType, s) && cur.tokStr == Spelling(cur.tokType)
          && forall j :: 0 <= j < k && Matches(order[j], s) ==> |Spelling(order[j])| <= |cur.tokStr|)
  }

  /** One round of the table loop: entry `order[k]` replaces `cur` when it matches and is longer. */
  lemma BestStep(s: seq<Byte>, order: seq<TokenType>, k: nat, cur: TokenInfo, next: TokenInfo)
    requires k < |order| && InTable(order[k])
    requires BestSoFar(s, order, k, cur)
    requires var t := order[k];
             next == if Matches(t, s) && (cur.tokType == Illegal || |cur.tokStr| < |Spelling(t)|)
                     then TokenInfo(t, Spelling(t)) else cur
    ensures BestSoFar(s, order, k + 1, next)
  {
  }

  /** What the table loop ends with, over an enumeration of the table, is the longest match. */
  lemma BestIsLongest(s: seq<Byte>, order: seq<TokenType>, cur: TokenInfo)
    requires Enumerates(order)
    requires BestSoFar(s, order, |order|, cur)
    ensures cur == LongestPrefix(s, |s|)
  {
    LongestMatch(s);
    var m := LongestPrefix(s, |s|);
    if m.tokType != Illegal {
      assert m.tokType in order;
      var j :| 0 <= j < |order| && order[j] == m.tokType;
      assert Matches(order[j], s);
    }
  }

  /**
   * The identifier and integer loops of GenerateToken: the length of the
   * maximal run of letters, underscores and digits that starts `srcStr`.
   * The digit test reads `src`, the letter test `srcStr`; they agree because
   * `srcStr` is a prefix of `src`.
   */
  method ScanWord(src: seq<Byte>, srcStr: seq<Byte>) returns (i: nat)
    requires |srcStr| <= |src| && srcStr == src[..|srcStr|]
    ensures i == WordEnd(srcStr, 0)
  {
    i := 0;
    while i < |srcStr| && (IsAlphabet(srcStr[i]) || IsDigit(src[i]))
      invariant 0 <= i <= |srcStr|
      invariant WordEnd(srcStr, i) == WordEnd(srcStr, 0)
    {
      assert src[i] == srcStr[i];
      i := i + 1;
    }
    if i < |srcStr| {
      assert src[i] == srcStr[i];
    }
  }

  /**
   * What a token covers: never more than the input; a table, identifier or
   * integer token is exactly the bytes it consumed, an illegal token consumes
   * nothing, and a newline or a space is one byte with an empty string.
   */
  lemma {:induction false} ConsumedIsPrefix(src: seq<Byte>)
    ensures var r := Generate(src);
            && (r.Token? ==> r.consumed <= |src|)
            && (r.Token? && r.info.tokType !in {EndOfFile, NewLine, Space} ==> r.info.tokStr == src[..r.consumed])
            && (r.Token? && r.info.tokType in {NewLine, Space} ==> r.info.tokStr == [] && r.consumed == 1)
            && (r.Token? && r.info.tokType == Illegal ==> r.info.tokStr == [] && r.consumed == 0)
  {
    if src != [] && src[0] != '\n' && src[0] != ' ' {
      var line := Line(src);
      LongestMatch(line);
      var m := LongestPrefix(line, |line|);
      assert line == src[..|line|];
      if m.tokType != Illegal {
        assert m.tokStr == line[..|m.tokStr|];
      } else if line != [] {
        var e := WordEnd(line, 0);
        assert line[..e] == src[..e];
      }
    }
  }

  /**
   * The table decides first: when an entry's spelling starts the line, the
   * token is the entry with the longest such spelling, whatever follows it
   * (there is no check for the end of a word).
   */
  lemma GenerateLongest(src: seq<Byte>, t: TokenType)
    requires src != [] && src[0] != '\n' && src[0] != ' '
    requires Matches(t, Line(src))
    ensures var r := Generate(src);
            && r.Token? && Matches(r.info.tokType, Line(src))
            && r.info.tokStr == Spelling(r.info.tokType) && r.consumed == |r.info.tokStr|
            && |Spelling(t)| <= r.consumed
            && (|Spelling(t)| == r.consumed ==> r.info.tokType == t)
  {
    LongestMatch(Line(src));
  }

  /**
   * Without a table match, a line starting with a letter or `_` gives an
   * identifier and one starting with a digit an integer, over the maximal run
   * of letters, `_` and digits; any other first byte gives an illegal token.
   */
  lemma GenerateWord(src: seq<Byte>)
    requires src != [] && src[0] != '\n' && src[0] != ' '
    requires Line(src) != [] && forall t :: !Matches(t, Line(src))
    ensures var line := Line(src);
            var r := Generate(src);
            && r.Token?
            && (IsAlphabet(line[0]) || IsDigit(line[0]) ==>
                  && r.info.tokType == (if IsAlphabet(line[0]) then Ident else Int)
                  && 0 < r.consumed <= |line| && r.info.tokStr == line[..r.consumed]
                  && (forall j :: 0 <= j < r.consumed ==> IsAlphabet(line[j]) || IsDigit(line[j]))
                  && (r.consumed < |line| ==> !(IsAlphabet(line[r.consumed]) || IsDigit(line[r.consumed]))))
            && (!(IsAlphabet(line[0]) || IsDigit(line[0])) ==> r == Token(TokenInfo(Illegal, []), 0))
  {
    LongestMatch(Line(src));
  }

  /** Matching never looks past the first newline. */
  lemma LineOnly(line: seq<Byte>, rest: seq<Byte>)
    requires forall j :: 0 <= j < |line| ==> line[j] != '\n'
    ensures Line(line + "\n" + rest) == line
    ensures Generate(line + "\n" + rest) == Generate(line + "\n")
  {
    var a := line + "\n" + rest;
    var b := line + "\n";
    assert a[|line|] == '\n' && b[|line|] == '\n';
    assert FirstNewline(a, 0) == |line| && FirstNewline(b, 0) == |line|;
    assert a[..|line|] == line && b[..|line|] == line;
    if line != [] {
      assert a[0] == line[0] && b[0] == line[0];
    }
  }

  /** A buffer with no newline that does not start with a space panics: `srcStr` stays empty. */
  lemma NoNewlinePanics(src: seq<Byte>)
    requires src != [] && src[0] != ' '
    requires forall j :: 0 <= j < |src| ==> src[j] != '\n'
    ensures Generate(src) == IndexPanic
  {
    assert FirstNewline(src, 0) == |src|;
  }

  /** The cases GenerateToken handles before looking at the line. */
  lemma LeadingBytes(rest: seq<Byte>)
    ensures Generate([]) == Token(TokenInfo(EndOfFile, []), 0)
    ensures Generate(['\n'] + rest) == Token(TokenInfo(NewLine, []), 1)
    ensures Generate([' '] + rest) == Token(TokenInfo(Space, []), 1)
  {
  }

  /** A keyword needs no word boundary: `ifx` starts with the keyword `if`. */
  lemma KeywordPrefix(s: seq<Byte>)
    requires s == "ifx\n"
    ensures Generate(s) == Token(TokenInfo(If, "if"), 2)
  {
    assert s[0] == 'i' && s[1] == 'f' && s[2] == 'x' && s[3] == '\n';
    assert FirstNewline(s, 0) == 3;
    assert Line(s) == "ifx";
    assert Spelled("ifx") == Illegal;
    assert "ifx"[..2] == "if";
  }

  /** Two-byte operators beat their one-byte prefixes. */
  lemma LongerOperatorWins(s: seq<Byte>, u: seq<Byte>)
    requires s == "<=\n" && u == "&&\n"
    ensures Generate(s) == Token(TokenInfo(LEql, "<="), 2)
    ensures Generate(u) == Token(TokenInfo(BAnd, "&&"), 2)
  {
    assert s[0] == '<' && s[1] == '=' && s[2] == '\n';
    assert FirstNewline(s, 0) == 2 && Line(s) == "<=";
    assert u[0] == '&' && u[1] == '&' && u[2] == '\n';
    assert FirstNewline(u, 0) == 2 && Line(u) == "&&";
  }

  /** An integer run may continue with letters. */
  lemma IntegerRun(s: seq<Byte>)
    requires s == "12ab+1\n"
    ensures Generate(s) == Token(TokenInfo(Int, "12ab"), 4)
  {
    var line: seq<Byte> := "12ab+1";
    assert s[..6] == line;
    assert forall j :: 0 <= j < 6 ==> s[j] != '\n';
    assert s[6] == '\n';
    assert FirstNewline(s, 0) == 6 && Line(s) == line;
    NoTableEntryStarts(line);
    assert line[0] == '1' && line[1] == '2' && line[2] == 'a' && line[3] == 'b' && line[4] == '+';
    assert WordEnd(line, 0) == 4;
    assert line[..4] == "12ab";
  }

  /** No spelling in the table starts `12ab+1`. */
  lemma NoTableEntryStarts(line: seq<Byte>)
    requires line == "12ab+1"
    ensures LongestPrefix(line, |line|) == TokenInfo(Illegal, [])
  {
    forall n | 1 <= n <= 6
      ensures Spelled(line[..n]) == Illegal
    {
      assert line[..n][0] == '1';
      DigitSpellsNothing(line[..n]);
    }
    assert LongestPrefix(line, 1) == TokenInfo(Illegal, []);
    assert LongestPrefix(line, 2) == TokenInfo(Illegal, []);
    assert LongestPrefix(line, 3) == TokenInfo(Illegal, []);
    assert LongestPrefix(line, 4) == TokenInfo(Illegal, []);
    assert LongestPrefix(line, 5) == TokenInfo(Illegal, []);
  }

  /** Every spelling in the table starts with a non-digit. */
  lemma DigitSpellsNothing(s: seq<Byte>)
    requires |s| > 0 && IsDigit(s[0])
    ensures Spelled(s) == Illegal
  {
    if |s| > 2 {
      assert "while"[0] == 'w' && "break"[0] == 'b' && "continue"[0] == 'c' && "else"[0] == 'e';
      assert "func"[0] == 'f' && "return"[0] == 'r' && "var"[0] == 'v';
    }
  }
}
