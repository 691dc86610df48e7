/** The scanner: query text to tokens, one token per call. */
module Lexer {
  import opened Wrappers
  import opened Text
  import opened Syntax
  import opened Classifier

  datatype Token =
    | Ident(text: string)          // a bare word that is not a keyword
    | Number(text: string)         // -?[0-9]+ or -?[0-9]+.[0-9]+, verbatim
    | DoubleQuoted(text: string)   // contents of "...", escapes removed
    | SingleQuoted(text: string)   // contents of '...', verbatim
    | OpSym(text: string)          // a run of = ! < >
    | LinkSym(link: Link)          // & && | || and or
    | NotKw                        // not
    | EofTok
    | Illegal(text: string)        // unknown input or an unterminated quote

  /** A bare word that the scanner reports as an identifier. */
  predicate IsIdent(w: string) {
    |w| > 0 && IsLetter(w[0]) && AllIn(w, WordChar) && !IsKeyword(w)
  }

  predicate IsKeyword(w: string) {
    var l := ToLower(w);
    l == "and" || l == "or" || l == "not"
  }

  /** What each kind of token promises about its text. */
  predicate WellShaped(t: Token) {
    match t
    case Ident(w) => IsIdent(w)
    case Number(x) => IsInteger(x) || IsFloat(x)
    case SingleQuoted(x) => AllIn(x, NotSingleQuote)
    case OpSym(o) => |o| > 0 && AllIn(o, OpChar)
    case LinkSym(l) => l != Eof
    case _ => true
  }

  /** A word starting with a letter: a link or NOT keyword in any case, else an identifier. */
  function Word(w: string): (t: Token)
    requires |w| > 0 && IsLetter(w[0]) && AllIn(w, WordChar)
    ensures t != EofTok
  {
    var l := ToLower(w);
    if l == "and" then LinkSym(And)
    else if l == "or" then LinkSym(Or)
    else if l == "not" then NotKw
    else Ident(w)
  }

  /** A word is an identifier exactly when it is no keyword, and then keeps its text. */
  lemma WordKind(w: string)
    requires |w| > 0 && IsLetter(w[0]) && AllIn(w, WordChar)
    ensures WellShaped(Word(w))
    ensures Word(w).Ident? <==> IsIdent(w)
    ensures Word(w).Ident? ==> Word(w).text == w
  {
  }

  /** Adds `acc` in front of the text of a successful read. */
  function Prepend(acc: string, r: Option<(string, nat)>): Option<(string, nat)> {
    match r
    case None => None
    case Some((t, e)) => Some((acc + t, e))
  }

  /** Reads the body of a double-quoted string starting at `k`, just after the
      opening quote: a backslash makes the next character literal, the first
      unescaped quote ends the string. Returns the unescaped text and the
      position after the closing quote, or None when the quote is never closed. */
  function ReadQuoted(s: string, k: nat): (r: Option<(string, nat)>)
    requires k <= |s|
    ensures r.Some? ==> k < r.value.1 <= |s| && s[r.value.1 - 1] == '"'
    ensures r.Some? ==> |r.value.0| < r.value.1 - k
    decreases |s| - k
  {
    if k == |s| then None
    else if s[k] == '"' then Some(([], k + 1))
    else if s[k] == '\\' then
      if k + 1 == |s| then None else Prepend([s[k + 1]], ReadQuoted(s, k + 2))
    else Prepend([s[k]], ReadQuoted(s, k + 1))
  }

  /** The end of the number starting at `j`: an optional minus, digits, and a
      fraction only when a digit follows the dot. */
  function NumberEnd(s: string, j: nat): (e: nat)
    requires j < |s|
    requires IsDigit(s[j]) || (s[j] == '-' && j + 1 < |s| && IsDigit(s[j + 1]))
    ensures j < e <= |s|
  {
    var i := if s[j] == '-' then j + 1 else j;
    var d := Span(s, i, Digit);
    if d + 1 < |s| && s[d] == '.' && IsDigit(s[d + 1]) then Span(s, d + 1, Digit) else d
  }

  /** What NumberEnd reads is an INTEGER or a FLOAT. */
  lemma NumberShape(s: string, j: nat)
    requires j < |s|
    requires IsDigit(s[j]) || (s[j] == '-' && j + 1 < |s| && IsDigit(s[j + 1]))
    ensures IsInteger(s[j..NumberEnd(s, j)]) || IsFloat(s[j..NumberEnd(s, j)])
  {
    var i := if s[j] == '-' then j + 1 else j;
    var d := Span(s, i, Digit);
    if d + 1 < |s| && s[d] == '.' && IsDigit(s[d + 1]) {
      FractionShape(s, j, i, d);
    } else {
      WholeShape(s, j, i, d);
    }
  }

  /** Without a fraction, NumberEnd reads an INTEGER. */
  lemma WholeShape(s: string, j: nat, i: nat, d: nat)
    requires j < |s|
    requires IsDigit(s[j]) || (s[j] == '-' && j + 1 < |s| && IsDigit(s[j + 1]))
    requires i == (if s[j] == '-' then j + 1 else j) && d == Span(s, i, Digit)
    requires !(d + 1 < |s| && s[d] == '.' && IsDigit(s[d + 1]))
    ensures IsInteger(s[j..NumberEnd(s, j)])
  {
    SpanRun(s, i, Digit);
    assert NumberEnd(s, j) == d;
    assert Unsigned(s[j..d]) == s[i..d];
    DigitsSlice(s, i, d);
  }

  /** With a dot and a digit after the digits, NumberEnd reads a FLOAT. */
  lemma FractionShape(s: string, j: nat, i: nat, d: nat)
    requires j < |s|
    requires IsDigit(s[j]) || (s[j] == '-' && j + 1 < |s| && IsDigit(s[j + 1]))
    requires i == (if s[j] == '-' then j + 1 else j) && d == Span(s, i, Digit)
    requires d + 1 < |s| && s[d] == '.' && IsDigit(s[d + 1])
    ensures IsFloat(s[j..NumberEnd(s, j)])
  {
    var e := Span(s, d + 1, Digit);
    assert NumberEnd(s, j) == e;
    SpanRun(s, i, Digit);
    SpanRun(s, d + 1, Digit);
    assert Unsigned(s[j..e]) == s[i..e];
    FloatSlice(s, i, d, e);
  }

  lemma DigitsSlice(s: string, a: nat, b: nat)
    requires a <= b <= |s|
    requires forall m :: a <= m < b ==> IsDigit(s[m])
    ensures AllIn(s[a..b], Digit)
  {
  }

  lemma FloatSlice(s: string, i: nat, d: nat, e: nat)
    requires i < d && d + 1 < e <= |s|
    requires forall m :: i <= m < d ==> IsDigit(s[m])
    requires s[d] == '.'
    requires forall m :: d + 1 <= m < e ==> IsDigit(s[m])
    ensures var u := s[i..e]; var k := Span(u, 0, Digit);
      0 < k < |u| - 1 && u[k] == '.' && AllIn(u[k + 1..], Digit)
  {
    var u := s[i..e];
    assert forall m :: 0 <= m < d - i ==> InClass(u[m], Digit);
    assert !InClass(u[d - i], Digit);
    SpanIs(u, 0, d - i, Digit);
    assert u[d - i + 1..] == s[d + 1..e];
    DigitsSlice(s, d + 1, e);
  }

  /** One scanner step: the token that starts at or after `i` (after skipping
      white space) and the position just after it. */
  function ScanAt(s: string, i: nat): (r: (Token, nat))
    requires i <= |s|
    ensures i <= r.1 <= |s|
    ensures r.0 != EofTok ==> i < r.1
    ensures r.0 == EofTok ==> r.1 == |s|
  {
    var j := Span(s, i, Space);
    if j == |s| then (EofTok, j) else TokenAt(s, j)
  }

  /** The token that starts at `j`, a position holding no white space. */
  function TokenAt(s: string, j: nat): (r: (Token, nat))
    requires j < |s|
    ensures j < r.1 <= |s|
    ensures r.0 != EofTok
  {
    var c := s[j];
    if IsLetter(c) then
      var e := Span(s, j, WordChar);
      SpanRun(s, j, WordChar);
      (Word(s[j..e]), e)
    else if IsDigit(c) || (c == '-' && j + 1 < |s| && IsDigit(s[j + 1])) then
      var e := NumberEnd(s, j);
      (Number(s[j..e]), e)
    else if c == '"' then
      match ReadQuoted(s, j + 1)
      case None => (Illegal(s[j..]), |s|)
      case Some((t, e)) => (DoubleQuoted(t), e)
    else if c == '\'' then
      var e := Span(s, j + 1, NotSingleQuote);
      if e == |s| then (Illegal(s[j..]), |s|)
      else (SingleQuoted(s[j + 1..e]), e + 1)
    else if InClass(c, OpChar) then
      var e := Span(s, j, OpChar);
      (OpSym(s[j..e]), e)
    else if c == '&' then
      var e := Span(s, j, Amp);
      if e - j <= 2 then (LinkSym(And), e) else (Illegal(s[j..e]), e)
    else if c == '|' then
      var e := Span(s, j, Bar);
      if e - j <= 2 then (LinkSym(Or), e) else (Illegal(s[j..e]), e)
    else (Illegal([c]), j + 1)
  }

  /** The scanner reports the end of the input exactly when only white space is left. */
  lemma ScanAtEof(s: string, i: nat)
    requires i <= |s|
    ensures ScanAt(s, i).0 == EofTok <==> forall m :: i <= m < |s| ==> InClass(s[m], Space)
  {
    SpanRun(s, i, Space);
  }

  /** The first character decides the kind of a token, and the text of a bare
      token is the characters it spans. */
  lemma TokenAtKind(s: string, j: nat)
    requires j < |s|
    ensures var (t, e) := TokenAt(s, j);
      && (t.Number? <==> IsDigit(s[j]) || (s[j] == '-' && j + 1 < |s| && IsDigit(s[j + 1])))
      && (t.OpSym? <==> InClass(s[j], OpChar))
      && (t.Ident? || t.NotKw? ==> IsLetter(s[j]))
      && (t.Number? || t.OpSym? || t.Ident? ==> t.text == s[j..e])
      && (t.DoubleQuoted? ==> s[j] == '"' && s[e - 1] == '"')
      && (t.SingleQuoted? ==> s[j] == '\'' && e >= j + 2 && t.text == s[j + 1..e - 1])
  {
  }

  /** Every token the scanner reports has the shape its kind promises. */
  lemma ScanAtWellShaped(s: string, i: nat)
    requires i <= |s|
    ensures WellShaped(ScanAt(s, i).0)
  {
    var j := Span(s, i, Space);
    if j < |s| {
      TokenAtWellShaped(s, j);
    }
  }

  lemma TokenAtWellShaped(s: string, j: nat)
    requires j < |s|
    ensures WellShaped(TokenAt(s, j).0)
  {
    var c := s[j];
    if IsLetter(c) {
      WordTokenWellShaped(s, j);
    } else if IsDigit(c) || (c == '-' && j + 1 < |s| && IsDigit(s[j + 1])) {
      NumberShape(s, j);
    } else if c == '\'' {
      SpanRun(s, j + 1, NotSingleQuote);
    } else if InClass(c, OpChar) {
      SpanRun(s, j, OpChar);
    }
  }

  lemma WordTokenWellShaped(s: string, j: nat)
    requires j < |s| && IsLetter(s[j])
    ensures WellShaped(TokenAt(s, j).0)
  {
    SpanRun(s, j, WordChar);
    WordKind(s[j..Span(s, j, WordChar)]);
  }

  /** The scanner reads the query left to right; `pos` is how far it has read. */
  class Scanner {
    const src: string
    var pos: nat

    ghost predicate Valid()
      reads this
    {
      pos <= |src|
    }

    constructor (query: string)
      ensures Valid() && src == query && pos == 0
    {
      src := query;
      pos := 0;
    }

    /** Returns the next token; past the end it keeps returning EofTok. */
    method Scan() returns (tok: Token)
      requires Valid()
      modifies this
      ensures Valid()
      ensures (tok, pos) == ScanAt(src, old(pos))
    {
      var j := SpanEnd(src, pos, Space);
      if j == |src| {
        tok, pos := EofTok, j;
      } else {
        tok, pos := ReadToken(src, j);
      }
    }
  }

  /** Reads the token that starts at `j`. */
  method ReadToken(s: string, j: nat) returns (tok: Token, e: nat)
    requires j < |s|
    ensures (tok, e) == TokenAt(s, j)
  {
    var c := s[j];
    if IsLetter(c) {
      e := SpanEnd(s, j, WordChar);
      SpanRun(s, j, WordChar);
      tok := Word(s[j..e]);
    } else if IsDigit(c) || (c == '-' && j + 1 < |s| && IsDigit(s[j + 1])) {
      e := ReadNumber(s, j);
      tok := Number(s[j..e]);
    } else if c == '"' {
      var r := ReadQuotedText(s, j + 1);
      if r.None? {
        tok, e := Illegal(s[j..]), |s|;
      } else {
        tok, e := DoubleQuoted(r.value.0), r.value.1;
      }
    } else if c == '\'' {
      e := SpanEnd(s, j + 1, NotSingleQuote);
      if e == |s| {
        tok := Illegal(s[j..]);
      } else {
        tok, e := SingleQuoted(s[j + 1..e]), e + 1;
      }
    } else if InClass(c, OpChar) {
      e := SpanEnd(s, j, OpChar);
      tok := OpSym(s[j..e]);
    } else if c == '&' || c == '|' {
      e := SpanEnd(s, j, if c == '&' then Amp else Bar);
      if e - j <= 2 {
        tok := LinkSym(if c == '&' then And else Or);
      } else {
        tok := Illegal(s[j..e]);
      }
    } else {
      tok, e := Illegal([c]), j + 1;
    }
  }

  /** Reads a number: optional minus, digits, and a fraction when a digit follows the dot. */
  method ReadNumber(s: string, j: nat) returns (e: nat)
    requires j < |s|
    requires IsDigit(s[j]) || (s[j] == '-' && j + 1 < |s| && IsDigit(s[j + 1]))
    ensures e == NumberEnd(s, j)
  {
    var i := if s[j] == '-' then j + 1 else j;
    var d := SpanEnd(s, i, Digit);
    e := d;
    if d + 1 < |s| && s[d] == '.' && IsDigit(s[d + 1]) {
      e := SpanEnd(s, d + 1, Digit);
    }
  }

  /** Reads a run of class `k` one character at a time. */
  method SpanEnd(s: string, i: nat, k: CharClass) returns (j: nat)
    requires i <= |s|
    ensures j == Span(s, i, k)
  {
    j := i;
    while j < |s| && InClass(s[j], k)
      invariant i <= j <= |s|
      invariant Span(s, j, k) == Span(s, i, k)
    {
      j := j + 1;
    }
  }

  /** Reads and unescapes the body of a double-quoted string. */
  method ReadQuotedText(s: string, k0: nat) returns (r: Option<(string, nat)>)
    requires k0 <= |s|
    ensures r == ReadQuoted(s, k0)
  {
    var acc: string := [];
    var k := k0;
    PrependNothing(ReadQuoted(s, k0));
    while k < |s| && s[k] != '"'
      invariant k0 <= k <= |s|
      invariant ReadQuoted(s, k0) == Prepend(acc, ReadQuoted(s, k))
      decreases |s| - k
    {
      if s[k] == '\\' {
        if k + 1 == |s| {
          return None;
        }
        PrependTwice(acc, [s[k + 1]], ReadQuoted(s, k + 2));
        acc := acc + [s[k + 1]];
        k := k + 2;
      } else {
        PrependTwice(acc, [s[k]], ReadQuoted(s, k + 1));
        acc := acc + [s[k]];
        k := k + 1;
      }
    }
    if k == |s| {
      return None;
    }
    assert ReadQuoted(s, k) == Some(([], k + 1));
    assert acc + [] == acc;
    r := Some((acc, k + 1));
  }

  lemma PrependNothing(r: Option<(string, nat)>)
    ensures Prepend([], r) == r
  {
    if r.Some? {
      var (t, e) := r.value;
      assert [] + t == t;
    }
  }

  lemma PrependTwice(a: string, b: string, r: Option<(string, nat)>)
    ensures Prepend(a, Prepend(b, r)) == Prepend(a + b, r)
  {
    if r.Some? {
      assert a + (b + r.value.0) == (a + b) + r.value.0;
    }
  }
}
