/** Writing values, operators and links back as query text, and the proofs
    that the scanner and the parser read them back. */
module RoundTrip {
  import opened Wrappers
  import opened Text
  import opened Syntax
  import opened Classifier
  import opened Lexer
  import opened Parsing

  function OpText(op: Operator): (o: string)
    ensures |o| > 0 && AllIn(o, OpChar) && OperatorOf(o) == op
  {
    match op
    case Eqi => "=="
    case Neqi => "!="
    case Gt => ">"
    case Lt => "<"
    case Gte => ">="
    case Lte => "<="
    case Unsupported => "==="
  }

  /** Backslash before every backslash and double quote. */
  function Escape(t: string): string {
    if t == [] then []
    else EscapeChar(t[0]) + Escape(t[1..])
  }

  /** A LITERAL is written double-quoted, a TIME single-quoted, anything else bare. */
  function ValueText(c: Condition): string {
    match c.exprType
    case Literal => "\"" + Escape(c.expr) + "\""
    case Time => "'" + c.expr + "'"
    case _ => c.expr
  }

  function LinkText(l: Link): string {
    match l
    case Eof => ""
    case And => "& "
    case Or => "| "
  }

  /** `x` occurs in `s` at position `p`, character by character. */
  predicate HasAt(s: string, p: nat, x: string)
    decreases |x|
  {
    p + |x| <= |s| && (x == [] || (s[p] == x[0] && HasAt(s, p + 1, x[1..])))
  }

  lemma {:induction false} HasAtIndex(s: string, p: nat, x: string)
    requires HasAt(s, p, x)
    ensures forall m :: p <= m < p + |x| ==> s[m] == x[m - p]
    decreases |x|
  {
    if x != [] {
      HasAtIndex(s, p + 1, x[1..]);
    }
  }

  lemma {:induction false} IndexHasAt(s: string, p: nat, x: string)
    requires p + |x| <= |s| && forall m :: p <= m < p + |x| ==> s[m] == x[m - p]
    ensures HasAt(s, p, x)
    decreases |x|
  {
    if x != [] {
      IndexHasAt(s, p + 1, x[1..]);
    }
  }

  lemma HasAtSplit(s: string, p: nat, a: string, b: string)
    requires HasAt(s, p, a + b)
    ensures HasAt(s, p, a) && HasAt(s, p + |a|, b)
  {
    HasAtIndex(s, p, a + b);
    IndexHasAt(s, p, a);
    IndexHasAt(s, p + |a|, b);
  }

  lemma SkipOneSpace(s: string, p: nat)
    requires p < |s| && s[p] == ' '
    ensures ScanAt(s, p) == ScanAt(s, p + 1)
  {
    assert Span(s, p, Space) == Span(s, p + 1, Space);
  }

  /** The slice of `s` where `x` occurs is `x`. */
  lemma HasAtSlice(s: string, p: nat, x: string)
    requires HasAt(s, p, x)
    ensures s[p..p + |x|] == x
  {
    HasAtIndex(s, p, x);
  }

  /** A token ending at `e` is followed by a blank or by the end of the text. */
  predicate Delimited(s: string, e: nat) {
    e == |s| || (e < |s| && s[e] == ' ')
  }

  lemma ScanWord(s: string, p: nat, w: string)
    requires HasAt(s, p, w) && Delimited(s, p + |w|)
    requires |w| > 0 && IsLetter(w[0]) && AllIn(w, WordChar)
    ensures ScanAt(s, p) == (Word(w), p + |w|)
  {
    HasAtIndex(s, p, w);
    HasAtSlice(s, p, w);
    SpanIs(s, p, p + |w|, WordChar);
    assert TokenAt(s, p) == (Word(w), p + |w|);
    SpanIs(s, p, p, Space);
  }

  lemma ScanOp(s: string, p: nat, o: string)
    requires HasAt(s, p, o) && Delimited(s, p + |o|)
    requires |o| > 0 && AllIn(o, OpChar)
    ensures ScanAt(s, p) == (OpSym(o), p + |o|)
  {
    HasAtIndex(s, p, o);
    HasAtSlice(s, p, o);
    SpanIs(s, p, p + |o|, OpChar);
    assert TokenAt(s, p) == (OpSym(o), p + |o|);
    SpanIs(s, p, p, Space);
  }

  lemma ScanLink(s: string, p: nat, l: Link)
    requires l != Eof && HasAt(s, p, LinkText(l))
    ensures ScanAt(s, p) == (LinkSym(l), p + 1)
  {
    HasAtIndex(s, p, LinkText(l));
    SpanIs(s, p, p + 1, if l == And then Amp else Bar);
    assert TokenAt(s, p) == (LinkSym(l), p + 1);
    SpanIs(s, p, p, Space);
  }

  lemma ScanNumber(s: string, p: nat, x: string)
    requires HasAt(s, p, x) && Delimited(s, p + |x|)
    requires IsInteger(x) || IsFloat(x)
    ensures ScanAt(s, p) == (Number(x), p + |x|)
  {
    HasAtSlice(s, p, x);
    NumberEndIs(s, p, x);
    assert TokenAt(s, p) == (Number(x), p + |x|);
    SpanIs(s, p, p, Space);
  }

  lemma NumberEndIs(s: string, p: nat, x: string)
    requires p + |x| <= |s| && s[p..p + |x|] == x && Delimited(s, p + |x|)
    requires IsInteger(x) || IsFloat(x)
    ensures IsDigit(s[p]) || (s[p] == '-' && p + 1 < |s| && IsDigit(s[p + 1]))
    ensures NumberEnd(s, p) == p + |x|
  {
    var i := UnsignedStart(s, p, x);
    if IsInteger(x) {
      IntegerEnd(s, i, p + |x|);
    } else {
      FloatEnd(s, i, p + |x|);
    }
  }

  /** Where the digits of a number written at `p` begin: after its minus sign, if any. */
  lemma UnsignedStart(s: string, p: nat, x: string) returns (i: nat)
    requires p + |x| <= |s| && s[p..p + |x|] == x
    requires IsInteger(x) || IsFloat(x)
    ensures i == (if s[p] == '-' then p + 1 else p) && i < p + |x|
    ensures IsDigit(s[i]) && s[i..p + |x|] == Unsigned(x)
  {
    var u := Unsigned(x);
    i := p + |x| - |u|;
    assert |u| > 0 && IsDigit(u[0]) by {
      if IsFloat(x) {
        SpanRun(u, 0, Digit);
      }
    }
    assert s[i..p + |x|] == u;
    assert s[i] == u[0];
  }

  /** The digits of an INTEGER end where the number does. */
  lemma IntegerEnd(s: string, i: nat, e: nat)
    requires i < e <= |s| && AllIn(s[i..e], Digit) && Delimited(s, e)
    ensures Span(s, i, Digit) == e
  {
    assert forall m :: i <= m < e ==> s[m] == s[i..e][m - i];
    SpanIs(s, i, e, Digit);
  }

  /** The digits of a FLOAT: a run, a point, and a run that ends where the number does. */
  lemma FloatEnd(s: string, i: nat, e: nat)
    requires i < e <= |s| && Delimited(s, e)
    requires var u := s[i..e]; var k := Span(u, 0, Digit);
      0 < k < |u| - 1 && u[k] == '.' && AllIn(u[k + 1..], Digit)
    ensures var d := Span(s, i, Digit);
      d + 1 < |s| && s[d] == '.' && IsDigit(s[d + 1]) && Span(s, d + 1, Digit) == e
  {
    var u := s[i..e];
    var k := Span(u, 0, Digit);
    SpanRun(u, 0, Digit);
    assert forall m :: i <= m < e ==> s[m] == u[m - i];
    SpanIs(s, i, i + k, Digit);
    assert forall m :: i + k + 1 <= m < e ==> s[m] == u[k + 1..][m - i - k - 1];
    SpanIs(s, i + k + 1, e, Digit);
  }

  lemma ScanSingleQuoted(s: string, p: nat, t: string)
    requires HasAt(s, p, "'" + t + "'")
    requires AllIn(t, NotSingleQuote)
    ensures ScanAt(s, p) == (SingleQuoted(t), p + |t| + 2)
  {
    HasAtIndex(s, p, "'" + t + "'");
    HasAtSplit(s, p, "'" + t, "'");
    HasAtSplit(s, p, "'", t);
    HasAtSlice(s, p + 1, t);
    SpanIs(s, p + 1, p + 1 + |t|, NotSingleQuote);
    assert TokenAt(s, p) == (SingleQuoted(t), p + |t| + 2);
    SpanIs(s, p, p, Space);
  }

  /** The escaped form of one character. */
  function EscapeChar(c: char): (e: string)
    ensures |e| > 0 && (e[0] == '\\' <==> |e| == 2) && e[|e| - 1] == c
    ensures |e| == 2 <==> c == '"' || c == '\\'
    ensures |e| <= 2
  {
    if c == '"' || c == '\\' then ['\\', c] else [c]
  }

  lemma {:induction false} ReadEscaped(s: string, k: nat, t: string)
    requires HasAt(s, k, Escape(t) + "\"")
    ensures ReadQuoted(s, k) == Some((t, k + |Escape(t)| + 1))
    decreases |t|
  {
    if t == [] {
      HasAtIndex(s, k, "\"");
    } else {
      var head, tail := EscapeChar(t[0]), Escape(t[1..]);
      assert Escape(t) + "\"" == head + (tail + "\"");
      HasAtSplit(s, k, head, tail + "\"");
      ReadEscaped(s, k + |head|, t[1..]);
      ReadOneEscaped(s, k, t[0]);
      assert [t[0]] + t[1..] == t;
    }
  }

  /** One escaped character read back: it is the first character of the text. */
  lemma ReadOneEscaped(s: string, k: nat, c: char)
    requires HasAt(s, k, EscapeChar(c))
    ensures ReadQuoted(s, k) == Prepend([c], ReadQuoted(s, k + |EscapeChar(c)|))
  {
    HasAtIndex(s, k, EscapeChar(c));
  }

  lemma ScanDoubleQuoted(s: string, p: nat, t: string)
    requires HasAt(s, p, "\"" + Escape(t) + "\"")
    ensures ScanAt(s, p) == (DoubleQuoted(t), p + |Escape(t)| + 2)
  {
    assert "\"" + Escape(t) + "\"" == "\"" + (Escape(t) + "\"");
    HasAtSplit(s, p, "\"", Escape(t) + "\"");
    HasAtIndex(s, p, "\"");
    ReadEscaped(s, p + 1, t);
    assert TokenAt(s, p) == (DoubleQuoted(t), p + |Escape(t)| + 2);
    SpanIs(s, p, p, Space);
  }

  lemma BoolWordIsIdent(x: string)
    requires IsBoolWord(x)
    ensures IsIdent(x)
  {
    var l := ToLower(x);
    assert forall i :: 0 <= i < |x| ==> 'a' <= l[i] <= 'z';
    assert forall i :: 0 <= i < |x| ==> IsLetter(x[i]);
  }

  /** The token a condition's value is written as. */
  function ValueToken(c: Condition): Token {
    match c.exprType
    case Literal => DoubleQuoted(c.expr)
    case Time => SingleQuoted(c.expr)
    case Integer => Number(c.expr)
    case Float => Number(c.expr)
    case Boolean => Ident(c.expr)
  }

  /** The value's token gives back the value's text and type. */
  lemma ValueTokenMeans(c: Condition)
    requires ValidCondition(c)
    ensures ValueOf(ValueToken(c)) == Some((c.expr, c.exprType))
  {
    match c.exprType
    case Literal =>
    case Time =>
    case Integer =>
    case Float => NumberShapesDisjoint(c.expr);
    case Boolean => BoolWordIsNotNumber(c.expr);
  }

  /** A boolean keyword scans as an identifier with its own text. */
  lemma ScanBoolean(s: string, p: nat, x: string)
    requires IsBoolWord(x) && HasAt(s, p, x) && Delimited(s, p + |x|)
    ensures ScanAt(s, p) == (Ident(x), p + |x|)
  {
    BoolWordIsIdent(x);
    WordKind(x);
    ScanWord(s, p, x);
  }

  /** The value as written scans back to its token. */
  lemma ScanValue(s: string, p: nat, c: Condition)
    requires ValidCondition(c) && HasAt(s, p, ValueText(c)) && Delimited(s, p + |ValueText(c)|)
    ensures ScanAt(s, p) == (ValueToken(c), p + |ValueText(c)|)
  {
    match c.exprType
    case Literal => ScanLiteralValue(s, p, c);
    case Time => ScanTimeValue(s, p, c);
    case Integer => ScanNumberValue(s, p, c);
    case Float => ScanNumberValue(s, p, c);
    case Boolean => ScanBooleanValue(s, p, c);
  }

  lemma ScanLiteralValue(s: string, p: nat, c: Condition)
    requires c.exprType == Literal && HasAt(s, p, ValueText(c))
    ensures ScanAt(s, p) == (ValueToken(c), p + |ValueText(c)|)
  {
    ScanDoubleQuoted(s, p, c.expr);
  }

  lemma ScanTimeValue(s: string, p: nat, c: Condition)
    requires c.exprType == Time && AllIn(c.expr, NotSingleQuote) && HasAt(s, p, ValueText(c))
    ensures ScanAt(s, p) == (ValueToken(c), p + |ValueText(c)|)
  {
    ScanSingleQuoted(s, p, c.expr);
  }

  lemma ScanNumberValue(s: string, p: nat, c: Condition)
    requires (c.exprType == Integer && IsInteger(c.expr)) || (c.exprType == Float && IsFloat(c.expr))
    requires HasAt(s, p, ValueText(c)) && Delimited(s, p + |ValueText(c)|)
    ensures ScanAt(s, p) == (ValueToken(c), p + |ValueText(c)|)
  {
    ScanNumber(s, p, c.expr);
  }

  lemma ScanBooleanValue(s: string, p: nat, c: Condition)
    requires c.exprType == Boolean && IsBoolWord(c.expr)
    requires HasAt(s, p, ValueText(c)) && Delimited(s, p + |ValueText(c)|)
    ensures ScanAt(s, p) == (ValueToken(c), p + |ValueText(c)|)
  {
    ScanBoolean(s, p, c.expr);
  }

  /** ParseConditionAt from the tokens it reads: `[not] key op value`. */
  lemma ParseConditionFromTokens(s: string, p: nat, link: Link, negated: bool, key: string, o: string,
                                 t: Token, e: string, ty: ExprType, q0: nat, q1: nat, q2: nat, q3: nat)
    requires p <= |s|
    requires negated ==> ScanAt(s, p) == (NotKw, q0) && q0 <= |s| && ScanAt(s, q0) == (Ident(key), q1)
    requires !negated ==> ScanAt(s, p) == (Ident(key), q1)
    requires q1 <= |s| && ScanAt(s, q1) == (OpSym(o), q2)
    requires q2 <= |s| && ScanAt(s, q2) == (t, q3) && ValueOf(t) == Some((e, ty))
    ensures ParseConditionAt(s, p, link) == Ok((Condition(key, OperatorOf(o), e, ty, link, negated), q3))
  {
  }

  /** One blank and then a value written in its own form: the scanner skips the blank
      and returns the value's token. */
  lemma ScanSpacedValue(s: string, q: nat, c: Condition)
    requires ValidCondition(c) && q < |s| && s[q] == ' '
    requires HasAt(s, q + 1, ValueText(c)) && Delimited(s, q + 1 + |ValueText(c)|)
    ensures ScanAt(s, q) == (ValueToken(c), q + 1 + |ValueText(c)|)
  {
    ScanValue(s, q + 1, c);
    SkipOneSpace(s, q);
  }

  /** A condition whose value token is the one its value is written as reads back as
      that condition. */
  lemma ParseWrittenValue(s: string, p: nat, c: Condition, o: string, q0: nat, q1: nat, q2: nat, q3: nat)
    requires ValidCondition(c) && p <= |s| && OperatorOf(o) == c.op
    requires c.negated ==> ScanAt(s, p) == (NotKw, q0) && q0 <= |s| && ScanAt(s, q0) == (Ident(c.key), q1)
    requires !c.negated ==> ScanAt(s, p) == (Ident(c.key), q1)
    requires q1 <= |s| && ScanAt(s, q1) == (OpSym(o), q2)
    requires q2 <= |s| && ScanAt(s, q2) == (ValueToken(c), q3)
    ensures ParseConditionAt(s, p, c.link) == Ok((c, q3))
  {
    ValueTokenMeans(c);
    ParseConditionFromTokens(s, p, c.link, c.negated, c.key, o, ValueToken(c), c.expr, c.exprType,
                             q0, q1, q2, q3);
  }

  /** Nothing but blanks is left: the scanner reports the end. */
  lemma ScanAtEnd(s: string, p: nat)
    requires p <= |s| && forall m :: p <= m < |s| ==> s[m] == ' '
    ensures ScanAt(s, p) == (EofTok, |s|)
  {
    SpanIs(s, p, |s|, Space);
  }

  /** The first condition of a query is read with the `Eof` link, and the rest after it. */
  lemma ParseQueryFromFirst(s: string, c: Condition, q: nat)
    requires ParseConditionAt(s, 0, Eof) == Ok((c, q))
    ensures ParseQuery(s) == ParseRest(s, q, [c])
  {
  }

  /** ParseRest stops with what it has at the end of the query. */
  lemma ParseRestAtEnd(s: string, q: nat, acc: seq<Condition>)
    requires q <= |s| && ScanAt(s, q).0 == EofTok
    ensures ParseRest(s, q, acc) == Ok(acc)
  {
  }

  /** ParseRest reads a link and then the condition it joins. */
  lemma ParseRestFromTokens(s: string, q: nat, acc: seq<Condition>, l: Link, c: Condition, q1: nat, q2: nat)
    requires q <= |s| && ScanAt(s, q) == (LinkSym(l), q1) && q1 <= |s|
    requires ParseConditionAt(s, q1, l) == Ok((c, q2)) && q2 <= |s|
    ensures ParseRest(s, q, acc) == ParseRest(s, q2, acc + [c])
  {
  }
}
