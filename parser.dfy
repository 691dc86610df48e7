/** The parser: `[not] key op value (link [not] key op value)*` into an ordered
    chain of conditions. The pure functions below are the grammar; the Parser
    class reads tokens one at a time with a one-token pushback buffer and is
    proved to compute exactly what they define. */
module Parsing {
  import opened Wrappers
  import opened Text
  import opened Syntax
  import opened Classifier
  import opened Lexer
  import opened Things

  datatype ParseError =
    | IllegalInput(text: string)                  // a character sequence no token matches, or an unterminated quote
    | Unexpected(found: Token, expected: string)  // a token out of place

  function Fail<T>(t: Token, expected: string): Result<T, ParseError> {
    if t.Illegal? then Err(IllegalInput(t.text)) else Err(Unexpected(t, expected))
  }

  /** The six comparison symbols; any other run of operator characters is unsupported. */
  function OperatorOf(o: string): (r: Operator)
    ensures r != Unsupported <==> o in {"==", "!=", ">", "<", ">=", "<="}
    ensures IsOrdering(r) <==> o in {">", "<", ">=", "<="}
  {
    if o == "==" then Eqi
    else if o == "!=" then Neqi
    else if o == ">" then Gt
    else if o == "<" then Lt
    else if o == ">=" then Gte
    else if o == "<=" then Lte
    else Unsupported
  }

  /** The text and type of a value token; other tokens are not values. */
  function ValueOf(t: Token): (r: Option<(string, ExprType)>)
    ensures r.Some? <==> t.Ident? || t.Number? || t.DoubleQuoted? || t.SingleQuoted?
    ensures r.Some? ==> r.value.0 == t.text
    ensures r.Some? ==> (r.value.1 == Time <==> t.SingleQuoted?)
    ensures t.DoubleQuoted? ==> r.value.1 == Literal
    ensures t.Number? && IsInteger(t.text) ==> r.value.1 == Integer
    ensures t.Number? && IsFloat(t.text) ==> r.value.1 == Float
  {
    match t
    case Ident(w) => Some((w, Classify(w, Bare)))
    case Number(x) => Some((x, Classify(x, Bare)))
    case DoubleQuoted(x) => Some((x, Classify(x, DoubleQuote)))
    case SingleQuoted(x) => Some((x, Classify(x, SingleQuote)))
    case _ => None
  }

  /** What every parsed condition satisfies: its key is an identifier and its
      expression has the shape its type was inferred from. */
  predicate ValidCondition(c: Condition) {
    IsIdent(c.key) &&
    match c.exprType
    case Literal => true
    case Integer => IsInteger(c.expr)
    case Float => IsFloat(c.expr)
    case Boolean => IsBoolWord(c.expr)
    case Time => AllIn(c.expr, NotSingleQuote)
  }

  predicate ValidChain(cs: seq<Condition>) {
    WellLinked(cs) && forall i :: 0 <= i < |cs| ==> ValidCondition(cs[i])
  }

  /** One condition starting at `p`, joined to its predecessor by `link`. */
  function ParseConditionAt(src: string, p: nat, link: Link): (r: Result<(Condition, nat), ParseError>)
    requires p <= |src|
    ensures r.Ok? ==> p < r.value.1 <= |src| && r.value.0.link == link
  {
    var (t0, p0) := ScanAt(src, p);
    var negated := t0 == NotKw;
    var p1 := if negated then p0 else p;
    var (t1, p2) := ScanAt(src, p1);
    if !t1.Ident? then Fail(t1, "field name")
    else
      var (t2, p3) := ScanAt(src, p2);
      if !t2.OpSym? then Fail(t2, "operator")
      else
        var (t3, p4) := ScanAt(src, p3);
        match ValueOf(t3)
        case None => Fail(t3, "value")
        case Some((text, ty)) =>
          Ok((Condition(t1.text, OperatorOf(t2.text), text, ty, link, negated), p4))
  }

  /** A parsed condition has an identifier for its key and a value of the shape its type names. */
  lemma ParsedConditionValid(src: string, p: nat, link: Link)
    requires p <= |src|
    ensures ParseConditionAt(src, p, link).Ok? ==> ValidCondition(ParseConditionAt(src, p, link).value.0)
  {
    var (t0, p0) := ScanAt(src, p);
    var p1 := if t0 == NotKw then p0 else p;
    var (t1, p2) := ScanAt(src, p1);
    var (t2, p3) := ScanAt(src, p2);
    ScanAtWellShaped(src, p1);
    ScanAtWellShaped(src, p3);
  }

  /** The rest of a query after the conditions `acc`: end of input, or a link and one more condition. */
  function ParseRest(src: string, p: nat, acc: seq<Condition>): (r: Result<seq<Condition>, ParseError>)
    requires p <= |src|
    ensures r.Ok? ==> |r.value| >= |acc| && forall i :: 0 <= i < |acc| ==> r.value[i] == acc[i]
    decreases |src| - p
  {
    var (t, q) := ScanAt(src, p);
    if t == EofTok then Ok(acc)
    else if !t.LinkSym? then Fail(t, "link or end of query")
    else
      match ParseConditionAt(src, q, t.link)
      case Err(e) => Err(e)
      case Ok((c, q')) => ParseRest(src, q', acc + [c])
  }

  /** The conditions from index `n` on are valid and each joined by a link. */
  predicate JoinedFrom(cs: seq<Condition>, n: nat) {
    forall i :: n <= i < |cs| ==> cs[i].link != Eof && ValidCondition(cs[i])
  }

  /** Every condition ParseRest adds is valid and carries the link read before it. */
  lemma {:induction false} ParseRestJoins(src: string, p: nat, acc: seq<Condition>)
    requires p <= |src|
    ensures ParseRest(src, p, acc).Ok? ==> JoinedFrom(ParseRest(src, p, acc).value, |acc|)
    decreases |src| - p
  {
    var (t, q) := ScanAt(src, p);
    ScanAtWellShaped(src, p);
    if t != EofTok && t.LinkSym? {
      ParsedConditionValid(src, q, t.link);
      match ParseConditionAt(src, q, t.link)
      case Err(_) =>
      case Ok((c, q')) =>
        ParseRestJoins(src, q', acc + [c]);
        if ParseRest(src, p, acc).Ok? {
          assert ParseRest(src, p, acc).value[|acc|] == (acc + [c])[|acc|];
        }
    }
  }

  /** The number of link tokens the scanner reads from `p` to the end of the input. */
  function LinkCount(s: string, p: nat): nat
    requires p <= |s|
    decreases |s| - p
  {
    var (t, q) := ScanAt(s, p);
    if t == EofTok then 0 else (if t.LinkSym? then 1 else 0) + LinkCount(s, q)
  }

  /** A condition holds no link token: the links left to read are the same after it. */
  lemma ConditionHasNoLink(s: string, p: nat, link: Link)
    requires p <= |s|
    ensures ParseConditionAt(s, p, link).Ok? ==> LinkCount(s, p) == LinkCount(s, ParseConditionAt(s, p, link).value.1)
  {
    var (t0, p0) := ScanAt(s, p);
    var p1 := if t0 == NotKw then p0 else p;
    var (t1, p2) := ScanAt(s, p1);
    var (t2, p3) := ScanAt(s, p2);
    var (t3, p4) := ScanAt(s, p3);
    if t1.Ident? && t2.OpSym? && ValueOf(t3).Some? {
      if t0 == NotKw {
        SkipNoLink(s, p);
      }
      SkipNoLink(s, p1);
      SkipNoLink(s, p2);
      SkipNoLink(s, p3);
    }
  }

  /** Reading one token that is not a link leaves the link count unchanged. */
  lemma SkipNoLink(s: string, p: nat)
    requires p <= |s|
    requires ScanAt(s, p).0 != EofTok && !ScanAt(s, p).0.LinkSym?
    ensures LinkCount(s, p) == LinkCount(s, ScanAt(s, p).1)
  {
  }

  /** ParseRest adds one condition per link token it reads. */
  lemma {:induction false} ParseRestCount(s: string, p: nat, acc: seq<Condition>)
    requires p <= |s|
    ensures ParseRest(s, p, acc).Ok? ==> |ParseRest(s, p, acc).value| == |acc| + LinkCount(s, p)
    decreases |s| - p
  {
    var (t, q) := ScanAt(s, p);
    if t != EofTok && t.LinkSym? {
      ConditionHasNoLink(s, q, t.link);
      match ParseConditionAt(s, q, t.link)
      case Err(_) =>
      case Ok((c, q')) =>
        ParseRestCount(s, q', acc + [c]);
    }
  }

  /** A whole query read from position `p` on. */
  function ParseFrom(src: string, p: nat): (r: Result<seq<Condition>, ParseError>)
    requires p <= |src|
    ensures r.Ok? ==> ValidChain(r.value)
  {
    match ParseConditionAt(src, p, Eof)
    case Err(e) => Err(e)
    case Ok((c, q)) =>
      ParsedConditionValid(src, p, Eof);
      ParseRestJoins(src, q, [c]);
      ParseRest(src, q, [c])
  }

  /** A whole query. */
  function ParseQuery(src: string): (r: Result<seq<Condition>, ParseError>)
    ensures r.Ok? ==> ValidChain(r.value)
  {
    ParseFrom(src, 0)
  }

  /** A query holds one condition more than it has link tokens. */
  lemma ParseQueryCount(s: string)
    ensures ParseQuery(s).Ok? ==> |ParseQuery(s).value| == 1 + LinkCount(s, 0)
  {
    ConditionHasNoLink(s, 0, Eof);
    if ParseConditionAt(s, 0, Eof).Ok? {
      ParseRestCount(s, ParseConditionAt(s, 0, Eof).value.1, [ParseConditionAt(s, 0, Eof).value.0]);
    }
  }

  /** A parser reads tokens from its scanner; `buf` is the last token read and
      `n` is 1 when it has been pushed back to be read again. */
  class Parser {
    const s: Scanner
    var buf: Token
    var n: nat
    ghost var hasBuf: bool    // a token has been read since the last push-back
    ghost var bufStart: nat   // where `buf` starts in the query

    ghost predicate Valid()
      reads this, s
    {
      s.Valid() && n <= 1 && (n == 1 ==> hasBuf) &&
      (hasBuf ==> bufStart <= |s.src| && ScanAt(s.src, bufStart) == (buf, s.pos))
    }

    /** Where the next token is read from. */
    ghost function Cursor(): (c: nat)
      reads this, s
      requires Valid()
      ensures c <= |s.src|
    {
      if n == 1 then bufStart else s.pos
    }

    constructor (query: string)
      ensures Valid() && fresh(s) && s.src == query && Cursor() == 0
      ensures n == 0 && !hasBuf
    {
      s := new Scanner(query);
      buf := EofTok;
      n := 0;
      hasBuf := false;
      bufStart := 0;
    }

    /** The next token: the pushed-back one if any, else a fresh one from the scanner. */
    method Scan() returns (tok: Token)
      requires Valid()
      modifies this, s
      ensures Valid() && n == 0 && hasBuf
      ensures (tok, Cursor()) == ScanAt(s.src, old(Cursor()))
      ensures bufStart == old(Cursor())
    {
      if n != 0 {
        n := 0;
        return buf;
      }
      bufStart := s.pos;
      tok := s.Scan();
      buf := tok;
      hasBuf := true;
    }

    /** Pushes the last token back. */
    method Unscan()
      requires Valid() && n == 0 && hasBuf
      modifies this
      ensures Valid() && Cursor() == old(bufStart)
    {
      n := 1;
    }

    /** Parses one condition; `link` is the link that was read before it. */
    method ParseCondition(link: Link) returns (r: Result<Condition, ParseError>)
      requires Valid()
      modifies this, s
      ensures Valid()
      ensures match ParseConditionAt(s.src, old(Cursor()), link)
        case Ok((c, q)) => r == Ok(c) && Cursor() == q
        case Err(e) => r == Err(e)
    {
      ghost var p := Cursor();
      var negated := false;
      var tok := Scan();
      if tok == NotKw {
        negated := true;
      } else {
        Unscan();
      }
      ghost var p1 := Cursor();
      assert p1 == if negated then ScanAt(s.src, p).1 else p;
      tok := Scan();
      assert (tok, Cursor()) == ScanAt(s.src, p1);
      if !tok.Ident? {
        return Fail(tok, "field name");
      }
      var key := tok.text;
      ghost var p2 := Cursor();
      tok := Scan();
      assert (tok, Cursor()) == ScanAt(s.src, p2);
      if !tok.OpSym? {
        return Fail(tok, "operator");
      }
      var op := OperatorOf(tok.text);
      ghost var p3 := Cursor();
      tok := Scan();
      assert (tok, Cursor()) == ScanAt(s.src, p3);
      var v := ValueOf(tok);
      if v.None? {
        return Fail(tok, "value");
      }
      r := Ok(Condition(key, op, v.value.0, v.value.1, link, negated));
    }

    /** Parses the whole query into a chain with no date formats. */
    method Parse() returns (r: Result<Chain, ParseError>)
      requires Valid()
      modifies this, s
      ensures Valid()
      ensures r.Ok? ==> fresh(r.value) && r.value.Valid() && r.value.formats == []
      ensures r.Ok? ==> ParseFrom(s.src, old(Cursor())) == Ok(r.value.things)
      ensures r.Err? ==> ParseFrom(s.src, old(Cursor())) == Err(r.error)
    {
      ghost var p := Cursor();
      var first := ParseCondition(Eof);
      if first.Err? {
        return Err(first.error);
      }
      var things := [first.value];
      while true
        invariant Valid()
        invariant ParseFrom(s.src, p) == ParseRest(s.src, Cursor(), things)
        decreases |s.src| - Cursor()
      {
        var tok := Scan();
        if tok == EofTok {
          var chain := new Chain(things);
          return Ok(chain);
        }
        if !tok.LinkSym? {
          return Fail(tok, "link or end of query");
        }
        var c := ParseCondition(tok.link);
        if c.Err? {
          return Err(c.error);
        }
        things := things + [c.value];
      }
    }
  }
}
