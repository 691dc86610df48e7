/** The predicate chain and its evaluation against one record. */
module Things {
  import opened Wrappers
  import opened Text
  import opened Syntax
  import opened Classifier
  import opened Dates

  /** A dynamically typed field value of a record. */
  datatype Value = Str(s: string) | Int(i: int) | Real(r: real) | Bool(b: bool) | Stamp(d: Date)

  /** The two kinds of record: a map looked up by key, and a struct whose
      exported fields are looked up by name. */
  datatype Record = MapRecord(entries: map<string, Value>) | StructRecord(fields: map<string, Value>)

  /** A Go field is readable from outside its package when its name starts with an upper-case letter. */
  predicate IsExported(name: string) {
    |name| > 0 && 'A' <= name[0] <= 'Z'
  }

  function Resolve(rec: Record, key: string): (r: Option<Value>)
    ensures r.Some? <==> match rec
      case MapRecord(m) => key in m
      case StructRecord(f) => IsExported(key) && key in f
  {
    match rec
    case MapRecord(m) => if key in m then Some(m[key]) else None
    case StructRecord(f) => if IsExported(key) && key in f then Some(f[key]) else None
  }

  datatype EvalError =
    | FieldNotFound(key: string)
    | InvalidOperator(op: Operator, exprType: ExprType)   // an ordering on a LITERAL or BOOLEAN
    | BadLiteral(expr: string, exprType: ExprType)       // the literal does not read as its type
    | NotComparable(key: string, exprType: ExprType)     // the field does not read as the literal's type

  /** The sign of a number's text: -1 with a leading minus, 1 otherwise. */
  function Sign(x: string): int {
    if |x| > 0 && x[0] == '-' then -1 else 1
  }

  /** The value of an INTEGER or FLOAT text, as an exact rational. */
  function ParseNumber(x: string): (r: Option<real>)
    ensures r.Some? <==> IsInteger(x) || IsFloat(x)
  {
    var d := Unsigned(x);
    if IsInteger(x) then Some((Sign(x) * DigitsValue(d)) as real)
    else if IsFloat(x) then
      var k := Span(d, 0, Digit);
      SpanRun(d, 0, Digit);
      assert AllIn(d[..k], Digit);
      var whole := DigitsValue(d[..k]) as real;
      var frac := DigitsValue(d[k + 1..]) as real / Pow10(|d| - k - 1) as real;
      Some(Sign(x) as real * (whole + frac))
    else None
  }

  /** `true`/`t` and `false`/`f` in any case. */
  function ParseBool(x: string): (r: Option<bool>)
    ensures r.Some? <==> IsBoolWord(x)
    ensures r.Some? ==> |x| > 0 && (r.value <==> Lower(x[0]) == 't')
  {
    var l := ToLower(x);
    if l == "true" || l == "t" then Some(true)
    else if l == "false" || l == "f" then Some(false)
    else None
  }

  /** A run of `w` digits reads back as the number it spells, and so does its
      negation behind a minus sign. */
  lemma ParseNumberDigits(n: nat, w: nat)
    requires 0 < w && n < Pow10(w)
    ensures ParseNumber(Digits(n, w)) == Some(n as real)
    ensures ParseNumber("-" + Digits(n, w)) == Some(-(n as real))
  {
    var d := Digits(n, w);
    DigitsRoundTrip(n, w);
    assert InClass(d[0], Digit);
    assert Unsigned(d) == d;
    IntegerValue(d, 1);
    var x := "-" + d;
    assert x[0] == '-' && x[1..] == d;
    assert Unsigned(x) == d;
    IntegerValue(x, -1);
    assert (-1 * n) as real == -(n as real);
  }

  /** An INTEGER reads as its sign times the value of its digits. */
  lemma IntegerValue(x: string, sign: int)
    requires IsInteger(x) && sign == Sign(x)
    ensures ParseNumber(x) == Some((sign * DigitsValue(Unsigned(x))) as real)
  {
    NumberShapesDisjoint(x);
  }

  function AsNumber(v: Value): Option<real> {
    match v
    case Int(i) => Some(i as real)
    case Real(r) => Some(r)
    case Str(x) => ParseNumber(x)
    case _ => None
  }

  function AsBool(v: Value): Option<bool> {
    match v
    case Bool(b) => Some(b)
    case Str(x) => ParseBool(x)
    case _ => None
  }

  function AsDate(formats: seq<string>, v: Value): Option<Date> {
    match v
    case Stamp(d) => Some(d)
    case Str(x) => ParseDate(formats, x)
    case _ => None
  }

  /** The outcome of `field op literal` given whether field < literal and field == literal. */
  function Apply(op: Operator, less: bool, equal: bool): bool {
    match op
    case Eqi => equal
    case Neqi => !equal
    case Gt => !less && !equal
    case Lt => less
    case Gte => !less
    case Lte => less || equal
    case Unsupported => false
  }

  /** What `x op y` means on numbers. */
  predicate NumberHolds(op: Operator, x: real, y: real) {
    match op
    case Eqi => x == y
    case Neqi => x != y
    case Gt => x > y
    case Lt => x < y
    case Gte => x >= y
    case Lte => x <= y
    case Unsupported => false
  }

  /** What `a op b` means on dates: later is greater. */
  predicate DateHolds(op: Operator, a: Date, b: Date) {
    match op
    case Eqi => a == b
    case Neqi => a != b
    case Gt => Before(b, a)
    case Lt => Before(a, b)
    case Gte => !Before(a, b)
    case Lte => !Before(b, a)
    case Unsupported => false
  }

  /** Compares the value `v` of field `key` with the literal `expr` by `op` in the
      domain of `exprType`, before any negation. An unsupported operator never matches. */
  function Compare(key: string, op: Operator, expr: string, exprType: ExprType, formats: seq<string>, v: Value)
    : (r: Result<bool, EvalError>)
    ensures op == Unsupported ==> r == Ok(false)
    ensures op != Unsupported && IsOrdering(op) && (exprType == Literal || exprType == Boolean) ==>
      r == Err(InvalidOperator(op, exprType))
    ensures exprType == Literal && (op == Eqi || op == Neqi) ==>
      r == if v.Str? then Ok((op == Eqi) == EqualFold(v.s, expr)) else Err(NotComparable(key, Literal))
    ensures exprType == Boolean && (op == Eqi || op == Neqi) && ParseBool(expr).Some? && AsBool(v).Some? ==>
      r == Ok((op == Eqi) == (AsBool(v).value == ParseBool(expr).value))
    ensures (exprType == Integer || exprType == Float) && op != Unsupported &&
            ParseNumber(expr).Some? && AsNumber(v).Some? ==>
      r == Ok(NumberHolds(op, AsNumber(v).value, ParseNumber(expr).value))
    ensures exprType == Time && op != Unsupported && ParseDate(formats, expr).Some? && AsDate(formats, v).Some? ==>
      r == Ok(DateHolds(op, AsDate(formats, v).value, ParseDate(formats, expr).value))
    ensures (exprType == Integer || exprType == Float) && op != Unsupported ==>
      (ParseNumber(expr).None? ==> r == Err(BadLiteral(expr, exprType))) &&
      (ParseNumber(expr).Some? && AsNumber(v).None? ==> r == Err(NotComparable(key, exprType)))
    ensures exprType == Boolean && (op == Eqi || op == Neqi) ==>
      (ParseBool(expr).None? ==> r == Err(BadLiteral(expr, Boolean))) &&
      (ParseBool(expr).Some? && AsBool(v).None? ==> r == Err(NotComparable(key, Boolean)))
    ensures exprType == Time && op != Unsupported ==>
      (ParseDate(formats, expr).None? ==> r == Err(BadLiteral(expr, Time))) &&
      (ParseDate(formats, expr).Some? && AsDate(formats, v).None? ==> r == Err(NotComparable(key, Time)))
    ensures exprType == Time && op != Unsupported && formats == [] ==> r.Err?
  {
    if op == Unsupported then Ok(false)
    else
      match exprType
      case Literal =>
        if IsOrdering(op) then Err(InvalidOperator(op, Literal))
        else if !v.Str? then Err(NotComparable(key, Literal))
        else Ok(Apply(op, false, EqualFold(v.s, expr)))
      case Boolean =>
        if IsOrdering(op) then Err(InvalidOperator(op, Boolean))
        else
          var lit := ParseBool(expr);
          var fld := AsBool(v);
          if lit.None? then Err(BadLiteral(expr, Boolean))
          else if fld.None? then Err(NotComparable(key, Boolean))
          else Ok(Apply(op, false, fld.value == lit.value))
      case Time =>
        var lit := ParseDate(formats, expr);
        var fld := AsDate(formats, v);
        if lit.None? then Err(BadLiteral(expr, Time))
        else if fld.None? then Err(NotComparable(key, Time))
        else
          BeforeIsStrictTotalOrder(fld.value, lit.value, fld.value);
          Ok(Apply(op, Before(fld.value, lit.value), fld.value == lit.value))
      case _ =>
        var lit := ParseNumber(expr);
        var fld := AsNumber(v);
        if lit.None? then Err(BadLiteral(expr, exprType))
        else if fld.None? then Err(NotComparable(key, exprType))
        else Ok(Apply(op, fld.value < lit.value, fld.value == lit.value))
  }

  /** One condition: resolve its key, compare, then apply its own `not`. */
  function EvalCondition(c: Condition, formats: seq<string>, rec: Record): (r: Result<bool, EvalError>)
    ensures r == Err(FieldNotFound(c.key)) <==> Resolve(rec, c.key).None?
    ensures Resolve(rec, c.key).Some? && c.op == Unsupported ==> r == Ok(c.negated)
  {
    match Resolve(rec, c.key)
    case None => Err(FieldNotFound(c.key))
    case Some(v) =>
      match Compare(c.key, c.op, c.expr, c.exprType, formats, v)
      case Err(e) => Err(e)
      case Ok(b) => Ok(if c.negated then !b else b)
  }

  function Combine(acc: bool, link: Link, b: bool): bool
    requires link != Eof
  {
    if link == And then acc && b else acc || b
  }

  /** The outcome of each condition on its own, in chain order. */
  function Outcomes(cs: seq<Condition>, formats: seq<string>, rec: Record): (rs: seq<Result<bool, EvalError>>)
  {
    seq(|cs|, i requires 0 <= i < |cs| => EvalCondition(cs[i], formats, rec))
  }

  /** The outcomes `rs` folded left to right: each is combined with the result so
      far by the link its condition carries. The first error ends the fold. */
  function Fold(cs: seq<Condition>, rs: seq<Result<bool, EvalError>>): (r: Result<bool, EvalError>)
    requires WellLinked(cs) && |rs| == |cs|
    ensures r.Err? ==> exists i :: 0 <= i < |rs| && rs[i] == r
    ensures |cs| == 1 ==> r == rs[0]
  {
    var n := |cs| - 1;
    if n == 0 then rs[0]
    else
      match Fold(cs[..n], rs[..n])
      case Err(e) => Err(e)
      case Ok(acc) =>
        match rs[n]
        case Err(e) => Err(e)
        case Ok(b) => Ok(Combine(acc, cs[n].link, b))
  }

  /** The whole chain against one record. Every condition is evaluated: there is
      no short circuit, and the first error is the one reported. */
  function Evaluate(cs: seq<Condition>, formats: seq<string>, rec: Record): (r: Result<bool, EvalError>)
    requires WellLinked(cs)
    ensures r.Err? ==> exists i :: 0 <= i < |cs| && r == EvalCondition(cs[i], formats, rec)
    ensures |cs| == 1 ==> r == EvalCondition(cs[0], formats, rec)
  {
    Fold(cs, Outcomes(cs, formats, rec))
  }

  /** `not` inverts its own condition and nothing else: errors are untouched. */
  lemma NegationFlipsOneCondition(c: Condition, formats: seq<string>, rec: Record)
    ensures EvalCondition(c.(negated := !c.negated), formats, rec) ==
      match EvalCondition(c, formats, rec)
      case Ok(b) => Ok(!b)
      case Err(e) => Err(e)
  {
  }

  lemma {:induction false} FoldOkIffEveryOk(cs: seq<Condition>, rs: seq<Result<bool, EvalError>>)
    requires WellLinked(cs) && |rs| == |cs|
    ensures Fold(cs, rs).Ok? <==> forall i :: 0 <= i < |rs| ==> rs[i].Ok?
  {
    var n := |cs| - 1;
    if n > 0 {
      FoldOkIffEveryOk(cs[..n], rs[..n]);
      assert forall i :: 0 <= i < n ==> rs[..n][i] == rs[i];
    }
  }

  lemma {:induction false} FoldFirstError(cs: seq<Condition>, rs: seq<Result<bool, EvalError>>, i: nat)
    requires WellLinked(cs) && |rs| == |cs| && i < |rs| && rs[i].Err?
    requires forall j :: 0 <= j < i ==> rs[j].Ok?
    ensures Fold(cs, rs) == rs[i]
  {
    var n := |cs| - 1;
    if i < n {
      assert rs[..n][i] == rs[i];
      assert forall j :: 0 <= j < i ==> rs[..n][j] == rs[j];
      FoldFirstError(cs[..n], rs[..n], i);
    } else if n > 0 {
      assert forall j :: 0 <= j < n ==> rs[..n][j] == rs[j];
      FoldOkIffEveryOk(cs[..n], rs[..n]);
    }
  }

  lemma {:induction false} FoldAnd(cs: seq<Condition>, rs: seq<Result<bool, EvalError>>)
    requires WellLinked(cs) && |rs| == |cs| && AllLinked(cs, And)
    ensures Fold(cs, rs) == Ok(true) <==> forall i :: 0 <= i < |rs| ==> rs[i] == Ok(true)
    ensures Fold(cs, rs) == Ok(false) <==>
      (forall i :: 0 <= i < |rs| ==> rs[i].Ok?) && (exists i :: 0 <= i < |rs| && rs[i] == Ok(false))
  {
    var n := |cs| - 1;
    if n > 0 {
      assert forall i :: 0 <= i < n ==> rs[..n][i] == rs[i];
      FoldAnd(cs[..n], rs[..n]);
      FoldOkIffEveryOk(cs[..n], rs[..n]);
    }
  }

  lemma {:induction false} FoldOr(cs: seq<Condition>, rs: seq<Result<bool, EvalError>>)
    requires WellLinked(cs) && |rs| == |cs| && AllLinked(cs, Or)
    ensures Fold(cs, rs) == Ok(true) <==>
      (forall i :: 0 <= i < |rs| ==> rs[i].Ok?) && (exists i :: 0 <= i < |rs| && rs[i] == Ok(true))
    ensures Fold(cs, rs) == Ok(false) <==> forall i :: 0 <= i < |rs| ==> rs[i] == Ok(false)
  {
    var n := |cs| - 1;
    if n > 0 {
      assert forall i :: 0 <= i < n ==> rs[..n][i] == rs[i];
      FoldOr(cs[..n], rs[..n]);
      FoldOkIffEveryOk(cs[..n], rs[..n]);
    }
  }

  /** Evaluation succeeds exactly when every condition does: there is no short circuit. */
  lemma EvaluateOkIffEveryConditionOk(cs: seq<Condition>, formats: seq<string>, rec: Record)
    requires WellLinked(cs)
    ensures Evaluate(cs, formats, rec).Ok? <==> forall i :: 0 <= i < |cs| ==> EvalCondition(cs[i], formats, rec).Ok?
  {
    var rs := Outcomes(cs, formats, rec);
    assert forall i :: 0 <= i < |cs| ==> rs[i] == EvalCondition(cs[i], formats, rec);
    FoldOkIffEveryOk(cs, rs);
  }

  /** The error reported is that of the first condition that fails. */
  lemma FirstErrorWins(cs: seq<Condition>, formats: seq<string>, rec: Record, i: nat)
    requires WellLinked(cs) && i < |cs| && EvalCondition(cs[i], formats, rec).Err?
    requires forall j :: 0 <= j < i ==> EvalCondition(cs[j], formats, rec).Ok?
    ensures Evaluate(cs, formats, rec) == EvalCondition(cs[i], formats, rec)
  {
    FoldFirstError(cs, Outcomes(cs, formats, rec), i);
  }

  /** A key that does not resolve always makes evaluation fail, never a silent false. */
  lemma MissingFieldFails(cs: seq<Condition>, formats: seq<string>, rec: Record, i: nat)
    requires WellLinked(cs) && i < |cs| && Resolve(rec, cs[i].key).None?
    ensures Evaluate(cs, formats, rec).Err?
  {
    EvaluateOkIffEveryConditionOk(cs, formats, rec);
  }

  /** A numeric condition on a field that holds no number makes the chain fail
      rather than be false. */
  lemma NonNumericFieldFails(cs: seq<Condition>, formats: seq<string>, rec: Record, i: nat)
    requires WellLinked(cs) && i < |cs|
    requires cs[i].exprType == Integer || cs[i].exprType == Float
    requires cs[i].op != Unsupported
    requires Resolve(rec, cs[i].key).Some? && AsNumber(Resolve(rec, cs[i].key).value).None?
    ensures Evaluate(cs, formats, rec).Err?
  {
    EvaluateOkIffEveryConditionOk(cs, formats, rec);
  }

  /** Without a registered layout every date comparison on a present field fails. */
  lemma NoLayoutDateFails(cs: seq<Condition>, rec: Record, i: nat)
    requires WellLinked(cs) && i < |cs|
    requires cs[i].exprType == Time && cs[i].op != Unsupported
    requires Resolve(rec, cs[i].key).Some?
    ensures Evaluate(cs, [], rec).Err?
  {
    EvaluateOkIffEveryConditionOk(cs, [], rec);
  }

  predicate AllLinked(cs: seq<Condition>, link: Link) {
    forall i :: 0 < i < |cs| ==> cs[i].link == link
  }

  /** A chain joined only by AND is true exactly when every condition is true. */
  lemma AndChainIsConjunction(cs: seq<Condition>, formats: seq<string>, rec: Record)
    requires WellLinked(cs) && AllLinked(cs, And)
    ensures Evaluate(cs, formats, rec) == Ok(true) <==> forall i :: 0 <= i < |cs| ==> EvalCondition(cs[i], formats, rec) == Ok(true)
    ensures Evaluate(cs, formats, rec) == Ok(false) <==>
      (forall i :: 0 <= i < |cs| ==> EvalCondition(cs[i], formats, rec).Ok?) &&
      (exists i :: 0 <= i < |cs| && EvalCondition(cs[i], formats, rec) == Ok(false))
  {
    var rs := Outcomes(cs, formats, rec);
    assert forall i :: 0 <= i < |cs| ==> rs[i] == EvalCondition(cs[i], formats, rec);
    FoldAnd(cs, rs);
  }

  /** A chain joined only by OR is true exactly when all conditions evaluate and one is true. */
  lemma OrChainIsDisjunction(cs: seq<Condition>, formats: seq<string>, rec: Record)
    requires WellLinked(cs) && AllLinked(cs, Or)
    ensures Evaluate(cs, formats, rec) == Ok(true) <==>
      (forall i :: 0 <= i < |cs| ==> EvalCondition(cs[i], formats, rec).Ok?) &&
      (exists i :: 0 <= i < |cs| && EvalCondition(cs[i], formats, rec) == Ok(true))
    ensures Evaluate(cs, formats, rec) == Ok(false) <==> forall i :: 0 <= i < |cs| ==> EvalCondition(cs[i], formats, rec) == Ok(false)
  {
    var rs := Outcomes(cs, formats, rec);
    assert forall i :: 0 <= i < |cs| ==> rs[i] == EvalCondition(cs[i], formats, rec);
    FoldOr(cs, rs);
  }

  /** No precedence: `a & b | c` is `(a & b) | c` and `a | b & c` is `(a | b) & c`. */
  lemma StrictlyLeftToRight(a: Condition, b: Condition, c: Condition, formats: seq<string>, rec: Record, x: bool, y: bool, z: bool)
    requires a.link == Eof && b.link != Eof && c.link != Eof
    requires EvalCondition(a, formats, rec) == Ok(x)
    requires EvalCondition(b, formats, rec) == Ok(y)
    requires EvalCondition(c, formats, rec) == Ok(z)
    ensures b.link == And && c.link == Or ==> Evaluate([a, b, c], formats, rec) == Ok((x && y) || z)
    ensures b.link == Or && c.link == And ==> Evaluate([a, b, c], formats, rec) == Ok((x || y) && z)
  {
    var rs := Outcomes([a, b, c], formats, rec);
    assert rs == [Ok(x), Ok(y), Ok(z)];
    assert [a, b, c][..2] == [a, b] && rs[..2] == [Ok(x), Ok(y)];
    assert [a, b][..1] == [a] && rs[..2][..1] == [Ok(x)];
    assert Fold([a, b], rs[..2]) == Ok(Combine(x, b.link, y));
  }

  /** A struct is read like a map of its fields when the chain names only exported fields. */
  lemma StructReadsLikeMap(cs: seq<Condition>, formats: seq<string>, fields: map<string, Value>)
    requires WellLinked(cs)
    requires forall i :: 0 <= i < |cs| ==> IsExported(cs[i].key)
    ensures Evaluate(cs, formats, StructRecord(fields)) == Evaluate(cs, formats, MapRecord(fields))
  {
    assert Outcomes(cs, formats, StructRecord(fields)) == Outcomes(cs, formats, MapRecord(fields));
  }

  /** A parsed query with its registered date layouts. */
  class Chain {
    const things: seq<Condition>
    var formats: seq<string>

    ghost predicate Valid()
      reads this
    {
      WellLinked(things)
    }

    constructor (things: seq<Condition>)
      requires WellLinked(things)
      ensures Valid() && this.things == things && formats == []
    {
      this.things := things;
      formats := [];
    }

    /** Registers one more date layout, tried after those already registered. */
    method AddDateFormat(layout: string)
      requires Valid()
      modifies this
      ensures Valid() && formats == old(formats) + [layout]
    {
      formats := formats + [layout];
    }

    /** Evaluates the chain against a map; a key missing from the map is an error. */
    function CheckMap(m: map<string, Value>): (r: Result<bool, EvalError>)
      reads this
      requires Valid()
      ensures (exists i :: 0 <= i < |things| && things[i].key !in m) ==> r.Err?
    {
      EvaluateOkIffEveryConditionOk(things, formats, MapRecord(m));
      Evaluate(things, formats, MapRecord(m))
    }

    /** Evaluates the chain against a struct, given as its fields by name. Only
        exported fields can be read; any other key is an error. */
    function CheckStruct(fields: map<string, Value>): (r: Result<bool, EvalError>)
      reads this
      requires Valid()
      ensures (exists i :: 0 <= i < |things| && (!IsExported(things[i].key) || things[i].key !in fields)) ==> r.Err?
    {
      EvaluateOkIffEveryConditionOk(things, formats, StructRecord(fields));
      Evaluate(things, formats, StructRecord(fields))
    }
  }
}
