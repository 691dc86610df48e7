/** Literal classification: the ExprType of a value from its surface form. */
module Classifier {
  import opened Text
  import opened Syntax

  /** How a value token was written. */
  datatype Quoting = Bare | DoubleQuote | SingleQuote

  /** The digits of a number without its optional leading minus sign. */
  function Unsigned(x: string): string {
    if |x| > 0 && x[0] == '-' then x[1..] else x
  }

  /** `-?[0-9]+` */
  predicate IsInteger(x: string) {
    var d := Unsigned(x);
    |d| > 0 && AllIn(d, Digit)
  }

  /** `-?[0-9]+\.[0-9]+` */
  predicate IsFloat(x: string) {
    var d := Unsigned(x);
    var k := Span(d, 0, Digit);
    0 < k < |d| - 1 && d[k] == '.' && AllIn(d[k + 1..], Digit)
  }

  /** `true`, `false`, `t` or `f`, in any case. */
  predicate IsBoolWord(x: string) {
    var l := ToLower(x);
    l == "true" || l == "false" || l == "t" || l == "f"
  }

  /** The classification cascade: single quotes make a TIME, double quotes a
      LITERAL; a bare value is INTEGER, FLOAT or BOOLEAN by its shape and
      LITERAL otherwise. */
  function Classify(text: string, q: Quoting): (t: ExprType)
    ensures t == Time <==> q == SingleQuote
    ensures q == DoubleQuote ==> t == Literal
    ensures t == Integer <==> q == Bare && IsInteger(text)
    ensures t == Float <==> q == Bare && IsFloat(text)
    ensures t == Boolean <==> q == Bare && IsBoolWord(text)
    ensures t == Literal <==> q == DoubleQuote || (q == Bare && !IsInteger(text) && !IsFloat(text) && !IsBoolWord(text))
  {
    NumberShapesDisjoint(text);
    BoolWordIsNotNumber(text);
    match q
    case SingleQuote => Time
    case DoubleQuote => Literal
    case Bare =>
      if IsInteger(text) then Integer
      else if IsFloat(text) then Float
      else if IsBoolWord(text) then Boolean
      else Literal
  }

  lemma NumberShapesDisjoint(x: string)
    ensures !(IsInteger(x) && IsFloat(x))
  {
    var d := Unsigned(x);
    if IsInteger(x) {
      SpanIs(d, 0, |d|, Digit);
    }
  }

  lemma BoolWordIsNotNumber(x: string)
    ensures IsBoolWord(x) ==> !IsInteger(x) && !IsFloat(x)
  {
    if IsBoolWord(x) {
      assert |x| > 0 && Lower(x[0]) in "tf" by {
        assert ToLower(x)[0] == Lower(x[0]);
      }
      assert Unsigned(x) == x;
      assert !InClass(x[0], Digit);
    }
  }
}
