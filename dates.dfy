/** Dates and the date layouts registered with AddDateFormat. A layout is
    written in Go's reference-date convention: `2006` is the four-digit year,
    `01` the two-digit month, `02` the two-digit day, and every other
    character stands for itself. */
module Dates {
  import opened Wrappers
  import opened Text

  datatype Date = Date(year: int, month: int, day: int)

  predicate IsLeap(y: int) {
    y % 4 == 0 && (y % 100 != 0 || y % 400 == 0)
  }

  function DaysIn(month: int, year: int): int
    requires 1 <= month <= 12
  {
    if month == 2 then (if IsLeap(year) then 29 else 28)
    else if month == 4 || month == 6 || month == 9 || month == 11 then 30
    else 31
  }

  predicate ValidDate(d: Date) {
    1 <= d.month <= 12 && 1 <= d.day <= DaysIn(d.month, d.year)
  }

  /** Chronological order: year, then month, then day. */
  predicate Before(a: Date, b: Date) {
    a.year < b.year || (a.year == b.year && (a.month < b.month || (a.month == b.month && a.day < b.day)))
  }

  /** Exactly one of `a` before `b`, equal, `b` before `a` holds, and the order is transitive. */
  lemma BeforeIsStrictTotalOrder(a: Date, b: Date, c: Date)
    ensures Before(a, b) ==> !Before(b, a) && a != b
    ensures a == b || Before(a, b) || Before(b, a)
    ensures Before(a, b) && Before(b, c) ==> Before(a, c)
  {
  }

  /** The parts of a layout. */
  datatype Element = Year | Month | Day | Char(c: char)

  /** The first element of a non-empty layout and how many characters it takes. */
  function NextElement(layout: string): (r: (Element, nat))
    requires |layout| > 0
    ensures 1 <= r.1 <= |layout|
    ensures r.0.Year? ==> r.1 == 4
    ensures (r.0.Month? || r.0.Day?) ==> r.1 == 2
    ensures r.0.Char? ==> r.1 == 1 && r.0.c == layout[0]
    ensures r.0 == Year <==> |layout| >= 4 && layout[..4] == "2006"
    ensures r.0 == Month <==> |layout| >= 2 && layout[..2] == "01" && !(|layout| >= 4 && layout[..4] == "2006")
    ensures r.0 == Day <==> |layout| >= 2 && layout[..2] == "02"
  {
    if |layout| >= 4 && layout[..4] == "2006" then
      assert layout[..2] == layout[..4][..2] == "20";
      (Year, 4)
    else if |layout| >= 2 && layout[..2] == "01" then (Month, 2)
    else if |layout| >= 2 && layout[..2] == "02" then (Day, 2)
    else (Char(layout[0]), 1)
  }

  /** A field of `w` digits at the start of `text`, if there is one. */
  function FixedDigits(text: string, w: nat): Option<nat> {
    if |text| >= w && AllIn(text[..w], Digit) then Some(DigitsValue(text[..w])) else None
  }

  /** Reads `text` against `layout`, filling the fields the layout names into `acc`.
      The month must be 1 to 12 and the day at most 31 as they are read. */
  function ParseLayout(layout: string, text: string, acc: Date): (r: Option<Date>)
    ensures r.Some? ==> AgreeOutside(r.value, acc, Fields(layout))
    ensures r.Some? && YearField in Fields(layout) ==> 0 <= r.value.year < 10000
    ensures r.Some? && MonthField in Fields(layout) ==> 1 <= r.value.month <= 12
    ensures r.Some? && DayField in Fields(layout) ==> 0 <= r.value.day <= 31
    decreases |layout|
  {
    if layout == [] then
      if text == [] then Some(acc) else None
    else
      var (el, w) := NextElement(layout);
      match el
      case Year =>
        (match FixedDigits(text, 4)
         case None => None
         case Some(y) => ParseLayout(layout[4..], text[4..], acc.(year := y)))
      case Month =>
        (match FixedDigits(text, 2)
         case None => None
         case Some(m) =>
           if 1 <= m <= 12 then ParseLayout(layout[2..], text[2..], acc.(month := m)) else None)
      case Day =>
        (match FixedDigits(text, 2)
         case None => None
         case Some(d) =>
           if d <= 31 then ParseLayout(layout[2..], text[2..], acc.(day := d)) else None)
      case Char(c) =>
        if |text| > 0 && text[0] == c then ParseLayout(layout[1..], text[1..], acc) else None
  }

  /** Parses `text` with one layout. Fields the layout does not name default to
      year 0, January, day 1; the day must exist in its month. */
  function ParseWith(layout: string, text: string): (r: Option<Date>)
    ensures r.Some? ==> ValidDate(r.value)
  {
    match ParseLayout(layout, text, Date(0, 1, 1))
    case Some(d) => if ValidDate(d) then Some(d) else None
    case None => None
  }

  /** Tries the registered layouts in order; the first that parses wins. */
  function ParseDate(formats: seq<string>, text: string): (r: Option<Date>)
    ensures r.None? <==> forall i :: 0 <= i < |formats| ==> ParseWith(formats[i], text).None?
    ensures r.Some? ==> exists i :: 0 <= i < |formats| && r == ParseWith(formats[i], text) &&
                                    forall j :: 0 <= j < i ==> ParseWith(formats[j], text).None?
  {
    if formats == [] then None
    else
      match ParseWith(formats[0], text)
      case Some(d) => Some(d)
      case None =>
        var r := ParseDate(formats[1..], text);
        assert forall i :: 1 <= i < |formats| ==> formats[i] == formats[1..][i - 1];
        if r.Some? then
          var i :| 0 <= i < |formats| - 1 && r == ParseWith(formats[1..][i], text) &&
                   forall j :: 0 <= j < i ==> ParseWith(formats[1..][j], text).None?;
          assert forall j :: 0 <= j < i + 1 ==> ParseWith(formats[j], text).None?;
          r
        else r
  }

  /** Registering one more layout never changes a date that already parsed. */
  lemma {:induction false} ParseDateAppend(formats: seq<string>, layout: string, text: string)
    ensures ParseDate(formats, text).Some? ==> ParseDate(formats + [layout], text) == ParseDate(formats, text)
    ensures ParseDate(formats, text).None? ==> ParseDate(formats + [layout], text) == ParseWith(layout, text)
  {
    if formats == [] {
      assert formats + [layout] == [layout];
    } else {
      assert (formats + [layout])[1..] == formats[1..] + [layout];
      ParseDateAppend(formats[1..], layout, text);
    }
  }

  /** `d` written out with `layout`; the inverse of ParseLayout. */
  function Format(layout: string, d: Date): string
    requires 0 <= d.year < 10000 && 0 <= d.month && 0 <= d.day
    decreases |layout|
  {
    if layout == [] then []
    else
      var (el, w) := NextElement(layout);
      var piece := match el
        case Year => Digits(d.year, 4)
        case Month => Digits(d.month, 2)
        case Day => Digits(d.day, 2)
        case Char(c) => [c];
      piece + Format(layout[w..], d)
  }

  /** Reading back what Format wrote recovers every field the layout names. */
  lemma {:induction false} FormatThenParse(layout: string, d: Date)
    requires 0 <= d.year < 10000 && ValidDate(d)
    ensures ParseLayout(layout, Format(layout, d), d) == Some(d)
    decreases |layout|
  {
    if layout != [] {
      var (el, w) := NextElement(layout);
      FormatThenParse(layout[w..], d);
      ReadBackFirstElement(layout, d);
    }
  }

  /** One step of FormatThenParse: the first element is read back from the first
      piece Format wrote, and the rest of the layout from the rest of the text. */
  lemma ReadBackFirstElement(layout: string, d: Date)
    requires |layout| > 0 && 0 <= d.year < 10000 && ValidDate(d)
    requires ParseLayout(layout[NextElement(layout).1..], Format(layout[NextElement(layout).1..], d), d) == Some(d)
    ensures ParseLayout(layout, Format(layout, d), d) == Some(d)
  {
    match NextElement(layout).0
    case Year => ReadBackYear(layout, d);
    case Month => ReadBackMonth(layout, d);
    case Day => ReadBackDay(layout, d);
    case Char(c) => assert Format(layout, d)[1..] == Format(layout[1..], d);
  }

  lemma ReadBackYear(layout: string, d: Date)
    requires |layout| > 0 && NextElement(layout).0 == Year && 0 <= d.year < 10000 && ValidDate(d)
    requires ParseLayout(layout[4..], Format(layout[4..], d), d) == Some(d)
    ensures ParseLayout(layout, Format(layout, d), d) == Some(d)
  {
    var text := Format(layout, d);
    assert Pow10(4) == 10000;
    DigitsRoundTrip(d.year, 4);
    assert text[..4] == Digits(d.year, 4) && text[4..] == Format(layout[4..], d);
    assert d.(year := d.year) == d;
  }

  lemma ReadBackMonth(layout: string, d: Date)
    requires |layout| > 0 && NextElement(layout).0 == Month && 0 <= d.year < 10000 && ValidDate(d)
    requires ParseLayout(layout[2..], Format(layout[2..], d), d) == Some(d)
    ensures ParseLayout(layout, Format(layout, d), d) == Some(d)
  {
    var text := Format(layout, d);
    assert Pow10(2) == 100;
    DigitsRoundTrip(d.month, 2);
    assert text[..2] == Digits(d.month, 2) && text[2..] == Format(layout[2..], d);
    assert d.(month := d.month) == d;
  }

  lemma ReadBackDay(layout: string, d: Date)
    requires |layout| > 0 && NextElement(layout).0 == Day && 0 <= d.year < 10000 && ValidDate(d)
    requires ParseLayout(layout[2..], Format(layout[2..], d), d) == Some(d)
    ensures ParseLayout(layout, Format(layout, d), d) == Some(d)
  {
    var text := Format(layout, d);
    assert Pow10(2) == 100;
    DigitsRoundTrip(d.day, 2);
    assert text[..2] == Digits(d.day, 2) && text[2..] == Format(layout[2..], d);
    assert d.(day := d.day) == d;
  }

  datatype Field = YearField | MonthField | DayField

  /** The date fields a layout sets. */
  function Fields(layout: string): set<Field>
    decreases |layout|
  {
    if layout == [] then {}
    else
      var (el, w) := NextElement(layout);
      var f: set<Field> := match el
        case Year => {YearField}
        case Month => {MonthField}
        case Day => {DayField}
        case Char(_) => {};
      f + Fields(layout[w..])
  }

  predicate AgreeOutside(a: Date, b: Date, fs: set<Field>) {
    (YearField !in fs ==> a.year == b.year) &&
    (MonthField !in fs ==> a.month == b.month) &&
    (DayField !in fs ==> a.day == b.day)
  }

  /** The starting date matters only in the fields the layout leaves out. */
  lemma {:induction false} ParseLayoutOnlyFillsNamedFields(layout: string, text: string, a: Date, b: Date)
    requires AgreeOutside(a, b, Fields(layout))
    ensures ParseLayout(layout, text, a).Some? == ParseLayout(layout, text, b).Some?
    ensures ParseLayout(layout, text, a).Some? ==>
      AgreeOutside(ParseLayout(layout, text, a).value, ParseLayout(layout, text, b).value, {})
    decreases |layout|
  {
    if layout != [] {
      var (el, w) := NextElement(layout);
      match el
      case Year =>
        if FixedDigits(text, 4).Some? {
          var y := FixedDigits(text, 4).value;
          ParseLayoutOnlyFillsNamedFields(layout[4..], text[4..], a.(year := y), b.(year := y));
        }
      case Month =>
        if FixedDigits(text, 2).Some? {
          var m := FixedDigits(text, 2).value;
          ParseLayoutOnlyFillsNamedFields(layout[2..], text[2..], a.(month := m), b.(month := m));
        }
      case Day =>
        if FixedDigits(text, 2).Some? {
          var x := FixedDigits(text, 2).value;
          ParseLayoutOnlyFillsNamedFields(layout[2..], text[2..], a.(day := x), b.(day := x));
        }
      case Char(c) =>
        if |text| > 0 {
          ParseLayoutOnlyFillsNamedFields(layout[1..], text[1..], a, b);
        }
    }
  }

  /** A layout that names the year, the month and the day reads back every
      date it writes, whatever the defaults. */
  lemma CompleteLayoutRoundTrip(layout: string, d: Date)
    requires Fields(layout) == {YearField, MonthField, DayField}
    requires 0 <= d.year < 10000 && ValidDate(d)
    ensures ParseWith(layout, Format(layout, d)) == Some(d)
  {
    FormatThenParse(layout, d);
    ParseLayoutOnlyFillsNamedFields(layout, Format(layout, d), Date(0, 1, 1), d);
  }
}
