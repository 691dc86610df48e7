# goql filter queries in Dafny

goql filters Go maps and structs with small text queries such as
`title == "foo BAR" && not disabled == t`. A query runs through four stages:

- **Scanner.** It splits the text into tokens: identifiers, numbers,
  double-quoted strings (with `\\` and `\"` unescaped), single-quoted strings
  (verbatim), operator runs, links (`&`, `&&`, `|`, `||`, `and`, `or`), the
  keyword `not`, and end of input. Module `Lexer`.
- **Classifier.** It gives each value an ExprType from its surface form alone:
  single quotes make a TIME and double quotes a LITERAL. A bare value is an
  INTEGER, FLOAT or BOOLEAN by its shape, and a LITERAL otherwise. Module `Classifier`.
- **Parser.** It reads `[not] key op value (link [not] key op value)*` into an
  ordered chain of conditions. Module `Parsing`.
  - The first condition carries the link `Eof`. Every later condition carries the
    link that joined it to its predecessor.
  - The `Parser` class reads tokens one at a time through a one-token pushback
    buffer `buf`/`n`. It is proved to compute the grammar function `ParseQuery`.
- **Evaluator.** A parsed `Chain` holds the conditions and a list of date layouts
  that `AddDateFormat` extends. Modules `Things` and `Dates`.
  - `CheckMap` and `CheckStruct` resolve each key in the record and compare the
    field under the condition's ExprType.
  - A leading `not` applies to its own condition only.
  - The outcomes are folded left to right over the links.

The other modules:
- `Text` holds character classes, spans and ASCII case folding.
- `Syntax` holds the condition datatype.
- `RoundTrip` proves that values, operators and links written as text scan back
  to the token they came from, and that a condition's tokens parse back to it.
- `TestCases` states every query and record of the repository's tests as
  lemmas: the exact chain `ParseQuery` produces, and the exact verdict the
  evaluator reaches. `ParseCase`, `CheckMapCase` and `CheckStructCase` follow the
  tests' own sequence: build a parser, `Parse`, `AddDateFormat("2006-01-02")`,
  then `CheckMap` or `CheckStruct`.

Three choices follow what the tests expect, where a reading of goql without
them could go either way:

- **Link placement.** A condition carries the link that joined it to the
  condition before it, and the first condition carries `Eof`. It does not carry
  the link to the condition after it. The expected chains in
  parser_test.go:23-35 put `Eof` on the first condition and `LNK_AND` on the
  second. `Syntax.WellLinked` states this layout.
- **Quoted values.** Double quotes always make a LITERAL, whatever they enclose.
  A double-quoted `"42"` or `"true"` is not classified by its contents:
  parser_test.go:77-111 expects LITERAL for both.
- **`===`.** It is neither a parse error nor an equality test.
  thing_test.go:31-41 expects a successful parse and the verdict false with no
  error. A run of operator characters other than the six comparisons therefore
  becomes the operator `Unsupported`. Such a condition evaluates to false once
  its key resolves, and a `not` still inverts it.

## Model

| member | source | states |
|---|---|---|
| Text.EqualFoldIsEquivalence | thing_test.go:20-30 | case-insensitive equality is reflexive, symmetric and transitive |
| Text.EqualFoldPointwise | thing_test.go:20-30 | two strings are equal up to case exactly when they have the same length and agree letter by letter after lower-casing |
| Text.SpanRun | parser_test.go:70-76 | every character before the end of a scanned run is in the class, and the character at the end is not |
| Text.SpanIs | parser_test.go:70-76 | a run is determined by its ends: in class up to `j` and out of class at `j` means the run ends at `j` |
| Text.DigitsValue | thing_test.go:66-89 | the value of `w` digits is below 10^w |
| Text.DigitsRoundTrip | thing_test.go:90-101 | reading back the zero-padded digits written for a number below 10^w gives the number |
| Classifier.Classify | parser_test.go:70-181 | TIME exactly for single quotes; LITERAL for double quotes; a bare value is INTEGER, FLOAT or BOOLEAN exactly when it has that shape, and LITERAL when it has none |
| Classifier.NumberShapesDisjoint | parser_test.go:112-139 | no text is both an INTEGER and a FLOAT |
| Classifier.BoolWordIsNotNumber | parser_test.go:140-174 | a boolean word is neither an INTEGER nor a FLOAT |
| Lexer.WordKind | parser_test.go:70-76 | a word scans as an identifier, keeping its text, exactly when it is not `and`, `or` or `not` in any case |
| Lexer.NumberShape | parser_test.go:112-139 | the text the scanner reads as a number, sign included, is an INTEGER or a FLOAT |
| Lexer.WholeShape | parser_test.go:112-125 | a number with no fraction is read as an INTEGER |
| Lexer.FractionShape | parser_test.go:126-139 | digits, a dot and digits are read as a FLOAT |
| Lexer.ReadQuoted | parser_test.go:91-104 | a read that succeeds ends just after a closing quote, and the unescaped text is shorter than what was read |
| Lexer.ScanAt | parser_test.go:16-35 | a step never moves backwards or past the end; every token but end of input takes at least one character; end of input leaves the cursor at the end |
| Lexer.ScanAtEof | parser_test.go:16-22 | end of input is reported exactly when only blanks are left |
| Lexer.TokenAt | parser_test.go:16-35 | a token at a non-blank position takes at least one character and is never end of input |
| Lexer.TokenAtKind | parser_test.go:70-181 | the first character decides the kind: a number exactly for a digit or a minus before a digit, an operator run exactly for `=`, `!`, `<` or `>`, an identifier or `not` only for a letter; bare tokens keep the characters they span, and a single-quoted token keeps the text between its quotes |
| Lexer.ScanAtWellShaped | parser_test.go:16-35 | every token the scanner returns has the form its kind promises (identifiers are not keywords, numbers are numeric, operator runs are non-empty) |
| Lexer.TokenAtWellShaped | parser_test.go:16-35 | the same for the token that starts at a given non-blank position |
| Lexer.WordTokenWellShaped | parser_test.go:70-76 | the same for a token that starts with a letter |
| Lexer.Scanner.constructor | parser_test.go:40 | a new scanner reads the query from its start |
| Lexer.Scanner.Scan | parser_test.go:40-41 | one call returns the next token and advances exactly as the scanner step function says |
| Lexer.ReadToken | parser_test.go:16-35 | the character-by-character read of one token agrees with the token function |
| Lexer.ReadNumber | parser_test.go:112-139 | the read of a number ends where the number function says |
| Lexer.SpanEnd | parser_test.go:70-76 | the loop over a character class stops at the end of the run |
| Lexer.ReadQuotedText | parser_test.go:91-104 | the loop that unescapes a double-quoted body gives the unescaped text and the position after the closing quote, or nothing when the quote is never closed |
| Lexer.PrependNothing | parser_test.go:91-104 | putting nothing in front of a read leaves it unchanged |
| Lexer.PrependTwice | parser_test.go:91-104 | putting two texts in front of a read one after the other is putting their concatenation in front |
| Dates.BeforeIsStrictTotalOrder | thing_test.go:90-101 | date order is a strict total order: irreflexive, asymmetric, total and transitive |
| Dates.NextElement | thing_test.go:116 | the first element is the year, four characters long, exactly when the layout starts with `2006`; the month exactly when it starts with `01` and not `2006`; the day exactly when it starts with `02`; month and day are two characters long; anything else is the layout's first character, standing for itself |
| Dates.ParseLayout | thing_test.go:116 | a successful read changes only the fields the layout names; a named year is below 10000, a named month is 1 to 12 and a named day at most 31 |
| Dates.ParseWith | thing_test.go:116 | a date read with one layout always exists in the calendar |
| Dates.ParseDate | thing_test.go:116 | the registered layouts are tried in order and the first that reads the text decides; no date exactly when no layout reads the text |
| Dates.ParseDateAppend | thing_test.go:116 | registering one more layout keeps every date that already read, and otherwise the new layout decides |
| Dates.FormatThenParse | thing_test.go:116 | reading back what a layout wrote restores every field the layout names |
| Dates.ReadBackFirstElement | thing_test.go:116 | one step of that: the first element is read back from the first piece written |
| Dates.ParseLayoutOnlyFillsNamedFields | thing_test.go:116 | the starting date only shows in the fields the layout does not name |
| Dates.CompleteLayoutRoundTrip | thing_test.go:116 | a layout naming year, month and day reads back every valid date it writes |
| Things.Resolve | thing_test.go:147-150 | a map record resolves exactly its keys; a struct record resolves exactly its exported fields |
| Things.ParseNumber | thing_test.go:66-89 | a literal has a numeric value exactly when it is an INTEGER or a FLOAT |
| Things.ParseNumberDigits | thing_test.go:66-89 | a run of digits reads as the number it spells, and behind a minus sign as its negation |
| Things.ParseBool | thing_test.go:42-65 | a literal has a boolean value exactly when it is a boolean word, and the value is true exactly when the word starts with `t` or `T` |
| Things.Compare | thing_test.go:20-101 | an unsupported operator never matches; an ordering on a LITERAL or a BOOLEAN is `InvalidOperator`; a LITERAL matches a string field exactly when the two agree up to case, and any other field is `NotComparable`; a BOOLEAN compares truth values; numbers compare by value and dates by calendar order, the later date being the greater; a literal that does not read as its type is `BadLiteral`, and a field that does not read as it is `NotComparable`, so a non-numeric field under a number comparison, a non-boolean one under a BOOLEAN comparison, and any TIME comparison with no registered layout is an error, never false |
| Things.EvalCondition | thing_test.go:31-65 | the condition fails with `FieldNotFound` exactly when its key does not resolve; an unsupported operator on a present field gives false, or true under `not` |
| Things.Fold | thing_test.go:118 | an error result is one of the outcomes, and a chain of one condition has that condition's outcome |
| Things.Evaluate | thing_test.go:118-122 | an error is the error of one of the conditions, and a chain of one condition has that condition's outcome |
| Things.NegationFlipsOneCondition | thing_test.go:42-65 | `not` inverts the verdict of its own condition and leaves its errors as they are |
| Things.FoldOkIffEveryOk | thing_test.go:118 | the fold succeeds exactly when every outcome does |
| Things.FoldFirstError | thing_test.go:118 | the fold reports the first failing outcome |
| Things.FoldAnd | thing_test.go:54-89 | an AND-only fold is true exactly when every outcome is true, and false exactly when all succeed and one is false |
| Things.FoldOr | thing_test.go:118 | an OR-only fold is true exactly when all succeed and one is true, and false exactly when all are false |
| Things.EvaluateOkIffEveryConditionOk | thing_test.go:118-122 | a chain evaluates without error exactly when every condition does |
| Things.FirstErrorWins | thing_test.go:118-122 | the error reported is the one of the first failing condition |
| Things.MissingFieldFails | thing_test.go:118-122 | a key that does not resolve makes the chain fail rather than be false |
| Things.NonNumericFieldFails | thing_test.go:66-89 | a number comparison on a field that holds no number makes the whole chain fail rather than be false |
| Things.NoLayoutDateFails | thing_test.go:90-116 | with no registered layout, a date comparison on a present field makes the whole chain fail |
| Things.AndChainIsConjunction | thing_test.go:54-89 | a chain joined by `&`/`&&` only is true exactly when every condition is true, and false exactly when all evaluate and one is false |
| Things.OrChainIsDisjunction | thing_test.go:118 | a chain joined by OR links only is true exactly when all conditions evaluate and one is true, and false exactly when all are false |
| Things.StrictlyLeftToRight | thing_test.go:118 | there is no precedence between AND and OR: a AND b OR c is (a AND b) OR c, and a OR b AND c is (a OR b) AND c |
| Things.StructReadsLikeMap | thing_test.go:167 | on exported field names a struct is read like the map of its fields |
| Things.Chain.constructor | parser_test.go:41 | a parsed chain starts with no date layouts |
| Things.Chain.AddDateFormat | thing_test.go:116 | the layout is appended after those already registered and nothing else changes |
| Things.Chain.CheckMap | thing_test.go:118 | a condition on a key missing from the map makes the result an error |
| Things.Chain.CheckStruct | thing_test.go:167 | a condition on an unexported or missing field makes the result an error |
| Parsing.OperatorOf | thing_test.go:31-41 | the operator is supported exactly for `==`, `!=`, `>`, `<`, `>=` and `<=`, and an ordering exactly for the last four |
| Parsing.ValueOf | parser_test.go:70-181 | exactly identifiers, numbers and quoted strings are values, and they keep their text; the type is TIME exactly for single quotes, LITERAL for double quotes, and INTEGER or FLOAT for a number by its shape |
| Parsing.ParseConditionAt | parser_test.go:16-35 | a parsed condition carries the link read before it and ends after its start |
| Parsing.ParsedConditionValid | parser_test.go:16-35 | a parsed condition's key is an identifier and its expression has the shape of its type |
| Parsing.ParseRest | parser_test.go:23-35 | the rest of a query only appends conditions, keeping those before it in order |
| Parsing.ParseRestJoins | parser_test.go:23-35 | every condition after the first is valid and carries the link that joined it |
| Parsing.ParseFrom | parser_test.go:23-35 | a parsed chain is non-empty, its first condition carries `Eof`, every later one carries a link, and all are valid |
| Parsing.ParseQuery | parser_test.go:16-35 | the same for a whole query |
| Parsing.ConditionHasNoLink | parser_test.go:16-22 | a condition contains no link token |
| Parsing.ParseRestCount | parser_test.go:23-35 | the rest of a query adds one condition per link token it reads |
| Parsing.ParseQueryCount | parser_test.go:16-35 | a parsed query has one condition more than it has link tokens |
| Parsing.Parser.constructor | parser_test.go:56-63 | a new parser has an empty pushback buffer and reads from the start of the query |
| Parsing.Parser.Scan | parser_test.go:56-63 | the pushed-back token is returned again if there is one, and otherwise the next token is scanned; either way the token is the one at the cursor |
| Parsing.Parser.Unscan | parser_test.go:56-63 | after a pushback the cursor is back at the start of the last token |
| Parsing.Parser.ParseCondition | parser_test.go:16-35 | one condition read through the buffer is exactly what the grammar gives, or the grammar's error |
| Parsing.Parser.Parse | parser_test.go:40-41 | the whole query read through the buffer is exactly the grammar's chain, with no date layouts, or the grammar's error |
| RoundTrip.OpText | parser_test.go:16-35 | every operator has a symbol that reads back as that operator |
| RoundTrip.EscapeChar | parser_test.go:91-104 | the escaped form is a backslash and then the character exactly for `"` and `\`, and the character alone otherwise |
| RoundTrip.HasAtIndex | parser_test.go:91-104 | text found at a position agrees with the query character by character |
| RoundTrip.IndexHasAt | parser_test.go:91-104 | agreeing character by character means the text is found there |
| RoundTrip.HasAtSplit | parser_test.go:91-104 | where a concatenation is found, so are both of its parts |
| RoundTrip.HasAtSlice | parser_test.go:91-104 | the slice where a text is found is that text |
| RoundTrip.SkipOneSpace | parser_test.go:16-35 | a blank before a token does not change what is scanned |
| RoundTrip.ScanWord | parser_test.go:70-76 | a written word scans back as that word |
| RoundTrip.ScanOp | parser_test.go:23-35 | a written operator run scans back as that run |
| RoundTrip.ScanLink | parser_test.go:23-35 | a written AND or OR symbol scans back as its link |
| RoundTrip.ScanNumber | parser_test.go:112-139 | a written INTEGER or FLOAT scans back as that number, sign included |
| RoundTrip.NumberEndIs | parser_test.go:112-139 | a number ends where its text ends when a blank or the end follows |
| RoundTrip.UnsignedStart | parser_test.go:119-139 | where the digits of a signed number begin |
| RoundTrip.IntegerEnd | parser_test.go:112-125 | an INTEGER's run of digits ends at its end |
| RoundTrip.FloatEnd | parser_test.go:126-139 | a FLOAT's digits, dot and fraction end at its end |
| RoundTrip.ScanSingleQuoted | parser_test.go:175-181 | a single-quoted text without quotes scans back verbatim |
| RoundTrip.ReadEscaped | parser_test.go:91-104 | unescaping an escaped text and its closing quote gives the text back |
| RoundTrip.ScanDoubleQuoted | parser_test.go:91-104 | any text, double-quoted with `"` and `\` escaped, scans back as that text |
| RoundTrip.BoolWordIsIdent | parser_test.go:140-174 | a boolean word scans as an identifier |
| RoundTrip.ValueTokenMeans | parser_test.go:70-181 | the token a valid condition's value is written as gives back the value's text and type |
| RoundTrip.ScanBoolean | parser_test.go:140-174 | a written boolean word scans back as itself, its case kept |
| RoundTrip.ScanValue | parser_test.go:70-181 | any valid value, written in the form of its type, scans back as its token |
| RoundTrip.ScanLiteralValue | parser_test.go:77-111 | the same for a LITERAL |
| RoundTrip.ScanTimeValue | parser_test.go:175-181 | the same for a TIME |
| RoundTrip.ScanNumberValue | parser_test.go:112-139 | the same for an INTEGER or a FLOAT |
| RoundTrip.ScanBooleanValue | parser_test.go:140-174 | the same for a BOOLEAN |
| RoundTrip.ParseConditionFromTokens | parser_test.go:16-35 | `[not] key op value` tokens make the condition with that key, operator, value, type, link and negation |
| RoundTrip.ScanSpacedValue | parser_test.go:16-35 | a blank and then a written value scan as that value's token |
| RoundTrip.ParseWrittenValue | parser_test.go:16-35 | a valid condition whose tokens are found in the text parses back to exactly that condition |
| RoundTrip.ScanAtEnd | parser_test.go:16-22 | only blanks left means end of input |
| RoundTrip.ParseRestFromTokens | parser_test.go:23-35 | a link followed by a condition appends that condition, carrying the link |
| TestCases.ReadPlainRun | parser_test.go:77-90 | inside double quotes a run without `"` and `\` is taken verbatim |
| TestCases.ReadPlain | parser_test.go:77-90 | a double-quoted body without `"` and `\` reads back verbatim |
| TestCases.TitleWordValue | parser_test.go:140-174 | a bare word after `title == ` scans back as that word |
| TestCases.TitleQuotedValue | parser_test.go:77-111 | a double-quoted value with no quote or backslash inside, after `title == `, scans back as its contents |
| TestCases.TitleKey | parser_test.go:70-181 | every `title == …` query starts with the field `title` |
| TestCases.TitleOp | parser_test.go:70-181 | and compares it with `==` |
| TestCases.ParseOneCondition | parser_test.go:16-22 | `key op value` and nothing after it is one condition with link `Eof` |
| TestCases.ParseTitleEquals | parser_test.go:70-181 | `title == v` is one `Eqi` condition on `title` with the value and type of `v`'s token |
| TestCases.ParseTwoConditions | parser_test.go:23-35 | two conditions joined by a link parse to exactly those two, in order |
| TestCases.FaselIsLiteral | parser_test.go:29-35 | the bare word `fasel` is a LITERAL |
| TestCases.FortyThreeIsInteger | thing_test.go:147 | `43` is an INTEGER |
| TestCases.ParseEscapedBackslash | parser_test.go:16-22 | `title == "foo\\bar"` is one condition whose expression is `foo\bar`, a LITERAL |
| TestCases.ParseEscapedAndLink | parser_test.go:23-35 | `title == "foo\\bar" & bla != fasel` is the `Eqi` condition with link `Eof` and then the `Neqi` condition with link `And` |
| TestCases.ParseBareWord | parser_test.go:70-76 | `string` bare is a LITERAL |
| TestCases.ParseQuotedInteger | parser_test.go:77-83 | `"42"` stays a LITERAL without its quotes |
| TestCases.ParseQuotedFloat | parser_test.go:84-90 | `"42.1"` stays a LITERAL |
| TestCases.ParseEscapedQuotes | parser_test.go:91-97 | `"hello \"world\""` reads as `hello "world"` |
| TestCases.ParseEscapedBackslashDigits | parser_test.go:98-104 | `"42\\1337"` reads as `42\1337` |
| TestCases.ParseQuotedTrue | parser_test.go:105-111 | `"true"` stays a LITERAL |
| TestCases.ParseInteger | parser_test.go:112-118 | `42` is an INTEGER |
| TestCases.ParseNegativeInteger | parser_test.go:119-125 | `-1337` is an INTEGER, sign kept |
| TestCases.ParseFloat | parser_test.go:126-132 | `3.14` is a FLOAT |
| TestCases.ParseNegativeFloat | parser_test.go:133-139 | `-3.14` is a FLOAT, sign kept |
| TestCases.ParseTrue | parser_test.go:140-146 | `true` is a BOOLEAN |
| TestCases.ParseFalse | parser_test.go:147-153 | `false` is a BOOLEAN |
| TestCases.ParseUpperTrue | parser_test.go:154-160 | `TRUE` is a BOOLEAN, written as given |
| TestCases.ParseUpperFalse | parser_test.go:161-167 | `FALSE` is a BOOLEAN, written as given |
| TestCases.ParseShortTrue | parser_test.go:168-174 | `t` is a BOOLEAN |
| TestCases.ParseTime | parser_test.go:175-181 | `'2006-01-02'` is a TIME without its quotes |
| TestCases.ParseFooBar | thing_test.go:22 | `title == "foo BAR"` parses to its one condition |
| TestCases.ParseTripleEquals | thing_test.go:33 | `title === "foo BAR"` parses, with the operator `Unsupported` |
| TestCases.ParseNotDisabled | thing_test.go:44 | the second condition of `… && not disabled == t` is negated and carries `And` |
| TestCases.ParseAgeOver | thing_test.go:68 | `… && age > 42` parses to a `Gt` condition on an INTEGER |
| TestCases.ParseDateAfter | thing_test.go:92 | `… && date > '2008-01-02'` parses to a `Gt` condition on a TIME |
| TestCases.ParseStructQuery | thing_test.go:147 | `Title == "foo bar" & Age < 43` parses to two conditions on the struct's field names |
| TestCases.ParseCase | parser_test.go:185-186 | a parser over the query, then Parse, gives exactly `ParseQuery`'s chain or error |
| TestCases.CheckMapCase | thing_test.go:103-127 | a parser, Parse, AddDateFormat and CheckMap give the parse error or the chain's verdict on the map with the layout `2006-01-02` |
| TestCases.CheckStructCase | thing_test.go:152-176 | the same with CheckStruct |
| TestCases.EvaluateTwo | thing_test.go:118 | a chain of two conditions combines their outcomes by the second one's link |
| TestCases.FooBarMatches | thing_test.go:20-30 | `title == "foo BAR"` is true for the title `foo bar` |
| TestCases.TripleEqualsFails | thing_test.go:31-41 | a `===` condition is false without error once its field is there |
| TestCases.NotDisabledOutcome | thing_test.go:42-65 | `not disabled == t` is the negation of `disabled` |
| TestCases.AgeOverOutcome | thing_test.go:66-89 | `age > 42` is exactly `age` over 42 |
| TestCases.AgeUnderOutcome | thing_test.go:147-150 | `Age < 43` is exactly `Age` under 43 |
| TestCases.StructTitleMatches | thing_test.go:147-150 | `Title == "foo bar"` is true for the title `foo bar` |
| TestCases.IsoLayoutElements | thing_test.go:116 | `2006-01-02` is year, dash, month, dash, day |
| TestCases.SampleDigitValues | thing_test.go:92 | the digits `2008`, `01` and `02` are 2008, 1 and 2 |
| TestCases.ReadSampleDay | thing_test.go:92 | the day `02` reads as 2 |
| TestCases.ReadSampleDashDay | thing_test.go:92 | `-02` reads as day 2 |
| TestCases.ReadSampleMonthDay | thing_test.go:92 | `01-02` reads as January 2 |
| TestCases.ReadSampleDashMonthDay | thing_test.go:92 | `-01-02` reads as January 2 |
| TestCases.ReadSampleYear | thing_test.go:92 | `2008-01-02` starts with the year 2008 |
| TestCases.ReadSampleDate | thing_test.go:92 | the layout reads `2008-01-02` as the second of January 2008 |
| TestCases.IsoDateSample | thing_test.go:90-101 | with the layout `2006-01-02` registered, `2008-01-02` is the second of January 2008 |
| TestCases.LaterThan | thing_test.go:90-101 | a `>` condition on a TIME is true exactly when the literal's date is before the field's |
| TestCases.DateAfterOutcome | thing_test.go:90-101 | `date > '2008-01-02'` is true exactly for dates after the second of January 2008 |
| TestCases.MapTitleMatches | thing_test.go:20-30 | Test 1: the verdict is true with no error |
| TestCases.MapTripleEquals | thing_test.go:31-41 | Test 2: the query parses and the verdict is false with no error |
| TestCases.MapNotDisabled | thing_test.go:42-65 | Tests 3 and 4: the verdict is the negation of `disabled`, so true for false and false for true |
| TestCases.MapAgeOver | thing_test.go:66-89 | Tests 5 and 6: the verdict is `age > 42`, so true for 43 and false for 39 |
| TestCases.MapDateAfter | thing_test.go:90-101 | Test 7: the verdict is whether the field's date is after the second of January 2008 |
| TestCases.MapDateAfterSample | thing_test.go:90-101 | Test 7 with its own date, the first of January 2010: the verdict is true |
| TestCases.StructTitleAndAge | thing_test.go:147-150 | the struct test: the verdict is `Age < 43`, so true for 42 |

## Left out

- Reading the query from an `io.Reader` (`strings.NewReader`): the query is a string.
- Token positions for error messages: parse errors carry the offending token and what was expected, not its offset.
- Go's `time` package: a date is a year, month and day with no time of day and no zone.
  - Of the layout syntax only `2006`, `01`, `02` and literal characters are read.
  - `time.Date(2010, 1, 1, 0, 0, 0, 0, time.UTC)` in thing_test.go:96 is the date 2010-01-01.
- Floating point: numbers are compared as exact rationals. INTEGER and FLOAT literals compare with integer and real fields the same way.
- Unicode case folding: `EqualFold` folds ASCII letters only.
- Reflection behind `CheckStruct`: a struct is the map of its fields by name, and only names starting with an upper-case letter can be read.
- `String()` rendering of a chain, and the round trip from a whole chain to text and back.
  - What is proved instead: every value, operator and link written as text scans back to its token, and the tokens of a condition parse back to that condition (`RoundTrip.ScanValue`, `RoundTrip.ParseWrittenValue`).
- Error kinds that no test fixes are choices of this model:
  - an ordering on a LITERAL or BOOLEAN is `InvalidOperator`;
  - a literal that does not read as its type is `BadLiteral`;
  - a field that does not read as the literal's type is `NotComparable`.
- Things.Compare: a LITERAL condition on a field that is not a string (an integer, real, boolean or date field) is the error `NotComparable`. It is not a comparison with the field's text, because the model gives such values no canonical text and no test compares a LITERAL with a field that is not a string.
- Short-circuit evaluation: every condition is evaluated, and the first error in chain order is reported.
- The test harness (`t.Run`, `Errorf`) and concurrent use of a chain.
