/** The queries and records the repository's own tests use, with the chains the
    parser must produce and the verdicts the evaluator must reach, proved about
    the model. Each query is read token by token: one lemma per token says what
    the scanner returns at that position, and a lemma about the grammar puts the
    tokens together. */
module TestCases {
  import opened Wrappers
  import opened Text
  import opened Syntax
  import opened Classifier
  import opened Lexer
  import opened Parsing
  import opened Dates
  import opened Things
  import opened RoundTrip

  /** Inside double quotes, a run with no quote and no backslash is taken verbatim. */
  lemma {:induction false} ReadPlainRun(s: string, k: nat, e: nat)
    requires k <= e <= |s|
    requires forall m :: k <= m < e ==> s[m] != '"' && s[m] != '\\'
    ensures ReadQuoted(s, k) == Prepend(s[k..e], ReadQuoted(s, e))
    decreases e - k
  {
    if k == e {
      PrependNothing(ReadQuoted(s, e));
    } else {
      ReadPlainRun(s, k + 1, e);
      PrependTwice([s[k]], s[k + 1..e], ReadQuoted(s, e));
      assert [s[k]] + s[k + 1..e] == s[k..e];
    }
  }

  /** A double-quoted value with no quote and no backslash inside reads back verbatim. */
  lemma ReadPlain(s: string, k: nat, e: nat)
    requires k <= e < |s| && s[e] == '"'
    requires forall m :: k <= m < e ==> s[m] != '"' && s[m] != '\\'
    ensures ReadQuoted(s, k) == Some((s[k..e], e + 1))
  {
    ReadPlainRun(s, k, e);
    assert s[k..e] + [] == s[k..e];
  }

  /** A bare word after `title == ` scans back as that word. */
  lemma TitleWordValue(w: string)
    requires |w| > 0 && IsLetter(w[0]) && AllIn(w, WordChar)
    ensures ScanAt("title == " + w, 8) == (Word(w), 9 + |w|)
  {
    var s := "title == " + w;
    IndexHasAt(s, 9, w);
    ScanWord(s, 9, w);
    SkipOneSpace(s, 8);
  }

  /** A double-quoted value with no quote and no backslash inside, after
      `title == `, scans back as its contents. */
  lemma TitleQuotedValue(t: string)
    requires forall m :: 0 <= m < |t| ==> t[m] != '"' && t[m] != '\\'
    ensures ScanAt("title == " + ("\"" + t + "\""), 8) == (DoubleQuoted(t), 11 + |t|)
  {
    var s := "title == " + ("\"" + t + "\"");
    ReadPlain(s, 10, 10 + |t|);
    assert s[10..10 + |t|] == t;
    SpanIs(s, 8, 9, Space);
    assert TokenAt(s, 9) == (DoubleQuoted(t), 11 + |t|);
  }

  /** Every query that starts `title == ` names the field `title` first ... */
  lemma TitleKey(v: string)
    ensures ScanAt("title == " + v, 0) == (Ident("title"), 5)
  {
    var s := "title == " + v;
    assert s[0..5] == "title";
    SpanIs(s, 0, 0, Space);
    SpanIs(s, 0, 5, WordChar);
    assert Word("title") == Ident("title");
  }

  /** ... and compares it with `==`. */
  lemma TitleOp(v: string)
    ensures ScanAt("title == " + v, 5) == (OpSym("=="), 8)
  {
    var s := "title == " + v;
    assert s[6..8] == "==";
    SpanIs(s, 5, 6, Space);
    SpanIs(s, 6, 8, OpChar);
  }

  /** `key op value` and nothing after it is a chain of one condition. */
  lemma ParseOneCondition(s: string, key: string, o: string, t: Token, e: string, ty: ExprType, a: nat, b: nat)
    requires a <= |s| && b <= |s|
    requires ScanAt(s, 0) == (Ident(key), a) && ScanAt(s, a) == (OpSym(o), b)
    requires ScanAt(s, b) == (t, |s|) && ValueOf(t) == Some((e, ty))
    ensures ParseQuery(s) == Ok([Condition(key, OperatorOf(o), e, ty, Eof, false)])
  {
    var c := Condition(key, OperatorOf(o), e, ty, Eof, false);
    ParseConditionFromTokens(s, 0, Eof, false, key, o, t, e, ty, 0, a, b, |s|);
    ParseQueryFromFirst(s, c, |s|);
    ScanAtEnd(s, |s|);
    ParseRestAtEnd(s, |s|, [c]);
  }

  /** `title == value`: one condition comparing `title` with the value for equality. */
  lemma ParseTitleEquals(v: string, t: Token, e: string, ty: ExprType)
    requires ScanAt("title == " + v, 8) == (t, 9 + |v|) && ValueOf(t) == Some((e, ty))
    ensures ParseQuery("title == " + v) == Ok([Condition("title", Eqi, e, ty, Eof, false)])
  {
    TitleKey(v);
    TitleOp(v);
    ParseOneCondition("title == " + v, "title", "==", t, e, ty, 5, 8);
  }

  /** A condition, a link and a second condition, and nothing after them, is a chain of two. */
  lemma ParseTwoConditions(s: string, c1: Condition, q1: nat, q2: nat, c2: Condition, q3: nat)
    requires q1 <= |s| && ParseConditionAt(s, 0, Eof) == Ok((c1, q1))
    requires ScanAt(s, q1) == (LinkSym(c2.link), q2) && q2 <= |s|
    requires ParseConditionAt(s, q2, c2.link) == Ok((c2, q3)) && q3 == |s|
    ensures ParseQuery(s) == Ok([c1, c2])
  {
    ParseQueryFromFirst(s, c1, q1);
    ParseRestFromTokens(s, q1, [c1], c2.link, c2, q2, q3);
    ScanAtEnd(s, q3);
    ParseRestAtEnd(s, q3, [c1, c2]);
    assert [c1] + [c2] == [c1, c2];
  }

  lemma FaselIsLiteral()
    ensures ValueOf(Ident("fasel")) == Some(("fasel", Literal))
  {
    assert ToLower("fasel")[2] == Lower('s') == 's';
    assert !IsInteger("fasel") && !IsFloat("fasel") && !IsBoolWord("fasel");
  }

  lemma FortyThreeIsInteger()
    ensures ValueOf(Number("43")) == Some(("43", Integer))
  {
    assert IsInteger("43");
  }

  lemma ParseEscapedBackslashValueRead15()
    ensures ReadQuoted("title == " + "\"foo\\\\bar\"", 15) == Some(("bar", 19))
  {
    var s := "title == " + "\"foo\\\\bar\"";
    assert ReadQuoted(s, 18) == Some(([], 19));
    ReadPlainRun(s, 15, 18);
    assert s[15] == 'b' && s[16] == 'a' && s[17] == 'r';
    assert s[15..18] == "bar";
    assert "bar" + "" == "bar";
  }

  lemma ParseEscapedBackslashValueRead13()
    ensures ReadQuoted("title == " + "\"foo\\\\bar\"", 13) == Some(("\\bar", 19))
  {
    var s := "title == " + "\"foo\\\\bar\"";
    ParseEscapedBackslashValueRead15();
    assert ReadQuoted(s, 13) == Prepend("\\", ReadQuoted(s, 15));
    assert "\\" + "bar" == "\\bar";
  }

  lemma ParseEscapedBackslashValueRead10()
    ensures ReadQuoted("title == " + "\"foo\\\\bar\"", 10) == Some(("foo\\bar", 19))
  {
    var s := "title == " + "\"foo\\\\bar\"";
    ParseEscapedBackslashValueRead13();
    ReadPlainRun(s, 10, 13);
    assert s[10] == 'f' && s[11] == 'o' && s[12] == 'o';
    assert s[10..13] == "foo";
    assert "foo" + "\\bar" == "foo\\bar";
  }

  /** The value of the query of ParseEscapedBackslash. */
  lemma ParseEscapedBackslashValue()
    ensures ScanAt("title == " + "\"foo\\\\bar\"", 8) == (DoubleQuoted("foo\\bar"), 19)
  {
    var s := "title == " + "\"foo\\\\bar\"";
    SpanIs(s, 8, 9, Space);
    ParseEscapedBackslashValueRead10();
  }

  /** parser_test.go Test 1: a backslash in a double-quoted value makes the next character literal. */
  lemma ParseEscapedBackslash()
    ensures ParseQuery("title == " + "\"foo\\\\bar\"") == Ok([Condition("title", Eqi, "foo\\bar", Literal, Eof, false)])
  {
    ParseEscapedBackslashValue();
    ParseTitleEquals("\"foo\\\\bar\"", DoubleQuoted("foo\\bar"), "foo\\bar", Literal);
  }

  /** The value of the query of ParseBareWord has the type the test expects. */
  lemma ParseBareWordType()
    ensures ValueOf(Ident("string")) == Some(("string", Literal))
  {
    assert !IsInteger("string") && !IsFloat("string") && !IsBoolWord("string");
  }

  /** parser_test.go "Test string 1": a bare word that is no number and no boolean is a LITERAL. */
  lemma ParseBareWord()
    ensures ParseQuery("title == " + "string") == Ok([Condition("title", Eqi, "string", Literal, Eof, false)])
  {
    TitleWordValue("string");
    assert Word("string") == Ident("string");
    ParseBareWordType();
    ParseTitleEquals("string", Ident("string"), "string", Literal);
  }

  /** parser_test.go "Test string 2": digits in double quotes stay a LITERAL. */
  lemma ParseQuotedInteger()
    ensures ParseQuery("title == " + "\"42\"") == Ok([Condition("title", Eqi, "42", Literal, Eof, false)])
  {
    TitleQuotedValue("42");
    assert "\"" + "42" + "\"" == "\"42\"";
    ParseTitleEquals("\"42\"", DoubleQuoted("42"), "42", Literal);
  }

  /** parser_test.go "Test string 3": a decimal in double quotes stays a LITERAL. */
  lemma ParseQuotedFloat()
    ensures ParseQuery("title == " + "\"42.1\"") == Ok([Condition("title", Eqi, "42.1", Literal, Eof, false)])
  {
    TitleQuotedValue("42.1");
    assert "\"" + "42.1" + "\"" == "\"42.1\"";
    ParseTitleEquals("\"42.1\"", DoubleQuoted("42.1"), "42.1", Literal);
  }

  lemma ParseEscapedQuotesValueRead23()
    ensures ReadQuoted("title == " + "\"hello \\\"world\\\"\"", 23) == Some(("\"", 26))
  {
    var s := "title == " + "\"hello \\\"world\\\"\"";
    assert ReadQuoted(s, 25) == Some(([], 26));
    assert ReadQuoted(s, 23) == Prepend("\"", ReadQuoted(s, 25));
    assert "\"" + "" == "\"";
  }

  lemma ParseEscapedQuotesValueRead18()
    ensures ReadQuoted("title == " + "\"hello \\\"world\\\"\"", 18) == Some(("world\"", 26))
  {
    var s := "title == " + "\"hello \\\"world\\\"\"";
    ParseEscapedQuotesValueRead23();
    ReadPlainRun(s, 18, 23);
    assert s[18] == 'w' && s[19] == 'o' && s[20] == 'r' && s[21] == 'l' && s[22] == 'd';
    assert s[18..23] == "world";
    assert "world" + "\"" == "world\"";
  }

  lemma ParseEscapedQuotesValueRead16()
    ensures ReadQuoted("title == " + "\"hello \\\"world\\\"\"", 16) == Some(("\"world\"", 26))
  {
    var s := "title == " + "\"hello \\\"world\\\"\"";
    ParseEscapedQuotesValueRead18();
    assert ReadQuoted(s, 16) == Prepend("\"", ReadQuoted(s, 18));
    assert "\"" + "world\"" == "\"world\"";
  }

  lemma ParseEscapedQuotesValueRead10()
    ensures ReadQuoted("title == " + "\"hello \\\"world\\\"\"", 10) == Some(("hello \"world\"", 26))
  {
    var s := "title == " + "\"hello \\\"world\\\"\"";
    ParseEscapedQuotesValueRead16();
    ReadPlainRun(s, 10, 16);
    assert s[10] == 'h' && s[11] == 'e' && s[12] == 'l' && s[13] == 'l' && s[14] == 'o' && s[15] == ' ';
    assert s[10..16] == "hello ";
    assert "hello " + "\"world\"" == "hello \"world\"";
  }

  /** The value of the query of ParseEscapedQuotes. */
  lemma ParseEscapedQuotesValue()
    ensures ScanAt("title == " + "\"hello \\\"world\\\"\"", 8) == (DoubleQuoted("hello \"world\""), 26)
  {
    var s := "title == " + "\"hello \\\"world\\\"\"";
    SpanIs(s, 8, 9, Space);
    ParseEscapedQuotesValueRead10();
  }

  /** parser_test.go "Test string 4": escaped double quotes are part of the value. */
  lemma ParseEscapedQuotes()
    ensures ParseQuery("title == " + "\"hello \\\"world\\\"\"") == Ok([Condition("title", Eqi, "hello \"world\"", Literal, Eof, false)])
  {
    ParseEscapedQuotesValue();
    ParseTitleEquals("\"hello \\\"world\\\"\"", DoubleQuoted("hello \"world\""), "hello \"world\"", Literal);
  }

  lemma ParseEscapedBackslashDigitsValueRead14()
    ensures ReadQuoted("title == " + "\"42\\\\1337\"", 14) == Some(("1337", 19))
  {
    var s := "title == " + "\"42\\\\1337\"";
    assert ReadQuoted(s, 18) == Some(([], 19));
    ReadPlainRun(s, 14, 18);
    assert s[14] == '1' && s[15] == '3' && s[16] == '3' && s[17] == '7';
    assert s[14..18] == "1337";
    assert "1337" + "" == "1337";
  }

  lemma ParseEscapedBackslashDigitsValueRead12()
    ensures ReadQuoted("title == " + "\"42\\\\1337\"", 12) == Some(("\\1337", 19))
  {
    var s := "title == " + "\"42\\\\1337\"";
    ParseEscapedBackslashDigitsValueRead14();
    assert ReadQuoted(s, 12) == Prepend("\\", ReadQuoted(s, 14));
    assert "\\" + "1337" == "\\1337";
  }

  lemma ParseEscapedBackslashDigitsValueRead10()
    ensures ReadQuoted("title == " + "\"42\\\\1337\"", 10) == Some(("42\\1337", 19))
  {
    var s := "title == " + "\"42\\\\1337\"";
    ParseEscapedBackslashDigitsValueRead12();
    ReadPlainRun(s, 10, 12);
    assert s[10] == '4' && s[11] == '2';
    assert s[10..12] == "42";
    assert "42" + "\\1337" == "42\\1337";
  }

  /** The value of the query of ParseEscapedBackslashDigits. */
  lemma ParseEscapedBackslashDigitsValue()
    ensures ScanAt("title == " + "\"42\\\\1337\"", 8) == (DoubleQuoted("42\\1337"), 19)
  {
    var s := "title == " + "\"42\\\\1337\"";
    SpanIs(s, 8, 9, Space);
    ParseEscapedBackslashDigitsValueRead10();
  }

  /** parser_test.go "Test string 5": an escaped backslash between digits. */
  lemma ParseEscapedBackslashDigits()
    ensures ParseQuery("title == " + "\"42\\\\1337\"") == Ok([Condition("title", Eqi, "42\\1337", Literal, Eof, false)])
  {
    ParseEscapedBackslashDigitsValue();
    ParseTitleEquals("\"42\\\\1337\"", DoubleQuoted("42\\1337"), "42\\1337", Literal);
  }

  /** parser_test.go "Test string 6": a boolean word in double quotes stays a LITERAL. */
  lemma ParseQuotedTrue()
    ensures ParseQuery("title == " + "\"true\"") == Ok([Condition("title", Eqi, "true", Literal, Eof, false)])
  {
    TitleQuotedValue("true");
    assert "\"" + "true" + "\"" == "\"true\"";
    ParseTitleEquals("\"true\"", DoubleQuoted("true"), "true", Literal);
  }

  /** The value of the query of ParseInteger. */
  lemma ParseIntegerValue()
    ensures ScanAt("title == " + "42", 8) == (Number("42"), 11)
  {
    var s := "title == " + "42";
    SpanIs(s, 8, 9, Space);
    SpanIs(s, 9, 11, Digit);
    assert NumberEnd(s, 9) == 11;
    assert s[9] == '4' && s[10] == '2';
    assert s[9..11] == "42";
  }

  /** The value of the query of ParseInteger has the type the test expects. */
  lemma ParseIntegerType()
    ensures ValueOf(Number("42")) == Some(("42", Integer))
  {
    assert IsInteger("42");
  }

  /** parser_test.go "Test int 1": bare digits are an INTEGER. */
  lemma ParseInteger()
    ensures ParseQuery("title == " + "42") == Ok([Condition("title", Eqi, "42", Integer, Eof, false)])
  {
    ParseIntegerValue();
    ParseIntegerType();
    ParseTitleEquals("42", Number("42"), "42", Integer);
  }

  /** The value of the query of ParseNegativeInteger. */
  lemma ParseNegativeIntegerValue()
    ensures ScanAt("title == " + "-1337", 8) == (Number("-1337"), 14)
  {
    var s := "title == " + "-1337";
    SpanIs(s, 8, 9, Space);
    SpanIs(s, 10, 14, Digit);
    assert NumberEnd(s, 9) == 14;
    assert s[9] == '-' && s[10] == '1' && s[11] == '3' && s[12] == '3' && s[13] == '7';
    assert s[9..14] == "-1337";
  }

  /** The value of the query of ParseNegativeInteger has the type the test expects. */
  lemma ParseNegativeIntegerType()
    ensures ValueOf(Number("-1337")) == Some(("-1337", Integer))
  {
    assert Unsigned("-1337") == "1337";
    assert IsInteger("-1337");
  }

  /** parser_test.go "Test int 2": a leading minus is part of the INTEGER. */
  lemma ParseNegativeInteger()
    ensures ParseQuery("title == " + "-1337") == Ok([Condition("title", Eqi, "-1337", Integer, Eof, false)])
  {
    ParseNegativeIntegerValue();
    ParseNegativeIntegerType();
    ParseTitleEquals("-1337", Number("-1337"), "-1337", Integer);
  }

  /** The value of the query of ParseFloat. */
  lemma ParseFloatValue()
    ensures ScanAt("title == " + "3.14", 8) == (Number("3.14"), 13)
  {
    var s := "title == " + "3.14";
    SpanIs(s, 8, 9, Space);
    SpanIs(s, 9, 10, Digit);
    SpanIs(s, 11, 13, Digit);
    assert NumberEnd(s, 9) == 13;
    assert s[9] == '3' && s[10] == '.' && s[11] == '1' && s[12] == '4';
    assert s[9..13] == "3.14";
  }

  /** The value of the query of ParseFloat has the type the test expects. */
  lemma ParseFloatType()
    ensures ValueOf(Number("3.14")) == Some(("3.14", Float))
  {
    SpanIs("3.14", 0, 1, Digit);
    assert "3.14"[2..] == "14";
    assert IsFloat("3.14");
  }

  /** parser_test.go "Test float 1": digits, a dot and digits are a FLOAT. */
  lemma ParseFloat()
    ensures ParseQuery("title == " + "3.14") == Ok([Condition("title", Eqi, "3.14", Float, Eof, false)])
  {
    ParseFloatValue();
    ParseFloatType();
    ParseTitleEquals("3.14", Number("3.14"), "3.14", Float);
  }

  /** The value of the query of ParseNegativeFloat. */
  lemma ParseNegativeFloatValue()
    ensures ScanAt("title == " + "-3.14", 8) == (Number("-3.14"), 14)
  {
    var s := "title == " + "-3.14";
    SpanIs(s, 8, 9, Space);
    SpanIs(s, 10, 11, Digit);
    SpanIs(s, 12, 14, Digit);
    assert NumberEnd(s, 9) == 14;
    assert s[9] == '-' && s[10] == '3' && s[11] == '.' && s[12] == '1' && s[13] == '4';
    assert s[9..14] == "-3.14";
  }

  /** The value of the query of ParseNegativeFloat has the type the test expects. */
  lemma ParseNegativeFloatType()
    ensures ValueOf(Number("-3.14")) == Some(("-3.14", Float))
  {
    assert Unsigned("-3.14") == "3.14";
    SpanIs("3.14", 0, 1, Digit);
    assert "3.14"[2..] == "14";
    assert IsFloat("-3.14");
  }

  /** parser_test.go "Test float 2": a leading minus is part of the FLOAT. */
  lemma ParseNegativeFloat()
    ensures ParseQuery("title == " + "-3.14") == Ok([Condition("title", Eqi, "-3.14", Float, Eof, false)])
  {
    ParseNegativeFloatValue();
    ParseNegativeFloatType();
    ParseTitleEquals("-3.14", Number("-3.14"), "-3.14", Float);
  }

  /** The value of the query of ParseTrue has the type the test expects. */
  lemma ParseTrueType()
    ensures ValueOf(Ident("true")) == Some(("true", Boolean))
  {
    assert IsBoolWord("true");
  }

  /** parser_test.go "Test bool 1": `true` is a BOOLEAN. */
  lemma ParseTrue()
    ensures ParseQuery("title == " + "true") == Ok([Condition("title", Eqi, "true", Boolean, Eof, false)])
  {
    TitleWordValue("true");
    assert Word("true") == Ident("true");
    ParseTrueType();
    ParseTitleEquals("true", Ident("true"), "true", Boolean);
  }

  /** The value of the query of ParseFalse has the type the test expects. */
  lemma ParseFalseType()
    ensures ValueOf(Ident("false")) == Some(("false", Boolean))
  {
    assert IsBoolWord("false");
  }

  /** parser_test.go "Test bool 2": `false` is a BOOLEAN. */
  lemma ParseFalse()
    ensures ParseQuery("title == " + "false") == Ok([Condition("title", Eqi, "false", Boolean, Eof, false)])
  {
    TitleWordValue("false");
    assert Word("false") == Ident("false");
    ParseFalseType();
    ParseTitleEquals("false", Ident("false"), "false", Boolean);
  }

  /** The value of the query of ParseUpperTrue has the type the test expects. */
  lemma ParseUpperTrueType()
    ensures ValueOf(Ident("TRUE")) == Some(("TRUE", Boolean))
  {
    assert ToLower("TRUE") == "true";
  }

  /** parser_test.go "Test bool 3": the boolean words are read in any case and kept as written. */
  lemma ParseUpperTrue()
    ensures ParseQuery("title == " + "TRUE") == Ok([Condition("title", Eqi, "TRUE", Boolean, Eof, false)])
  {
    TitleWordValue("TRUE");
    assert Word("TRUE") == Ident("TRUE");
    ParseUpperTrueType();
    ParseTitleEquals("TRUE", Ident("TRUE"), "TRUE", Boolean);
  }

  /** The value of the query of ParseUpperFalse has the type the test expects. */
  lemma ParseUpperFalseType()
    ensures ValueOf(Ident("FALSE")) == Some(("FALSE", Boolean))
  {
    assert ToLower("FALSE") == "false";
  }

  /** parser_test.go "Test bool 4": `FALSE` is a BOOLEAN. */
  lemma ParseUpperFalse()
    ensures ParseQuery("title == " + "FALSE") == Ok([Condition("title", Eqi, "FALSE", Boolean, Eof, false)])
  {
    TitleWordValue("FALSE");
    assert Word("FALSE") == Ident("FALSE");
    ParseUpperFalseType();
    ParseTitleEquals("FALSE", Ident("FALSE"), "FALSE", Boolean);
  }

  /** The value of the query of ParseShortTrue has the type the test expects. */
  lemma ParseShortTrueType()
    ensures ValueOf(Ident("t")) == Some(("t", Boolean))
  {
    assert IsBoolWord("t");
  }

  /** parser_test.go, the second "Test bool 4": the single letter `t` is a BOOLEAN. */
  lemma ParseShortTrue()
    ensures ParseQuery("title == " + "t") == Ok([Condition("title", Eqi, "t", Boolean, Eof, false)])
  {
    TitleWordValue("t");
    assert Word("t") == Ident("t");
    ParseShortTrueType();
    ParseTitleEquals("t", Ident("t"), "t", Boolean);
  }

  /** The value of the query of ParseTime. */
  lemma ParseTimeValue()
    ensures ScanAt("title == " + "'2006-01-02'", 8) == (SingleQuoted("2006-01-02"), 21)
  {
    var s := "title == " + "'2006-01-02'";
    SpanIs(s, 8, 9, Space);
    SpanIs(s, 10, 20, NotSingleQuote);
    assert s[10] == '2' && s[11] == '0' && s[12] == '0' && s[13] == '6' && s[14] == '-' && s[15] == '0' && s[16] == '1' && s[17] == '-' && s[18] == '0' && s[19] == '2';
    assert s[10..20] == "2006-01-02";
  }

  /** parser_test.go "Test time 1": a single-quoted value is a TIME, kept verbatim. */
  lemma ParseTime()
    ensures ParseQuery("title == " + "'2006-01-02'") == Ok([Condition("title", Eqi, "2006-01-02", Time, Eof, false)])
  {
    ParseTimeValue();
    ParseTitleEquals("'2006-01-02'", SingleQuoted("2006-01-02"), "2006-01-02", Time);
  }

  /** The characters of "title == \"foo\\\\bar\" & bla != fasel". */
  predicate EscapedAndLinkText(s: string) {
    |s| == 34 && s[0] == 't' && s[1] == 'i' && s[2] == 't' && s[3] == 'l' && s[4] == 'e' &&
    s[5] == ' ' && s[6] == '=' && s[7] == '=' && s[8] == ' ' && s[9] == '"' && s[10] == 'f' &&
    s[11] == 'o' && s[12] == 'o' && s[13] == '\\' && s[14] == '\\' && s[15] == 'b' &&
    s[16] == 'a' && s[17] == 'r' && s[18] == '"' && s[19] == ' ' && s[20] == '&' && s[21] == ' ' &&
    s[22] == 'b' && s[23] == 'l' && s[24] == 'a' && s[25] == ' ' && s[26] == '!' && s[27] == '=' &&
    s[28] == ' ' && s[29] == 'f' && s[30] == 'a' && s[31] == 's' && s[32] == 'e' && s[33] == 'l'
  }

  /** The token at 0 of "title == \"foo\\\\bar\" & bla != fasel". */
  lemma ParseEscapedAndLinkToken0(s: string)
    requires EscapedAndLinkText(s)
    ensures ScanAt(s, 0) == (Ident("title"), 5)
  {
    SpanIs(s, 0, 0, Space);
    SpanIs(s, 0, 5, WordChar);
    assert s[0..5] == "title";
    assert Word("title") == Ident("title");
  }

  /** The token at 5 of "title == \"foo\\\\bar\" & bla != fasel". */
  lemma ParseEscapedAndLinkToken5(s: string)
    requires EscapedAndLinkText(s)
    ensures ScanAt(s, 5) == (OpSym("=="), 8)
  {
    SpanIs(s, 5, 6, Space);
    SpanIs(s, 6, 8, OpChar);
    assert s[6..8] == "==";
  }

  lemma ParseEscapedAndLinkToken8Read15(s: string)
    requires EscapedAndLinkText(s)
    ensures ReadQuoted(s, 15) == Some(("bar", 19))
  {
    assert ReadQuoted(s, 18) == Some(([], 19));
    ReadPlainRun(s, 15, 18);
    assert s[15..18] == "bar";
    assert "bar" + "" == "bar";
  }

  lemma ParseEscapedAndLinkToken8Read13(s: string)
    requires EscapedAndLinkText(s)
    ensures ReadQuoted(s, 13) == Some(("\\bar", 19))
  {
    ParseEscapedAndLinkToken8Read15(s);
    assert ReadQuoted(s, 13) == Prepend("\\", ReadQuoted(s, 15));
    assert "\\" + "bar" == "\\bar";
  }

  lemma ParseEscapedAndLinkToken8Read10(s: string)
    requires EscapedAndLinkText(s)
    ensures ReadQuoted(s, 10) == Some(("foo\\bar", 19))
  {
    ParseEscapedAndLinkToken8Read13(s);
    ReadPlainRun(s, 10, 13);
    assert s[10..13] == "foo";
    assert "foo" + "\\bar" == "foo\\bar";
  }

  /** The token at 8 of "title == \"foo\\\\bar\" & bla != fasel". */
  lemma ParseEscapedAndLinkToken8(s: string)
    requires EscapedAndLinkText(s)
    ensures ScanAt(s, 8) == (DoubleQuoted("foo\\bar"), 19)
  {
    SpanIs(s, 8, 9, Space);
    ParseEscapedAndLinkToken8Read10(s);
  }

  /** The token at 19 of "title == \"foo\\\\bar\" & bla != fasel". */
  lemma ParseEscapedAndLinkToken19(s: string)
    requires EscapedAndLinkText(s)
    ensures ScanAt(s, 19) == (LinkSym(And), 21)
  {
    SpanIs(s, 19, 20, Space);
    SpanIs(s, 20, 21, Amp);
  }

  /** The token at 21 of "title == \"foo\\\\bar\" & bla != fasel". */
  lemma ParseEscapedAndLinkToken21(s: string)
    requires EscapedAndLinkText(s)
    ensures ScanAt(s, 21) == (Ident("bla"), 25)
  {
    SpanIs(s, 21, 22, Space);
    SpanIs(s, 22, 25, WordChar);
    assert s[22..25] == "bla";
    assert Word("bla") == Ident("bla");
  }

  /** The token at 25 of "title == \"foo\\\\bar\" & bla != fasel". */
  lemma ParseEscapedAndLinkToken25(s: string)
    requires EscapedAndLinkText(s)
    ensures ScanAt(s, 25) == (OpSym("!="), 28)
  {
    SpanIs(s, 25, 26, Space);
    SpanIs(s, 26, 28, OpChar);
    assert s[26..28] == "!=";
  }

  /** The token at 28 of "title == \"foo\\\\bar\" & bla != fasel". */
  lemma ParseEscapedAndLinkToken28(s: string)
    requires EscapedAndLinkText(s)
    ensures ScanAt(s, 28) == (Ident("fasel"), 34)
  {
    SpanIs(s, 28, 29, Space);
    SpanIs(s, 29, 34, WordChar);
    assert s[29..34] == "fasel";
    assert Word("fasel") == Ident("fasel");
  }

  /** Any text with the characters of "title == \"foo\\\\bar\" & bla != fasel" parses to the chain the test expects. */
  lemma ParseEscapedAndLinkFrom(s: string)
    requires EscapedAndLinkText(s)
    ensures ParseQuery(s) == Ok([Condition("title", Eqi, "foo\\bar", Literal, Eof, false), Condition("bla", Neqi, "fasel", Literal, And, false)])
  {
    ParseEscapedAndLinkToken0(s);
    ParseEscapedAndLinkToken5(s);
    ParseEscapedAndLinkToken8(s);
    ParseEscapedAndLinkToken19(s);
    ParseEscapedAndLinkToken21(s);
    ParseEscapedAndLinkToken25(s);
    ParseEscapedAndLinkToken28(s);
    FaselIsLiteral();
    ParseConditionFromTokens(s, 0, Eof, false, "title", "==", DoubleQuoted("foo\\bar"), "foo\\bar", Literal, 0, 5, 8, 19);
    ParseConditionFromTokens(s, 21, And, false, "bla", "!=", Ident("fasel"), "fasel", Literal, 0, 25, 28, 34);
    ParseTwoConditions(s, Condition("title", Eqi, "foo\\bar", Literal, Eof, false), 19, 21, Condition("bla", Neqi, "fasel", Literal, And, false), 34);
  }

  /** Characters 0 to 3 of "title == \"foo\\\\bar\" & bla != fasel". */
  lemma ParseEscapedAndLinkChars0(s: string)
    requires s == "title == \"foo\\\\bar\" & bla != fasel"
    ensures |s| == 34 && s[0] == 't' && s[1] == 'i' && s[2] == 't' && s[3] == 'l'
  {
  }

  /** Characters 4 to 7 of "title == \"foo\\\\bar\" & bla != fasel". */
  lemma ParseEscapedAndLinkChars1(s: string)
    requires s == "title == \"foo\\\\bar\" & bla != fasel"
    ensures s[4] == 'e' && s[5] == ' ' && s[6] == '=' && s[7] == '='
  {
  }

  /** Characters 8 to 11 of "title == \"foo\\\\bar\" & bla != fasel". */
  lemma ParseEscapedAndLinkChars2(s: string)
    requires s == "title == \"foo\\\\bar\" & bla != fasel"
    ensures s[8] == ' ' && s[9] == '"' && s[10] == 'f' && s[11] == 'o'
  {
  }

  /** Characters 12 to 15 of "title == \"foo\\\\bar\" & bla != fasel". */
  lemma ParseEscapedAndLinkChars3(s: string)
    requires s == "title == \"foo\\\\bar\" & bla != fasel"
    ensures s[12] == 'o' && s[13] == '\\' && s[14] == '\\' && s[15] == 'b'
  {
  }

  /** Characters 16 to 19 of "title == \"foo\\\\bar\" & bla != fasel". */
  lemma ParseEscapedAndLinkChars4(s: string)
    requires s == "title == \"foo\\\\bar\" & bla != fasel"
    ensures s[16] == 'a' && s[17] == 'r' && s[18] == '"' && s[19] == ' '
  {
  }

  /** Characters 20 to 23 of "title == \"foo\\\\bar\" & bla != fasel". */
  lemma ParseEscapedAndLinkChars5(s: string)
    requires s == "title == \"foo\\\\bar\" & bla != fasel"
    ensures s[20] == '&' && s[21] == ' ' && s[22] == 'b' && s[23] == 'l'
  {
  }

  /** Characters 24 to 27 of "title == \"foo\\\\bar\" & bla != fasel". */
  lemma ParseEscapedAndLinkChars6(s: string)
    requires s == "title == \"foo\\\\bar\" & bla != fasel"
    ensures s[24] == 'a' && s[25] == ' ' && s[26] == '!' && s[27] == '='
  {
  }

  /** Characters 28 to 31 of "title == \"foo\\\\bar\" & bla != fasel". */
  lemma ParseEscapedAndLinkChars7(s: string)
    requires s == "title == \"foo\\\\bar\" & bla != fasel"
    ensures s[28] == ' ' && s[29] == 'f' && s[30] == 'a' && s[31] == 's'
  {
  }

  /** Characters 32 to 33 of "title == \"foo\\\\bar\" & bla != fasel". */
  lemma ParseEscapedAndLinkChars8(s: string)
    requires s == "title == \"foo\\\\bar\" & bla != fasel"
    ensures s[32] == 'e' && s[33] == 'l'
  {
  }

  /** parser_test.go Test 2: `&` joins a second condition, which carries the link `And`. */
  lemma ParseEscapedAndLink(s: string)
    requires s == "title == \"foo\\\\bar\" & bla != fasel"
    ensures ParseQuery(s) == Ok([Condition("title", Eqi, "foo\\bar", Literal, Eof, false), Condition("bla", Neqi, "fasel", Literal, And, false)])
  {
    ParseEscapedAndLinkChars0(s);
    ParseEscapedAndLinkChars1(s);
    ParseEscapedAndLinkChars2(s);
    ParseEscapedAndLinkChars3(s);
    ParseEscapedAndLinkChars4(s);
    ParseEscapedAndLinkChars5(s);
    ParseEscapedAndLinkChars6(s);
    ParseEscapedAndLinkChars7(s);
    ParseEscapedAndLinkChars8(s);
    ParseEscapedAndLinkFrom(s);
  }

  /** The characters of "title == \"foo BAR\"". */
  predicate FooBarText(s: string) {
    |s| == 18 && s[0] == 't' && s[1] == 'i' && s[2] == 't' && s[3] == 'l' && s[4] == 'e' &&
    s[5] == ' ' && s[6] == '=' && s[7] == '=' && s[8] == ' ' && s[9] == '"' && s[10] == 'f' &&
    s[11] == 'o' && s[12] == 'o' && s[13] == ' ' && s[14] == 'B' && s[15] == 'A' && s[16] == 'R' &&
    s[17] == '"'
  }

  /** The token at 0 of "title == \"foo BAR\"". */
  lemma ParseFooBarToken0(s: string)
    requires FooBarText(s)
    ensures ScanAt(s, 0) == (Ident("title"), 5)
  {
    SpanIs(s, 0, 0, Space);
    SpanIs(s, 0, 5, WordChar);
    assert s[0..5] == "title";
    assert Word("title") == Ident("title");
  }

  /** The token at 5 of "title == \"foo BAR\"". */
  lemma ParseFooBarToken5(s: string)
    requires FooBarText(s)
    ensures ScanAt(s, 5) == (OpSym("=="), 8)
  {
    SpanIs(s, 5, 6, Space);
    SpanIs(s, 6, 8, OpChar);
    assert s[6..8] == "==";
  }

  /** The token at 8 of "title == \"foo BAR\"". */
  lemma ParseFooBarToken8(s: string)
    requires FooBarText(s)
    ensures ScanAt(s, 8) == (DoubleQuoted("foo BAR"), 18)
  {
    SpanIs(s, 8, 9, Space);
    ReadPlain(s, 10, 17);
    assert s[10..17] == "foo BAR";
  }

  /** Any text with the characters of "title == \"foo BAR\"" parses to the chain the test expects. */
  lemma ParseFooBarFrom(s: string)
    requires FooBarText(s)
    ensures ParseQuery(s) == Ok([Condition("title", Eqi, "foo BAR", Literal, Eof, false)])
  {
    ParseFooBarToken0(s);
    ParseFooBarToken5(s);
    ParseFooBarToken8(s);
    ParseConditionFromTokens(s, 0, Eof, false, "title", "==", DoubleQuoted("foo BAR"), "foo BAR", Literal, 0, 5, 8, 18);
    ParseQueryFromFirst(s, Condition("title", Eqi, "foo BAR", Literal, Eof, false), 18);
    ScanAtEnd(s, 18);
    ParseRestAtEnd(s, 18, [Condition("title", Eqi, "foo BAR", Literal, Eof, false)]);
  }

  /** Characters 0 to 3 of "title == \"foo BAR\"". */
  lemma ParseFooBarChars0(s: string)
    requires s == "title == \"foo BAR\""
    ensures |s| == 18 && s[0] == 't' && s[1] == 'i' && s[2] == 't' && s[3] == 'l'
  {
  }

  /** Characters 4 to 7 of "title == \"foo BAR\"". */
  lemma ParseFooBarChars1(s: string)
    requires s == "title == \"foo BAR\""
    ensures s[4] == 'e' && s[5] == ' ' && s[6] == '=' && s[7] == '='
  {
  }

  /** Characters 8 to 11 of "title == \"foo BAR\"". */
  lemma ParseFooBarChars2(s: string)
    requires s == "title == \"foo BAR\""
    ensures s[8] == ' ' && s[9] == '"' && s[10] == 'f' && s[11] == 'o'
  {
  }

  /** Characters 12 to 15 of "title == \"foo BAR\"". */
  lemma ParseFooBarChars3(s: string)
    requires s == "title == \"foo BAR\""
    ensures s[12] == 'o' && s[13] == ' ' && s[14] == 'B' && s[15] == 'A'
  {
  }

  /** Characters 16 to 17 of "title == \"foo BAR\"". */
  lemma ParseFooBarChars4(s: string)
    requires s == "title == \"foo BAR\""
    ensures s[16] == 'R' && s[17] == '"'
  {
  }

  /** thing_test.go Test 1: the query of the first map test. */
  lemma ParseFooBar(s: string)
    requires s == "title == \"foo BAR\""
    ensures ParseQuery(s) == Ok([Condition("title", Eqi, "foo BAR", Literal, Eof, false)])
  {
    ParseFooBarChars0(s);
    ParseFooBarChars1(s);
    ParseFooBarChars2(s);
    ParseFooBarChars3(s);
    ParseFooBarChars4(s);
    ParseFooBarFrom(s);
  }

  /** The characters of "title === \"foo BAR\"". */
  predicate TripleEqualsText(s: string) {
    |s| == 19 && s[0] == 't' && s[1] == 'i' && s[2] == 't' && s[3] == 'l' && s[4] == 'e' &&
    s[5] == ' ' && s[6] == '=' && s[7] == '=' && s[8] == '=' && s[9] == ' ' && s[10] == '"' &&
    s[11] == 'f' && s[12] == 'o' && s[13] == 'o' && s[14] == ' ' && s[15] == 'B' && s[16] == 'A' &&
    s[17] == 'R' && s[18] == '"'
  }

  /** The token at 0 of "title === \"foo BAR\"". */
  lemma ParseTripleEqualsToken0(s: string)
    requires TripleEqualsText(s)
    ensures ScanAt(s, 0) == (Ident("title"), 5)
  {
    SpanIs(s, 0, 0, Space);
    SpanIs(s, 0, 5, WordChar);
    assert s[0..5] == "title";
    assert Word("title") == Ident("title");
  }

  /** The token at 5 of "title === \"foo BAR\"". */
  lemma ParseTripleEqualsToken5(s: string)
    requires TripleEqualsText(s)
    ensures ScanAt(s, 5) == (OpSym("==="), 9)
  {
    SpanIs(s, 5, 6, Space);
    SpanIs(s, 6, 9, OpChar);
    assert s[6..9] == "===";
  }

  /** The token at 9 of "title === \"foo BAR\"". */
  lemma ParseTripleEqualsToken9(s: string)
    requires TripleEqualsText(s)
    ensures ScanAt(s, 9) == (DoubleQuoted("foo BAR"), 19)
  {
    SpanIs(s, 9, 10, Space);
    ReadPlain(s, 11, 18);
    assert s[11..18] == "foo BAR";
  }

  /** Any text with the characters of "title === \"foo BAR\"" parses to the chain the test expects. */
  lemma ParseTripleEqualsFrom(s: string)
    requires TripleEqualsText(s)
    ensures ParseQuery(s) == Ok([Condition("title", Unsupported, "foo BAR", Literal, Eof, false)])
  {
    ParseTripleEqualsToken0(s);
    ParseTripleEqualsToken5(s);
    ParseTripleEqualsToken9(s);
    ParseConditionFromTokens(s, 0, Eof, false, "title", "===", DoubleQuoted("foo BAR"), "foo BAR", Literal, 0, 5, 9, 19);
    ParseQueryFromFirst(s, Condition("title", Unsupported, "foo BAR", Literal, Eof, false), 19);
    ScanAtEnd(s, 19);
    ParseRestAtEnd(s, 19, [Condition("title", Unsupported, "foo BAR", Literal, Eof, false)]);
  }

  /** Characters 0 to 3 of "title === \"foo BAR\"". */
  lemma ParseTripleEqualsChars0(s: string)
    requires s == "title === \"foo BAR\""
    ensures |s| == 19 && s[0] == 't' && s[1] == 'i' && s[2] == 't' && s[3] == 'l'
  {
  }

  /** Characters 4 to 7 of "title === \"foo BAR\"". */
  lemma ParseTripleEqualsChars1(s: string)
    requires s == "title === \"foo BAR\""
    ensures s[4] == 'e' && s[5] == ' ' && s[6] == '=' && s[7] == '='
  {
  }

  /** Characters 8 to 11 of "title === \"foo BAR\"". */
  lemma ParseTripleEqualsChars2(s: string)
    requires s == "title === \"foo BAR\""
    ensures s[8] == '=' && s[9] == ' ' && s[10] == '"' && s[11] == 'f'
  {
  }

  /** Characters 12 to 15 of "title === \"foo BAR\"". */
  lemma ParseTripleEqualsChars3(s: string)
    requires s == "title === \"foo BAR\""
    ensures s[12] == 'o' && s[13] == 'o' && s[14] == ' ' && s[15] == 'B'
  {
  }

  /** Characters 16 to 18 of "title === \"foo BAR\"". */
  lemma ParseTripleEqualsChars4(s: string)
    requires s == "title === \"foo BAR\""
    ensures s[16] == 'A' && s[17] == 'R' && s[18] == '"'
  {
  }

  /** thing_test.go Test 2: `===` is one operator token that is none of the six comparisons. */
  lemma ParseTripleEquals(s: string)
    requires s == "title === \"foo BAR\""
    ensures ParseQuery(s) == Ok([Condition("title", Unsupported, "foo BAR", Literal, Eof, false)])
  {
    ParseTripleEqualsChars0(s);
    ParseTripleEqualsChars1(s);
    ParseTripleEqualsChars2(s);
    ParseTripleEqualsChars3(s);
    ParseTripleEqualsChars4(s);
    ParseTripleEqualsFrom(s);
  }

  /** The characters of "title == \"foo BAR\" && not disabled == t". */
  predicate NotDisabledText(s: string) {
    |s| == 39 && s[0] == 't' && s[1] == 'i' && s[2] == 't' && s[3] == 'l' && s[4] == 'e' &&
    s[5] == ' ' && s[6] == '=' && s[7] == '=' && s[8] == ' ' && s[9] == '"' && s[10] == 'f' &&
    s[11] == 'o' && s[12] == 'o' && s[13] == ' ' && s[14] == 'B' && s[15] == 'A' && s[16] == 'R' &&
    s[17] == '"' && s[18] == ' ' && s[19] == '&' && s[20] == '&' && s[21] == ' ' && s[22] == 'n' &&
    s[23] == 'o' && s[24] == 't' && s[25] == ' ' && s[26] == 'd' && s[27] == 'i' && s[28] == 's' &&
    s[29] == 'a' && s[30] == 'b' && s[31] == 'l' && s[32] == 'e' && s[33] == 'd' && s[34] == ' ' &&
    s[35] == '=' && s[36] == '=' && s[37] == ' ' && s[38] == 't'
  }

  /** The token at 0 of "title == \"foo BAR\" && not disabled == t". */
  lemma ParseNotDisabledToken0(s: string)
    requires NotDisabledText(s)
    ensures ScanAt(s, 0) == (Ident("title"), 5)
  {
    SpanIs(s, 0, 0, Space);
    SpanIs(s, 0, 5, WordChar);
    assert s[0..5] == "title";
    assert Word("title") == Ident("title");
  }

  /** The token at 5 of "title == \"foo BAR\" && not disabled == t". */
  lemma ParseNotDisabledToken5(s: string)
    requires NotDisabledText(s)
    ensures ScanAt(s, 5) == (OpSym("=="), 8)
  {
    SpanIs(s, 5, 6, Space);
    SpanIs(s, 6, 8, OpChar);
    assert s[6..8] == "==";
  }

  /** The token at 8 of "title == \"foo BAR\" && not disabled == t". */
  lemma ParseNotDisabledToken8(s: string)
    requires NotDisabledText(s)
    ensures ScanAt(s, 8) == (DoubleQuoted("foo BAR"), 18)
  {
    SpanIs(s, 8, 9, Space);
    ReadPlain(s, 10, 17);
    assert s[10..17] == "foo BAR";
  }

  /** The token at 18 of "title == \"foo BAR\" && not disabled == t". */
  lemma ParseNotDisabledToken18(s: string)
    requires NotDisabledText(s)
    ensures ScanAt(s, 18) == (LinkSym(And), 21)
  {
    SpanIs(s, 18, 19, Space);
    SpanIs(s, 19, 21, Amp);
  }

  /** The token at 21 of "title == \"foo BAR\" && not disabled == t". */
  lemma ParseNotDisabledToken21(s: string)
    requires NotDisabledText(s)
    ensures ScanAt(s, 21) == (NotKw, 25)
  {
    SpanIs(s, 21, 22, Space);
    SpanIs(s, 22, 25, WordChar);
    assert s[22..25] == "not";
    assert Word("not") == NotKw;
  }

  /** The token at 25 of "title == \"foo BAR\" && not disabled == t". */
  lemma ParseNotDisabledToken25(s: string)
    requires NotDisabledText(s)
    ensures ScanAt(s, 25) == (Ident("disabled"), 34)
  {
    SpanIs(s, 25, 26, Space);
    SpanIs(s, 26, 34, WordChar);
    assert s[26..34] == "disabled";
    assert Word("disabled") == Ident("disabled");
  }

  /** The token at 34 of "title == \"foo BAR\" && not disabled == t". */
  lemma ParseNotDisabledToken34(s: string)
    requires NotDisabledText(s)
    ensures ScanAt(s, 34) == (OpSym("=="), 37)
  {
    SpanIs(s, 34, 35, Space);
    SpanIs(s, 35, 37, OpChar);
    assert s[35..37] == "==";
  }

  /** The token at 37 of "title == \"foo BAR\" && not disabled == t". */
  lemma ParseNotDisabledToken37(s: string)
    requires NotDisabledText(s)
    ensures ScanAt(s, 37) == (Ident("t"), 39)
  {
    SpanIs(s, 37, 38, Space);
    SpanIs(s, 38, 39, WordChar);
    assert s[38..39] == "t";
    assert Word("t") == Ident("t");
  }

  /** Any text with the characters of "title == \"foo BAR\" && not disabled == t" parses to the chain the test expects. */
  lemma ParseNotDisabledFrom(s: string)
    requires NotDisabledText(s)
    ensures ParseQuery(s) == Ok([Condition("title", Eqi, "foo BAR", Literal, Eof, false), Condition("disabled", Eqi, "t", Boolean, And, true)])
  {
    ParseNotDisabledToken0(s);
    ParseNotDisabledToken5(s);
    ParseNotDisabledToken8(s);
    ParseNotDisabledToken18(s);
    ParseNotDisabledToken21(s);
    ParseNotDisabledToken25(s);
    ParseNotDisabledToken34(s);
    ParseNotDisabledToken37(s);
    ParseShortTrueType();
    ParseConditionFromTokens(s, 0, Eof, false, "title", "==", DoubleQuoted("foo BAR"), "foo BAR", Literal, 0, 5, 8, 18);
    ParseConditionFromTokens(s, 21, And, true, "disabled", "==", Ident("t"), "t", Boolean, 25, 34, 37, 39);
    ParseTwoConditions(s, Condition("title", Eqi, "foo BAR", Literal, Eof, false), 18, 21, Condition("disabled", Eqi, "t", Boolean, And, true), 39);
  }

  /** Characters 0 to 3 of "title == \"foo BAR\" && not disabled == t". */
  lemma ParseNotDisabledChars0(s: string)
    requires s == "title == \"foo BAR\" && not disabled == t"
    ensures |s| == 39 && s[0] == 't' && s[1] == 'i' && s[2] == 't' && s[3] == 'l'
  {
  }

  /** Characters 4 to 7 of "title == \"foo BAR\" && not disabled == t". */
  lemma ParseNotDisabledChars1(s: string)
    requires s == "title == \"foo BAR\" && not disabled == t"
    ensures s[4] == 'e' && s[5] == ' ' && s[6] == '=' && s[7] == '='
  {
  }

  /** Characters 8 to 11 of "title == \"foo BAR\" && not disabled == t". */
  lemma ParseNotDisabledChars2(s: string)
    requires s == "title == \"foo BAR\" && not disabled == t"
    ensures s[8] == ' ' && s[9] == '"' && s[10] == 'f' && s[11] == 'o'
  {
  }

  /** Characters 12 to 15 of "title == \"foo BAR\" && not disabled == t". */
  lemma ParseNotDisabledChars3(s: string)
    requires s == "title == \"foo BAR\" && not disabled == t"
    ensures s[12] == 'o' && s[13] == ' ' && s[14] == 'B' && s[15] == 'A'
  {
  }

  /** Characters 16 to 19 of "title == \"foo BAR\" && not disabled == t". */
  lemma ParseNotDisabledChars4(s: string)
    requires s == "title == \"foo BAR\" && not disabled == t"
    ensures s[16] == 'R' && s[17] == '"' && s[18] == ' ' && s[19] == '&'
  {
  }

  /** Characters 20 to 23 of "title == \"foo BAR\" && not disabled == t". */
  lemma ParseNotDisabledChars5(s: string)
    requires s == "title == \"foo BAR\" && not disabled == t"
    ensures s[20] == '&' && s[21] == ' ' && s[22] == 'n' && s[23] == 'o'
  {
  }

  /** Characters 24 to 27 of "title == \"foo BAR\" && not disabled == t". */
  lemma ParseNotDisabledChars6(s: string)
    requires s == "title == \"foo BAR\" && not disabled == t"
    ensures s[24] == 't' && s[25] == ' ' && s[26] == 'd' && s[27] == 'i'
  {
  }

  /** Characters 28 to 31 of "title == \"foo BAR\" && not disabled == t". */
  lemma ParseNotDisabledChars7(s: string)
    requires s == "title == \"foo BAR\" && not disabled == t"
    ensures s[28] == 's' && s[29] == 'a' && s[30] == 'b' && s[31] == 'l'
  {
  }

  /** Characters 32 to 35 of "title == \"foo BAR\" && not disabled == t". */
  lemma ParseNotDisabledChars8(s: string)
    requires s == "title == \"foo BAR\" && not disabled == t"
    ensures s[32] == 'e' && s[33] == 'd' && s[34] == ' ' && s[35] == '='
  {
  }

  /** Characters 36 to 38 of "title == \"foo BAR\" && not disabled == t". */
  lemma ParseNotDisabledChars9(s: string)
    requires s == "title == \"foo BAR\" && not disabled == t"
    ensures s[36] == '=' && s[37] == ' ' && s[38] == 't'
  {
  }

  /** thing_test.go Tests 3 and 4: `&&` joins the second condition and `not` negates it. */
  lemma ParseNotDisabled(s: string)
    requires s == "title == \"foo BAR\" && not disabled == t"
    ensures ParseQuery(s) == Ok([Condition("title", Eqi, "foo BAR", Literal, Eof, false), Condition("disabled", Eqi, "t", Boolean, And, true)])
  {
    ParseNotDisabledChars0(s);
    ParseNotDisabledChars1(s);
    ParseNotDisabledChars2(s);
    ParseNotDisabledChars3(s);
    ParseNotDisabledChars4(s);
    ParseNotDisabledChars5(s);
    ParseNotDisabledChars6(s);
    ParseNotDisabledChars7(s);
    ParseNotDisabledChars8(s);
    ParseNotDisabledChars9(s);
    ParseNotDisabledFrom(s);
  }

  /** The characters of "title == \"foo BAR\" && age > 42". */
  predicate AgeOverText(s: string) {
    |s| == 30 && s[0] == 't' && s[1] == 'i' && s[2] == 't' && s[3] == 'l' && s[4] == 'e' &&
    s[5] == ' ' && s[6] == '=' && s[7] == '=' && s[8] == ' ' && s[9] == '"' && s[10] == 'f' &&
    s[11] == 'o' && s[12] == 'o' && s[13] == ' ' && s[14] == 'B' && s[15] == 'A' && s[16] == 'R' &&
    s[17] == '"' && s[18] == ' ' && s[19] == '&' && s[20] == '&' && s[21] == ' ' && s[22] == 'a' &&
    s[23] == 'g' && s[24] == 'e' && s[25] == ' ' && s[26] == '>' && s[27] == ' ' && s[28] == '4' &&
    s[29] == '2'
  }

  /** The token at 0 of "title == \"foo BAR\" && age > 42". */
  lemma ParseAgeOverToken0(s: string)
    requires AgeOverText(s)
    ensures ScanAt(s, 0) == (Ident("title"), 5)
  {
    SpanIs(s, 0, 0, Space);
    SpanIs(s, 0, 5, WordChar);
    assert s[0..5] == "title";
    assert Word("title") == Ident("title");
  }

  /** The token at 5 of "title == \"foo BAR\" && age > 42". */
  lemma ParseAgeOverToken5(s: string)
    requires AgeOverText(s)
    ensures ScanAt(s, 5) == (OpSym("=="), 8)
  {
    SpanIs(s, 5, 6, Space);
    SpanIs(s, 6, 8, OpChar);
    assert s[6..8] == "==";
  }

  /** The token at 8 of "title == \"foo BAR\" && age > 42". */
  lemma ParseAgeOverToken8(s: string)
    requires AgeOverText(s)
    ensures ScanAt(s, 8) == (DoubleQuoted("foo BAR"), 18)
  {
    SpanIs(s, 8, 9, Space);
    ReadPlain(s, 10, 17);
    assert s[10..17] == "foo BAR";
  }

  /** The token at 18 of "title == \"foo BAR\" && age > 42". */
  lemma ParseAgeOverToken18(s: string)
    requires AgeOverText(s)
    ensures ScanAt(s, 18) == (LinkSym(And), 21)
  {
    SpanIs(s, 18, 19, Space);
    SpanIs(s, 19, 21, Amp);
  }

  /** The token at 21 of "title == \"foo BAR\" && age > 42". */
  lemma ParseAgeOverToken21(s: string)
    requires AgeOverText(s)
    ensures ScanAt(s, 21) == (Ident("age"), 25)
  {
    SpanIs(s, 21, 22, Space);
    SpanIs(s, 22, 25, WordChar);
    assert s[22..25] == "age";
    assert Word("age") == Ident("age");
  }

  /** The token at 25 of "title == \"foo BAR\" && age > 42". */
  lemma ParseAgeOverToken25(s: string)
    requires AgeOverText(s)
    ensures ScanAt(s, 25) == (OpSym(">"), 27)
  {
    SpanIs(s, 25, 26, Space);
    SpanIs(s, 26, 27, OpChar);
    assert s[26..27] == ">";
  }

  /** The token at 27 of "title == \"foo BAR\" && age > 42". */
  lemma ParseAgeOverToken27(s: string)
    requires AgeOverText(s)
    ensures ScanAt(s, 27) == (Number("42"), 30)
  {
    SpanIs(s, 27, 28, Space);
    SpanIs(s, 28, 30, Digit);
    assert NumberEnd(s, 28) == 30;
    assert s[28..30] == "42";
  }

  /** Any text with the characters of "title == \"foo BAR\" && age > 42" parses to the chain the test expects. */
  lemma ParseAgeOverFrom(s: string)
    requires AgeOverText(s)
    ensures ParseQuery(s) == Ok([Condition("title", Eqi, "foo BAR", Literal, Eof, false), Condition("age", Gt, "42", Integer, And, false)])
  {
    ParseAgeOverToken0(s);
    ParseAgeOverToken5(s);
    ParseAgeOverToken8(s);
    ParseAgeOverToken18(s);
    ParseAgeOverToken21(s);
    ParseAgeOverToken25(s);
    ParseAgeOverToken27(s);
    ParseIntegerType();
    ParseConditionFromTokens(s, 0, Eof, false, "title", "==", DoubleQuoted("foo BAR"), "foo BAR", Literal, 0, 5, 8, 18);
    ParseConditionFromTokens(s, 21, And, false, "age", ">", Number("42"), "42", Integer, 0, 25, 27, 30);
    ParseTwoConditions(s, Condition("title", Eqi, "foo BAR", Literal, Eof, false), 18, 21, Condition("age", Gt, "42", Integer, And, false), 30);
  }

  /** Characters 0 to 3 of "title == \"foo BAR\" && age > 42". */
  lemma ParseAgeOverChars0(s: string)
    requires s == "title == \"foo BAR\" && age > 42"
    ensures |s| == 30 && s[0] == 't' && s[1] == 'i' && s[2] == 't' && s[3] == 'l'
  {
  }

  /** Characters 4 to 7 of "title == \"foo BAR\" && age > 42". */
  lemma ParseAgeOverChars1(s: string)
    requires s == "title == \"foo BAR\" && age > 42"
    ensures s[4] == 'e' && s[5] == ' ' && s[6] == '=' && s[7] == '='
  {
  }

  /** Characters 8 to 11 of "title == \"foo BAR\" && age > 42". */
  lemma ParseAgeOverChars2(s: string)
    requires s == "title == \"foo BAR\" && age > 42"
    ensures s[8] == ' ' && s[9] == '"' && s[10] == 'f' && s[11] == 'o'
  {
  }

  /** Characters 12 to 15 of "title == \"foo BAR\" && age > 42". */
  lemma ParseAgeOverChars3(s: string)
    requires s == "title == \"foo BAR\" && age > 42"
    ensures s[12] == 'o' && s[13] == ' ' && s[14] == 'B' && s[15] == 'A'
  {
  }

  /** Characters 16 to 19 of "title == \"foo BAR\" && age > 42". */
  lemma ParseAgeOverChars4(s: string)
    requires s == "title == \"foo BAR\" && age > 42"
    ensures s[16] == 'R' && s[17] == '"' && s[18] == ' ' && s[19] == '&'
  {
  }

  /** Characters 20 to 23 of "title == \"foo BAR\" && age > 42". */
  lemma ParseAgeOverChars5(s: string)
    requires s == "title == \"foo BAR\" && age > 42"
    ensures s[20] == '&' && s[21] == ' ' && s[22] == 'a' && s[23] == 'g'
  {
  }

  /** Characters 24 to 27 of "title == \"foo BAR\" && age > 42". */
  lemma ParseAgeOverChars6(s: string)
    requires s == "title == \"foo BAR\" && age > 42"
    ensures s[24] == 'e' && s[25] == ' ' && s[26] == '>' && s[27] == ' '
  {
  }

  /** Characters 28 to 29 of "title == \"foo BAR\" && age > 42". */
  lemma ParseAgeOverChars7(s: string)
    requires s == "title == \"foo BAR\" && age > 42"
    ensures s[28] == '4' && s[29] == '2'
  {
  }

  /** thing_test.go Tests 5 and 6: an ordering on an INTEGER. */
  lemma ParseAgeOver(s: string)
    requires s == "title == \"foo BAR\" && age > 42"
    ensures ParseQuery(s) == Ok([Condition("title", Eqi, "foo BAR", Literal, Eof, false), Condition("age", Gt, "42", Integer, And, false)])
  {
    ParseAgeOverChars0(s);
    ParseAgeOverChars1(s);
    ParseAgeOverChars2(s);
    ParseAgeOverChars3(s);
    ParseAgeOverChars4(s);
    ParseAgeOverChars5(s);
    ParseAgeOverChars6(s);
    ParseAgeOverChars7(s);
    ParseAgeOverFrom(s);
  }

  /** The characters of "title == \"foo BAR\" && date > '2008-01-02'". */
  predicate DateAfterText(s: string) {
    |s| == 41 && s[0] == 't' && s[1] == 'i' && s[2] == 't' && s[3] == 'l' && s[4] == 'e' &&
    s[5] == ' ' && s[6] == '=' && s[7] == '=' && s[8] == ' ' && s[9] == '"' && s[10] == 'f' &&
    s[11] == 'o' && s[12] == 'o' && s[13] == ' ' && s[14] == 'B' && s[15] == 'A' && s[16] == 'R' &&
    s[17] == '"' && s[18] == ' ' && s[19] == '&' && s[20] == '&' && s[21] == ' ' && s[22] == 'd' &&
    s[23] == 'a' && s[24] == 't' && s[25] == 'e' && s[26] == ' ' && s[27] == '>' && s[28] == ' ' &&
    s[29] == '\'' && s[30] == '2' && s[31] == '0' && s[32] == '0' && s[33] == '8' &&
    s[34] == '-' && s[35] == '0' && s[36] == '1' && s[37] == '-' && s[38] == '0' && s[39] == '2' &&
    s[40] == '\''
  }

  /** The token at 0 of "title == \"foo BAR\" && date > '2008-01-02'". */
  lemma ParseDateAfterToken0(s: string)
    requires DateAfterText(s)
    ensures ScanAt(s, 0) == (Ident("title"), 5)
  {
    SpanIs(s, 0, 0, Space);
    SpanIs(s, 0, 5, WordChar);
    assert s[0..5] == "title";
    assert Word("title") == Ident("title");
  }

  /** The token at 5 of "title == \"foo BAR\" && date > '2008-01-02'". */
  lemma ParseDateAfterToken5(s: string)
    requires DateAfterText(s)
    ensures ScanAt(s, 5) == (OpSym("=="), 8)
  {
    SpanIs(s, 5, 6, Space);
    SpanIs(s, 6, 8, OpChar);
    assert s[6..8] == "==";
  }

  /** The token at 8 of "title == \"foo BAR\" && date > '2008-01-02'". */
  lemma ParseDateAfterToken8(s: string)
    requires DateAfterText(s)
    ensures ScanAt(s, 8) == (DoubleQuoted("foo BAR"), 18)
  {
    SpanIs(s, 8, 9, Space);
    ReadPlain(s, 10, 17);
    assert s[10..17] == "foo BAR";
  }

  /** The token at 18 of "title == \"foo BAR\" && date > '2008-01-02'". */
  lemma ParseDateAfterToken18(s: string)
    requires DateAfterText(s)
    ensures ScanAt(s, 18) == (LinkSym(And), 21)
  {
    SpanIs(s, 18, 19, Space);
    SpanIs(s, 19, 21, Amp);
  }

  /** The token at 21 of "title == \"foo BAR\" && date > '2008-01-02'". */
  lemma ParseDateAfterToken21(s: string)
    requires DateAfterText(s)
    ensures ScanAt(s, 21) == (Ident("date"), 26)
  {
    SpanIs(s, 21, 22, Space);
    SpanIs(s, 22, 26, WordChar);
    assert s[22..26] == "date";
    assert Word("date") == Ident("date");
  }

  /** The token at 26 of "title == \"foo BAR\" && date > '2008-01-02'". */
  lemma ParseDateAfterToken26(s: string)
    requires DateAfterText(s)
    ensures ScanAt(s, 26) == (OpSym(">"), 28)
  {
    SpanIs(s, 26, 27, Space);
    SpanIs(s, 27, 28, OpChar);
    assert s[27..28] == ">";
  }

  /** The token at 28 of "title == \"foo BAR\" && date > '2008-01-02'". */
  lemma ParseDateAfterToken28(s: string)
    requires DateAfterText(s)
    ensures ScanAt(s, 28) == (SingleQuoted("2008-01-02"), 41)
  {
    SpanIs(s, 28, 29, Space);
    SpanIs(s, 30, 40, NotSingleQuote);
    assert s[30..40] == "2008-01-02";
  }

  /** Any text with the characters of "title == \"foo BAR\" && date > '2008-01-02'" parses to the chain the test expects. */
  lemma ParseDateAfterFrom(s: string)
    requires DateAfterText(s)
    ensures ParseQuery(s) == Ok([Condition("title", Eqi, "foo BAR", Literal, Eof, false), Condition("date", Gt, "2008-01-02", Time, And, false)])
  {
    ParseDateAfterToken0(s);
    ParseDateAfterToken5(s);
    ParseDateAfterToken8(s);
    ParseDateAfterToken18(s);
    ParseDateAfterToken21(s);
    ParseDateAfterToken26(s);
    ParseDateAfterToken28(s);
    ParseConditionFromTokens(s, 0, Eof, false, "title", "==", DoubleQuoted("foo BAR"), "foo BAR", Literal, 0, 5, 8, 18);
    ParseConditionFromTokens(s, 21, And, false, "date", ">", SingleQuoted("2008-01-02"), "2008-01-02", Time, 0, 26, 28, 41);
    ParseTwoConditions(s, Condition("title", Eqi, "foo BAR", Literal, Eof, false), 18, 21, Condition("date", Gt, "2008-01-02", Time, And, false), 41);
  }

  /** Characters 0 to 3 of "title == \"foo BAR\" && date > '2008-01-02'". */
  lemma ParseDateAfterChars0(s: string)
    requires s == "title == \"foo BAR\" && date > '2008-01-02'"
    ensures |s| == 41 && s[0] == 't' && s[1] == 'i' && s[2] == 't' && s[3] == 'l'
  {
  }

  /** Characters 4 to 7 of "title == \"foo BAR\" && date > '2008-01-02'". */
  lemma ParseDateAfterChars1(s: string)
    requires s == "title == \"foo BAR\" && date > '2008-01-02'"
    ensures s[4] == 'e' && s[5] == ' ' && s[6] == '=' && s[7] == '='
  {
  }

  /** Characters 8 to 11 of "title == \"foo BAR\" && date > '2008-01-02'". */
  lemma ParseDateAfterChars2(s: string)
    requires s == "title == \"foo BAR\" && date > '2008-01-02'"
    ensures s[8] == ' ' && s[9] == '"' && s[10] == 'f' && s[11] == 'o'
  {
  }

  /** Characters 12 to 15 of "title == \"foo BAR\" && date > '2008-01-02'". */
  lemma ParseDateAfterChars3(s: string)
    requires s == "title == \"foo BAR\" && date > '2008-01-02'"
    ensures s[12] == 'o' && s[13] == ' ' && s[14] == 'B' && s[15] == 'A'
  {
  }

  /** Characters 16 to 19 of "title == \"foo BAR\" && date > '2008-01-02'". */
  lemma ParseDateAfterChars4(s: string)
    requires s == "title == \"foo BAR\" && date > '2008-01-02'"
    ensures s[16] == 'R' && s[17] == '"' && s[18] == ' ' && s[19] == '&'
  {
  }

  /** Characters 20 to 23 of "title == \"foo BAR\" && date > '2008-01-02'". */
  lemma ParseDateAfterChars5(s: string)
    requires s == "title == \"foo BAR\" && date > '2008-01-02'"
    ensures s[20] == '&' && s[21] == ' ' && s[22] == 'd' && s[23] == 'a'
  {
  }

  /** Characters 24 to 27 of "title == \"foo BAR\" && date > '2008-01-02'". */
  lemma ParseDateAfterChars6(s: string)
    requires s == "title == \"foo BAR\" && date > '2008-01-02'"
    ensures s[24] == 't' && s[25] == 'e' && s[26] == ' ' && s[27] == '>'
  {
  }

  /** Characters 28 to 31 of "title == \"foo BAR\" && date > '2008-01-02'". */
  lemma ParseDateAfterChars7(s: string)
    requires s == "title == \"foo BAR\" && date > '2008-01-02'"
    ensures s[28] == ' ' && s[29] == '\'' && s[30] == '2' && s[31] == '0'
  {
  }

  /** Characters 32 to 35 of "title == \"foo BAR\" && date > '2008-01-02'". */
  lemma ParseDateAfterChars8(s: string)
    requires s == "title == \"foo BAR\" && date > '2008-01-02'"
    ensures s[32] == '0' && s[33] == '8' && s[34] == '-' && s[35] == '0'
  {
  }

  /** Characters 36 to 39 of "title == \"foo BAR\" && date > '2008-01-02'". */
  lemma ParseDateAfterChars9(s: string)
    requires s == "title == \"foo BAR\" && date > '2008-01-02'"
    ensures s[36] == '1' && s[37] == '-' && s[38] == '0' && s[39] == '2'
  {
  }

  /** Characters 40 to 40 of "title == \"foo BAR\" && date > '2008-01-02'". */
  lemma ParseDateAfterChars10(s: string)
    requires s == "title == \"foo BAR\" && date > '2008-01-02'"
    ensures s[40] == '\''
  {
  }

  /** thing_test.go Test 7: an ordering on a TIME. */
  lemma ParseDateAfter(s: string)
    requires s == "title == \"foo BAR\" && date > '2008-01-02'"
    ensures ParseQuery(s) == Ok([Condition("title", Eqi, "foo BAR", Literal, Eof, false), Condition("date", Gt, "2008-01-02", Time, And, false)])
  {
    ParseDateAfterChars0(s);
    ParseDateAfterChars1(s);
    ParseDateAfterChars2(s);
    ParseDateAfterChars3(s);
    ParseDateAfterChars4(s);
    ParseDateAfterChars5(s);
    ParseDateAfterChars6(s);
    ParseDateAfterChars7(s);
    ParseDateAfterChars8(s);
    ParseDateAfterChars9(s);
    ParseDateAfterChars10(s);
    ParseDateAfterFrom(s);
  }

  /** The characters of "Title == \"foo bar\" & Age < 43". */
  predicate StructQueryText(s: string) {
    |s| == 29 && s[0] == 'T' && s[1] == 'i' && s[2] == 't' && s[3] == 'l' && s[4] == 'e' &&
    s[5] == ' ' && s[6] == '=' && s[7] == '=' && s[8] == ' ' && s[9] == '"' && s[10] == 'f' &&
    s[11] == 'o' && s[12] == 'o' && s[13] == ' ' && s[14] == 'b' && s[15] == 'a' && s[16] == 'r' &&
    s[17] == '"' && s[18] == ' ' && s[19] == '&' && s[20] == ' ' && s[21] == 'A' && s[22] == 'g' &&
    s[23] == 'e' && s[24] == ' ' && s[25] == '<' && s[26] == ' ' && s[27] == '4' && s[28] == '3'
  }

  /** The token at 0 of "Title == \"foo bar\" & Age < 43". */
  lemma ParseStructQueryToken0(s: string)
    requires StructQueryText(s)
    ensures ScanAt(s, 0) == (Ident("Title"), 5)
  {
    SpanIs(s, 0, 0, Space);
    SpanIs(s, 0, 5, WordChar);
    assert s[0..5] == "Title";
    assert Word("Title") == Ident("Title");
  }

  /** The token at 5 of "Title == \"foo bar\" & Age < 43". */
  lemma ParseStructQueryToken5(s: string)
    requires StructQueryText(s)
    ensures ScanAt(s, 5) == (OpSym("=="), 8)
  {
    SpanIs(s, 5, 6, Space);
    SpanIs(s, 6, 8, OpChar);
    assert s[6..8] == "==";
  }

  /** The token at 8 of "Title == \"foo bar\" & Age < 43". */
  lemma ParseStructQueryToken8(s: string)
    requires StructQueryText(s)
    ensures ScanAt(s, 8) == (DoubleQuoted("foo bar"), 18)
  {
    SpanIs(s, 8, 9, Space);
    ReadPlain(s, 10, 17);
    assert s[10..17] == "foo bar";
  }

  /** The token at 18 of "Title == \"foo bar\" & Age < 43". */
  lemma ParseStructQueryToken18(s: string)
    requires StructQueryText(s)
    ensures ScanAt(s, 18) == (LinkSym(And), 20)
  {
    SpanIs(s, 18, 19, Space);
    SpanIs(s, 19, 20, Amp);
  }

  /** The token at 20 of "Title == \"foo bar\" & Age < 43". */
  lemma ParseStructQueryToken20(s: string)
    requires StructQueryText(s)
    ensures ScanAt(s, 20) == (Ident("Age"), 24)
  {
    SpanIs(s, 20, 21, Space);
    SpanIs(s, 21, 24, WordChar);
    assert s[21..24] == "Age";
    assert Word("Age") == Ident("Age");
  }

  /** The token at 24 of "Title == \"foo bar\" & Age < 43". */
  lemma ParseStructQueryToken24(s: string)
    requires StructQueryText(s)
    ensures ScanAt(s, 24) == (OpSym("<"), 26)
  {
    SpanIs(s, 24, 25, Space);
    SpanIs(s, 25, 26, OpChar);
    assert s[25..26] == "<";
  }

  /** The token at 26 of "Title == \"foo bar\" & Age < 43". */
  lemma ParseStructQueryToken26(s: string)
    requires StructQueryText(s)
    ensures ScanAt(s, 26) == (Number("43"), 29)
  {
    SpanIs(s, 26, 27, Space);
    SpanIs(s, 27, 29, Digit);
    assert NumberEnd(s, 27) == 29;
    assert s[27..29] == "43";
  }

  /** Any text with the characters of "Title == \"foo bar\" & Age < 43" parses to the chain the test expects. */
  lemma ParseStructQueryFrom(s: string)
    requires StructQueryText(s)
    ensures ParseQuery(s) == Ok([Condition("Title", Eqi, "foo bar", Literal, Eof, false), Condition("Age", Lt, "43", Integer, And, false)])
  {
    ParseStructQueryToken0(s);
    ParseStructQueryToken5(s);
    ParseStructQueryToken8(s);
    ParseStructQueryToken18(s);
    ParseStructQueryToken20(s);
    ParseStructQueryToken24(s);
    ParseStructQueryToken26(s);
    FortyThreeIsInteger();
    ParseConditionFromTokens(s, 0, Eof, false, "Title", "==", DoubleQuoted("foo bar"), "foo bar", Literal, 0, 5, 8, 18);
    ParseConditionFromTokens(s, 20, And, false, "Age", "<", Number("43"), "43", Integer, 0, 24, 26, 29);
    ParseTwoConditions(s, Condition("Title", Eqi, "foo bar", Literal, Eof, false), 18, 20, Condition("Age", Lt, "43", Integer, And, false), 29);
  }

  /** Characters 0 to 3 of "Title == \"foo bar\" & Age < 43". */
  lemma ParseStructQueryChars0(s: string)
    requires s == "Title == \"foo bar\" & Age < 43"
    ensures |s| == 29 && s[0] == 'T' && s[1] == 'i' && s[2] == 't' && s[3] == 'l'
  {
  }

  /** Characters 4 to 7 of "Title == \"foo bar\" & Age < 43". */
  lemma ParseStructQueryChars1(s: string)
    requires s == "Title == \"foo bar\" & Age < 43"
    ensures s[4] == 'e' && s[5] == ' ' && s[6] == '=' && s[7] == '='
  {
  }

  /** Characters 8 to 11 of "Title == \"foo bar\" & Age < 43". */
  lemma ParseStructQueryChars2(s: string)
    requires s == "Title == \"foo bar\" & Age < 43"
    ensures s[8] == ' ' && s[9] == '"' && s[10] == 'f' && s[11] == 'o'
  {
  }

  /** Characters 12 to 15 of "Title == \"foo bar\" & Age < 43". */
  lemma ParseStructQueryChars3(s: string)
    requires s == "Title == \"foo bar\" & Age < 43"
    ensures s[12] == 'o' && s[13] == ' ' && s[14] == 'b' && s[15] == 'a'
  {
  }

  /** Characters 16 to 19 of "Title == \"foo bar\" & Age < 43". */
  lemma ParseStructQueryChars4(s: string)
    requires s == "Title == \"foo bar\" & Age < 43"
    ensures s[16] == 'r' && s[17] == '"' && s[18] == ' ' && s[19] == '&'
  {
  }

  /** Characters 20 to 23 of "Title == \"foo bar\" & Age < 43". */
  lemma ParseStructQueryChars5(s: string)
    requires s == "Title == \"foo bar\" & Age < 43"
    ensures s[20] == ' ' && s[21] == 'A' && s[22] == 'g' && s[23] == 'e'
  {
  }

  /** Characters 24 to 27 of "Title == \"foo bar\" & Age < 43". */
  lemma ParseStructQueryChars6(s: string)
    requires s == "Title == \"foo bar\" & Age < 43"
    ensures s[24] == ' ' && s[25] == '<' && s[26] == ' ' && s[27] == '4'
  {
  }

  /** Characters 28 to 28 of "Title == \"foo bar\" & Age < 43". */
  lemma ParseStructQueryChars7(s: string)
    requires s == "Title == \"foo bar\" & Age < 43"
    ensures s[28] == '3'
  {
  }

  /** thing_test.go, the struct test: the field names are capitalised like the struct fields. */
  lemma ParseStructQuery(s: string)
    requires s == "Title == \"foo bar\" & Age < 43"
    ensures ParseQuery(s) == Ok([Condition("Title", Eqi, "foo bar", Literal, Eof, false), Condition("Age", Lt, "43", Integer, And, false)])
  {
    ParseStructQueryChars0(s);
    ParseStructQueryChars1(s);
    ParseStructQueryChars2(s);
    ParseStructQueryChars3(s);
    ParseStructQueryChars4(s);
    ParseStructQueryChars5(s);
    ParseStructQueryChars6(s);
    ParseStructQueryChars7(s);
    ParseStructQueryFrom(s);
  }

  // The evaluator tests: parse, register the layout `2006-01-02`, check one record.

  /** The layout every evaluator test registers before checking its record. */
  const IsoLayout := "2006-01-02"

  /** What a map test observes for `query` and the map `m`: the parse error, or
      the verdict of the parsed chain once IsoLayout is registered. */
  function MapVerdict(query: string, m: map<string, Value>): Result<Result<bool, EvalError>, ParseError> {
    match ParseQuery(query)
    case Err(e) => Err(e)
    case Ok(cs) => Ok(Evaluate(cs, [IsoLayout], MapRecord(m)))
  }

  /** The same for a struct test, the struct given as its fields by name. */
  function StructVerdict(query: string, fields: map<string, Value>): Result<Result<bool, EvalError>, ParseError> {
    match ParseQuery(query)
    case Err(e) => Err(e)
    case Ok(cs) => Ok(Evaluate(cs, [IsoLayout], StructRecord(fields)))
  }

  /** The steps of a parser test: a parser over the query, then Parse; the chain's conditions. */
  method ParseCase(query: string) returns (r: Result<seq<Condition>, ParseError>)
    ensures r == ParseQuery(query)
  {
    var p := new Parser(query);
    var parsed := p.Parse();
    if parsed.Err? {
      return Err(parsed.error);
    }
    return Ok(parsed.value.things);
  }

  /** The steps of a map test: a parser over the query, Parse, AddDateFormat, CheckMap. */
  method CheckMapCase(query: string, m: map<string, Value>) returns (r: Result<Result<bool, EvalError>, ParseError>)
    ensures r == MapVerdict(query, m)
  {
    var p := new Parser(query);
    var parsed := p.Parse();
    if parsed.Err? {
      return Err(parsed.error);
    }
    var chain := parsed.value;
    chain.AddDateFormat(IsoLayout);
    assert chain.formats == [IsoLayout];
    var got := chain.CheckMap(m);
    return Ok(got);
  }

  /** The steps of a struct test: a parser over the query, Parse, AddDateFormat, CheckStruct. */
  method CheckStructCase(query: string, fields: map<string, Value>) returns (r: Result<Result<bool, EvalError>, ParseError>)
    ensures r == StructVerdict(query, fields)
  {
    var p := new Parser(query);
    var parsed := p.Parse();
    if parsed.Err? {
      return Err(parsed.error);
    }
    var chain := parsed.value;
    chain.AddDateFormat(IsoLayout);
    assert chain.formats == [IsoLayout];
    var got := chain.CheckStruct(fields);
    return Ok(got);
  }

  /** A chain of two conditions combines their outcomes by the second one's link. */
  lemma EvaluateTwo(a: Condition, b: Condition, formats: seq<string>, rec: Record, x: bool, y: bool)
    requires a.link == Eof && b.link != Eof
    requires EvalCondition(a, formats, rec) == Ok(x) && EvalCondition(b, formats, rec) == Ok(y)
    ensures Evaluate([a, b], formats, rec) == Ok(Combine(x, b.link, y))
  {
    var cs := [a, b];
    var rs := Outcomes(cs, formats, rec);
    assert rs[0] == Ok(x) && rs[1] == Ok(y);
    assert cs[..1] == [a] && rs[..1] == [rs[0]];
    assert Fold(cs[..1], rs[..1]) == Ok(x);
  }

  /** `title == "foo BAR"` holds for a title `foo bar`: equality ignores case. */
  lemma FooBarMatches(formats: seq<string>, rec: Record)
    requires Resolve(rec, "title") == Some(Str("foo bar"))
    ensures EvalCondition(Condition("title", Eqi, "foo BAR", Literal, Eof, false), formats, rec) == Ok(true)
  {
    assert EqualFold("foo bar", "foo BAR");
  }

  /** `title === "foo BAR"` never holds once the field is there. */
  lemma TripleEqualsFails(formats: seq<string>, rec: Record)
    requires Resolve(rec, "title").Some?
    ensures EvalCondition(Condition("title", Unsupported, "foo BAR", Literal, Eof, false), formats, rec) == Ok(false)
  {
  }

  /** `not disabled == t` holds exactly when `disabled` is false. */
  lemma NotDisabledOutcome(formats: seq<string>, rec: Record, b: bool)
    requires Resolve(rec, "disabled") == Some(Bool(b))
    ensures EvalCondition(Condition("disabled", Eqi, "t", Boolean, And, true), formats, rec) == Ok(!b)
  {
    assert ParseBool("t") == Some(true);
  }

  /** `age > 42` on an integer field. */
  lemma AgeOverOutcome(formats: seq<string>, rec: Record, n: int)
    requires Resolve(rec, "age") == Some(Int(n))
    ensures EvalCondition(Condition("age", Gt, "42", Integer, And, false), formats, rec) == Ok(n > 42)
  {
    assert Unsigned("42") == "42" && "42"[..1] == "4" && "4"[..0] == [];
    assert DigitsValue("42") == 42;
    assert ParseNumber("42") == Some(42.0);
  }

  /** `Age < 43` on an integer field. */
  lemma AgeUnderOutcome(formats: seq<string>, rec: Record, n: int)
    requires Resolve(rec, "Age") == Some(Int(n))
    ensures EvalCondition(Condition("Age", Lt, "43", Integer, And, false), formats, rec) == Ok(n < 43)
  {
    assert Unsigned("43") == "43" && "43"[..1] == "4" && "4"[..0] == [];
    assert DigitsValue("43") == 43;
    assert ParseNumber("43") == Some(43.0);
  }

  /** `Title == "foo bar"` holds for a title `foo bar`. */
  lemma StructTitleMatches(formats: seq<string>, rec: Record)
    requires Resolve(rec, "Title") == Some(Str("foo bar"))
    ensures EvalCondition(Condition("Title", Eqi, "foo bar", Literal, Eof, false), formats, rec) == Ok(true)
  {
    assert EqualFold("foo bar", "foo bar");
  }

  /** The steps the layout `2006-01-02` is read in. */
  lemma IsoLayoutElements()
    ensures NextElement("2006-01-02") == (Year, 4) && NextElement("-01-02") == (Char('-'), 1)
    ensures NextElement("01-02") == (Month, 2) && NextElement("-02") == (Char('-'), 1)
    ensures NextElement("02") == (Day, 2)
  {
    assert "2006-01-02"[..4] == "2006";
    assert "-01-02"[..2][0] == '-' && "-02"[..2][0] == '-';
    assert "01-02"[..2] == "01";
    assert "02"[..2] == "02" && "02"[1] == '2';
  }

  lemma SampleDigitValues()
    ensures DigitsValue("2008") == 2008 && DigitsValue("01") == 1 && DigitsValue("02") == 2
  {
    assert "2008"[..3] == "200" && "200"[..2] == "20" && "20"[..1] == "2" && "2"[..0] == "";
    assert "01"[..1] == "0" && "02"[..1] == "0" && "0"[..0] == "";
  }

  lemma ReadSampleDay()
    ensures ParseLayout("02", "02", Date(2008, 1, 1)) == Some(Date(2008, 1, 2))
  {
    IsoLayoutElements();
    SampleDigitValues();
    assert "02"[..2] == "02" && "02"[2..] == "";
  }

  lemma ReadSampleDashDay()
    ensures ParseLayout("-02", "-02", Date(2008, 1, 1)) == Some(Date(2008, 1, 2))
  {
    IsoLayoutElements();
    ReadSampleDay();
    assert "-02"[1..] == "02";
  }

  lemma ReadSampleMonthDay()
    ensures ParseLayout("01-02", "01-02", Date(2008, 1, 1)) == Some(Date(2008, 1, 2))
  {
    IsoLayoutElements();
    SampleDigitValues();
    ReadSampleDashDay();
    assert "01-02"[..2] == "01" && "01-02"[2..] == "-02";
  }

  lemma ReadSampleDashMonthDay()
    ensures ParseLayout("-01-02", "-01-02", Date(2008, 1, 1)) == Some(Date(2008, 1, 2))
  {
    IsoLayoutElements();
    ReadSampleMonthDay();
    assert "-01-02"[1..] == "01-02";
  }

  lemma ReadSampleYear()
    ensures FixedDigits("2008-01-02", 4) == Some(2008)
  {
    SampleDigitValues();
    assert "2008-01-02"[..4] == "2008";
  }

  lemma ReadSampleDate(layout: string, text: string)
    requires layout == "2006-01-02" && text == "2008-01-02"
    ensures ParseLayout(layout, text, Date(0, 1, 1)) == Some(Date(2008, 1, 2))
  {
    assert layout[..4] == "2006";
    ReadSampleYear();
    YearStep(layout, text, Date(0, 1, 1), 2008);
    var l4, t4 := layout[4..], text[4..];
    assert l4 == "-01-02";
    assert t4 == "-01-02";
    ReadSampleDashMonthDay();
  }

  /** A layout that starts with the year reads four digits and goes on after them. */
  lemma YearStep(layout: string, text: string, acc: Date, y: nat)
    requires |layout| > 0 && NextElement(layout).0 == Year && FixedDigits(text, 4) == Some(y)
    ensures ParseLayout(layout, text, acc) == ParseLayout(layout[4..], text[4..], acc.(year := y))
  {
  }

  /** With IsoLayout registered, `2008-01-02` is the second of January 2008. */
  lemma IsoDateSample()
    ensures ParseDate([IsoLayout], "2008-01-02") == Some(Date(2008, 1, 2))
  {
    ReadSampleDate(IsoLayout, "2008-01-02");
    assert ValidDate(Date(2008, 1, 2));
  }

  /** A `>` condition on a TIME holds exactly when the literal's date is before the field's. */
  lemma LaterThan(c: Condition, formats: seq<string>, rec: Record, lit: Date, d: Date)
    requires c.op == Gt && c.exprType == Time && !c.negated
    requires Resolve(rec, c.key) == Some(Stamp(d)) && ParseDate(formats, c.expr) == Some(lit)
    ensures EvalCondition(c, formats, rec) == Ok(Before(lit, d))
  {
    BeforeIsStrictTotalOrder(d, lit, d);
  }

  /** `date > '2008-01-02'` holds for the dates after the second of January 2008. */
  lemma DateAfterOutcome(rec: Record, d: Date)
    requires Resolve(rec, "date") == Some(Stamp(d))
    ensures EvalCondition(Condition("date", Gt, "2008-01-02", Time, And, false), [IsoLayout], rec) ==
            Ok(Before(Date(2008, 1, 2), d))
  {
    IsoDateSample();
    LaterThan(Condition("date", Gt, "2008-01-02", Time, And, false), [IsoLayout], rec, Date(2008, 1, 2), d);
  }

  /** thing_test.go Test 1: `title == "foo BAR"` holds for the map whose title is `foo bar`. */
  lemma MapTitleMatches(s: string)
    requires s == "title == \"foo BAR\""
    ensures MapVerdict(s, map["title" := Str("foo bar")]) == Ok(Ok(true))
  {
    ParseFooBar(s);
    var rec := MapRecord(map["title" := Str("foo bar")]);
    FooBarMatches([IsoLayout], rec);
  }

  /** thing_test.go Test 2: `title === "foo BAR"` parses, and is false without an error. */
  lemma MapTripleEquals(s: string)
    requires s == "title === \"foo BAR\""
    ensures MapVerdict(s, map["title" := Str("foo bar")]) == Ok(Ok(false))
  {
    ParseTripleEquals(s);
    var rec := MapRecord(map["title" := Str("foo bar")]);
    TripleEqualsFails([IsoLayout], rec);
  }

  /** thing_test.go Tests 3 and 4: `title == "foo BAR" && not disabled == t` holds
      exactly when `disabled` is false (Test 3: false gives true; Test 4: true gives false). */
  lemma MapNotDisabled(s: string, b: bool)
    requires s == "title == \"foo BAR\" && not disabled == t"
    ensures MapVerdict(s, map["title" := Str("foo bar"), "disabled" := Bool(b)]) == Ok(Ok(!b))
  {
    ParseNotDisabled(s);
    var rec := MapRecord(map["title" := Str("foo bar"), "disabled" := Bool(b)]);
    FooBarMatches([IsoLayout], rec);
    NotDisabledOutcome([IsoLayout], rec, b);
    EvaluateTwo(Condition("title", Eqi, "foo BAR", Literal, Eof, false), Condition("disabled", Eqi, "t", Boolean, And, true), [IsoLayout], rec, true, !b);
  }

  /** thing_test.go Tests 5 and 6: `title == "foo BAR" && age > 42` holds exactly
      when the age is over 42 (Test 5: 43 gives true; Test 6: 39 gives false). */
  lemma MapAgeOver(s: string, n: int)
    requires s == "title == \"foo BAR\" && age > 42"
    ensures MapVerdict(s, map["title" := Str("foo bar"), "age" := Int(n)]) == Ok(Ok(n > 42))
  {
    ParseAgeOver(s);
    var rec := MapRecord(map["title" := Str("foo bar"), "age" := Int(n)]);
    FooBarMatches([IsoLayout], rec);
    AgeOverOutcome([IsoLayout], rec, n);
    EvaluateTwo(Condition("title", Eqi, "foo BAR", Literal, Eof, false), Condition("age", Gt, "42", Integer, And, false), [IsoLayout], rec, true, n > 42);
  }

  /** thing_test.go Test 7: `title == "foo BAR" && date > '2008-01-02'` holds exactly
      for the dates after the second of January 2008. */
  lemma MapDateAfter(s: string, d: Date)
    requires s == "title == \"foo BAR\" && date > '2008-01-02'"
    ensures MapVerdict(s, map["title" := Str("foo bar"), "date" := Stamp(d)]) == Ok(Ok(Before(Date(2008, 1, 2), d)))
  {
    ParseDateAfter(s);
    var rec := MapRecord(map["title" := Str("foo bar"), "date" := Stamp(d)]);
    FooBarMatches([IsoLayout], rec);
    DateAfterOutcome(rec, d);
    EvaluateTwo(Condition("title", Eqi, "foo BAR", Literal, Eof, false), Condition("date", Gt, "2008-01-02", Time, And, false), [IsoLayout], rec, true, Before(Date(2008, 1, 2), d));
  }

  /** thing_test.go Test 7 with its own date, the first of January 2010: the verdict is true. */
  lemma MapDateAfterSample(s: string)
    requires s == "title == \"foo BAR\" && date > '2008-01-02'"
    ensures MapVerdict(s, map["title" := Str("foo bar"), "date" := Stamp(Date(2010, 1, 1))]) == Ok(Ok(true))
  {
    MapDateAfter(s, Date(2010, 1, 1));
  }

  /** thing_test.go, the struct test: `Title == "foo bar" & Age < 43` holds for a struct
      titled `foo bar` exactly when its age is under 43 (the test's 42 gives true). */
  lemma StructTitleAndAge(s: string, n: int)
    requires s == "Title == \"foo bar\" & Age < 43"
    ensures StructVerdict(s, map["Title" := Str("foo bar"), "Age" := Int(n)]) == Ok(Ok(n < 43))
  {
    ParseStructQuery(s);
    var rec := StructRecord(map["Title" := Str("foo bar"), "Age" := Int(n)]);
    assert IsExported("Title") && IsExported("Age");
    StructTitleMatches([IsoLayout], rec);
    AgeUnderOutcome([IsoLayout], rec, n);
    EvaluateTwo(Condition("Title", Eqi, "foo bar", Literal, Eof, false), Condition("Age", Lt, "43", Integer, And, false),
      [IsoLayout], rec, true, n < 43);
  }

}
