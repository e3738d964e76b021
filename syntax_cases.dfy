/**
 * The syntax errors of the engine's own tests: for each malformed input the
 * failure kind (which fixes the message) and the offset where parsing stops.
 * Two general facts carry most of them: a literal fails at its first
 * mismatching character, and a string body of plain characters is copied
 * through unchanged up to the first special one.
 */
module SyntaxCases {
  import opened Text
  import opened Wrappers
  import opened Values
  import opened Grammar
  import opened Parser
  import opened RoundTrip

  // ------------------------------------------------------------ literals

  /**
   * A literal matched from `k` on fails exactly at its first mismatch `m`,
   * naming the character it expected there (or the end of input); with no
   * mismatch it succeeds.
   */
  lemma {:induction false} LiteralFirstMismatch(t: seq<CodeUnit>, i: nat, word: seq<CodeUnit>, k: nat, m: nat)
    requires k <= m <= |word| && i + m <= |t|
    requires forall j :: k <= j < m ==> t[i + j] == word[j]
    requires m < |word| ==> i + m == |t| || t[i + m] != word[m]
    ensures MatchRest(t, i, word, k) ==
      if m == |word| then None else Some(Expected(t, i + m, ExpectedLiteralChar(word[m])))
    decreases m - k
  {
    if k < m {
      LiteralFirstMismatch(t, i, word, k + 1, m);
    }
  }

  // ------------------------------------------------------------ strings

  /** A code unit a string body holds as itself: not a quote, not a backslash, not a control character. */
  predicate Plain(c: CodeUnit) {
    c >= 0x20 && c != '"' as CodeUnit && c != '\\' as CodeUnit
  }

  /** A string body scans its plain code units `t[j..m]` through unchanged and goes on at `m`. */
  lemma {:induction false} PlainRun(t: seq<CodeUnit>, j: nat, m: nat)
    requires j <= m <= |t|
    requires forall k :: j <= k < m ==> Plain(t[k])
    ensures ScanString(t, j) == Prefixed(t[j..m], ScanString(t, m))
    decreases m - j
  {
    if j < m {
      PlainRun(t, j + 1, m);
      assert StringUnit(t, j) == Done(t[j], j + 1);
      assert t[j..m] == [t[j]] + t[j + 1..m];
      PrefixedTwice([t[j]], t[j + 1..m], ScanString(t, m));
    } else {
      assert t[j..m] == [];
      PrefixedNothing(ScanString(t, m));
    }
  }

  // ------------------------------------------------------------ whole texts

  /** A text whose value fails, with nothing before it, fails the same way. */
  lemma ValueFails(t: seq<CodeUnit>, f: Failure)
    requires t != [] && !IsWhiteSpace(t[0]) && ParseValue(t, 0, 0).outcome == Failed(f)
    ensures ParseText(t).outcome == Failed(f)
  {
  }

  /** A text opening with a quote fails as its string body does. */
  lemma StringFails(t: seq<CodeUnit>, f: Failure)
    requires t != [] && t[0] == '"' as CodeUnit && ScanString(t, 1) == Failed(f)
    ensures ParseText(t).outcome == Failed(f)
  {
    assert ParseValue(t, 0, 0).outcome == Failed(f);
    ValueFails(t, f);
  }

  /** A quote, plain code units up to `j`, and a body that fails from `j`: the text fails the same way. */
  lemma BodyFails(t: seq<CodeUnit>, j: nat, f: Failure)
    requires 1 <= j <= |t| && t[0] == '"' as CodeUnit
    requires forall k :: 1 <= k < j ==> Plain(t[k])
    requires ScanString(t, j) == Failed(f)
    ensures ParseText(t).outcome == Failed(f)
  {
    PlainRun(t, 1, j);
    StringFails(t, f);
  }

  // ------------------------------------------------------------ shared openings

  /** What may end a number: the end of input, or a character that is no digit, point or exponent marker. */
  predicate EndsNumber(t: seq<CodeUnit>, e: nat) {
    e == |t| || (e < |t| && !IsDigit(t[e]) && t[e] != '.' as CodeUnit && t[e] != 'e' as CodeUnit && t[e] != 'E' as CodeUnit)
  }

  /** The number `23` at `i`, ended there, parses as a value at any depth. */
  lemma TwentyThree(t: seq<CodeUnit>, i: nat, d: nat)
    requires i + 2 <= |t| && t[i] == '2' as CodeUnit && t[i + 1] == '3' as CodeUnit && EndsNumber(t, i + 2)
    ensures var v := ParseValue(t, i, d).outcome; v.Done? && v.end == i + 2
  {
    assert SkipDigits(t, i + 2) == i + 2;
    assert SkipDigits(t, i + 1) == i + 2;
    assert IntegerPart(t, i) == Done(false, i + 2);
    assert ScanNumber(t, i).Done? && ScanNumber(t, i).end == i + 2;
  }

  /** `[23` opens the input (and the number ends there): the first element parses, up to the whitespace after it. */
  lemma ArrayHead(t: seq<CodeUnit>)
    requires |t| >= 3 && t[0] == '[' as CodeUnit && t[1] == '2' as CodeUnit && t[2] == '3' as CodeUnit && EndsNumber(t, 3)
    ensures var v := ParseElement(t, 1, 1, ArrayHandle(0)).outcome; v.Done? && v.end == SkipWhiteSpace(t, 3)
  {
    TwentyThree(t, 1, 1);
    assert SkipWhiteSpace(t, 1) == 1;
  }

  /** `[` and then a value that fails: the text fails the same way. */
  lemma FirstElementFailsText(t: seq<CodeUnit>, f: Failure)
    requires |t| >= 2 && t[0] == '[' as CodeUnit && !IsWhiteSpace(t[1]) && t[1] != ']' as CodeUnit
    requires ParseValue(t, 1, 1).outcome == Failed(f)
    ensures ParseText(t).outcome == Failed(f)
  {
    FirstElementFails(t, 1, 1, ArrayHandle(0), f);
    ArrayFails(t, 0, 0, f);
    ValueFails(t, f);
  }

  /** `[23` and then no `,` or `]`: the text fails as the separator does. */
  lemma ArraySeparatorFails(t: seq<CodeUnit>, f: Failure)
    requires |t| >= 3 && t[0] == '[' as CodeUnit && t[1] == '2' as CodeUnit && t[2] == '3' as CodeUnit && EndsNumber(t, 3)
    requires Separator(t, SkipWhiteSpace(t, 3), ']', ExpectedCommaOrBracket) == Failed(f)
    ensures ParseText(t).outcome == Failed(f)
  {
    var h := ArrayHandle(0);
    ArrayHead(t);
    assert ParseSeparatedElement(t, 1, 1, h).outcome == Failed(f);
    assert ParseElements(t, 1, 1, h).outcome == Failed(f);
    ArrayFails(t, 0, 0, f);
    ValueFails(t, f);
  }

  /** `[23,` and then an element that fails: the text fails the same way. */
  lemma SecondElementFails(t: seq<CodeUnit>, f: Failure)
    requires |t| >= 4 && t[0] == '[' as CodeUnit && t[1] == '2' as CodeUnit && t[2] == '3' as CodeUnit && t[3] == ',' as CodeUnit
    requires ParseElement(t, 4, 1, ArrayHandle(0)).outcome == Failed(f)
    ensures ParseText(t).outcome == Failed(f)
  {
    var h := ArrayHandle(0);
    ArrayHead(t);
    var s := ParseSeparatedElement(t, 1, 1, h).outcome;
    assert s.Done? && s.value.1 && s.end == 4;
    assert ParseElements(t, 4, 1, h).outcome == Failed(f);
    LaterElementFails(t, 1, 1, h, s.value.0, 4, f);
    ArrayFails(t, 0, 0, f);
    ValueFails(t, f);
  }

  /** `{"a"` opens the input: the first name parses. */
  lemma ObjectNameHead(t: seq<CodeUnit>)
    requires |t| >= 4 && t[0] == '{' as CodeUnit && t[1] == '"' as CodeUnit && t[2] == 'a' as CodeUnit && t[3] == '"' as CodeUnit
    ensures var a := ParseObjectName(t, 1, ObjectHandle(0)).outcome; a.Done? && a.end == 4
  {
    assert ScanString(t, 3) == Done([], 4);
    assert ScanString(t, 2).Done? && ScanString(t, 2).end == 4;
  }

  /** `{"a"` and then no colon: the text fails as the colon does. */
  lemma ColonFails(t: seq<CodeUnit>, f: Failure)
    requires |t| >= 4 && t[0] == '{' as CodeUnit && t[1] == '"' as CodeUnit && t[2] == 'a' as CodeUnit && t[3] == '"' as CodeUnit
    requires Colon(t, 4) == Failed(f)
    ensures ParseText(t).outcome == Failed(f)
  {
    var h := ObjectHandle(0);
    ObjectNameHead(t);
    assert ParseMemberName(t, 1, h).outcome == Failed(f);
    assert ParseMember(t, 1, 1, h).outcome == Failed(f);
    FirstMemberFails(t, 1, 1, h, f);
    ObjectFails(t, 0, 0, f);
    ValueFails(t, f);
  }

  /** `{"a":` and then a value that fails: the text fails the same way. */
  lemma MemberValueFailsText(t: seq<CodeUnit>, f: Failure)
    requires |t| >= 5 && t[0] == '{' as CodeUnit && t[1] == '"' as CodeUnit && t[2] == 'a' as CodeUnit && t[3] == '"' as CodeUnit
    requires t[4] == ':' as CodeUnit && ParseValue(t, SkipWhiteSpace(t, 5), 1).outcome == Failed(f)
    ensures ParseText(t).outcome == Failed(f)
  {
    var h := ObjectHandle(0);
    MemberNameHead(t);
    var a := ParseMemberName(t, 1, h).outcome;
    assert ParseMemberValue(t, 5, 1, h, a.value).outcome == Failed(f);
    assert ParseMember(t, 1, 1, h).outcome == Failed(f);
    FirstMemberFails(t, 1, 1, h, f);
    ObjectFails(t, 0, 0, f);
    ValueFails(t, f);
  }

  /** `{"a":` opens the input: the first name and its colon parse. */
  lemma MemberNameHead(t: seq<CodeUnit>)
    requires |t| >= 5 && t[0] == '{' as CodeUnit && t[1] == '"' as CodeUnit && t[2] == 'a' as CodeUnit && t[3] == '"' as CodeUnit
    requires t[4] == ':' as CodeUnit
    ensures var a := ParseMemberName(t, 1, ObjectHandle(0)).outcome; a.Done? && a.end == 5
  {
    ObjectNameHead(t);
    assert SkipWhiteSpace(t, 1) == 1;
    assert SkipWhiteSpace(t, 4) == 4;
    assert Colon(t, 4) == Done(true, 5);
  }

  /** `{"a":23` opens the input (and the number ends there): the first member parses, up to the whitespace after it. */
  lemma ObjectHead(t: seq<CodeUnit>)
    requires |t| >= 7 && t[0] == '{' as CodeUnit && t[1] == '"' as CodeUnit && t[2] == 'a' as CodeUnit && t[3] == '"' as CodeUnit
    requires t[4] == ':' as CodeUnit && t[5] == '2' as CodeUnit && t[6] == '3' as CodeUnit && EndsNumber(t, 7)
    ensures var m := ParseMember(t, 1, 1, ObjectHandle(0)).outcome; m.Done? && m.end == SkipWhiteSpace(t, 7)
  {
    var h := ObjectHandle(0);
    MemberNameHead(t);
    var a := ParseMemberName(t, 1, h).outcome;
    TwentyThree(t, 5, 1);
    assert SkipWhiteSpace(t, 5) == 5;
    var o := ParseObjectValue(t, 5, 1, h, a.value).outcome;
    assert o.Done? && o.end == 7;
    var v := ParseMemberValue(t, 5, 1, h, a.value).outcome;
    assert v.Done? && v.end == SkipWhiteSpace(t, 7);
    MemberStep(t, 1, 1, h, a.value, 5, v.value, v.end);
  }

  /** `{"a":23` and then no `,` or `}`: the text fails as the separator does. */
  lemma ObjectSeparatorFails(t: seq<CodeUnit>, f: Failure)
    requires |t| >= 7 && t[0] == '{' as CodeUnit && t[1] == '"' as CodeUnit && t[2] == 'a' as CodeUnit && t[3] == '"' as CodeUnit
    requires t[4] == ':' as CodeUnit && t[5] == '2' as CodeUnit && t[6] == '3' as CodeUnit && EndsNumber(t, 7)
    requires Separator(t, SkipWhiteSpace(t, 7), '}', ExpectedCommaOrBrace) == Failed(f)
    ensures ParseText(t).outcome == Failed(f)
  {
    var h := ObjectHandle(0);
    ObjectHead(t);
    assert ParseSeparatedMember(t, 1, 1, h).outcome == Failed(f);
    assert ParseMembers(t, 1, 1, h).outcome == Failed(f);
    ObjectFails(t, 0, 0, f);
    ValueFails(t, f);
  }

  /** `{"a":23,` and then a member that fails: the text fails the same way. */
  lemma SecondMemberFails(t: seq<CodeUnit>, f: Failure)
    requires |t| >= 8 && t[0] == '{' as CodeUnit && t[1] == '"' as CodeUnit && t[2] == 'a' as CodeUnit && t[3] == '"' as CodeUnit
    requires t[4] == ':' as CodeUnit && t[5] == '2' as CodeUnit && t[6] == '3' as CodeUnit && t[7] == ',' as CodeUnit
    requires ParseMember(t, 8, 1, ObjectHandle(0)).outcome == Failed(f)
    ensures ParseText(t).outcome == Failed(f)
  {
    var h := ObjectHandle(0);
    ObjectHead(t);
    var s := ParseSeparatedMember(t, 1, 1, h).outcome;
    assert s.Done? && s.value.1 && s.end == 8;
    FirstMemberFails(t, 8, 1, h, f);
    LaterMemberFails(t, 1, 1, h, s.value.0, 8, f);
    ObjectFails(t, 0, 0, f);
    ValueFails(t, f);
  }

  // ------------------------------------------------------------ cases

  /** `fails with empty string`: nothing to parse is an end of input at offset 0. */
  lemma EmptyInput()
    ensures ParseText(Units("")).outcome == Failed(Failure(UnexpectedEndOfInput, 0))
  {
  }

  /** `parse fails with unterminated string`: a string that the input cuts off fails at the end of input. */
  lemma UnterminatedString()
    ensures ParseText(Units("[\"foo")).outcome == Failed(Failure(UnexpectedEndOfInput, 5))
  {
    var t := Units("[\"foo");
    PlainRun(t, 2, 5);
    FirstElementFailsText(t, Failure(UnexpectedEndOfInput, 5));
  }

  /** `array illegal syntax`: a missing value, or a missing separator. */
  lemma ArrayIllegalSyntax()
    ensures ParseText(Units("[,]")).outcome == Failed(Failure(ExpectedValue, 1))
    ensures ParseText(Units("[23 42]")).outcome == Failed(Failure(ExpectedCommaOrBracket, 4))
    ensures ParseText(Units("[23,]")).outcome == Failed(Failure(ExpectedValue, 4))
  {
    ArrayIllegalSyntax1();
    ArrayIllegalSyntax2();
    ArrayIllegalSyntax3();
  }

  lemma ArrayIllegalSyntax1()
    ensures ParseText(Units("[,]")).outcome == Failed(Failure(ExpectedValue, 1))
  {
    var t := Units("[,]");
    FirstElementFailsText(t, Failure(ExpectedValue, 1));
  }

  lemma ArrayIllegalSyntax2()
    ensures ParseText(Units("[23 42]")).outcome == Failed(Failure(ExpectedCommaOrBracket, 4))
  {
    var t := Units("[23 42]");
    ArraySeparatorFails(t, Failure(ExpectedCommaOrBracket, 4));
  }

  lemma ArrayIllegalSyntax3()
    ensures ParseText(Units("[23,]")).outcome == Failed(Failure(ExpectedValue, 4))
  {
    var t := Units("[23,]");
    assert ParseElement(t, 4, 1, ArrayHandle(0)).outcome == Failed(Failure(ExpectedValue, 4));
    SecondElementFails(t, Failure(ExpectedValue, 4));
  }

  /** `array incomplete`: every cut of `[23, ` fails at the end of input. */
  lemma ArrayIncomplete()
    ensures ParseText(Units("[")).outcome == Failed(Failure(UnexpectedEndOfInput, 1))
    ensures ParseText(Units("[ ")).outcome == Failed(Failure(UnexpectedEndOfInput, 2))
    ensures ParseText(Units("[23")).outcome == Failed(Failure(UnexpectedEndOfInput, 3))
    ensures ParseText(Units("[23 ")).outcome == Failed(Failure(UnexpectedEndOfInput, 4))
    ensures ParseText(Units("[23,")).outcome == Failed(Failure(UnexpectedEndOfInput, 4))
    ensures ParseText(Units("[23, ")).outcome == Failed(Failure(UnexpectedEndOfInput, 5))
  {
    ArrayIncomplete1();
    ArrayIncomplete2();
    ArrayIncomplete3();
    ArrayIncomplete4();
    ArrayIncomplete5();
    ArrayIncomplete6();
  }

  lemma ArrayIncomplete1()
    ensures ParseText(Units("[")).outcome == Failed(Failure(UnexpectedEndOfInput, 1))
  {
  }

  lemma ArrayIncomplete2()
    ensures ParseText(Units("[ ")).outcome == Failed(Failure(UnexpectedEndOfInput, 2))
  {
  }

  lemma ArrayIncomplete3()
    ensures ParseText(Units("[23")).outcome == Failed(Failure(UnexpectedEndOfInput, 3))
  {
    var t := Units("[23");
    ArraySeparatorFails(t, Failure(UnexpectedEndOfInput, 3));
  }

  lemma ArrayIncomplete4()
    ensures ParseText(Units("[23 ")).outcome == Failed(Failure(UnexpectedEndOfInput, 4))
  {
    var t := Units("[23 ");
    ArraySeparatorFails(t, Failure(UnexpectedEndOfInput, 4));
  }

  lemma ArrayIncomplete5()
    ensures ParseText(Units("[23,")).outcome == Failed(Failure(UnexpectedEndOfInput, 4))
  {
    var t := Units("[23,");
    assert ParseElement(t, 4, 1, ArrayHandle(0)).outcome == Failed(Failure(UnexpectedEndOfInput, 4));
    SecondElementFails(t, Failure(UnexpectedEndOfInput, 4));
  }

  lemma ArrayIncomplete6()
    ensures ParseText(Units("[23, ")).outcome == Failed(Failure(UnexpectedEndOfInput, 5))
  {
    var t := Units("[23, ");
    assert ParseElement(t, 4, 1, ArrayHandle(0)).outcome == Failed(Failure(UnexpectedEndOfInput, 5));
    SecondElementFails(t, Failure(UnexpectedEndOfInput, 5));
  }

  /** `object illegal syntax`: a missing name, colon or value. */
  lemma ObjectIllegalSyntax()
    ensures ParseText(Units("{,}")).outcome == Failed(Failure(ExpectedName, 1))
    ensures ParseText(Units("{:}")).outcome == Failed(Failure(ExpectedName, 1))
    ensures ParseText(Units("{23}")).outcome == Failed(Failure(ExpectedName, 1))
    ensures ParseText(Units("{\"a\"}")).outcome == Failed(Failure(ExpectedColon, 4))
    ensures ParseText(Units("{\"a\" \"b\"}")).outcome == Failed(Failure(ExpectedColon, 5))
    ensures ParseText(Units("{\"a\":}")).outcome == Failed(Failure(ExpectedValue, 5))
    ensures ParseText(Units("{\"a\":23,}")).outcome == Failed(Failure(ExpectedName, 8))
    ensures ParseText(Units("{\"a\":23,42")).outcome == Failed(Failure(ExpectedName, 8))
  {
    ObjectIllegalSyntax1();
    ObjectIllegalSyntax2();
    ObjectIllegalSyntax3();
    ObjectIllegalSyntax4();
    ObjectIllegalSyntax5();
    ObjectIllegalSyntax6();
    ObjectIllegalSyntax7();
    ObjectIllegalSyntax8();
  }

  lemma ObjectIllegalSyntax1()
    ensures ParseText(Units("{,}")).outcome == Failed(Failure(ExpectedName, 1))
  {
  }

  lemma ObjectIllegalSyntax2()
    ensures ParseText(Units("{:}")).outcome == Failed(Failure(ExpectedName, 1))
  {
  }

  lemma ObjectIllegalSyntax3()
    ensures ParseText(Units("{23}")).outcome == Failed(Failure(ExpectedName, 1))
  {
  }

  lemma ObjectIllegalSyntax4()
    ensures ParseText(Units("{\"a\"}")).outcome == Failed(Failure(ExpectedColon, 4))
  {
    var t := Units("{\"a\"}");
    ColonFails(t, Failure(ExpectedColon, 4));
  }

  lemma ObjectIllegalSyntax5()
    ensures ParseText(Units("{\"a\" \"b\"}")).outcome == Failed(Failure(ExpectedColon, 5))
  {
    var t := Units("{\"a\" \"b\"}");
    ColonFails(t, Failure(ExpectedColon, 5));
  }

  lemma ObjectIllegalSyntax6()
    ensures ParseText(Units("{\"a\":}")).outcome == Failed(Failure(ExpectedValue, 5))
  {
    var t := Units("{\"a\":}");
    MemberValueFailsText(t, Failure(ExpectedValue, 5));
  }

  lemma ObjectIllegalSyntax7()
    ensures ParseText(Units("{\"a\":23,}")).outcome == Failed(Failure(ExpectedName, 8))
  {
    var t := Units("{\"a\":23,}");
    assert ParseMember(t, 8, 1, ObjectHandle(0)).outcome == Failed(Failure(ExpectedName, 8));
    SecondMemberFails(t, Failure(ExpectedName, 8));
  }

  lemma ObjectIllegalSyntax8()
    ensures ParseText(Units("{\"a\":23,42")).outcome == Failed(Failure(ExpectedName, 8))
  {
    var t := Units("{\"a\":23,42");
    assert ParseMember(t, 8, 1, ObjectHandle(0)).outcome == Failed(Failure(ExpectedName, 8));
    SecondMemberFails(t, Failure(ExpectedName, 8));
  }

  /** `object incomplete`: every cut of `{"a": 23, ` fails at the end of input. */
  lemma ObjectIncomplete()
    ensures ParseText(Units("{")).outcome == Failed(Failure(UnexpectedEndOfInput, 1))
    ensures ParseText(Units("{ ")).outcome == Failed(Failure(UnexpectedEndOfInput, 2))
    ensures ParseText(Units("{\"")).outcome == Failed(Failure(UnexpectedEndOfInput, 2))
    ensures ParseText(Units("{\"a\"")).outcome == Failed(Failure(UnexpectedEndOfInput, 4))
    ensures ParseText(Units("{\"a\" ")).outcome == Failed(Failure(UnexpectedEndOfInput, 5))
    ensures ParseText(Units("{\"a\":")).outcome == Failed(Failure(UnexpectedEndOfInput, 5))
    ensures ParseText(Units("{\"a\": ")).outcome == Failed(Failure(UnexpectedEndOfInput, 6))
    ensures ParseText(Units("{\"a\":23")).outcome == Failed(Failure(UnexpectedEndOfInput, 7))
    ensures ParseText(Units("{\"a\":23 ")).outcome == Failed(Failure(UnexpectedEndOfInput, 8))
    ensures ParseText(Units("{\"a\":23,")).outcome == Failed(Failure(UnexpectedEndOfInput, 8))
    ensures ParseText(Units("{\"a\":23, ")).outcome == Failed(Failure(UnexpectedEndOfInput, 9))
  {
    ObjectIncomplete1();
    ObjectIncomplete2();
    ObjectIncomplete3();
    ObjectIncomplete4();
    ObjectIncomplete5();
    ObjectIncomplete6();
    ObjectIncomplete7();
    ObjectIncomplete8();
    ObjectIncomplete9();
    ObjectIncomplete10();
    ObjectIncomplete11();
  }

  lemma ObjectIncomplete1()
    ensures ParseText(Units("{")).outcome == Failed(Failure(UnexpectedEndOfInput, 1))
  {
  }

  lemma ObjectIncomplete2()
    ensures ParseText(Units("{ ")).outcome == Failed(Failure(UnexpectedEndOfInput, 2))
  {
  }

  lemma ObjectIncomplete3()
    ensures ParseText(Units("{\"")).outcome == Failed(Failure(UnexpectedEndOfInput, 2))
  {
  }

  lemma ObjectIncomplete4()
    ensures ParseText(Units("{\"a\"")).outcome == Failed(Failure(UnexpectedEndOfInput, 4))
  {
    var t := Units("{\"a\"");
    ColonFails(t, Failure(UnexpectedEndOfInput, 4));
  }

  lemma ObjectIncomplete5()
    ensures ParseText(Units("{\"a\" ")).outcome == Failed(Failure(UnexpectedEndOfInput, 5))
  {
    var t := Units("{\"a\" ");
    ColonFails(t, Failure(UnexpectedEndOfInput, 5));
  }

  lemma ObjectIncomplete6()
    ensures ParseText(Units("{\"a\":")).outcome == Failed(Failure(UnexpectedEndOfInput, 5))
  {
    var t := Units("{\"a\":");
    MemberValueFailsText(t, Failure(UnexpectedEndOfInput, 5));
  }

  lemma ObjectIncomplete7()
    ensures ParseText(Units("{\"a\": ")).outcome == Failed(Failure(UnexpectedEndOfInput, 6))
  {
    var t := Units("{\"a\": ");
    MemberValueFailsText(t, Failure(UnexpectedEndOfInput, 6));
  }

  lemma ObjectIncomplete8()
    ensures ParseText(Units("{\"a\":23")).outcome == Failed(Failure(UnexpectedEndOfInput, 7))
  {
    var t := Units("{\"a\":23");
    ObjectSeparatorFails(t, Failure(UnexpectedEndOfInput, 7));
  }

  lemma ObjectIncomplete9()
    ensures ParseText(Units("{\"a\":23 ")).outcome == Failed(Failure(UnexpectedEndOfInput, 8))
  {
    var t := Units("{\"a\":23 ");
    ObjectSeparatorFails(t, Failure(UnexpectedEndOfInput, 8));
  }

  lemma ObjectIncomplete10()
    ensures ParseText(Units("{\"a\":23,")).outcome == Failed(Failure(UnexpectedEndOfInput, 8))
  {
    var t := Units("{\"a\":23,");
    assert ParseMember(t, 8, 1, ObjectHandle(0)).outcome == Failed(Failure(UnexpectedEndOfInput, 8));
    SecondMemberFails(t, Failure(UnexpectedEndOfInput, 8));
  }

  lemma ObjectIncomplete11()
    ensures ParseText(Units("{\"a\":23, ")).outcome == Failed(Failure(UnexpectedEndOfInput, 9))
  {
    var t := Units("{\"a\":23, ");
    assert ParseMember(t, 8, 1, ObjectHandle(0)).outcome == Failed(Failure(UnexpectedEndOfInput, 9));
    SecondMemberFails(t, Failure(UnexpectedEndOfInput, 9));
  }

  /** `string fail with control characters`: a code unit below U+0020 inside a string. */
  lemma StringControlCharacters()
    ensures ParseText(Units("\"--\n--\"")).outcome == Failed(Failure(ExpectedValidStringCharacter, 3))
    ensures ParseText(Units("\"--\r\n--\"")).outcome == Failed(Failure(ExpectedValidStringCharacter, 3))
    ensures ParseText(Units("\"--\t--\"")).outcome == Failed(Failure(ExpectedValidStringCharacter, 3))
    ensures ParseText(Units("\"--\0--\"")).outcome == Failed(Failure(ExpectedValidStringCharacter, 3))
    ensures ParseText(Units("\"--\U{1f}--\"")).outcome == Failed(Failure(ExpectedValidStringCharacter, 3))
  {
    StringControlCharacters1();
    StringControlCharacters2();
    StringControlCharacters3();
    StringControlCharacters4();
    StringControlCharacters5();
  }

  lemma StringControlCharacters1()
    ensures ParseText(Units("\"--\n--\"")).outcome == Failed(Failure(ExpectedValidStringCharacter, 3))
  {
    var t := Units("\"--\n--\"");
    assert ScanString(t, 3) == Failed(Failure(ExpectedValidStringCharacter, 3));
    BodyFails(t, 3, Failure(ExpectedValidStringCharacter, 3));
  }

  lemma StringControlCharacters2()
    ensures ParseText(Units("\"--\r\n--\"")).outcome == Failed(Failure(ExpectedValidStringCharacter, 3))
  {
    var t := Units("\"--\r\n--\"");
    assert ScanString(t, 3) == Failed(Failure(ExpectedValidStringCharacter, 3));
    BodyFails(t, 3, Failure(ExpectedValidStringCharacter, 3));
  }

  lemma StringControlCharacters3()
    ensures ParseText(Units("\"--\t--\"")).outcome == Failed(Failure(ExpectedValidStringCharacter, 3))
  {
    var t := Units("\"--\t--\"");
    assert ScanString(t, 3) == Failed(Failure(ExpectedValidStringCharacter, 3));
    BodyFails(t, 3, Failure(ExpectedValidStringCharacter, 3));
  }

  lemma StringControlCharacters4()
    ensures ParseText(Units("\"--\0--\"")).outcome == Failed(Failure(ExpectedValidStringCharacter, 3))
  {
    var t := Units("\"--\0--\"");
    assert ScanString(t, 3) == Failed(Failure(ExpectedValidStringCharacter, 3));
    BodyFails(t, 3, Failure(ExpectedValidStringCharacter, 3));
  }

  lemma StringControlCharacters5()
    ensures ParseText(Units("\"--\U{1f}--\"")).outcome == Failed(Failure(ExpectedValidStringCharacter, 3))
  {
    var t := Units("\"--\U{1f}--\"");
    assert ScanString(t, 3) == Failed(Failure(ExpectedValidStringCharacter, 3));
    BodyFails(t, 3, Failure(ExpectedValidStringCharacter, 3));
  }

  /** `string fail with invalid escapes`: a backslash followed by anything but `" \ / b n r t u`. */
  lemma StringInvalidEscapes()
    ensures ParseText(Units("\"\\a\"")).outcome == Failed(Failure(ExpectedValidEscapeSequence, 2))
    ensures ParseText(Units("\"\\x\"")).outcome == Failed(Failure(ExpectedValidEscapeSequence, 2))
    ensures ParseText(Units("\"\\000\"")).outcome == Failed(Failure(ExpectedValidEscapeSequence, 2))
  {
    StringInvalidEscapes1();
    StringInvalidEscapes2();
    StringInvalidEscapes3();
  }

  lemma StringInvalidEscapes1()
    ensures ParseText(Units("\"\\a\"")).outcome == Failed(Failure(ExpectedValidEscapeSequence, 2))
  {
    var t := Units("\"\\a\"");
    assert ScanString(t, 1) == Failed(Failure(ExpectedValidEscapeSequence, 2));
    BodyFails(t, 1, Failure(ExpectedValidEscapeSequence, 2));
  }

  lemma StringInvalidEscapes2()
    ensures ParseText(Units("\"\\x\"")).outcome == Failed(Failure(ExpectedValidEscapeSequence, 2))
  {
    var t := Units("\"\\x\"");
    assert ScanString(t, 1) == Failed(Failure(ExpectedValidEscapeSequence, 2));
    BodyFails(t, 1, Failure(ExpectedValidEscapeSequence, 2));
  }

  lemma StringInvalidEscapes3()
    ensures ParseText(Units("\"\\000\"")).outcome == Failed(Failure(ExpectedValidEscapeSequence, 2))
  {
    var t := Units("\"\\000\"");
    assert ScanString(t, 1) == Failed(Failure(ExpectedValidEscapeSequence, 2));
    BodyFails(t, 1, Failure(ExpectedValidEscapeSequence, 2));
  }

  /** `string fail with illegal unicode escapes`: `\u` needs four hexadecimal digits, and fails at the first place that lacks one. */
  lemma StringIllegalUnicodeEscapes()
    ensures ParseText(Units("\"\\u \"")).outcome == Failed(Failure(ExpectedHexDigit, 3))
    ensures ParseText(Units("\"\\ux\"")).outcome == Failed(Failure(ExpectedHexDigit, 3))
    ensures ParseText(Units("\"\\u20 \"")).outcome == Failed(Failure(ExpectedHexDigit, 5))
    ensures ParseText(Units("\"\\u000x\"")).outcome == Failed(Failure(ExpectedHexDigit, 6))
  {
    StringIllegalUnicodeEscapes1();
    StringIllegalUnicodeEscapes2();
    StringIllegalUnicodeEscapes3();
    StringIllegalUnicodeEscapes4();
  }

  lemma StringIllegalUnicodeEscapes1()
    ensures ParseText(Units("\"\\u \"")).outcome == Failed(Failure(ExpectedHexDigit, 3))
  {
    var t := Units("\"\\u \"");
    HexRunStops(t, 3, 0, 0);
    assert ScanString(t, 1) == Failed(Failure(ExpectedHexDigit, 3));
    BodyFails(t, 1, Failure(ExpectedHexDigit, 3));
  }

  lemma StringIllegalUnicodeEscapes2()
    ensures ParseText(Units("\"\\ux\"")).outcome == Failed(Failure(ExpectedHexDigit, 3))
  {
    var t := Units("\"\\ux\"");
    HexRunStops(t, 3, 0, 0);
    assert ScanString(t, 1) == Failed(Failure(ExpectedHexDigit, 3));
    BodyFails(t, 1, Failure(ExpectedHexDigit, 3));
  }

  lemma StringIllegalUnicodeEscapes3()
    ensures ParseText(Units("\"\\u20 \"")).outcome == Failed(Failure(ExpectedHexDigit, 5))
  {
    var t := Units("\"\\u20 \"");
    HexRunStops(t, 3, 0, 2);
    assert ScanString(t, 1) == Failed(Failure(ExpectedHexDigit, 5));
    BodyFails(t, 1, Failure(ExpectedHexDigit, 5));
  }

  lemma StringIllegalUnicodeEscapes4()
    ensures ParseText(Units("\"\\u000x\"")).outcome == Failed(Failure(ExpectedHexDigit, 6))
  {
    var t := Units("\"\\u000x\"");
    HexRunStops(t, 3, 0, 3);
    assert ScanString(t, 1) == Failed(Failure(ExpectedHexDigit, 6));
    BodyFails(t, 1, Failure(ExpectedHexDigit, 6));
  }

  /** `string incomplete`: the input ends inside the body or inside an escape. */
  lemma StringIncomplete()
    ensures ParseText(Units("\"")).outcome == Failed(Failure(UnexpectedEndOfInput, 1))
    ensures ParseText(Units("\"foo")).outcome == Failed(Failure(UnexpectedEndOfInput, 4))
    ensures ParseText(Units("\"foo\\")).outcome == Failed(Failure(UnexpectedEndOfInput, 5))
    ensures ParseText(Units("\"foo\\n")).outcome == Failed(Failure(UnexpectedEndOfInput, 6))
    ensures ParseText(Units("\"foo\\u")).outcome == Failed(Failure(UnexpectedEndOfInput, 6))
    ensures ParseText(Units("\"foo\\u0")).outcome == Failed(Failure(UnexpectedEndOfInput, 7))
    ensures ParseText(Units("\"foo\\u000")).outcome == Failed(Failure(UnexpectedEndOfInput, 9))
    ensures ParseText(Units("\"foo\\u0000")).outcome == Failed(Failure(UnexpectedEndOfInput, 10))
  {
    StringIncomplete1();
    StringIncomplete2();
    StringIncomplete3();
    StringIncomplete4();
    StringIncomplete5();
    StringIncomplete6();
    StringIncomplete7();
    StringIncomplete8();
  }

  lemma StringIncomplete1()
    ensures ParseText(Units("\"")).outcome == Failed(Failure(UnexpectedEndOfInput, 1))
  {
  }

  lemma StringIncomplete2()
    ensures ParseText(Units("\"foo")).outcome == Failed(Failure(UnexpectedEndOfInput, 4))
  {
    var t := Units("\"foo");
    assert ScanString(t, 4) == Failed(Failure(UnexpectedEndOfInput, 4));
    BodyFails(t, 4, Failure(UnexpectedEndOfInput, 4));
  }

  lemma StringIncomplete3()
    ensures ParseText(Units("\"foo\\")).outcome == Failed(Failure(UnexpectedEndOfInput, 5))
  {
    var t := Units("\"foo\\");
    assert ScanString(t, 4) == Failed(Failure(UnexpectedEndOfInput, 5));
    BodyFails(t, 4, Failure(UnexpectedEndOfInput, 5));
  }

  lemma StringIncomplete4()
    ensures ParseText(Units("\"foo\\n")).outcome == Failed(Failure(UnexpectedEndOfInput, 6))
  {
    var t := Units("\"foo\\n");
    assert ScanString(t, 4) == Failed(Failure(UnexpectedEndOfInput, 6));
    BodyFails(t, 4, Failure(UnexpectedEndOfInput, 6));
  }

  lemma StringIncomplete5()
    ensures ParseText(Units("\"foo\\u")).outcome == Failed(Failure(UnexpectedEndOfInput, 6))
  {
    var t := Units("\"foo\\u");
    HexRunStops(t, 6, 0, 0);
    assert ScanString(t, 4) == Failed(Failure(UnexpectedEndOfInput, 6));
    BodyFails(t, 4, Failure(UnexpectedEndOfInput, 6));
  }

  lemma StringIncomplete6()
    ensures ParseText(Units("\"foo\\u0")).outcome == Failed(Failure(UnexpectedEndOfInput, 7))
  {
    var t := Units("\"foo\\u0");
    HexRunStops(t, 6, 0, 1);
    assert ScanString(t, 4) == Failed(Failure(UnexpectedEndOfInput, 7));
    BodyFails(t, 4, Failure(UnexpectedEndOfInput, 7));
  }

  lemma StringIncomplete7()
    ensures ParseText(Units("\"foo\\u000")).outcome == Failed(Failure(UnexpectedEndOfInput, 9))
  {
    var t := Units("\"foo\\u000");
    HexRunStops(t, 6, 0, 3);
    assert ScanString(t, 4) == Failed(Failure(UnexpectedEndOfInput, 9));
    BodyFails(t, 4, Failure(UnexpectedEndOfInput, 9));
  }

  lemma StringIncomplete8()
    ensures ParseText(Units("\"foo\\u0000")).outcome == Failed(Failure(UnexpectedEndOfInput, 10))
  {
    var t := Units("\"foo\\u0000");
    HexRunPasses(t, 6, 0);
    assert ScanString(t, 4) == Failed(Failure(UnexpectedEndOfInput, 10));
    BodyFails(t, 4, Failure(UnexpectedEndOfInput, 10));
  }

  /** `numbers invalid format`: no `+` or `.` first, no digit after a leading zero, a digit after `-`, `.` and `e`, nothing after the number. */
  lemma NumbersInvalidFormat()
    ensures ParseText(Units("+1")).outcome == Failed(Failure(ExpectedValue, 0))
    ensures ParseText(Units(".1")).outcome == Failed(Failure(ExpectedValue, 0))
    ensures ParseText(Units("02")).outcome == Failed(Failure(UnexpectedCharacter, 1))
    ensures ParseText(Units("-02")).outcome == Failed(Failure(UnexpectedCharacter, 2))
    ensures ParseText(Units("-x")).outcome == Failed(Failure(ExpectedDigit, 1))
    ensures ParseText(Units("1.x")).outcome == Failed(Failure(ExpectedDigit, 2))
    ensures ParseText(Units("1ex")).outcome == Failed(Failure(ExpectedDigit, 2))
    ensures ParseText(Units("1e1x")).outcome == Failed(Failure(UnexpectedCharacter, 3))
  {
    NumbersInvalidFormat1();
    NumbersInvalidFormat2();
    NumbersInvalidFormat3();
    NumbersInvalidFormat4();
    NumbersInvalidFormat5();
    NumbersInvalidFormat6();
    NumbersInvalidFormat7();
    NumbersInvalidFormat8();
  }

  lemma NumbersInvalidFormat1()
    ensures ParseText(Units("+1")).outcome == Failed(Failure(ExpectedValue, 0))
  {
  }

  lemma NumbersInvalidFormat2()
    ensures ParseText(Units(".1")).outcome == Failed(Failure(ExpectedValue, 0))
  {
  }

  lemma NumbersInvalidFormat3()
    ensures ParseText(Units("02")).outcome == Failed(Failure(UnexpectedCharacter, 1))
  {
  }

  lemma NumbersInvalidFormat4()
    ensures ParseText(Units("-02")).outcome == Failed(Failure(UnexpectedCharacter, 2))
  {
  }

  lemma NumbersInvalidFormat5()
    ensures ParseText(Units("-x")).outcome == Failed(Failure(ExpectedDigit, 1))
  {
  }

  lemma NumbersInvalidFormat6()
    ensures ParseText(Units("1.x")).outcome == Failed(Failure(ExpectedDigit, 2))
  {
  }

  lemma NumbersInvalidFormat7()
    ensures ParseText(Units("1ex")).outcome == Failed(Failure(ExpectedDigit, 2))
  {
  }

  lemma NumbersInvalidFormat8()
    ensures ParseText(Units("1e1x")).outcome == Failed(Failure(UnexpectedCharacter, 3))
  {
  }

  /** `numbers incomplete`: a sign, point or exponent marker at the end of input. */
  lemma NumbersIncomplete()
    ensures ParseText(Units("-")).outcome == Failed(Failure(UnexpectedEndOfInput, 1))
    ensures ParseText(Units("1.")).outcome == Failed(Failure(UnexpectedEndOfInput, 2))
    ensures ParseText(Units("1.0e")).outcome == Failed(Failure(UnexpectedEndOfInput, 4))
    ensures ParseText(Units("1.0e-")).outcome == Failed(Failure(UnexpectedEndOfInput, 5))
  {
    NumbersIncomplete1();
    NumbersIncomplete2();
    NumbersIncomplete3();
    NumbersIncomplete4();
  }

  lemma NumbersIncomplete1()
    ensures ParseText(Units("-")).outcome == Failed(Failure(UnexpectedEndOfInput, 1))
  {
  }

  lemma NumbersIncomplete2()
    ensures ParseText(Units("1.")).outcome == Failed(Failure(UnexpectedEndOfInput, 2))
  {
  }

  lemma NumbersIncomplete3()
    ensures ParseText(Units("1.0e")).outcome == Failed(Failure(UnexpectedEndOfInput, 4))
  {
  }

  lemma NumbersIncomplete4()
    ensures ParseText(Units("1.0e-")).outcome == Failed(Failure(UnexpectedEndOfInput, 5))
  {
  }

  /** `null incomplete`: a cut of `null` fails at the end of input. */
  lemma NullIncomplete()
    ensures ParseText(Units("n")).outcome == Failed(Failure(UnexpectedEndOfInput, 1))
    ensures ParseText(Units("nu")).outcome == Failed(Failure(UnexpectedEndOfInput, 2))
    ensures ParseText(Units("nul")).outcome == Failed(Failure(UnexpectedEndOfInput, 3))
  {
    NullIncomplete1();
    NullIncomplete2();
    NullIncomplete3();
  }

  lemma NullIncomplete1()
    ensures ParseText(Units("n")).outcome == Failed(Failure(UnexpectedEndOfInput, 1))
  {
    var t := Units("n");
    LiteralFirstMismatch(t, 0, NullWord, 1, 1);
  }

  lemma NullIncomplete2()
    ensures ParseText(Units("nu")).outcome == Failed(Failure(UnexpectedEndOfInput, 2))
  {
    var t := Units("nu");
    LiteralFirstMismatch(t, 0, NullWord, 1, 2);
  }

  lemma NullIncomplete3()
    ensures ParseText(Units("nul")).outcome == Failed(Failure(UnexpectedEndOfInput, 3))
  {
    var t := Units("nul");
    LiteralFirstMismatch(t, 0, NullWord, 1, 3);
  }

  /** `null illegal character`: the first mismatch names the expected character; after the word, a character is unexpected. */
  lemma NullIllegalCharacter()
    ensures ParseText(Units("nx")).outcome == Failed(Failure(ExpectedLiteralChar('u' as CodeUnit), 1))
    ensures ParseText(Units("nux")).outcome == Failed(Failure(ExpectedLiteralChar('l' as CodeUnit), 2))
    ensures ParseText(Units("nulx")).outcome == Failed(Failure(ExpectedLiteralChar('l' as CodeUnit), 3))
    ensures ParseText(Units("nullx")).outcome == Failed(Failure(UnexpectedCharacter, 4))
  {
    NullIllegalCharacter1();
    NullIllegalCharacter2();
    NullIllegalCharacter3();
    NullIllegalCharacter4();
  }

  lemma NullIllegalCharacter1()
    ensures ParseText(Units("nx")).outcome == Failed(Failure(ExpectedLiteralChar('u' as CodeUnit), 1))
  {
    var t := Units("nx");
    LiteralFirstMismatch(t, 0, NullWord, 1, 1);
  }

  lemma NullIllegalCharacter2()
    ensures ParseText(Units("nux")).outcome == Failed(Failure(ExpectedLiteralChar('l' as CodeUnit), 2))
  {
    var t := Units("nux");
    LiteralFirstMismatch(t, 0, NullWord, 1, 2);
  }

  lemma NullIllegalCharacter3()
    ensures ParseText(Units("nulx")).outcome == Failed(Failure(ExpectedLiteralChar('l' as CodeUnit), 3))
  {
    var t := Units("nulx");
    LiteralFirstMismatch(t, 0, NullWord, 1, 3);
  }

  lemma NullIllegalCharacter4()
    ensures ParseText(Units("nullx")).outcome == Failed(Failure(UnexpectedCharacter, 4))
  {
    var t := Units("nullx");
    LiteralFirstMismatch(t, 0, NullWord, 1, 4);
  }

  /** `true incomplete`: a cut of `true` fails at the end of input. */
  lemma TrueIncomplete()
    ensures ParseText(Units("t")).outcome == Failed(Failure(UnexpectedEndOfInput, 1))
    ensures ParseText(Units("tr")).outcome == Failed(Failure(UnexpectedEndOfInput, 2))
    ensures ParseText(Units("tru")).outcome == Failed(Failure(UnexpectedEndOfInput, 3))
  {
    TrueIncomplete1();
    TrueIncomplete2();
    TrueIncomplete3();
  }

  lemma TrueIncomplete1()
    ensures ParseText(Units("t")).outcome == Failed(Failure(UnexpectedEndOfInput, 1))
  {
    var t := Units("t");
    LiteralFirstMismatch(t, 0, TrueWord, 1, 1);
  }

  lemma TrueIncomplete2()
    ensures ParseText(Units("tr")).outcome == Failed(Failure(UnexpectedEndOfInput, 2))
  {
    var t := Units("tr");
    LiteralFirstMismatch(t, 0, TrueWord, 1, 2);
  }

  lemma TrueIncomplete3()
    ensures ParseText(Units("tru")).outcome == Failed(Failure(UnexpectedEndOfInput, 3))
  {
    var t := Units("tru");
    LiteralFirstMismatch(t, 0, TrueWord, 1, 3);
  }

  /** `true illegal character`: the first mismatch names the expected character; after the word, a character is unexpected. */
  lemma TrueIllegalCharacter()
    ensures ParseText(Units("tx")).outcome == Failed(Failure(ExpectedLiteralChar('r' as CodeUnit), 1))
    ensures ParseText(Units("trx")).outcome == Failed(Failure(ExpectedLiteralChar('u' as CodeUnit), 2))
    ensures ParseText(Units("trux")).outcome == Failed(Failure(ExpectedLiteralChar('e' as CodeUnit), 3))
    ensures ParseText(Units("truex")).outcome == Failed(Failure(UnexpectedCharacter, 4))
  {
    TrueIllegalCharacter1();
    TrueIllegalCharacter2();
    TrueIllegalCharacter3();
    TrueIllegalCharacter4();
  }

  lemma TrueIllegalCharacter1()
    ensures ParseText(Units("tx")).outcome == Failed(Failure(ExpectedLiteralChar('r' as CodeUnit), 1))
  {
    var t := Units("tx");
    LiteralFirstMismatch(t, 0, TrueWord, 1, 1);
  }

  lemma TrueIllegalCharacter2()
    ensures ParseText(Units("trx")).outcome == Failed(Failure(ExpectedLiteralChar('u' as CodeUnit), 2))
  {
    var t := Units("trx");
    LiteralFirstMismatch(t, 0, TrueWord, 1, 2);
  }

  lemma TrueIllegalCharacter3()
    ensures ParseText(Units("trux")).outcome == Failed(Failure(ExpectedLiteralChar('e' as CodeUnit), 3))
  {
    var t := Units("trux");
    LiteralFirstMismatch(t, 0, TrueWord, 1, 3);
  }

  lemma TrueIllegalCharacter4()
    ensures ParseText(Units("truex")).outcome == Failed(Failure(UnexpectedCharacter, 4))
  {
    var t := Units("truex");
    LiteralFirstMismatch(t, 0, TrueWord, 1, 4);
  }

  /** `false incomplete`: a cut of `false` fails at the end of input. */
  lemma FalseIncomplete()
    ensures ParseText(Units("f")).outcome == Failed(Failure(UnexpectedEndOfInput, 1))
    ensures ParseText(Units("fa")).outcome == Failed(Failure(UnexpectedEndOfInput, 2))
    ensures ParseText(Units("fal")).outcome == Failed(Failure(UnexpectedEndOfInput, 3))
    ensures ParseText(Units("fals")).outcome == Failed(Failure(UnexpectedEndOfInput, 4))
  {
    FalseIncomplete1();
    FalseIncomplete2();
    FalseIncomplete3();
    FalseIncomplete4();
  }

  lemma FalseIncomplete1()
    ensures ParseText(Units("f")).outcome == Failed(Failure(UnexpectedEndOfInput, 1))
  {
    var t := Units("f");
    LiteralFirstMismatch(t, 0, FalseWord, 1, 1);
  }

  lemma FalseIncomplete2()
    ensures ParseText(Units("fa")).outcome == Failed(Failure(UnexpectedEndOfInput, 2))
  {
    var t := Units("fa");
    LiteralFirstMismatch(t, 0, FalseWord, 1, 2);
  }

  lemma FalseIncomplete3()
    ensures ParseText(Units("fal")).outcome == Failed(Failure(UnexpectedEndOfInput, 3))
  {
    var t := Units("fal");
    LiteralFirstMismatch(t, 0, FalseWord, 1, 3);
  }

  lemma FalseIncomplete4()
    ensures ParseText(Units("fals")).outcome == Failed(Failure(UnexpectedEndOfInput, 4))
  {
    var t := Units("fals");
    LiteralFirstMismatch(t, 0, FalseWord, 1, 4);
  }

  /** `false illegal character`: the first mismatch names the expected character; after the word, a character is unexpected. */
  lemma FalseIllegalCharacter()
    ensures ParseText(Units("fx")).outcome == Failed(Failure(ExpectedLiteralChar('a' as CodeUnit), 1))
    ensures ParseText(Units("fax")).outcome == Failed(Failure(ExpectedLiteralChar('l' as CodeUnit), 2))
    ensures ParseText(Units("falx")).outcome == Failed(Failure(ExpectedLiteralChar('s' as CodeUnit), 3))
    ensures ParseText(Units("falsx")).outcome == Failed(Failure(ExpectedLiteralChar('e' as CodeUnit), 4))
    ensures ParseText(Units("falsex")).outcome == Failed(Failure(UnexpectedCharacter, 5))
  {
    FalseIllegalCharacter1();
    FalseIllegalCharacter2();
    FalseIllegalCharacter3();
    FalseIllegalCharacter4();
    FalseIllegalCharacter5();
  }

  lemma FalseIllegalCharacter1()
    ensures ParseText(Units("fx")).outcome == Failed(Failure(ExpectedLiteralChar('a' as CodeUnit), 1))
  {
    var t := Units("fx");
    LiteralFirstMismatch(t, 0, FalseWord, 1, 1);
  }

  lemma FalseIllegalCharacter2()
    ensures ParseText(Units("fax")).outcome == Failed(Failure(ExpectedLiteralChar('l' as CodeUnit), 2))
  {
    var t := Units("fax");
    LiteralFirstMismatch(t, 0, FalseWord, 1, 2);
  }

  lemma FalseIllegalCharacter3()
    ensures ParseText(Units("falx")).outcome == Failed(Failure(ExpectedLiteralChar('s' as CodeUnit), 3))
  {
    var t := Units("falx");
    LiteralFirstMismatch(t, 0, FalseWord, 1, 3);
  }

  lemma FalseIllegalCharacter4()
    ensures ParseText(Units("falsx")).outcome == Failed(Failure(ExpectedLiteralChar('e' as CodeUnit), 4))
  {
    var t := Units("falsx");
    LiteralFirstMismatch(t, 0, FalseWord, 1, 4);
  }

  lemma FalseIllegalCharacter5()
    ensures ParseText(Units("falsex")).outcome == Failed(Failure(UnexpectedCharacter, 5))
  {
    var t := Units("falsex");
    LiteralFirstMismatch(t, 0, FalseWord, 1, 5);
  }
}
