/**
 * The suite's tests of valid escape sequences, as facts about the grammar:
 * the two-character escapes between spaces, and `\u` escapes with and
 * without a character after them.
 */
module EscapeCases {
  import opened Text
  import opened Wrappers
  import opened Values
  import opened Grammar
  import opened Spaced

  /** A text that is exactly one string token parses to that string. */
  lemma StringText(t: seq<CodeUnit>, s: seq<CodeUnit>)
    requires 2 <= |t| && t[0] == '"' as CodeUnit && ScanString(t, 1) == Done(s, |t|)
    ensures ParseText(t).outcome == Done(Str(s), |t|)
  {
    assert ParseValue(t, 0, 0).outcome == Done(Str(s), |t|);
    TextFromParts(t, 0, Str(s), |t|);
  }

  /** `" \x "`: a two-character escape between two spaces. */
  lemma SimpleEscapeText(t: seq<CodeUnit>)
    requires |t| == 6 && t[0] == '"' as CodeUnit && t[1] == ' ' as CodeUnit && t[2] == '\\' as CodeUnit
    requires SimpleEscape(t[3]).Some? && t[4] == ' ' as CodeUnit && t[5] == '"' as CodeUnit
    ensures ParseText(t).outcome == Done(Str([' ' as CodeUnit, SimpleEscape(t[3]).value, ' ' as CodeUnit]), 6)
  {
    var c := SimpleEscape(t[3]).value;
    var none: seq<CodeUnit> := [];
    assert ScanString(t, 5) == Done(none, 6);
    assert [' ' as CodeUnit] + none == [' ' as CodeUnit];
    assert ScanString(t, 4) == Done([' ' as CodeUnit], 6);
    assert StringUnit(t, 2) == Done(c, 4);
    assert [c] + [' ' as CodeUnit] == [c, ' ' as CodeUnit];
    assert ScanString(t, 2) == Done([c, ' ' as CodeUnit], 6);
    assert [' ' as CodeUnit] + [c, ' ' as CodeUnit] == [' ' as CodeUnit, c, ' ' as CodeUnit];
    assert ScanString(t, 1) == Done([' ' as CodeUnit, c, ' ' as CodeUnit], 6);
    StringText(t, [' ' as CodeUnit, c, ' ' as CodeUnit]);
  }

  /** `string valid escapes`: `\"` stands for a quotation mark. */
  lemma QuoteEscape()
    ensures ParseText(Units("\" \\\" \"")).outcome == Done(Str(Units(" \" ")), 6)
  {
    SimpleEscapeText(Units("\" \\\" \""));
    assert Units(" \" ") == [' ' as CodeUnit, '"' as CodeUnit, ' ' as CodeUnit];
  }

  /** `string valid escapes`: `\\` stands for a backslash. */
  lemma BackslashEscape()
    ensures ParseText(Units("\" \\\\ \"")).outcome == Done(Str(Units(" \\ ")), 6)
  {
    SimpleEscapeText(Units("\" \\\\ \""));
    assert Units(" \\ ") == [' ' as CodeUnit, '\\' as CodeUnit, ' ' as CodeUnit];
  }

  /** `string valid escapes`: `\/` stands for a solidus. */
  lemma SolidusEscape()
    ensures ParseText(Units("\" \\/ \"")).outcome == Done(Str(Units(" / ")), 6)
  {
    SimpleEscapeText(Units("\" \\/ \""));
    assert Units(" / ") == [' ' as CodeUnit, '/' as CodeUnit, ' ' as CodeUnit];
  }

  /** `string valid escapes`: `\b` stands for a backspace. */
  lemma BackspaceEscape()
    ensures ParseText(Units("\" \\b \"")).outcome == Done(Str([' ' as CodeUnit, 0x08, ' ' as CodeUnit]), 6)
  {
    SimpleEscapeText(Units("\" \\b \""));
  }

  /** `string valid escapes`: `\r` stands for a carriage return. */
  lemma ReturnEscape()
    ensures ParseText(Units("\" \\r \"")).outcome == Done(Str(Units(" \r ")), 6)
  {
    SimpleEscapeText(Units("\" \\r \""));
    assert Units(" \r ") == [' ' as CodeUnit, '\r' as CodeUnit, ' ' as CodeUnit];
  }

  /** `string valid escapes`: `\n` stands for a line feed. */
  lemma NewlineEscape()
    ensures ParseText(Units("\" \\n \"")).outcome == Done(Str(Units(" \n ")), 6)
  {
    SimpleEscapeText(Units("\" \\n \""));
    assert Units(" \n ") == [' ' as CodeUnit, '\n' as CodeUnit, ' ' as CodeUnit];
  }

  /** `string valid escapes`: `\t` stands for a tab. */
  lemma TabEscape()
    ensures ParseText(Units("\" \\t \"")).outcome == Done(Str(Units(" \t ")), 6)
  {
    SimpleEscapeText(Units("\" \\t \""));
    assert Units(" \t ") == [' ' as CodeUnit, '\t' as CodeUnit, ' ' as CodeUnit];
  }

  /** `"\\uHHHH` and then the rest of a string: the four digits stand for one code unit. */
  lemma UnicodeEscapeText(t: seq<CodeUnit>, rest: seq<CodeUnit>)
    requires 7 <= |t| && t[0] == '"' as CodeUnit && t[1] == '\\' as CodeUnit && t[2] == 'u' as CodeUnit
    requires IsHexDigit(t[3]) && IsHexDigit(t[4]) && IsHexDigit(t[5]) && IsHexDigit(t[6])
    requires ScanString(t, 7) == Done(rest, |t|)
    ensures ParseText(t).outcome == Done(Str([HexQuadAt(t, 3)] + rest), |t|)
  {
    assert HexRun(t, 3, 3) == HexRun(t, 3, 4) == None;
    assert HexRun(t, 3, 0) == HexRun(t, 3, 1) == HexRun(t, 3, 2) == None;
    assert Escape(t, 1) == Done(HexQuadAt(t, 3), 7);
    assert StringUnit(t, 1) == Done(HexQuadAt(t, 3), 7);
    assert ScanString(t, 1) == Done([HexQuadAt(t, 3)] + rest, |t|);
    StringText(t, [HexQuadAt(t, 3)] + rest);
  }

  /** `"\\uHHHH"`: a string of one code unit written as a `\\u` escape. */
  lemma LoneUnicodeEscape(t: seq<CodeUnit>)
    requires |t| == 8 && t[0] == '"' as CodeUnit && t[1] == '\\' as CodeUnit && t[2] == 'u' as CodeUnit
    requires IsHexDigit(t[3]) && IsHexDigit(t[4]) && IsHexDigit(t[5]) && IsHexDigit(t[6]) && t[7] == '"' as CodeUnit
    ensures ParseText(t).outcome == Done(Str([HexQuadAt(t, 3)]), 8)
  {
    assert ScanString(t, 7) == Done([], 8);
    assert [HexQuadAt(t, 3)] + [] == [HexQuadAt(t, 3)];
    UnicodeEscapeText(t, []);
  }

  /** `string valid unicodes`: `\\u0021` is `!`. */
  lemma ExclamationEscape()
    ensures ParseText(Units("\"\\u0021\"")).outcome == Done(Str([0x21]), 8)
  {
    var t := Units("\"\\u0021\"");
    LoneUnicodeEscape(t);
    assert HexQuadAt(t, 3) == 0x21;
  }

  /** `string valid unicodes`: `\\u4711`. */
  lemma DigitsEscape()
    ensures ParseText(Units("\"\\u4711\"")).outcome == Done(Str([0x4711]), 8)
  {
    var t := Units("\"\\u4711\"");
    LoneUnicodeEscape(t);
    assert HexQuadAt(t, 3) == 0x4711;
  }

  /** `string valid unicodes`: `\\uffff`, the largest code unit. */
  lemma LargestEscape()
    ensures ParseText(Units("\"\\uffff\"")).outcome == Done(Str([0xffff]), 8)
  {
    var t := Units("\"\\uffff\"");
    LoneUnicodeEscape(t);
    assert HexQuadAt(t, 3) == 0xffff;
  }

  /** `string valid unicodes`: `\\uabcdx`, only four digits belong to the escape. */
  lemma EscapeThenLetter()
    ensures ParseText(Units("\"\\uabcdx\"")).outcome == Done(Str([0xabcd, 'x' as CodeUnit]), 9)
  {
    var t := Units("\"\\uabcdx\"");
    var none: seq<CodeUnit> := [];
    assert ScanString(t, 8) == Done(none, 9);
    assert ['x' as CodeUnit] + none == ['x' as CodeUnit];
    assert ScanString(t, 7) == Done(['x' as CodeUnit], 9);
    UnicodeEscapeText(t, ['x' as CodeUnit]);
    assert HexQuadAt(t, 3) == 0xabcd;
    assert [0xabcd as CodeUnit] + ['x' as CodeUnit] == [0xabcd, 'x' as CodeUnit];
  }
}
