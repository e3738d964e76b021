/**
 * The whitespace tests of the parser's suite, as facts about the grammar:
 * each input is a value's spaced text with whitespace around it, or is
 * taken apart token by token where its spacing is uneven.
 */
module WhitespaceCases {
  import opened Text
  import opened Wrappers
  import opened Values
  import opened Grammar
  import opened RoundTrip
  import opened Spaced

  /** A two-digit number without a leading zero is a number text. */
  lemma TwoDigitText(s: seq<CodeUnit>)
    requires |s| == 2 && '1' as CodeUnit <= s[0] <= '9' as CodeUnit && IsDigit(s[1])
    ensures IsNumberText(s)
  {
    assert SkipDigits(s, 2) == 2;
    assert SkipDigits(s, 1) == 2;
    NumberTextScans(s);
  }

  /** An empty array with the same whitespace around and inside it. */
  lemma PaddedEmpty(ws: seq<CodeUnit>)
    requires Blank(ws)
    ensures var t := ws + ['[' as CodeUnit] + ws + [']' as CodeUnit] + ws;
      ParseText(t).outcome == Done(Arr([]), |t|)
  {
    assert ws + ['[' as CodeUnit] + ws + [']' as CodeUnit] + ws == ws + WriteSpaced(Arr([]), ws) + ws;
    SpacedTextParses(Arr([]), ws, ws, ws);
  }

  /** `parse strips padding`: ` [ ] `. */
  lemma PaddedEmptyArray()
    ensures ParseText(Units(" [ ] ")).outcome == Done(Arr([]), 5)
  {
    var sp := Units(" ");
    assert Units(" [ ] ") == sp + ['[' as CodeUnit] + sp + [']' as CodeUnit] + sp;
    PaddedEmpty(sp);
  }

  /** `parse ignores all whitespace`: tabs, carriage returns, line feeds and spaces. */
  lemma AllWhiteSpaceEmptyArray()
    ensures ParseText(Units("\t\r\n [\t\r\n ]\t\r\n ")).outcome == Done(Arr([]), 14)
  {
    var ws := Units("\t\r\n ");
    assert Blank(ws);
    assert Units("\t\r\n [\t\r\n ]\t\r\n ") == ws + ['[' as CodeUnit] + ws + [']' as CodeUnit] + ws;
    PaddedEmpty(ws);
  }

  /** `[23,42]`, the text its `toString()` is compared with, is the value's compact text. */
  lemma TwoNumbersWritten(a: seq<CodeUnit>, b: seq<CodeUnit>)
    ensures Write(Arr([Num(JsonNumber(a)), Num(JsonNumber(b))])) == ['[' as CodeUnit] + a + [',' as CodeUnit] + b + [']' as CodeUnit]
  {
    var x, y := Num(JsonNumber(a)), Num(JsonNumber(b));
    assert [x, y][0] == x && [x, y][1..] == [y] && [y][0] == y;
    assert WriteItems([y]) == b;
    assert WriteItems([x, y]) == a + [',' as CodeUnit] + b;
  }

  /** The spaced text of a two-element array, element by element. */
  lemma TwoItemsSpaced(x: JsonValue, y: JsonValue, ws: seq<CodeUnit>)
    ensures WriteSpaced(Arr([x, y]), ws) ==
      ['[' as CodeUnit] + (ws + WriteSpaced(x, ws) + ws) + [',' as CodeUnit] + (ws + WriteSpaced(y, ws) + ws) + [']' as CodeUnit]
  {
    TwoSpacedItems(x, y, ws);
  }

  lemma TwoSpacedItems(x: JsonValue, y: JsonValue, ws: seq<CodeUnit>)
    ensures SpacedItems([x, y], ws) == (ws + WriteSpaced(x, ws) + ws) + [',' as CodeUnit] + (ws + WriteSpaced(y, ws) + ws)
  {
    assert [x, y][0] == x && [x, y][1..] == [y] && [y][0] == y;
    assert SpacedItems([y], ws) == ws + WriteSpaced(y, ws) + ws;
  }

  /** A two-element array's spaced text parses to the array. */
  lemma TwoItemsParse(x: JsonValue, y: JsonValue, ws: seq<CodeUnit>)
    requires Writable(x) && Writable(y) && Depth(x) < MaxNestingLevel && Depth(y) < MaxNestingLevel && Blank(ws)
    ensures var t := WriteSpaced(Arr([x, y]), ws); ParseText(t).outcome == Done(Arr([x, y]), |t|)
  {
    assert [x, y][0] == x && [x, y][1..] == [y] && [y][0] == y && [y][1..] == [];
    assert WritableItems([]) && ItemsDepth([]) == 0;
    assert WritableItems([y]) && ItemsDepth([y]) == Depth(y);
    assert ItemsDepth([x, y]) == if Depth(x) < Depth(y) then Depth(y) else Depth(x);
    assert WritableItems([x, y]);
    var t := WriteSpaced(Arr([x, y]), ws);
    assert [] + t + [] == t;
    SpacedTextParses(Arr([x, y]), ws, [], []);
  }

  /** The two texts of `array whitespaces`, token by token. */
  lemma SpacedArrayText()
    ensures var sp := Units(" ");
      Units("[ 23 , 42 ]") == ['[' as CodeUnit] + (sp + Units("23") + sp) + [',' as CodeUnit] + (sp + Units("42") + sp) + [']' as CodeUnit]
  {
  }

  lemma CompactArrayText()
    ensures Units("[23,42]") == ['[' as CodeUnit] + Units("23") + [',' as CodeUnit] + Units("42") + [']' as CodeUnit]
  {
  }

  /** `array whitespaces`: `[ 23 , 42 ]` holds the values of `[23,42]`. */
  lemma SpacedArray()
    ensures var v := Arr([Num(JsonNumber(Units("23"))), Num(JsonNumber(Units("42")))]);
      ParseText(Units("[ 23 , 42 ]")).outcome == Done(v, 11) && Write(v) == Units("[23,42]")
  {
    var a, b := Num(JsonNumber(Units("23"))), Num(JsonNumber(Units("42")));
    TwoDigitText(Units("23"));
    TwoDigitText(Units("42"));
    TwoItemsSpaced(a, b, Units(" "));
    SpacedArrayText();
    TwoItemsParse(a, b, Units(" "));
    TwoNumbersWritten(Units("23"), Units("42"));
    CompactArrayText();
  }

  /**
   * An object whose first member is written with whitespace around its name
   * and after its colon but none before its comma, and whose second member is
   * padded throughout: the shape of `object whitespace`.
   */
  function UnevenObject(n1: seq<CodeUnit>, v1: JsonValue, m2: Member, ws: seq<CodeUnit>): seq<CodeUnit> {
    ['{' as CodeUnit] + ws + WriteString(n1) + ws + [':' as CodeUnit] + ws + Write(v1) + [',' as CodeUnit] + SpacedMember(m2, ws) + ['}' as CodeUnit]
  }

  /** Where each token of an uneven object lies in a text `t`. */
  predicate UnevenAt(t: seq<CodeUnit>, n1: seq<CodeUnit>, v1: JsonValue, m2: Member, ws: seq<CodeUnit>) {
    var q := 1 + |ws|; var e := q + |WriteString(n1)|; var c := e + |ws|; var k := c + 1 + |ws|;
    var a := k + |Write(v1)|; var b := a + 1 + |SpacedMember(m2, ws)|;
    |t| == b + 1 && t[0] == '{' as CodeUnit && Holds(t, 1, ws) && Holds(t, q, WriteString(n1)) && Holds(t, e, ws) &&
    t[c] == ':' as CodeUnit && Holds(t, c + 1, ws) && Holds(t, k, Write(v1)) && t[a] == ',' as CodeUnit &&
    Holds(t, a + 1, SpacedMember(m2, ws)) && t[b] == '}' as CodeUnit
  }

  lemma UnevenLayout(n1: seq<CodeUnit>, v1: JsonValue, m2: Member, ws: seq<CodeUnit>)
    ensures UnevenAt(UnevenObject(n1, v1, m2, ws), n1, v1, m2, ws)
  {
    var t := UnevenObject(n1, v1, m2, ws);
    var open, name, colon, comma, close := ['{' as CodeUnit], WriteString(n1), [':' as CodeUnit], [',' as CodeUnit], ['}' as CodeUnit];
    var s1 := open + ws;
    var s2 := s1 + name;
    var s3 := s2 + ws;
    var s4 := s3 + colon;
    var s5 := s4 + ws;
    var s6 := s5 + Write(v1);
    var s7 := s6 + comma;
    var s8 := s7 + SpacedMember(m2, ws);
    assert t == s8 + close;
    assert Holds(t, 0, t) by {
      Unfold(t, 0, t);
      assert t[0..|t|] == t;
    }
    HoldsSplit(t, 0, s8, close);
    HoldsSplit(t, 0, s7, SpacedMember(m2, ws));
    HoldsSplit(t, 0, s6, comma);
    HoldsSplit(t, 0, s5, Write(v1));
    HoldsSplit(t, 0, s4, ws);
    HoldsSplit(t, 0, s3, colon);
    HoldsSplit(t, 0, s2, ws);
    HoldsSplit(t, 0, s1, name);
    HoldsSplit(t, 0, open, ws);
    HoldsAt(t, 0, open, 0);
    HoldsAt(t, |s3|, colon, 0);
    HoldsAt(t, |s6|, comma, 0);
    HoldsAt(t, |s8|, close, 0);
  }

  /** The name of the first member of an uneven object, and the colon after it. */
  lemma UnevenFirstName(t: seq<CodeUnit>, n1: seq<CodeUnit>, v1: JsonValue, m2: Member, ws: seq<CodeUnit>)
    requires UnevenAt(t, n1, v1, m2, ws) && Blank(ws)
    ensures ParseMemberName(t, 1 + |ws|, ObjectHandle(0)).outcome == Done(n1, 1 + |ws| + |WriteString(n1)| + |ws| + 1)
  {
    SpacedMemberNameRoundTrip(t, 1, 1 + |ws|, ObjectHandle(0), n1, ws);
  }

  /** The value of the first member of an uneven object, read up to the comma. */
  lemma UnevenFirstValue(t: seq<CodeUnit>, n1: seq<CodeUnit>, v1: JsonValue, m2: Member, ws: seq<CodeUnit>)
    requires UnevenAt(t, n1, v1, m2, ws) && Writable(v1) && Depth(v1) < MaxNestingLevel && Blank(ws)
    ensures var n := 1 + |ws| + |WriteString(n1)| + |ws| + 1;
      ParseMemberValue(t, n, 1, ObjectHandle(0), n1).outcome == Done(v1, n + |ws| + |Write(v1)|)
  {
    var n := 1 + |ws| + |WriteString(n1)| + |ws| + 1;
    var k := n + |ws|;
    var a := k + |Write(v1)|;
    WriteStart(v1);
    HoldsAt(t, k, Write(v1), 0);
    SkipBlank(t, n, ws, n);
    ValueRoundTrip(t, k, 1, v1);
    NoWhiteSpaceAt(t, a);
    MemberValueFromParts(t, n, 1, ObjectHandle(0), n1, k, v1, a, a);
  }

  /** The first member of an uneven object, and the comma after it. */
  lemma UnevenFirst(t: seq<CodeUnit>, n1: seq<CodeUnit>, v1: JsonValue, m2: Member, ws: seq<CodeUnit>)
    requires UnevenAt(t, n1, v1, m2, ws) && Writable(v1) && Depth(v1) < MaxNestingLevel && Blank(ws)
    ensures ParseSeparatedMember(t, 1 + |ws|, 1, ObjectHandle(0)).outcome == Done((Member(n1, v1), true), SecondAt(n1, v1, ws))
  {
    var q := 1 + |ws|;
    var n := q + |WriteString(n1)| + |ws| + 1;
    var a := n + |ws| + |Write(v1)|;
    UnevenFirstName(t, n1, v1, m2, ws);
    UnevenFirstValue(t, n1, v1, m2, ws);
    MemberStep(t, q, 1, ObjectHandle(0), n1, n, v1, a);
    SeparatedMemberStep(t, q, 1, ObjectHandle(0), Member(n1, v1), a, true);
  }

  /** A padded member closed by `}`. */
  lemma LastSpacedMember(t: seq<CodeUnit>, i: nat, d: nat, h: Handle, m: Member, ws: seq<CodeUnit>)
    requires Writable(m.value) && d + Depth(m.value) <= MaxNestingLevel && Blank(ws) && Holds(t, i, SpacedMember(m, ws))
    requires i + |SpacedMember(m, ws)| < |t| && t[i + |SpacedMember(m, ws)|] == '}' as CodeUnit
    ensures ParseSeparatedMember(t, i, d, h).outcome == Done((m, false), i + |SpacedMember(m, ws)| + 1)
  {
    SpacedSeparatedMemberRoundTrip(t, i, i, d, h, m, ws, false);
  }

  /** Where the second member of an uneven object starts. */
  function SecondAt(n1: seq<CodeUnit>, v1: JsonValue, ws: seq<CodeUnit>): nat {
    1 + |ws| + |WriteString(n1)| + |ws| + 1 + |ws| + |Write(v1)| + 1
  }

  /** Where the second member of an uneven object and its closing brace lie. */
  lemma UnevenClose(t: seq<CodeUnit>, n1: seq<CodeUnit>, v1: JsonValue, m2: Member, ws: seq<CodeUnit>)
    requires UnevenAt(t, n1, v1, m2, ws)
    ensures var i := SecondAt(n1, v1, ws);
      Holds(t, i, SpacedMember(m2, ws)) && i + |SpacedMember(m2, ws)| < |t| && t[i + |SpacedMember(m2, ws)|] == '}' as CodeUnit
  {
  }

  /** The second member of an uneven object, and the closing brace after it. */
  lemma UnevenSecond(t: seq<CodeUnit>, n1: seq<CodeUnit>, v1: JsonValue, m2: Member, ws: seq<CodeUnit>)
    requires UnevenAt(t, n1, v1, m2, ws) && Writable(m2.value) && Depth(m2.value) < MaxNestingLevel && Blank(ws)
    ensures SecondAt(n1, v1, ws) < |t| && ParseSeparatedMember(t, SecondAt(n1, v1, ws), 1, ObjectHandle(0)).outcome == Done((m2, false), |t|)
  {
    UnevenClose(t, n1, v1, m2, ws);
    LastSpacedMember(t, SecondAt(n1, v1, ws), 1, ObjectHandle(0), m2, ws);
  }

  /** Two members, the first followed by a comma and the second by the closing brace. */
  lemma TwoMembers(t: seq<CodeUnit>, q: nat, d: nat, h: Handle, m1: Member, i: nat, m2: Member, e: nat)
    requires q <= |t| && ParseSeparatedMember(t, q, d, h).outcome == Done((m1, true), i)
    requires i <= |t| && ParseSeparatedMember(t, i, d, h).outcome == Done((m2, false), e)
    ensures ParseMembers(t, q, d, h).outcome == Done([m1, m2], e)
  {
    MembersStep(t, i, d, h, m2, e, false, [], 0);
    MembersStep(t, q, d, h, m1, i, true, [m2], e);
    assert [m1] + [m2] == [m1, m2];
  }

  /** An object of two members, the first followed by a comma and the second by the closing brace, is a whole text. */
  lemma TwoMemberText(t: seq<CodeUnit>, q: nat, m1: Member, i: nat, m2: Member)
    requires 1 <= q < |t| && t[0] == '{' as CodeUnit && SkipWhiteSpace(t, 1) == q && t[q] != '}' as CodeUnit
    requires ParseSeparatedMember(t, q, 1, ObjectHandle(0)).outcome == Done((m1, true), i)
    requires i <= |t| && ParseSeparatedMember(t, i, 1, ObjectHandle(0)).outcome == Done((m2, false), |t|)
    ensures ParseText(t).outcome == Done(Obj([m1, m2]), |t|)
  {
    var h := ObjectHandle(0);
    TwoMembers(t, q, 1, h, m1, i, m2, |t|);
    MembersAfterBlank(t, 1, 1, h, q, [m1, m2], |t|);
    ObjectFromMembers(t, 0, 0, [m1, m2], |t|);
    NoWhiteSpaceAt(t, 0);
    TextFromParts(t, 0, Obj([m1, m2]), |t|);
  }

  /** An uneven object of two members parses to its value. */
  lemma UnevenObjectParses(n1: seq<CodeUnit>, v1: JsonValue, m2: Member, ws: seq<CodeUnit>)
    requires Writable(v1) && Writable(m2.value) && Depth(v1) < MaxNestingLevel && Depth(m2.value) < MaxNestingLevel && Blank(ws)
    ensures var t := UnevenObject(n1, v1, m2, ws);
      ParseText(t).outcome == Done(Obj([Member(n1, v1), m2]), |t|)
  {
    var t := UnevenObject(n1, v1, m2, ws);
    UnevenLayout(n1, v1, m2, ws);
    UnevenText(t, n1, v1, m2, ws);
  }

  /** An uneven object opens with `{` and whitespace, and then its first name. */
  lemma UnevenHead(t: seq<CodeUnit>, n1: seq<CodeUnit>, v1: JsonValue, m2: Member, ws: seq<CodeUnit>)
    requires UnevenAt(t, n1, v1, m2, ws) && Blank(ws)
    ensures 1 + |ws| < |t| && t[0] == '{' as CodeUnit && SkipWhiteSpace(t, 1) == 1 + |ws| && t[1 + |ws|] != '}' as CodeUnit
  {
    HoldsAt(t, 1 + |ws|, WriteString(n1), 0);
    SkipBlank(t, 1, ws, 1);
  }

  lemma UnevenText(t: seq<CodeUnit>, n1: seq<CodeUnit>, v1: JsonValue, m2: Member, ws: seq<CodeUnit>)
    requires UnevenAt(t, n1, v1, m2, ws)
    requires Writable(v1) && Writable(m2.value) && Depth(v1) < MaxNestingLevel && Depth(m2.value) < MaxNestingLevel && Blank(ws)
    ensures ParseText(t).outcome == Done(Obj([Member(n1, v1), m2]), |t|)
  {
    UnevenHead(t, n1, v1, m2, ws);
    UnevenFirst(t, n1, v1, m2, ws);
    UnevenSecond(t, n1, v1, m2, ws);
    TwoMemberText(t, 1 + |ws|, Member(n1, v1), SecondAt(n1, v1, ws), m2);
  }

  /** A name of three plain characters is written as itself between quotes. */
  lemma PlainName(s: seq<CodeUnit>)
    requires |s| == 3 && forall k :: 0 <= k < 3 ==> EscapeUnit(s[k]) == [s[k]]
    ensures WriteString(s) == ['"' as CodeUnit] + s + ['"' as CodeUnit]
  {
    assert s[1..][1..][1..] == [];
    EscapeStringUnfold(s[1..][1..][1..]);
    EscapeStringUnfold(s[1..][1..]);
    EscapeStringUnfold(s[1..]);
    EscapeStringUnfold(s);
    assert EscapeString(s) == [s[0]] + [s[1]] + [s[2]];
  }

  /** The compact text of a two-member object, member by member. */
  lemma TwoMembersWritten(m1: Member, m2: Member)
    ensures Write(Obj([m1, m2])) == ['{' as CodeUnit] + WriteMember(m1) + [',' as CodeUnit] + WriteMember(m2) + ['}' as CodeUnit]
  {
    assert [m1, m2][0] == m1 && [m1, m2][1..] == [m2] && [m2][0] == m2;
    assert WriteMembers([m2]) == WriteMember(m2);
  }

  /** The pieces of `object whitespace`'s input. */
  lemma SpacedObjectText()
    ensures var sp := Units(" ");
      Units("{ \"foo\" : 23, \"bar\" : 42 }") ==
        ['{' as CodeUnit] + sp + Units("\"foo\"") + sp + [':' as CodeUnit] + sp + Units("23") + [',' as CodeUnit] +
        (sp + Units("\"bar\"") + sp + [':' as CodeUnit] + sp + Units("42") + sp) + ['}' as CodeUnit]
  {
    assert "{ \"foo\" : 23, \"bar\" : 42 }" == "{ \"foo\" : 23," + " \"bar\" : 42 }";
    UnitsConcat("{ \"foo\" : 23,", " \"bar\" : 42 }");
    SpacedObjectHead();
    SpacedObjectTail();
  }

  lemma SpacedObjectHead()
    ensures var sp := Units(" ");
      Units("{ \"foo\" : 23,") == ['{' as CodeUnit] + sp + Units("\"foo\"") + sp + [':' as CodeUnit] + sp + Units("23") + [',' as CodeUnit]
  {
  }

  lemma SpacedObjectTail()
    ensures var sp := Units(" ");
      Units(" \"bar\" : 42 }") == (sp + Units("\"bar\"") + sp + [':' as CodeUnit] + sp + Units("42") + sp) + ['}' as CodeUnit]
  {
  }

  /** The pieces of `object whitespace`'s expected `toString()`. */
  lemma CompactObjectText()
    ensures Units("{\"foo\":23,\"bar\":42}") ==
      ['{' as CodeUnit] + (Units("\"foo\"") + [':' as CodeUnit] + Units("23")) + [',' as CodeUnit] +
      (Units("\"bar\"") + [':' as CodeUnit] + Units("42")) + ['}' as CodeUnit]
  {
  }

  /** The names of `object whitespace`. */
  lemma FooBarNames()
    ensures WriteString(Units("foo")) == Units("\"foo\"") && WriteString(Units("bar")) == Units("\"bar\"")
  {
    PlainName(Units("foo"));
    PlainName(Units("bar"));
    assert Units("\"foo\"") == ['"' as CodeUnit] + Units("foo") + ['"' as CodeUnit];
    assert Units("\"bar\"") == ['"' as CodeUnit] + Units("bar") + ['"' as CodeUnit];
  }

  /** `object whitespace`: `{ "foo" : 23, "bar" : 42 }` holds the members of `{"foo":23,"bar":42}`. */
  lemma SpacedObject()
    ensures var v := Obj([Member(Units("foo"), Num(JsonNumber(Units("23")))), Member(Units("bar"), Num(JsonNumber(Units("42"))))]);
      ParseText(Units("{ \"foo\" : 23, \"bar\" : 42 }")).outcome == Done(v, 26) && Write(v) == Units("{\"foo\":23,\"bar\":42}")
  {
    var a, b := Num(JsonNumber(Units("23"))), Num(JsonNumber(Units("42")));
    var m1, m2 := Member(Units("foo"), a), Member(Units("bar"), b);
    var sp := Units(" ");
    TwoDigitText(Units("23"));
    TwoDigitText(Units("42"));
    FooBarNames();
    SpacedObjectText();
    assert SpacedMember(m2, sp) == sp + Units("\"bar\"") + sp + [':' as CodeUnit] + sp + Units("42") + sp;
    assert Units("{ \"foo\" : 23, \"bar\" : 42 }") == UnevenObject(Units("foo"), a, m2, sp);
    UnevenObjectParses(Units("foo"), a, m2, sp);
    TwoMembersWritten(m1, m2);
    CompactObjectText();
  }
}
