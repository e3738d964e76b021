/**
 * The parser's documented event logs and locations: for each concrete input
 * of the engine's tests, the callbacks the grammar makes, the lines the
 * recording handler logs for them, and where the handler was last called.
 */
module EventCases {
  import opened Text
  import opened Wrappers
  import opened Locations
  import opened Values
  import opened Grammar
  import opened RoundTrip
  import opened Protocol
  import opened Handlers
  import opened CharSources
  import opened Parser

  // ------------------------------------------------------------ the test fixture

  /** Where the recording handler was last called after parsing `t`: at the last callback, if any. */
  function LastLocation(t: seq<CodeUnit>): Option<Location> {
    var es := ParseText(t).events;
    if es == [] || es[|es| - 1].offset > |t| then None else Some(LocationAt(t, es[|es| - 1].offset))
  }

  /**
   * One test: a fresh recording handler and a parser over it, `parse(input)`,
   * then the handler's log and last location and the error, if one was thrown.
   */
  method ParseRecorded(input: seq<CodeUnit>) returns (log: seq<CodeUnit>, last: Option<Location>, err: Option<JsonParseError>)
    ensures log == Log(ParseText(input).events) && log == Concat(LoggedLines(ParseText(input).events))
    ensures last == LastLocation(input)
    ensures err.None? <==> ParseText(input).outcome.Done?
    ensures err.Some? ==> err.value == ErrorAt(input, ParseText(input).outcome.failure)
  {
    var handler := new FakeParserHandler();
    var parser := new JsonParser(handler);
    err := parser.Parse(input);
    ghost var r := ParseText(input);
    assert handler.events == r.events && (err.None? <==> r.outcome.Done?);
    assert r.events != [] ==> Last(r.events).offset <= |input| && handler.lastLocation == Some(LocationAt(input, Last(r.events).offset));
    log := handler.GetLog();
    last := handler.lastLocation;
  }

  /** The same through a reader read `bufferSize` code units at a time. */
  method ParseRecordedBuffered(input: seq<CodeUnit>, bufferSize: nat) returns (log: seq<CodeUnit>, last: Option<Location>, err: Option<JsonParseError>)
    requires bufferSize >= 1
    ensures log == Log(ParseText(input).events)
    ensures last == LastLocation(input)
    ensures err.None? <==> ParseText(input).outcome.Done?
    ensures err.Some? ==> err.value == ErrorAt(input, ParseText(input).outcome.failure)
  {
    var handler := new FakeParserHandler();
    var parser := new JsonParser(handler);
    err := parser.ParseReader(Chunked(input, bufferSize), bufferSize);
    ghost var r := ParseText(input);
    assert handler.events == r.events && (err.None? <==> r.outcome.Done?);
    assert r.events != [] ==> Last(r.events).offset <= |input| && handler.lastLocation == Some(LocationAt(input, Last(r.events).offset));
    log := handler.GetLog();
    last := handler.lastLocation;
  }

  /** A number text the grammar reads to its end. */
  lemma TwentyThreeText()
    ensures IsNumberText(Units("23"))
  {
    var s := Units("23");
    assert SkipDigits(s, 2) == 2;
    assert SkipDigits(s, 1) == 2;
    NumberTextScans(s);
  }

  /** The events the writer's reading of `[23]` predicts. */
  lemma ArrayEvents()
    ensures ValueEvents(Arr([Num(JsonNumber(Units("23")))]), 0) ==
      [Event(StartArray, 0), Event(StartArrayValue(ArrayHandle(0)), 1), Event(StartNumber, 1),
       Event(EndNumber(Units("23")), 3), Event(EndArrayValue(ArrayHandle(0)), 3), Event(EndArray(ArrayHandle(0)), 4)]
  {
    var n := Num(JsonNumber(Units("23")));
    assert Write(n) == Units("23");
    assert ElementEvents(n, 1, ArrayHandle(0)) ==
      [Event(StartArrayValue(ArrayHandle(0)), 1), Event(StartNumber, 1), Event(EndNumber(Units("23")), 3), Event(EndArrayValue(ArrayHandle(0)), 3)];
    assert ItemEvents([n], 1, ArrayHandle(0)) == ElementEvents(n, 1, ArrayHandle(0));
  }

  /** `parse array`: `[23]`. */
  lemma ArrayLog(t: seq<CodeUnit>)
    requires t == Units("[23]")
    ensures ParseText(t).events ==
      [Event(StartArray, 0), Event(StartArrayValue(ArrayHandle(0)), 1), Event(StartNumber, 1),
       Event(EndNumber(Units("23")), 3), Event(EndArrayValue(ArrayHandle(0)), 3), Event(EndArray(ArrayHandle(0)), 4)]
  {
    var v := Arr([Num(JsonNumber(Units("23")))]);
    TwentyThreeText();
    assert Write(v) == t;
    ParseTextEvents(v);
    ArrayEvents();
  }

  /** `events` are logged as `lines`, one by one. */
  lemma LinesAre(events: seq<Event>, lines: seq<seq<CodeUnit>>)
    requires |events| == |lines|
    requires forall k :: 0 <= k < |events| ==> LogLine(events[k]) == lines[k]
    ensures LoggedLines(events) == lines
  {
  }

  /** How the first callbacks of `[23]` are logged. */
  lemma ArrayLinesHead()
    ensures LogLine(Event(StartArray, 0)) == Units("startArray 0\n")
    ensures LogLine(Event(StartArrayValue(ArrayHandle(0)), 1)) == Units("startArrayValue [] 1\n")
    ensures LogLine(Event(StartNumber, 1)) == Units("startNumber 1\n")
  {
  }

  /** How the last callbacks of `[23]` are logged. */
  lemma ArrayLinesTail()
    ensures LogLine(Event(EndNumber(Units("23")), 3)) == Units("endNumber 23 3\n")
    ensures LogLine(Event(EndArrayValue(ArrayHandle(0)), 3)) == Units("endArrayValue [] 3\n")
    ensures LogLine(Event(EndArray(ArrayHandle(0)), 4)) == Units("endArray [] 4\n")
  {
  }

  /** The events `[23]` makes, as logged. */
  lemma ArrayLines()
    ensures LoggedLines([Event(StartArray, 0), Event(StartArrayValue(ArrayHandle(0)), 1), Event(StartNumber, 1),
       Event(EndNumber(Units("23")), 3), Event(EndArrayValue(ArrayHandle(0)), 3), Event(EndArray(ArrayHandle(0)), 4)]) ==
      [Units("startArray 0\n"), Units("startArrayValue [] 1\n"), Units("startNumber 1\n"),
       Units("endNumber 23 3\n"), Units("endArrayValue [] 3\n"), Units("endArray [] 4\n")]
  {
    ArrayLinesHead();
    ArrayLinesTail();
  }

  /** What the recording handler logs for `[23]`, line by line. */
  lemma ArrayLogLines(t: seq<CodeUnit>)
    requires t == Units("[23]")
    ensures LoggedLines(ParseText(t).events) ==
      [Units("startArray 0\n"), Units("startArrayValue [] 1\n"), Units("startNumber 1\n"),
       Units("endNumber 23 3\n"), Units("endArrayValue [] 3\n"), Units("endArray [] 4\n")]
  {
    ArrayLog(t);
    ArrayLines();
  }

  /** `parse array` as the test runs it: the recording handler's log, line by line. */
  method ArrayTest() returns (log: seq<CodeUnit>)
    ensures log == Concat([Units("startArray 0\n"), Units("startArrayValue [] 1\n"), Units("startNumber 1\n"),
      Units("endNumber 23 3\n"), Units("endArrayValue [] 3\n"), Units("endArray [] 4\n")])
  {
    var t := Units("[23]");
    ArrayLogLines(t);
    var last, err;
    log, last, err := ParseRecorded(t);
  }

  /** `parse null`. */
  lemma NullLog()
    ensures ParseText(Units("null")).events == [Event(StartNull, 0), Event(EndNull, 4)]
  {
    var v := Null;
    assert Write(v) == Units("null");
    ParseTextEvents(v);
  }

  /** `parse true`. */
  lemma TrueLog()
    ensures ParseText(Units("true")).events == [Event(StartBoolean, 0), Event(EndBoolean(true), 4)]
  {
    var v := Bool(true);
    assert Write(v) == Units("true");
    ParseTextEvents(v);
  }

  /** `parse false`. */
  lemma FalseLog()
    ensures ParseText(Units("false")).events == [Event(StartBoolean, 0), Event(EndBoolean(false), 5)]
  {
    var v := Bool(false);
    assert Write(v) == Units("false");
    ParseTextEvents(v);
  }

  /** `parse string`. */
  lemma StringLog()
    ensures ParseText(Units("\"foo\"")).events == [Event(StartString, 0), Event(EndString(Units("foo")), 5)]
  {
    var s := Units("foo");
    var v := Str(s);
    assert s[1..][1..][1..] == [];
    EscapeStringUnfold(s[1..][1..][1..]);
    EscapeStringUnfold(s[1..][1..]);
    EscapeStringUnfold(s[1..]);
    EscapeStringUnfold(s);
    assert EscapeString(s) == s;
    assert Write(v) == ['"' as CodeUnit] + s + ['"' as CodeUnit];
    assert Units("\"foo\"") == ['"' as CodeUnit] + s + ['"' as CodeUnit];
    ParseTextEvents(v);
  }

  /** `parse empty string`. */
  lemma EmptyStringLog()
    ensures ParseText(Units("\"\"")).events == [Event(StartString, 0), Event(EndString([]), 2)]
  {
  }

  /** `parse number`. */
  lemma NumberLog()
    ensures ParseText(Units("23")).events == [Event(StartNumber, 0), Event(EndNumber(Units("23")), 2)]
  {
    var v := Num(JsonNumber(Units("23")));
    TwentyThreeText();
    assert Write(v) == Units("23");
    ParseTextEvents(v);
  }

  /** `parse negative number`. */
  lemma NegativeNumberLog()
    ensures ParseText(Units("-23")).events == [Event(StartNumber, 0), Event(EndNumber(Units("-23")), 3)]
  {
    var v := Num(JsonNumber(Units("-23")));
    assert SkipDigits(Units("-23"), 3) == 3;
    assert SkipDigits(Units("-23"), 2) == 3;
    assert Write(v) == Units("-23");
    ParseTextEvents(v);
  }

  /** `parse number with exponent`. */
  lemma ExponentLog()
    ensures ParseText(Units("-2.3e-12")).events == [Event(StartNumber, 0), Event(EndNumber(Units("-2.3e-12")), 8)]
  {
    var v := Num(JsonNumber(Units("-2.3e-12")));
    var t := Units("-2.3e-12");
    assert SkipDigits(t, 8) == 8;
    assert SkipDigits(t, 7) == 8;
    assert SkipDigits(t, 6) == 8;
    assert SkipDigits(t, 4) == 4;
    assert SkipDigits(t, 2) == 2;
    assert Write(v) == Units("-2.3e-12");
    ParseTextEvents(v);
  }

  /** `parse empty array`. */
  lemma EmptyArrayLog()
    ensures ParseText(Units("[]")).events == [Event(StartArray, 0), Event(EndArray(ArrayHandle(0)), 2)]
  {
    var v := Arr([]);
    assert Write(v) == Units("[]");
    ParseTextEvents(v);
  }

  /** `parse empty object`. */
  lemma EmptyObjectLog()
    ensures ParseText(Units("{}")).events == [Event(StartObject, 0), Event(EndObject(ObjectHandle(0)), 2)]
  {
    var v := Obj([]);
    assert Write(v) == Units("{}");
    ParseTextEvents(v);
  }

  /** The name of `{"foo": 23}`: two events, and the colon read up to offset 7. */
  lemma FooName(t: seq<CodeUnit>)
    requires t == Units("{\"foo\": 23}")
    ensures ParseMemberName(t, 1, ObjectHandle(0)) ==
      Run([Event(StartObjectName(ObjectHandle(0)), 1), Event(EndObjectName(ObjectHandle(0), Units("foo")), 6)], Done(Units("foo"), 7))
  {
    assert t[2] == 'f' as CodeUnit && t[3] == 'o' as CodeUnit && t[4] == 'o' as CodeUnit && t[5] == '"' as CodeUnit;
    assert ScanString(t, 5) == Done([], 6);
    assert StringUnit(t, 4) == Done('o' as CodeUnit, 5);
    assert StringUnit(t, 3) == Done('o' as CodeUnit, 4);
    assert StringUnit(t, 2) == Done('f' as CodeUnit, 3);
    var none: seq<CodeUnit> := [];
    assert ['o' as CodeUnit] + none == ['o' as CodeUnit];
    assert ['o' as CodeUnit] + ['o' as CodeUnit] == ['o' as CodeUnit, 'o' as CodeUnit];
    assert ['f' as CodeUnit] + ['o' as CodeUnit, 'o' as CodeUnit] == Units("foo");
    assert ScanString(t, 4) == Done(['o' as CodeUnit], 6);
    assert ScanString(t, 3) == Done(['o' as CodeUnit, 'o' as CodeUnit], 6);
    assert ScanString(t, 2) == Done(Units("foo"), 6);
    assert SkipWhiteSpace(t, 1) == 1;
    assert SkipWhiteSpace(t, 6) == 6;
  }

  /** The value of `{"foo": 23}`, after the space that follows the colon. */
  lemma FooValue(t: seq<CodeUnit>)
    requires t == Units("{\"foo\": 23}")
    ensures ParseMemberValue(t, 7, 1, ObjectHandle(0), Units("foo")).events ==
      [Event(StartObjectValue(ObjectHandle(0), Units("foo")), 8), Event(StartNumber, 8), Event(EndNumber(Units("23")), 10),
       Event(EndObjectValue(ObjectHandle(0), Units("foo")), 10)]
    ensures ParseMemberValue(t, 7, 1, ObjectHandle(0), Units("foo")).outcome.Done?
    ensures ParseMemberValue(t, 7, 1, ObjectHandle(0), Units("foo")).outcome.end == 10
  {
    assert SkipWhiteSpace(t, 8) == 8;
    assert SkipWhiteSpace(t, 7) == 8;
    assert SkipDigits(t, 10) == 10;
    assert SkipDigits(t, 9) == 10;
    assert t[8..10] == Units("23");
    assert ParseValue(t, 8, 1).outcome == Done(Num(JsonNumber(Units("23"))), 10);
    ScalarEventsHold(t, 8, 1);
    assert SkipWhiteSpace(t, 10) == 10;
  }

  /** The members of `{"foo": 23}`: the member loop ends at the closing brace. */
  lemma FooMembers(t: seq<CodeUnit>)
    requires t == Units("{\"foo\": 23}")
    ensures ParseMembers(t, 1, 1, ObjectHandle(0)).events ==
      [Event(StartObjectName(ObjectHandle(0)), 1), Event(EndObjectName(ObjectHandle(0), Units("foo")), 6),
       Event(StartObjectValue(ObjectHandle(0), Units("foo")), 8), Event(StartNumber, 8), Event(EndNumber(Units("23")), 10),
       Event(EndObjectValue(ObjectHandle(0), Units("foo")), 10)]
    ensures ParseMembers(t, 1, 1, ObjectHandle(0)).outcome.Done? && ParseMembers(t, 1, 1, ObjectHandle(0)).outcome.end == 11
  {
    var h := ObjectHandle(0);
    FooName(t);
    FooValue(t);
    MemberEventsStep(t, 1, 1, h, Units("foo"), 7);
    assert Separator(t, 10, '}', ExpectedCommaOrBrace) == Done(false, 11);
    MembersEventsStep(t, 1, 1, h, 11, false);
  }

  /** `parse object`: `{"foo": 23}`. */
  lemma ObjectLog(t: seq<CodeUnit>)
    requires t == Units("{\"foo\": 23}")
    ensures ParseText(t).events ==
      [Event(StartObject, 0), Event(StartObjectName(ObjectHandle(0)), 1), Event(EndObjectName(ObjectHandle(0), Units("foo")), 6),
       Event(StartObjectValue(ObjectHandle(0), Units("foo")), 8), Event(StartNumber, 8), Event(EndNumber(Units("23")), 10),
       Event(EndObjectValue(ObjectHandle(0), Units("foo")), 10), Event(EndObject(ObjectHandle(0)), 11)]
  {
    assert t[0] == '{' as CodeUnit && t[1] == '"' as CodeUnit;
    FooMembers(t);
    ObjectEventsStep(t, 0, 0);
    TextEventsStep(t);
  }

  // ------------------------------------------------------------ locations

  /** A run of whitespace from `i` up to `j`, which is not whitespace: skipping stops at `j`. */
  lemma {:induction false} WhiteSpaceRun(t: seq<CodeUnit>, i: nat, j: nat)
    requires i <= j <= |t| && (j < |t| ==> !IsWhiteSpace(t[j]))
    requires forall k :: i <= k < j ==> IsWhiteSpace(t[k])
    ensures SkipWhiteSpace(t, i) == j
    decreases j - i
  {
    if i < j {
      WhiteSpaceRun(t, i + 1, j);
    }
  }

  /** `[`, whitespace, `]`: an empty array, and the two callbacks at its ends. */
  lemma BlankArrayEvents(t: seq<CodeUnit>)
    requires |t| >= 2 && t[0] == '[' as CodeUnit && t[|t| - 1] == ']' as CodeUnit
    requires forall k :: 1 <= k < |t| - 1 ==> IsWhiteSpace(t[k])
    ensures ParseText(t).outcome == Done(Arr([]), |t|)
    ensures ParseText(t).events == [Event(StartArray, 0), Event(EndArray(ArrayHandle(0)), |t|)]
  {
    WhiteSpaceRun(t, 1, |t| - 1);
    assert ParseArrayItems(t, 1, 1, ArrayHandle(0)) == Run([], Done([], |t|));
    assert ParseArrayContents(t, 0, 0, ArrayHandle(0)) == Run([], Done([], |t|));
    assert ParseArray(t, 0, 0) == Run([Event(StartArray, 0), Event(EndArray(ArrayHandle(0)), |t|)], Done(Arr([]), |t|));
    assert ParseValue(t, 0, 0) == Run([Event(StartArray, 0), Event(EndArray(ArrayHandle(0)), |t|)], Done(Arr([]), |t|));
    NoWhiteSpaceAt(t, 0);
  }

  /** `parse line and column on first line`: after `[]` the handler stands at 1:3. */
  lemma LocationFirstLine(t: seq<CodeUnit>)
    requires t == Units("[]")
    ensures LastLocation(t) == Some(Location(2, 1, 3))
    ensures ToString(LastLocation(t).value) == Units("1:3")
  {
    BlankArrayEvents(t);
    assert LocationAt(t, 1) == Location(1, 1, 2);
  }

  /** `parse line and column after LF`: 2:2. */
  lemma LocationAfterLF(t: seq<CodeUnit>)
    requires t == Units("[\n]")
    ensures LastLocation(t) == Some(Location(3, 2, 2))
    ensures ToString(LastLocation(t).value) == Units("2:2")
  {
    BlankArrayEvents(t);
    assert LocationAt(t, 1) == Location(1, 1, 2);
    assert LocationAt(t, 2) == Location(2, 2, 1);
  }

  /** `parse line and column after CRLF`: the CR is an ordinary column, the LF ends the line; 2:2. */
  lemma LocationAfterCRLF(t: seq<CodeUnit>)
    requires t == Units("[\r\n]")
    ensures LastLocation(t) == Some(Location(4, 2, 2))
    ensures ToString(LastLocation(t).value) == Units("2:2")
  {
    BlankArrayEvents(t);
    assert LocationAt(t, 1) == Location(1, 1, 2);
    assert LocationAt(t, 2) == Location(2, 1, 3);
    assert LocationAt(t, 3) == Location(3, 2, 1);
  }

  /** `parse line and column after CR`: a CR alone starts no line; 1:4. */
  lemma LocationAfterCR(t: seq<CodeUnit>)
    requires t == Units("[\r]")
    ensures LastLocation(t) == Some(Location(3, 1, 4))
    ensures ToString(LastLocation(t).value) == Units("1:4")
  {
    BlankArrayEvents(t);
    assert LocationAt(t, 1) == Location(1, 1, 2);
    assert LocationAt(t, 2) == Location(2, 1, 3);
  }

  /** Consuming code units that hold no line feed keeps the line. */
  lemma {:induction false} SameLine(t: seq<CodeUnit>, a: nat, b: nat)
    requires a <= b <= |t| && forall k :: a <= k < b ==> t[k] != LF
    ensures LocationAt(t, b).line == LocationAt(t, a).line
    decreases b - a
  {
    if a < b {
      SameLine(t, a, b - 1);
    }
  }

  /** Two digits, the first not zero, and then no digit, point or exponent marker: a number value ending after them. */
  lemma TwoDigitNumber(t: seq<CodeUnit>, i: nat, d: nat)
    requires i + 2 < |t| && '1' as CodeUnit <= t[i] <= '9' as CodeUnit && IsDigit(t[i + 1])
    requires !IsDigit(t[i + 2]) && t[i + 2] != '.' as CodeUnit && t[i + 2] != 'e' as CodeUnit && t[i + 2] != 'E' as CodeUnit
    ensures ParseValue(t, i, d).outcome == Done(Num(JsonNumber(t[i..i + 2])), i + 2)
  {
    assert SkipDigits(t, i + 2) == i + 2;
    assert SkipDigits(t, i + 1) == i + 2;
  }

  /**
   * A member laid out as in the buffered test: whitespace from `i` to `q`,
   * a one-letter name, a colon, a space, a two-digit number, and a comma.
   */
  lemma SpacedMember(t: seq<CodeUnit>, i: nat, q: nat, d: nat, h: Handle)
    requires i <= q && q + 8 <= |t| && forall k :: i <= k < q ==> IsWhiteSpace(t[k])
    requires t[q] == '"' as CodeUnit && 'a' as CodeUnit <= t[q + 1] <= 'z' as CodeUnit && t[q + 2] == '"' as CodeUnit
    requires t[q + 3] == ':' as CodeUnit && t[q + 4] == ' ' as CodeUnit
    requires '1' as CodeUnit <= t[q + 5] <= '9' as CodeUnit && IsDigit(t[q + 6]) && t[q + 7] == ',' as CodeUnit
    ensures ParseSeparatedMember(t, i, d, h).outcome ==
      Done((Member([t[q + 1]], Num(JsonNumber(t[q + 5..q + 7]))), true), q + 8)
  {
    WhiteSpaceRun(t, i, q);
    var none: seq<CodeUnit> := [];
    assert [t[q + 1]] + none == [t[q + 1]];
    assert ScanString(t, q + 1) == Done([t[q + 1]], q + 3);
    NoWhiteSpaceAt(t, q + 3);
    assert ParseMemberName(t, i, h).outcome == Done([t[q + 1]], q + 4);
    assert SkipWhiteSpace(t, q + 5) == q + 5;
    TwoDigitNumber(t, q + 5, d);
    NoWhiteSpaceAt(t, q + 7);
    assert ParseMemberValue(t, q + 4, d, h, [t[q + 1]]).outcome == Done(Num(JsonNumber(t[q + 5..q + 7])), q + 7);
    MemberStep(t, i, d, h, [t[q + 1]], q + 4, Num(JsonNumber(t[q + 5..q + 7])), q + 7);
  }

  /** Where the buffered test's error stands: line 4, column 1, just after the third line feed. */
  lemma BufferedLocation(t: seq<CodeUnit>)
    requires t == Units("{\n  \"a\": 23,\n  \"b\": 42,\n}")
    ensures LocationAt(t, 24) == Location(24, 4, 1)
  {
    assert t[1] == LF && t[12] == LF && t[23] == LF;
    assert LocationAt(t, 1) == Location(1, 1, 2);
    assert LocationAt(t, 2).line == 2;
    assert forall k :: 2 <= k < 12 ==> t[k] != LF;
    SameLine(t, 2, 12);
    assert LocationAt(t, 13).line == 3;
    assert forall k :: 13 <= k < 23 ==> t[k] != LF;
    SameLine(t, 13, 23);
  }

  /** The buffered test's first member, `"a": 23`, and its comma. */
  lemma BufferedFirstMember(t: seq<CodeUnit>)
    requires t == Units("{\n  \"a\": 23,\n  \"b\": 42,\n}")
    ensures ParseSeparatedMember(t, 4, 1, ObjectHandle(0)).outcome == Done((Member([t[5]], Num(JsonNumber(t[9..11]))), true), 12)
  {
    SpacedMember(t, 4, 4, 1, ObjectHandle(0));
  }

  /** The buffered test's second member, `"b": 42` after a line feed and two spaces, and its comma. */
  lemma BufferedSecondMember(t: seq<CodeUnit>)
    requires t == Units("{\n  \"a\": 23,\n  \"b\": 42,\n}")
    ensures ParseSeparatedMember(t, 12, 1, ObjectHandle(0)).outcome == Done((Member([t[16]], Num(JsonNumber(t[20..22]))), true), 23)
  {
    SpacedMember(t, 12, 15, 1, ObjectHandle(0));
  }

  /** After the buffered test's second comma, the line feed is skipped and `}` stands where a name should. */
  lemma BufferedMissingName(t: seq<CodeUnit>)
    requires t == Units("{\n  \"a\": 23,\n  \"b\": 42,\n}")
    ensures ParseMembers(t, 23, 1, ObjectHandle(0)).outcome == Failed(Failure(ExpectedName, 24))
  {
    var h := ObjectHandle(0);
    var f := Failure(ExpectedName, 24);
    assert ParseMember(t, 23, 1, h).outcome == Failed(f) by {
      WhiteSpaceRun(t, 23, 24);
    }
    FirstMemberFails(t, 23, 1, h, f);
  }

  /** The buffered test's members: two parse, and the name expected after the second comma is missing. */
  lemma BufferedMembers(t: seq<CodeUnit>)
    requires t == Units("{\n  \"a\": 23,\n  \"b\": 42,\n}")
    ensures ParseMembers(t, 4, 1, ObjectHandle(0)).outcome == Failed(Failure(ExpectedName, 24))
  {
    var h := ObjectHandle(0);
    var f := Failure(ExpectedName, 24);
    BufferedFirstMember(t);
    BufferedSecondMember(t);
    BufferedMissingName(t);
    LaterMemberFails(t, 12, 1, h, Member([t[16]], Num(JsonNumber(t[20..22]))), 23, f);
    LaterMemberFails(t, 4, 1, h, Member([t[5]], Num(JsonNumber(t[9..11]))), 12, f);
  }

  /** The buffered test's text fails where the name after the trailing comma should stand. */
  lemma BufferedFailure(t: seq<CodeUnit>)
    requires t == Units("{\n  \"a\": 23,\n  \"b\": 42,\n}")
    ensures ParseText(t).outcome == Failed(Failure(ExpectedName, 24))
  {
    var h := ObjectHandle(0);
    var f := Failure(ExpectedName, 24);
    BufferedMembers(t);
    WhiteSpaceRun(t, 1, 4);
    assert !At(t, 4, '}');
    assert ParseObjectItems(t, 1, 1, h).outcome == Failed(f);
    assert ParseObjectContents(t, 0, 0, h).outcome == Failed(f);
    assert ParseValue(t, 0, 0).outcome == Failed(f);
    NoWhiteSpaceAt(t, 0);
  }

  /**
   * `parse handles position correctly when input exceeds buffer size`: the
   * parse through a buffer of three code units fails with "Expected name" at
   * offset 24, line 4, column 1.
   */
  method BufferedPosition(t: seq<CodeUnit>) returns (err: Option<JsonParseError>)
    requires t == Units("{\n  \"a\": 23,\n  \"b\": 42,\n}")
    ensures err == Some(JsonParseError(ExpectedName, Location(24, 4, 1)))
  {
    BufferedFailure(t);
    BufferedLocation(t);
    var log, last;
    log, last, err := ParseRecordedBuffered(t, 3);
  }
}
