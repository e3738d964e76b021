/**
 * The parser engine's behaviour as pure functions over the whole input `t`:
 * which handler events it emits (each with the offset of the live location at
 * the moment of the call), where each construct ends, and the first failure
 * with its kind and offset. The functions follow the engine's recursive
 * descent one production at a time and look at most one code unit ahead.
 * The value each production yields is the tree the default handler builds
 * from those events; it is what the round-trip properties talk about.
 *
 * The imperative engine in module Parser is proved to produce exactly these
 * events and failures.
 */
module Grammar {
  import opened Text
  import opened Wrappers
  import opened Values

  /** Deepest array/object nesting the engine accepts. */
  const MaxNestingLevel: nat := 1000

  datatype ErrorKind =
    | UnexpectedEndOfInput
    | UnexpectedCharacter
    | ExpectedValue
    | ExpectedName
    | ExpectedDigit
    | ExpectedHexDigit
    | ExpectedValidEscapeSequence
    | ExpectedValidStringCharacter
    | ExpectedLiteralChar(expected: CodeUnit)
    | ExpectedColon
    | ExpectedCommaOrBracket
    | ExpectedCommaOrBrace
    | NestingTooDeep

  /** The verbatim message text of each failure kind. */
  function Message(k: ErrorKind): seq<CodeUnit> {
    match k
    case UnexpectedEndOfInput => Units("Unexpected end of input")
    case UnexpectedCharacter => Units("Unexpected character")
    case ExpectedValue => Units("Expected value")
    case ExpectedName => Units("Expected name")
    case ExpectedDigit => Units("Expected digit")
    case ExpectedHexDigit => Units("Expected hexadecimal digit")
    case ExpectedValidEscapeSequence => Units("Expected valid escape sequence")
    case ExpectedValidStringCharacter => Units("Expected valid string character")
    case ExpectedLiteralChar(c) => Units("Expected '") + [c] + Units("'")
    case ExpectedColon => Units("Expected ':'")
    case ExpectedCommaOrBracket => Units("Expected ',' or ']'")
    case ExpectedCommaOrBrace => Units("Expected ',' or '}'")
    case NestingTooDeep => Units("Nesting too deep")
  }

  /** A failure: its kind and the offset of the first offending code unit. */
  datatype Failure = Failure(kind: ErrorKind, offset: nat)

  /**
   * The container handle a handler returns from `startArray`/`startObject`.
   * The test handler returns a new empty container on every call; its
   * identity is represented by the offset of the `startArray`/`startObject`
   * event that created it, which no other container shares.
   */
  datatype Handle = ArrayHandle(id: nat) | ObjectHandle(id: nat)

  datatype EventKind =
    | StartNull | EndNull
    | StartBoolean | EndBoolean(truth: bool)
    | StartString | EndString(chars: seq<CodeUnit>)
    | StartNumber | EndNumber(text: seq<CodeUnit>)
    | StartArray | EndArray(array: Handle)
    | StartArrayValue(array: Handle) | EndArrayValue(array: Handle)
    | StartObject | EndObject(obj: Handle)
    | StartObjectName(obj: Handle) | EndObjectName(obj: Handle, name: seq<CodeUnit>)
    | StartObjectValue(obj: Handle, name: seq<CodeUnit>) | EndObjectValue(obj: Handle, name: seq<CodeUnit>)

  /** One handler call and the offset of the parser's location when it was made. */
  datatype Event = Event(kind: EventKind, offset: nat)

  /** A production either ends at `end` (exclusive) with a value, or fails. */
  datatype Outcome<T> = Done(value: T, end: nat) | Failed(failure: Failure)

  /** The events a production emits, including those emitted before a failure. */
  datatype Run<T> = Run(events: seq<Event>, outcome: Outcome<T>)

  /** Space, tab, line feed and carriage return: the only insignificant characters. */
  predicate IsWhiteSpace(c: CodeUnit) {
    c == ' ' as CodeUnit || c == '\t' as CodeUnit || c == '\n' as CodeUnit || c == '\r' as CodeUnit
  }

  /** The lookahead at `i` is `c` (false at end of input). */
  predicate At(t: seq<CodeUnit>, i: nat, c: char)
    requires (c as int) < 0x1_0000
  {
    i < |t| && t[i] == c as CodeUnit
  }

  predicate DigitAt(t: seq<CodeUnit>, i: nat) {
    i < |t| && IsDigit(t[i])
  }

  /** The engine's `expected(...)`: at end of input every expectation reads as "Unexpected end of input". */
  function Expected(t: seq<CodeUnit>, i: nat, k: ErrorKind): Failure {
    Failure(if i < |t| then k else UnexpectedEndOfInput, i)
  }

  /** A successful production consumed something and stayed inside the input; a failure lies in [i, n]. */
  predicate Within<T>(o: Outcome<T>, i: nat, n: nat) {
    match o
    case Done(_, e) => i < e <= n
    case Failed(f) => i <= f.offset <= n
  }

  // ---------------------------------------------------------------- whitespace

  function SkipWhiteSpace(t: seq<CodeUnit>, i: nat): (j: nat)
    requires i <= |t|
    ensures i <= j <= |t|
    ensures forall k {:trigger IsWhiteSpace(t[k])} :: i <= k < j ==> IsWhiteSpace(t[k])
    ensures j < |t| ==> !IsWhiteSpace(t[j])
    decreases |t| - i
  {
    if i < |t| && IsWhiteSpace(t[i]) then SkipWhiteSpace(t, i + 1) else i
  }

  // ---------------------------------------------------------------- literals

  /**
   * Matches `word[k..]` against the input at `i + k`, one required character
   * at a time; the failure names the first character that did not match.
   */
  function MatchRest(t: seq<CodeUnit>, i: nat, word: seq<CodeUnit>, k: nat): (r: Option<Failure>)
    requires k <= |word| && i + k <= |t|
    ensures r.None? ==> i + |word| <= |t|
    ensures r.Some? ==> i + k <= r.value.offset <= |t|
    decreases |word| - k
  {
    if k == |word| then None
    else if i + k < |t| && t[i + k] == word[k] then MatchRest(t, i, word, k + 1)
    else Some(Expected(t, i + k, ExpectedLiteralChar(word[k])))
  }

  /** `null`, `true` or `false`: the start event before the first character, the end event after the last. */
  function ParseLiteral(t: seq<CodeUnit>, i: nat, word: seq<CodeUnit>, v: JsonValue, start: EventKind, end: EventKind): (r: Run<JsonValue>)
    requires i < |t| && |word| >= 1 && t[i] == word[0]
    ensures Within(r.outcome, i, |t|)
  {
    match MatchRest(t, i, word, 1)
    case Some(f) => Run([Event(start, i)], Failed(f))
    case None => Run([Event(start, i), Event(end, i + |word|)], Done(v, i + |word|))
  }

  // ---------------------------------------------------------------- strings

  /** Checks that the four code units from `p` are hexadecimal digits, `n` of them already checked. */
  function HexRun(t: seq<CodeUnit>, p: nat, n: nat): (r: Option<Failure>)
    requires n <= 4 && p + n <= |t|
    requires forall q {:trigger IsHexDigit(t[q])} :: p <= q < p + n ==> IsHexDigit(t[q])
    ensures r.None? ==> p + 4 <= |t| && forall q {:trigger IsHexDigit(t[q])} :: p <= q < p + 4 ==> IsHexDigit(t[q])
    ensures r.Some? ==> p + n <= r.value.offset <= |t|
    decreases 4 - n
  {
    if n == 4 then None
    else if p + n < |t| && IsHexDigit(t[p + n]) then HexRun(t, p, n + 1)
    else Some(Expected(t, p + n, ExpectedHexDigit))
  }

  /** The check fails at the first of the four places that is not a hexadecimal digit. */
  lemma {:induction false} HexRunStops(t: seq<CodeUnit>, p: nat, n: nat, m: nat)
    requires n <= m < 4 && p + m <= |t|
    requires forall q {:trigger IsHexDigit(t[q])} :: p <= q < p + m ==> IsHexDigit(t[q])
    requires !(p + m < |t| && IsHexDigit(t[p + m]))
    ensures HexRun(t, p, n) == Some(Expected(t, p + m, ExpectedHexDigit))
    decreases m - n
  {
    if n < m {
      HexRunStops(t, p, n + 1, m);
    }
  }

  /** The check passes when all four places hold hexadecimal digits. */
  lemma {:induction false} HexRunPasses(t: seq<CodeUnit>, p: nat, n: nat)
    requires n <= 4 && p + 4 <= |t|
    requires forall q {:trigger IsHexDigit(t[q])} :: p <= q < p + 4 ==> IsHexDigit(t[q])
    ensures HexRun(t, p, n).None?
    decreases 4 - n
  {
    if n < 4 {
      HexRunPasses(t, p, n + 1);
    }
  }

  /** The code unit four hexadecimal digits denote (no surrogate-pair combination). */
  function HexQuad(q: seq<CodeUnit>): CodeUnit
    requires |q| == 4 && AllHexDigits(q)
  {
    assert Pow16(4) == 0x1_0000;
    HexNumber(q) as CodeUnit
  }

  /** The code unit the four hexadecimal digits from `p` in `t` denote, most significant first. */
  function HexQuadAt(t: seq<CodeUnit>, p: nat): CodeUnit
    requires p + 4 <= |t| && forall q {:trigger IsHexDigit(t[q])} :: p <= q < p + 4 ==> IsHexDigit(t[q])
  {
    ((HexValue(t[p]) * 16 + HexValue(t[p + 1])) * 16 + HexValue(t[p + 2])) * 16 + HexValue(t[p + 3])
  }

  lemma HexNumberOfFour(q: seq<CodeUnit>)
    requires |q| == 4 && AllHexDigits(q)
    ensures HexNumber(q) == ((HexValue(q[0]) * 16 + HexValue(q[1])) * 16 + HexValue(q[2])) * 16 + HexValue(q[3])
  {
    assert q[..3][..2][..1][..0] == [];
    assert q[..3][..2][..1] == [q[0]];
    assert q[..3][..2] == [q[0], q[1]];
    assert q[..3] == [q[0], q[1], q[2]];
  }

  /** Decoding the four digits in place is decoding them once copied out. */
  lemma HexQuadAtSlice(t: seq<CodeUnit>, p: nat)
    requires p + 4 <= |t| && forall q {:trigger IsHexDigit(t[q])} :: p <= q < p + 4 ==> IsHexDigit(t[q])
    ensures AllHexDigits(t[p..p + 4]) && HexQuadAt(t, p) == HexQuad(t[p..p + 4])
  {
    var q := t[p..p + 4];
    assert q[0] == t[p] && q[1] == t[p + 1] && q[2] == t[p + 2] && q[3] == t[p + 3];
    assert IsHexDigit(t[p]) && IsHexDigit(t[p + 1]) && IsHexDigit(t[p + 2]) && IsHexDigit(t[p + 3]);
    HexNumberOfFour(q);
  }

  /**
   * The code unit a one-character escape stands for: `\"`, `\/` and `\\`
   * stand for themselves, `\b`, `\n`, `\r`, `\t` for backspace, line feed,
   * carriage return and tab. There is no `\f`.
   */
  function SimpleEscape(c: CodeUnit): Option<CodeUnit> {
    if c == '"' as CodeUnit || c == '/' as CodeUnit || c == '\\' as CodeUnit then Some(c)
    else if c == 'b' as CodeUnit then Some(0x08)
    else if c == 'n' as CodeUnit then Some(0x0A)
    else if c == 'r' as CodeUnit then Some(0x0D)
    else if c == 't' as CodeUnit then Some(0x09)
    else None
  }

  /** An escape sequence whose backslash is at `j`: the code unit it stands for and where it ends. */
  function Escape(t: seq<CodeUnit>, j: nat): (r: Outcome<CodeUnit>)
    requires j < |t| && t[j] == '\\' as CodeUnit
    ensures Within(r, j + 1, |t|)
  {
    var k := j + 1;
    if k < |t| && SimpleEscape(t[k]).Some? then Done(SimpleEscape(t[k]).value, k + 1)
    else if At(t, k, 'u') then
      match HexRun(t, k + 1, 0)
      case Some(f) => Failed(f)
      case None => Done(HexQuadAt(t, k + 1), k + 5)
    else Failed(Expected(t, k, ExpectedValidEscapeSequence))
  }

  /** Puts already decoded code units in front of a successful scan. */
  function Prefixed(s: seq<CodeUnit>, o: Outcome<seq<CodeUnit>>): Outcome<seq<CodeUnit>> {
    match o
    case Done(rest, e) => Done(s + rest, e)
    case Failed(f) => Failed(f)
  }

  /**
   * The body of a string from `j` (just after the opening quote) up to and
   * including the closing quote: the decoded code units and the offset after
   * the quote.
   */
  function ScanString(t: seq<CodeUnit>, j: nat): (r: Outcome<seq<CodeUnit>>)
    requires j <= |t|
    ensures Within(r, j, |t|)
    ensures r.Done? ==> t[r.end - 1] == '"' as CodeUnit
    decreases |t| - j
  {
    if At(t, j, '"') then Done([], j + 1)
    else
      match StringUnit(t, j)
      case Failed(f) => Failed(f)
      case Done(c, k) => Prefixed([c], ScanString(t, k))
  }

  /** One unit of a string body other than the closing quote: an escape, or a plain character from U+0020 on. */
  function StringUnit(t: seq<CodeUnit>, j: nat): (r: Outcome<CodeUnit>)
    requires j <= |t|
    ensures Within(r, j, |t|)
  {
    if At(t, j, '\\') then Escape(t, j)
    else if j == |t| || t[j] < 0x20 then Failed(Expected(t, j, ExpectedValidStringCharacter))
    else Done(t[j], j + 1)
  }

  function ParseString(t: seq<CodeUnit>, i: nat): (r: Run<JsonValue>)
    requires i < |t| && t[i] == '"' as CodeUnit
    ensures Within(r.outcome, i, |t|)
  {
    match ScanString(t, i + 1)
    case Failed(f) => Run([Event(StartString, i)], Failed(f))
    case Done(s, e) => Run([Event(StartString, i), Event(EndString(s), e)], Done(Str(s), e))
  }

  // ---------------------------------------------------------------- numbers

  function SkipDigits(t: seq<CodeUnit>, i: nat): (j: nat)
    requires i <= |t|
    ensures i <= j <= |t| && !DigitAt(t, j)
    ensures forall k {:trigger IsDigit(t[k])} :: i <= k < j ==> IsDigit(t[k])
    decreases |t| - i
  {
    if DigitAt(t, i) then SkipDigits(t, i + 1) else i
  }

  /** At least one digit at `k`, and then every digit that follows: where the run ends. */
  function RequiredDigits(t: seq<CodeUnit>, k: nat): (r: Outcome<bool>)
    requires k <= |t|
    ensures Within(r, k, |t|) && (r.Done? ==> r.value)
  {
    if DigitAt(t, k) then Done(true, SkipDigits(t, k)) else Failed(Expected(t, k, ExpectedDigit))
  }

  /** An optional minus, then `0` alone or a non-zero digit and more digits; the value says whether it is negative. */
  function IntegerPart(t: seq<CodeUnit>, i: nat): (r: Outcome<bool>)
    requires i <= |t|
    ensures Within(r, i, |t|)
  {
    var j := if At(t, i, '-') then i + 1 else i;
    if !DigitAt(t, j) then Failed(Expected(t, j, ExpectedDigit))
    else if t[j] == '0' as CodeUnit then Done(j > i, j + 1)
    else Done(j > i, SkipDigits(t, j + 1))
  }

  /** An optional fraction at `k`: a `.` must be followed by at least one digit. */
  function Fraction(t: seq<CodeUnit>, k: nat): (r: Outcome<bool>)
    requires k <= |t|
    ensures r.Done? ==> k <= r.end <= |t| && (r.value <==> r.end > k)
    ensures r.Failed? ==> k < r.failure.offset <= |t|
  {
    if !At(t, k, '.') then Done(false, k) else RequiredDigits(t, k + 1)
  }

  /** An optional exponent at `k`: `e` or `E`, an optional sign, at least one digit. */
  function Exponent(t: seq<CodeUnit>, k: nat): (r: Outcome<bool>)
    requires k <= |t|
    ensures r.Done? ==> k <= r.end <= |t| && (r.value <==> r.end > k)
    ensures r.Failed? ==> k < r.failure.offset <= |t|
  {
    if !At(t, k, 'e') && !At(t, k, 'E') then Done(false, k)
    else RequiredDigits(t, if At(t, k + 1, '+') || At(t, k + 1, '-') then k + 2 else k + 1)
  }

  /**
   * A number from `i`: the integer part, then an optional fraction and
   * exponent. The value is the exact text consumed.
   */
  function ScanNumber(t: seq<CodeUnit>, i: nat): (r: Outcome<seq<CodeUnit>>)
    requires i <= |t|
    ensures Within(r, i, |t|)
    ensures r.Done? ==> r.value == t[i..r.end]
  {
    match IntegerPart(t, i)
    case Failed(f) => Failed(f)
    case Done(_, k) =>
      match Fraction(t, k)
      case Failed(f) => Failed(f)
      case Done(_, m) =>
        match Exponent(t, m)
        case Failed(f) => Failed(f)
        case Done(_, e) => Done(t[i..e], e)
  }

  function ParseNumber(t: seq<CodeUnit>, i: nat): (r: Run<JsonValue>)
    requires i <= |t|
    ensures Within(r.outcome, i, |t|)
  {
    match ScanNumber(t, i)
    case Failed(f) => Run([Event(StartNumber, i)], Failed(f))
    case Done(s, e) => Run([Event(StartNumber, i), Event(EndNumber(s), e)], Done(Num(JsonNumber(s)), e))
  }

  // ---------------------------------------------------------------- values

  /** The dispatch on the lookahead character. */
  function ParseValue(t: seq<CodeUnit>, i: nat, depth: nat): (r: Run<JsonValue>)
    requires i <= |t|
    ensures Within(r.outcome, i, |t|)
    decreases |t| - i, 2
  {
    if At(t, i, 'n') then ParseLiteral(t, i, NullWord, Null, StartNull, EndNull)
    else if At(t, i, 't') then ParseLiteral(t, i, TrueWord, Bool(true), StartBoolean, EndBoolean(true))
    else if At(t, i, 'f') then ParseLiteral(t, i, FalseWord, Bool(false), StartBoolean, EndBoolean(false))
    else if At(t, i, '"') then ParseString(t, i)
    else if At(t, i, '[') then ParseArray(t, i, depth)
    else if At(t, i, '{') then ParseObject(t, i, depth)
    else if At(t, i, '-') || DigitAt(t, i) then ParseNumber(t, i)
    else Run([], Failed(Expected(t, i, ExpectedValue)))
  }

  /** Puts the events and values of the elements already parsed in front of the rest. */
  function Prepend<U>(evs: seq<Event>, done: seq<U>, r: Run<seq<U>>): Run<seq<U>> {
    Run(evs + r.events,
        match r.outcome
        case Done(vs, e) => Done(done + vs, e)
        case Failed(f) => Failed(f))
  }

  /** Moves a successful production's end past the whitespace after it. */
  function SkipAfter<U>(t: seq<CodeUnit>, r: Run<U>): Run<U>
    requires r.outcome.Done? ==> r.outcome.end <= |t|
  {
    match r.outcome
    case Done(x, e) => Run(r.events, Done(x, SkipWhiteSpace(t, e)))
    case Failed(_) => r
  }

  /** An array at `i`: the `startArray` event, the contents, and on success the `endArray` event. */
  function ParseArray(t: seq<CodeUnit>, i: nat, depth: nat): (r: Run<JsonValue>)
    requires i < |t| && t[i] == '[' as CodeUnit
    ensures Within(r.outcome, i, |t|)
    decreases |t| - i, 1
  {
    var h := ArrayHandle(i);
    var c := ParseArrayContents(t, i, depth, h);
    match c.outcome
    case Done(vs, e) => Run([Event(StartArray, i)] + c.events + [Event(EndArray(h), e)], Done(Arr(vs), e))
    case Failed(f) => Run([Event(StartArray, i)] + c.events, Failed(f))
  }

  /** From `[`: the nesting level is checked right after the bracket is consumed, then the items. */
  function ParseArrayContents(t: seq<CodeUnit>, i: nat, depth: nat, h: Handle): (r: Run<seq<JsonValue>>)
    requires i < |t| && t[i] == '[' as CodeUnit
    ensures Within(r.outcome, i, |t|)
    decreases |t| - i, 0
  {
    if depth + 1 > MaxNestingLevel then Run([], Failed(Failure(NestingTooDeep, i + 1)))
    else ParseArrayItems(t, i + 1, depth + 1, h)
  }

  /** Everything after `[` up to and including `]`: nothing but whitespace, or the elements. */
  function ParseArrayItems(t: seq<CodeUnit>, i: nat, depth: nat, h: Handle): (r: Run<seq<JsonValue>>)
    requires i <= |t|
    ensures Within(r.outcome, i, |t|)
    decreases |t| - i, 7
  {
    var k := SkipWhiteSpace(t, i);
    if At(t, k, ']') then Run([], Done([], k + 1)) else ParseElements(t, k, depth, h)
  }

  /** What follows an element or a member: a comma (more to come), the closing character (the end), or a failure. */
  function Separator(t: seq<CodeUnit>, m: nat, close: char, kind: ErrorKind): (r: Outcome<bool>)
    requires m <= |t| && (close as int) < 0x1_0000
    ensures Within(r, m, |t|)
  {
    if At(t, m, ',') then Done(true, m + 1)
    else if At(t, m, close) then Done(false, m + 1)
    else Failed(Expected(t, m, kind))
  }

  /** An element's value between the `startArrayValue` and `endArrayValue` events. */
  function ParseArrayValue(t: seq<CodeUnit>, k: nat, depth: nat, h: Handle): (r: Run<JsonValue>)
    requires k <= |t|
    ensures Within(r.outcome, k, |t|)
    decreases |t| - k, 3
  {
    var v := ParseValue(t, k, depth);
    var evs := [Event(StartArrayValue(h), k)] + v.events;
    match v.outcome
    case Failed(f) => Run(evs, Failed(f))
    case Done(x, e) => Run(evs + [Event(EndArrayValue(h), e)], Done(x, e))
  }

  /** One element of an array: the whitespace before it, its value, and the whitespace after it. */
  function ParseElement(t: seq<CodeUnit>, i: nat, depth: nat, h: Handle): (r: Run<JsonValue>)
    requires i <= |t|
    ensures Within(r.outcome, i, |t|)
    decreases |t| - i, 4
  {
    SkipAfter(t, ParseArrayValue(t, SkipWhiteSpace(t, i), depth, h))
  }

  /**
   * The element loop from `i`: one element, then another after each comma,
   * up to and including the closing bracket.
   */
  function ParseElements(t: seq<CodeUnit>, i: nat, depth: nat, h: Handle): (r: Run<seq<JsonValue>>)
    requires i <= |t|
    ensures Within(r.outcome, i, |t|)
    decreases |t| - i, 6
  {
    var v := ParseSeparatedElement(t, i, depth, h);
    match v.outcome
    case Failed(f) => Run(v.events, Failed(f))
    case Done((x, more), n) => if more then Prepend(v.events, [x], ParseElements(t, n, depth, h)) else Run(v.events, Done([x], n))
  }

  /** One element and the separator after it: the element's value, and whether a comma announced another. */
  function ParseSeparatedElement(t: seq<CodeUnit>, i: nat, depth: nat, h: Handle): (r: Run<(JsonValue, bool)>)
    requires i <= |t|
    ensures Within(r.outcome, i, |t|)
    decreases |t| - i, 5
  {
    var v := ParseElement(t, i, depth, h);
    match v.outcome
    case Failed(f) => Run(v.events, Failed(f))
    case Done(x, m) =>
      match Separator(t, m, ']', ExpectedCommaOrBracket)
      case Failed(f) => Run(v.events, Failed(f))
      case Done(more, n) => Run(v.events, Done((x, more), n))
  }

  /** An object at `i`: the `startObject` event, the contents, and on success the `endObject` event. */
  function ParseObject(t: seq<CodeUnit>, i: nat, depth: nat): (r: Run<JsonValue>)
    requires i < |t| && t[i] == '{' as CodeUnit
    ensures Within(r.outcome, i, |t|)
    decreases |t| - i, 1
  {
    var h := ObjectHandle(i);
    var c := ParseObjectContents(t, i, depth, h);
    match c.outcome
    case Done(ms, e) => Run([Event(StartObject, i)] + c.events + [Event(EndObject(h), e)], Done(Obj(ms), e))
    case Failed(f) => Run([Event(StartObject, i)] + c.events, Failed(f))
  }

  /** From `{`: the nesting level is checked right after the brace is consumed, then the members. */
  function ParseObjectContents(t: seq<CodeUnit>, i: nat, depth: nat, h: Handle): (r: Run<seq<Member>>)
    requires i < |t| && t[i] == '{' as CodeUnit
    ensures Within(r.outcome, i, |t|)
    decreases |t| - i, 0
  {
    if depth + 1 > MaxNestingLevel then Run([], Failed(Failure(NestingTooDeep, i + 1)))
    else ParseObjectItems(t, i + 1, depth + 1, h)
  }

  /** Everything after `{` up to and including `}`: nothing but whitespace, or the members. */
  function ParseObjectItems(t: seq<CodeUnit>, i: nat, depth: nat, h: Handle): (r: Run<seq<Member>>)
    requires i <= |t|
    ensures Within(r.outcome, i, |t|)
    decreases |t| - i, 7
  {
    var k := SkipWhiteSpace(t, i);
    if At(t, k, '}') then Run([], Done([], k + 1)) else ParseMembers(t, k, depth, h)
  }

  /** A member's name (a string, required) between the `startObjectName` and `endObjectName` events. */
  function ParseObjectName(t: seq<CodeUnit>, k: nat, h: Handle): (r: Run<seq<CodeUnit>>)
    requires k <= |t|
    ensures Within(r.outcome, k, |t|)
  {
    var named := [Event(StartObjectName(h), k)];
    if !At(t, k, '"') then Run(named, Failed(Expected(t, k, ExpectedName)))
    else
      match ScanString(t, k + 1)
      case Failed(f) => Run(named, Failed(f))
      case Done(name, e) => Run(named + [Event(EndObjectName(h, name), e)], Done(name, e))
  }

  /** Whitespace and the colon after a member's name: where the colon ends, or the failure. */
  function Colon(t: seq<CodeUnit>, e: nat): (r: Outcome<bool>)
    requires e <= |t|
    ensures Within(r, e, |t|)
  {
    var m := SkipWhiteSpace(t, e);
    if At(t, m, ':') then Done(true, m + 1) else Failed(Expected(t, m, ExpectedColon))
  }

  /** A member's name and its colon, with the whitespace before the name. Ends just after the colon. */
  function ParseMemberName(t: seq<CodeUnit>, i: nat, h: Handle): (r: Run<seq<CodeUnit>>)
    requires i <= |t|
    ensures Within(r.outcome, i, |t|)
  {
    var a := ParseObjectName(t, SkipWhiteSpace(t, i), h);
    match a.outcome
    case Failed(_) => a
    case Done(name, e) =>
      match Colon(t, e)
      case Failed(f) => Run(a.events, Failed(f))
      case Done(_, n) => Run(a.events, Done(name, n))
  }

  /** A member's value between the `startObjectValue` and `endObjectValue` events. */
  function ParseObjectValue(t: seq<CodeUnit>, n: nat, depth: nat, h: Handle, name: seq<CodeUnit>): (r: Run<JsonValue>)
    requires n <= |t|
    ensures Within(r.outcome, n, |t|)
    decreases |t| - n, 3
  {
    var v := ParseValue(t, n, depth);
    var evs := [Event(StartObjectValue(h, name), n)] + v.events;
    match v.outcome
    case Failed(f) => Run(evs, Failed(f))
    case Done(x, e) => Run(evs + [Event(EndObjectValue(h, name), e)], Done(x, e))
  }

  /** A member's value after the colon, with the whitespace before and after it. */
  function ParseMemberValue(t: seq<CodeUnit>, i: nat, depth: nat, h: Handle, name: seq<CodeUnit>): (r: Run<JsonValue>)
    requires i <= |t|
    ensures Within(r.outcome, i, |t|)
    decreases |t| - i, 4
  {
    SkipAfter(t, ParseObjectValue(t, SkipWhiteSpace(t, i), depth, h, name))
  }

  /** One member: its name and colon, then its value. */
  function ParseMember(t: seq<CodeUnit>, i: nat, depth: nat, h: Handle): (r: Run<Member>)
    requires i <= |t|
    ensures Within(r.outcome, i, |t|)
    decreases |t| - i, 4
  {
    var a := ParseMemberName(t, i, h);
    match a.outcome
    case Failed(f) => Run(a.events, Failed(f))
    case Done(name, n) =>
      var v := ParseMemberValue(t, n, depth, h, name);
      match v.outcome
      case Failed(f) => Run(a.events + v.events, Failed(f))
      case Done(x, p) => Run(a.events + v.events, Done(Member(name, x), p))
  }

  /** The member loop from `i`: one member, then another after each comma, up to and including `}`. */
  function ParseMembers(t: seq<CodeUnit>, i: nat, depth: nat, h: Handle): (r: Run<seq<Member>>)
    requires i <= |t|
    ensures Within(r.outcome, i, |t|)
    decreases |t| - i, 6
  {
    var v := ParseSeparatedMember(t, i, depth, h);
    match v.outcome
    case Failed(f) => Run(v.events, Failed(f))
    case Done((x, more), n) => if more then Prepend(v.events, [x], ParseMembers(t, n, depth, h)) else Run(v.events, Done([x], n))
  }

  /** One member and the separator after it: the member, and whether a comma announced another. */
  function ParseSeparatedMember(t: seq<CodeUnit>, i: nat, depth: nat, h: Handle): (r: Run<(Member, bool)>)
    requires i <= |t|
    ensures Within(r.outcome, i, |t|)
    decreases |t| - i, 5
  {
    var v := ParseMember(t, i, depth, h);
    match v.outcome
    case Failed(f) => Run(v.events, Failed(f))
    case Done(x, m) =>
      match Separator(t, m, '}', ExpectedCommaOrBrace)
      case Failed(f) => Run(v.events, Failed(f))
      case Done(more, n) => Run(v.events, Done((x, more), n))
  }

  /**
   * A whole text: whitespace, exactly one value, whitespace, end of input.
   * On success the end is the length of the input.
   */
  function ParseText(t: seq<CodeUnit>): (r: Run<JsonValue>)
    ensures r.outcome.Done? ==> r.outcome.end == |t|
    ensures r.outcome.Failed? ==> r.outcome.failure.offset <= |t|
  {
    var i := SkipWhiteSpace(t, 0);
    var v := ParseValue(t, i, 0);
    match v.outcome
    case Failed(_) => v
    case Done(x, e) =>
      var j := SkipWhiteSpace(t, e);
      if j < |t| then Run(v.events, Failed(Failure(UnexpectedCharacter, j)))
      else Run(v.events, Done(x, j))
  }
}
