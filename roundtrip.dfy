/**
 * Writing and parsing back: the compact text of a value parses to that same
 * value, wherever it stands in the input, provided its numbers carry JSON
 * number text and it is not nested deeper than the engine allows.
 */
module RoundTrip {
  import opened Text
  import opened Wrappers
  import opened Values
  import opened Grammar

  /** `t` holds `w` from offset `i` on; `Unfold` opens it. */
  predicate Holds(t: seq<CodeUnit>, i: nat, w: seq<CodeUnit>) {
    i + |w| <= |t| && Stands(t, i, w, |t| + 1)
  }

  predicate Stands(t: seq<CodeUnit>, i: nat, w: seq<CodeUnit>, depth: nat)
    decreases depth
  {
    if depth == 0 then i + |w| <= |t| && t[i..i + |w|] == w else Stands(t, i, w, depth - 1)
  }

  lemma {:induction false} StandsUnfold(t: seq<CodeUnit>, i: nat, w: seq<CodeUnit>, depth: nat)
    ensures Stands(t, i, w, depth) <==> i + |w| <= |t| && t[i..i + |w|] == w
    decreases depth
  {
    if depth > 0 {
      StandsUnfold(t, i, w, depth - 1);
    }
  }

  lemma Unfold(t: seq<CodeUnit>, i: nat, w: seq<CodeUnit>)
    ensures Holds(t, i, w) <==> i + |w| <= |t| && t[i..i + |w|] == w
  {
    StandsUnfold(t, i, w, |t| + 1);
  }

  lemma HoldsSlice(t: seq<CodeUnit>, i: nat, w: seq<CodeUnit>)
    requires Holds(t, i, w)
    ensures t[i..i + |w|] == w
  {
    Unfold(t, i, w);
  }

  lemma HoldsSplit(t: seq<CodeUnit>, i: nat, a: seq<CodeUnit>, b: seq<CodeUnit>)
    requires Holds(t, i, a + b)
    ensures Holds(t, i, a) && Holds(t, i + |a|, b)
  {
    Unfold(t, i, a + b);
    Unfold(t, i, a);
    Unfold(t, i + |a|, b);
    assert t[i..i + |a|] == t[i..i + |a + b|][..|a|];
    assert t[i + |a|..i + |a| + |b|] == t[i..i + |a + b|][|a|..];
  }

  lemma HoldsAt(t: seq<CodeUnit>, i: nat, w: seq<CodeUnit>, k: nat)
    requires Holds(t, i, w) && k < |w|
    ensures t[i + k] == w[k]
  {
    Unfold(t, i, w);
    assert t[i + k] == t[i..i + |w|][k];
  }

  /** What may follow a value in compact text: the end of the input, or a `,`, `]` or `}`. */
  predicate EndsValue(t: seq<CodeUnit>, e: nat) {
    e <= |t| && (e == |t| || t[e] == ',' as CodeUnit || t[e] == ']' as CodeUnit || t[e] == '}' as CodeUnit)
  }

  /**
   * A JSON number text: the number grammar reads all of it. The definition
   * sits `|s| + 1` levels down in `ScansAsNumber`, so that proofs which only
   * pass the fact along do not unfold the number grammar; `NumberTextScans`
   * opens it.
   */
  predicate IsNumberText(s: seq<CodeUnit>) {
    ScansAsNumber(s, |s| + 1)
  }

  predicate ScansAsNumber(s: seq<CodeUnit>, depth: nat)
    decreases depth
  {
    if depth == 0 then ScanNumber(s, 0).Done? && ScanNumber(s, 0).end == |s| else ScansAsNumber(s, depth - 1)
  }

  lemma {:induction false} ScansUnfold(s: seq<CodeUnit>, depth: nat)
    ensures ScansAsNumber(s, depth) <==> ScanNumber(s, 0).Done? && ScanNumber(s, 0).end == |s|
    decreases depth
  {
    if depth > 0 {
      ScansUnfold(s, depth - 1);
    }
  }

  lemma NumberTextScans(s: seq<CodeUnit>)
    ensures IsNumberText(s) <==> ScanNumber(s, 0).Done? && ScanNumber(s, 0).end == |s|
  {
    ScansUnfold(s, |s| + 1);
  }

  /** Every number in the value holds JSON number text. */
  predicate Writable(v: JsonValue)
    decreases v, 1
  {
    match v
    case Num(n) => IsNumberText(n.value)
    case Arr(items) => WritableItems(items)
    case Obj(members) => WritableMembers(members)
    case _ => true
  }

  predicate WritableItems(items: seq<JsonValue>)
    decreases items, 0
  {
    items == [] || (Writable(items[0]) && WritableItems(items[1..]))
  }

  predicate WritableMembers(members: seq<Member>)
    decreases members, 0
  {
    members == [] || (Writable(members[0].value) && WritableMembers(members[1..]))
  }

  // ------------------------------------------------------------ numbers

  /** `s` stands at `i` in `t`, and what follows it cannot continue a number. */
  predicate NumberAt(t: seq<CodeUnit>, i: nat, s: seq<CodeUnit>) {
    Holds(t, i, s) &&
    (i + |s| < |t| ==> var c := t[i + |s|]; !IsDigit(c) && c != '.' as CodeUnit && c != 'e' as CodeUnit && c != 'E' as CodeUnit)
  }

  lemma {:induction false} SkipDigitsShift(t: seq<CodeUnit>, i: nat, s: seq<CodeUnit>, a: nat)
    requires NumberAt(t, i, s) && a <= |s|
    ensures SkipDigits(t, i + a) == i + SkipDigits(s, a)
    decreases |s| - a
  {
    if a < |s| {
      HoldsAt(t, i, s, a);
      if IsDigit(s[a]) {
        SkipDigitsShift(t, i, s, a + 1);
      }
    }
  }

  lemma RequiredDigitsShift(t: seq<CodeUnit>, i: nat, s: seq<CodeUnit>, a: nat)
    requires NumberAt(t, i, s) && a <= |s| && RequiredDigits(s, a).Done?
    ensures RequiredDigits(t, i + a) == Done(true, i + RequiredDigits(s, a).end)
  {
    HoldsAt(t, i, s, a);
    SkipDigitsShift(t, i, s, a);
  }

  lemma IntegerPartShift(t: seq<CodeUnit>, i: nat, s: seq<CodeUnit>)
    requires NumberAt(t, i, s) && IntegerPart(s, 0).Done?
    ensures IntegerPart(t, i) == Done(IntegerPart(s, 0).value, i + IntegerPart(s, 0).end)
  {
    HoldsAt(t, i, s, 0);
    var j := if At(s, 0, '-') then 1 else 0;
    HoldsAt(t, i, s, j);
    if s[j] != '0' as CodeUnit {
      SkipDigitsShift(t, i, s, j + 1);
    }
  }

  lemma FractionShift(t: seq<CodeUnit>, i: nat, s: seq<CodeUnit>, k: nat)
    requires NumberAt(t, i, s) && k <= |s| && Fraction(s, k).Done?
    ensures Fraction(t, i + k) == Done(Fraction(s, k).value, i + Fraction(s, k).end)
  {
    if k < |s| {
      HoldsAt(t, i, s, k);
    }
    if At(s, k, '.') {
      RequiredDigitsShift(t, i, s, k + 1);
    }
  }

  lemma ExponentShift(t: seq<CodeUnit>, i: nat, s: seq<CodeUnit>, m: nat)
    requires NumberAt(t, i, s) && m <= |s| && Exponent(s, m).Done?
    ensures Exponent(t, i + m) == Done(Exponent(s, m).value, i + Exponent(s, m).end)
  {
    if m < |s| {
      HoldsAt(t, i, s, m);
    }
    if At(s, m, 'e') || At(s, m, 'E') {
      HoldsAt(t, i, s, m + 1);
      var k := if At(s, m + 1, '+') || At(s, m + 1, '-') then m + 2 else m + 1;
      RequiredDigitsShift(t, i, s, k);
    }
  }

  /** The three parts of a number, read one after the other, make up the scan. */
  lemma ScanNumberParts(t: seq<CodeUnit>, i: nat, k: nat, m: nat, e: nat, a: bool, b: bool, c: bool)
    requires i <= k <= m <= e <= |t|
    requires IntegerPart(t, i) == Done(a, k) && Fraction(t, k) == Done(b, m) && Exponent(t, m) == Done(c, e)
    ensures ScanNumber(t, i) == Done(t[i..e], e)
  {
  }

  /** A number text is made of its three parts, each successful: the integer part up to `k`, the fraction up to `m`, the exponent to the end. */
  lemma NumberParts(s: seq<CodeUnit>) returns (k: nat, m: nat)
    requires IsNumberText(s)
    ensures IntegerPart(s, 0).Done? && IntegerPart(s, 0).end == k
    ensures Fraction(s, k).Done? && Fraction(s, k).end == m
    ensures Exponent(s, m).Done? && Exponent(s, m).end == |s|
    ensures k <= m <= |s|
  {
    NumberTextScans(s);
    k := IntegerPart(s, 0).end;
    m := Fraction(s, k).end;
  }

  /** The parts of a number text placed at `i` read the same in `t`, shifted by `i`. */
  lemma NumberShifts(t: seq<CodeUnit>, i: nat, s: seq<CodeUnit>) returns (k: nat, m: nat, a: bool, b: bool, c: bool)
    requires IsNumberText(s) && NumberAt(t, i, s)
    ensures k <= m <= |s| && i + |s| <= |t|
    ensures IntegerPart(t, i) == Done(a, i + k) && Fraction(t, i + k) == Done(b, i + m) && Exponent(t, i + m) == Done(c, i + |s|)
  {
    k, m := NumberParts(s);
    a, b, c := IntegerPart(s, 0).value, Fraction(s, k).value, Exponent(s, m).value;
    IntegerPartShift(t, i, s);
    FractionShift(t, i, s, k);
    ExponentShift(t, i, s, m);
  }

  /** A number text followed by something that cannot continue it scans as itself. */
  lemma NumberRoundTrip(t: seq<CodeUnit>, i: nat, s: seq<CodeUnit>)
    requires IsNumberText(s) && NumberAt(t, i, s)
    ensures ScanNumber(t, i) == Done(s, i + |s|)
  {
    var k, m, a, b, c := NumberShifts(t, i, s);
    NumberFromParts(t, i, s, i + k, i + m, a, b, c);
  }

  /** Three successful parts spanning a number text at `i` make the scan return that text. */
  lemma NumberFromParts(t: seq<CodeUnit>, i: nat, s: seq<CodeUnit>, k: nat, m: nat, a: bool, b: bool, c: bool)
    requires Holds(t, i, s) && i <= k <= m <= i + |s|
    requires IntegerPart(t, i) == Done(a, k) && Fraction(t, k) == Done(b, m) && Exponent(t, m) == Done(c, i + |s|)
    ensures ScanNumber(t, i) == Done(s, i + |s|)
  {
    HoldsSlice(t, i, s);
    ScanNumberParts(t, i, k, m, i + |s|, a, b, c);
  }

  // ------------------------------------------------------------ strings

  /** The `\u00XY` form the writer uses for a control character reads back as that character. */
  lemma ControlEscapeRoundTrip(t: seq<CodeUnit>, p: nat, c: CodeUnit)
    requires c < 0x20 && p + 4 <= |t|
    requires t[p] == '0' as CodeUnit && t[p + 1] == '0' as CodeUnit && t[p + 2] == HexDigit(c / 16) && t[p + 3] == HexDigit(c % 16)
    ensures forall q {:trigger IsHexDigit(t[q])} :: p <= q < p + 4 ==> IsHexDigit(t[q])
    ensures HexQuadAt(t, p) == c
  {
    assert forall q {:trigger IsHexDigit(t[q])} :: p <= q < p + 4 ==> IsHexDigit(t[q]) by {
      assert IsHexDigit(t[p]) && IsHexDigit(t[p + 1]) && IsHexDigit(t[p + 2]) && IsHexDigit(t[p + 3]);
    }
  }

  lemma EscapeUnitRoundTrip(t: seq<CodeUnit>, j: nat, c: CodeUnit)
    requires Holds(t, j, EscapeUnit(c))
    ensures StringUnit(t, j) == Done(c, j + |EscapeUnit(c)|)
    ensures !At(t, j, '"')
  {
    var w := EscapeUnit(c);
    HoldsAt(t, j, w, 0);
    if |w| > 1 {
      HoldsAt(t, j, w, 1);
    }
    if c < 0x20 && c != '\n' as CodeUnit && c != '\r' as CodeUnit && c != '\t' as CodeUnit {
      HoldsAt(t, j, w, 2);
      HoldsAt(t, j, w, 3);
      HoldsAt(t, j, w, 4);
      HoldsAt(t, j, w, 5);
      ControlEscapeRoundTrip(t, j + 2, c);
      HexRunPasses(t, j + 2, 0);
      assert SimpleEscape(t[j + 1]).None?;
    }
  }

  /** Escaped string contents and the closing quote read back as the contents. */
  lemma {:induction false} ScanStringRoundTrip(t: seq<CodeUnit>, j: nat, s: seq<CodeUnit>)
    requires Holds(t, j, EscapeString(s) + ['"' as CodeUnit])
    ensures ScanString(t, j) == Done(s, j + |EscapeString(s)| + 1)
    decreases |s|
  {
    EscapeStringUnfold(s);
    if s == [] {
      HoldsAt(t, j, EscapeString(s) + ['"' as CodeUnit], 0);
    } else {
      var w := EscapeUnit(s[0]);
      assert EscapeString(s) + ['"' as CodeUnit] == w + (EscapeString(s[1..]) + ['"' as CodeUnit]);
      HoldsSplit(t, j, w, EscapeString(s[1..]) + ['"' as CodeUnit]);
      EscapeUnitRoundTrip(t, j, s[0]);
      ScanStringRoundTrip(t, j + |w|, s[1..]);
      assert [s[0]] + s[1..] == s;
    }
  }

  // ------------------------------------------------------------ values

  /** A literal that the input holds in full matches from any already matched prefix on. */
  lemma {:induction false} MatchRestHolds(t: seq<CodeUnit>, i: nat, word: seq<CodeUnit>, k: nat)
    requires Holds(t, i, word) && k <= |word|
    ensures MatchRest(t, i, word, k) == None
    decreases |word| - k
  {
    if k < |word| {
      HoldsAt(t, i, word, k);
      MatchRestHolds(t, i, word, k + 1);
    }
  }

  /** The compact text of a value starts with a character that opens a value. */
  lemma WriteStart(v: JsonValue)
    requires Writable(v)
    ensures |Write(v)| >= 1
    ensures var c := Write(v)[0];
      !IsWhiteSpace(c) && c != ']' as CodeUnit && c != '}' as CodeUnit
  {
    match v
    case Null => assert Write(v)[0] == 'n' as CodeUnit;
    case Bool(b) => assert Write(v)[0] == (if b then 't' else 'f') as CodeUnit;
    case Num(n) =>
      NumberTextScans(n.value);
      var k := if At(n.value, 0, '-') then 1 else 0;
      assert DigitAt(n.value, k);
    case _ =>
  }

  /** Non-empty compact members start with the quote of the first name. */
  lemma WriteMembersStart(members: seq<Member>)
    requires members != []
    ensures |WriteMembers(members)| >= 1 && WriteMembers(members)[0] == '"' as CodeUnit
  {
    assert WriteMember(members[0])[0] == '"' as CodeUnit;
  }

  /** The whitespace skip stays put at a character that is not whitespace. */
  lemma NoWhiteSpaceAt(t: seq<CodeUnit>, e: nat)
    requires e <= |t| && (e < |t| ==> !IsWhiteSpace(t[e]))
    ensures SkipWhiteSpace(t, e) == e
  {
  }

  lemma LiteralRoundTrip(t: seq<CodeUnit>, i: nat, d: nat, v: JsonValue)
    requires v.Null? || v.Bool?
    requires Holds(t, i, Write(v))
    ensures ParseValue(t, i, d).outcome == Done(v, i + |Write(v)|)
  {
    var w := if v.Null? then NullWord else if v.truth then TrueWord else FalseWord;
    assert Write(v) == w;
    HoldsAt(t, i, w, 0);
    MatchRestHolds(t, i, w, 1);
  }

  lemma StringValueRoundTrip(t: seq<CodeUnit>, i: nat, d: nat, s: seq<CodeUnit>)
    requires Holds(t, i, WriteString(s))
    ensures ParseValue(t, i, d).outcome == Done(Str(s), i + |WriteString(s)|)
  {
    assert WriteString(s) == ['"' as CodeUnit] + (EscapeString(s) + ['"' as CodeUnit]);
    HoldsSplit(t, i, ['"' as CodeUnit], EscapeString(s) + ['"' as CodeUnit]);
    HoldsAt(t, i, ['"' as CodeUnit], 0);
    ScanStringRoundTrip(t, i + 1, s);
  }

  /**
   * A number the parser accepts is a JSON number holding exactly the text
   * it consumed: its string forms and its written form give that text back.
   */
  lemma NumberKeepsText(t: seq<CodeUnit>, i: nat)
    requires i <= |t| && ParseNumber(t, i).outcome.Done?
    ensures var o := ParseNumber(t, i).outcome;
      o.value.Num? && o.value.IsNumber() && o.value.number.IsNumber() &&
      o.value.number.AsString() == t[i..o.end] &&
      o.value.number.ToString() == t[i..o.end] &&
      Write(o.value) == t[i..o.end]
  {
  }

  lemma NumberValueRoundTrip(t: seq<CodeUnit>, i: nat, d: nat, n: JsonNumber)
    requires IsNumberText(n.value)
    requires Holds(t, i, n.value) && EndsValue(t, i + |n.value|)
    ensures ParseValue(t, i, d).outcome == Done(Num(n), i + |n.value|)
  {
    WriteStart(Num(n));
    HoldsAt(t, i, n.value, 0);
    NumberRoundTrip(t, i, n.value);
  }

  // ------------------------------------------------------------ one production at a time

  /** A value with no whitespace around it is an element. */
  lemma ElementStep(t: seq<CodeUnit>, i: nat, d: nat, h: Handle, v: JsonValue, e: nat)
    requires i <= |t| && (i < |t| ==> !IsWhiteSpace(t[i]))
    requires ParseValue(t, i, d).outcome == Done(v, e) && (e < |t| ==> !IsWhiteSpace(t[e]))
    ensures ParseElement(t, i, d, h).outcome == Done(v, e)
  {
    NoWhiteSpaceAt(t, i);
    NoWhiteSpaceAt(t, e);
  }

  /** A value with no whitespace around it is a member's value. */
  lemma MemberValueStep(t: seq<CodeUnit>, k: nat, d: nat, h: Handle, name: seq<CodeUnit>, v: JsonValue, e: nat)
    requires k <= |t| && (k < |t| ==> !IsWhiteSpace(t[k]))
    requires ParseValue(t, k, d).outcome == Done(v, e) && (e < |t| ==> !IsWhiteSpace(t[e]))
    ensures ParseMemberValue(t, k, d, h, name).outcome == Done(v, e)
  {
    NoWhiteSpaceAt(t, k);
    NoWhiteSpaceAt(t, e);
  }

  /** A name and then a value make a member. */
  lemma MemberStep(t: seq<CodeUnit>, i: nat, d: nat, h: Handle, name: seq<CodeUnit>, n: nat, v: JsonValue, p: nat)
    requires i <= |t| && ParseMemberName(t, i, h).outcome == Done(name, n)
    requires ParseMemberValue(t, n, d, h, name).outcome == Done(v, p)
    ensures ParseMember(t, i, d, h).outcome == Done(Member(name, v), p)
  {
  }

  lemma SeparatedElementStep(t: seq<CodeUnit>, i: nat, d: nat, h: Handle, v: JsonValue, p: nat, more: bool)
    requires i <= |t| && ParseElement(t, i, d, h).outcome == Done(v, p)
    requires p < |t| && t[p] == (if more then ',' else ']') as CodeUnit
    ensures ParseSeparatedElement(t, i, d, h).outcome == Done((v, more), p + 1)
  {
  }

  lemma SeparatedMemberStep(t: seq<CodeUnit>, i: nat, d: nat, h: Handle, m: Member, p: nat, more: bool)
    requires i <= |t| && ParseMember(t, i, d, h).outcome == Done(m, p)
    requires p < |t| && t[p] == (if more then ',' else '}') as CodeUnit
    ensures ParseSeparatedMember(t, i, d, h).outcome == Done((m, more), p + 1)
  {
  }

  /** The element loop: one element, then the rest after a comma, or the end after the bracket. */
  lemma ElementsStep(t: seq<CodeUnit>, i: nat, d: nat, h: Handle, v: JsonValue, n: nat, more: bool, rest: seq<JsonValue>, e: nat)
    requires i <= |t| && ParseSeparatedElement(t, i, d, h).outcome == Done((v, more), n)
    requires more ==> ParseElements(t, n, d, h).outcome == Done(rest, e)
    ensures ParseElements(t, i, d, h).outcome == if more then Done([v] + rest, e) else Done([v], n)
  {
  }

  /** The member loop: one member, then the rest after a comma, or the end after the brace. */
  lemma MembersStep(t: seq<CodeUnit>, i: nat, d: nat, h: Handle, m: Member, n: nat, more: bool, rest: seq<Member>, e: nat)
    requires i <= |t| && ParseSeparatedMember(t, i, d, h).outcome == Done((m, more), n)
    requires more ==> ParseMembers(t, n, d, h).outcome == Done(rest, e)
    ensures ParseMembers(t, i, d, h).outcome == if more then Done([m] + rest, e) else Done([m], n)
  {
  }

  /**
   * The compact text of a writable value, followed by the end of the input
   * or a `,`, `]` or `}`, parses back to the value at any depth that leaves
   * room for its nesting.
   */
  lemma {:induction false} ValueRoundTrip(t: seq<CodeUnit>, i: nat, d: nat, v: JsonValue)
    requires Writable(v) && d + Depth(v) <= MaxNestingLevel
    requires Holds(t, i, Write(v)) && EndsValue(t, i + |Write(v)|)
    ensures ParseValue(t, i, d).outcome == Done(v, i + |Write(v)|)
    decreases v, 3
  {
    match v
    case Null => LiteralRoundTrip(t, i, d, v);
    case Bool(_) => LiteralRoundTrip(t, i, d, v);
    case Str(s) => StringValueRoundTrip(t, i, d, s);
    case Num(n) => NumberValueRoundTrip(t, i, d, n);
    case Arr(items) =>
      BracketsLayout(t, i, '[', WriteItems(items), ']');
      ArrayRoundTrip(t, i, d, items);
    case Obj(members) =>
      BracketsLayout(t, i, '{', WriteMembers(members), '}');
      ObjectRoundTrip(t, i, d, members);
  }

  /** Where the input holds a bracketed text: the opening character, the inside, and the closing character. */
  lemma BracketsLayout(t: seq<CodeUnit>, i: nat, open: char, inside: seq<CodeUnit>, close: char)
    requires (open as int) < 0x1_0000 && (close as int) < 0x1_0000
    requires Holds(t, i, [open as CodeUnit] + inside + [close as CodeUnit])
    ensures t[i] == open as CodeUnit && Holds(t, i + 1, inside + [close as CodeUnit])
    ensures i + 1 + |inside| < |t| && t[i + 1 + |inside|] == close as CodeUnit
  {
    assert [open as CodeUnit] + inside + [close as CodeUnit] == [open as CodeUnit] + (inside + [close as CodeUnit]);
    HoldsSplit(t, i, [open as CodeUnit], inside + [close as CodeUnit]);
    HoldsAt(t, i, [open as CodeUnit], 0);
    HoldsAt(t, i + 1, inside + [close as CodeUnit], |inside|);
  }

  /** An array's compact text, from its `[`, parses back to the array. */
  lemma {:induction false} ArrayRoundTrip(t: seq<CodeUnit>, i: nat, d: nat, items: seq<JsonValue>)
    requires WritableItems(items) && d + 1 + ItemsDepth(items) <= MaxNestingLevel
    requires i < |t| && t[i] == '[' as CodeUnit && Holds(t, i + 1, WriteItems(items) + [']' as CodeUnit])
    ensures ParseValue(t, i, d).outcome == Done(Arr(items), i + |WriteItems(items)| + 2)
    decreases Arr(items), 2
  {
    var h := ArrayHandle(i);
    HoldsAt(t, i + 1, WriteItems(items) + [']' as CodeUnit], 0);
    if items == [] {
      NoWhiteSpaceAt(t, i + 1);
      assert ParseArrayItems(t, i + 1, d + 1, h).outcome == Done([], i + 2);
    } else {
      WriteStart(items[0]);
      assert WriteItems(items)[0] == Write(items[0])[0];
      NoWhiteSpaceAt(t, i + 1);
      ElementsRoundTrip(t, i + 1, d + 1, h, items);
      assert ParseArrayItems(t, i + 1, d + 1, h).outcome == Done(items, i + |WriteItems(items)| + 2);
    }
    assert ParseArrayContents(t, i, d, h).outcome == Done(items, i + |WriteItems(items)| + 2);
  }

  /**
   * How a list's first piece and its closing character lie in the input:
   * the piece, then either a comma and the rest or the closing character.
   */
  lemma ListLayout(t: seq<CodeUnit>, i: nat, first: seq<CodeUnit>, more: bool, rest: seq<CodeUnit>, close: CodeUnit)
    requires Holds(t, i, (if more then first + [',' as CodeUnit] + rest else first) + [close])
    ensures var e := i + |first|;
      Holds(t, i, first) && e < |t| && t[e] == (if more then ',' as CodeUnit else close) &&
      (more ==> Holds(t, e + 1, rest + [close]))
  {
    var e := i + |first|;
    if more {
      assert first + [',' as CodeUnit] + rest + [close] == first + ([',' as CodeUnit] + (rest + [close]));
      HoldsSplit(t, i, first, [',' as CodeUnit] + (rest + [close]));
      HoldsSplit(t, e, [',' as CodeUnit], rest + [close]);
      HoldsAt(t, e, [',' as CodeUnit], 0);
    } else {
      HoldsSplit(t, i, first, [close]);
      HoldsAt(t, e, [close], 0);
    }
  }

  /** How non-empty items and their closing bracket lie in the input: the first value, then `]` or `,` and the rest. */
  lemma ItemsLayout(t: seq<CodeUnit>, i: nat, items: seq<JsonValue>)
    requires items != [] && Holds(t, i, WriteItems(items) + [']' as CodeUnit])
    ensures var e := i + |Write(items[0])|;
      Holds(t, i, Write(items[0])) && e < |t| && t[e] == (if |items| > 1 then ',' else ']') as CodeUnit &&
      (|items| > 1 ==> Holds(t, e + 1, WriteItems(items[1..]) + [']' as CodeUnit])) &&
      |WriteItems(items)| == |Write(items[0])| + (if |items| > 1 then 1 + |WriteItems(items[1..])| else 0)
  {
    ListLayout(t, i, Write(items[0]), |items| > 1, WriteItems(items[1..]), ']' as CodeUnit);
  }

  /** The elements' compact text and the closing bracket parse back to the elements. */
  lemma {:induction false} ElementsRoundTrip(t: seq<CodeUnit>, i: nat, d: nat, h: Handle, items: seq<JsonValue>)
    requires items != [] && WritableItems(items) && d + ItemsDepth(items) <= MaxNestingLevel
    requires Holds(t, i, WriteItems(items) + [']' as CodeUnit])
    ensures ParseElements(t, i, d, h).outcome == Done(items, i + |WriteItems(items)| + 1)
    decreases items, 1
  {
    ItemsLayout(t, i, items);
    var more := |items| > 1;
    var n := i + |Write(items[0])| + 1;
    SeparatedElementRoundTrip(t, i, d, h, items[0], more);
    if more {
      ElementsRoundTrip(t, n, d, h, items[1..]);
      ElementsStep(t, i, d, h, items[0], n, more, items[1..], n + |WriteItems(items[1..])| + 1);
      assert [items[0]] + items[1..] == items;
    } else {
      ElementsStep(t, i, d, h, items[0], n, more, [], n);
      assert [items[0]] == items;
    }
  }

  /** One element's compact text parses back, followed by its separator: a comma exactly when `more`. */
  lemma {:induction false} SeparatedElementRoundTrip(t: seq<CodeUnit>, i: nat, d: nat, h: Handle, v: JsonValue, more: bool)
    requires Writable(v) && d + Depth(v) <= MaxNestingLevel
    requires Holds(t, i, Write(v))
    requires var e := i + |Write(v)|; e < |t| && t[e] == (if more then ',' else ']') as CodeUnit
    ensures ParseSeparatedElement(t, i, d, h).outcome == Done((v, more), i + |Write(v)| + 1)
    decreases v, 4
  {
    var e := i + |Write(v)|;
    WriteStart(v);
    HoldsAt(t, i, Write(v), 0);
    ValueRoundTrip(t, i, d, v);
    ElementStep(t, i, d, h, v, e);
    SeparatedElementStep(t, i, d, h, v, e, more);
  }

  /** An object's compact text, from its `{`, parses back to the object. */
  lemma {:induction false} ObjectRoundTrip(t: seq<CodeUnit>, i: nat, d: nat, members: seq<Member>)
    requires WritableMembers(members) && d + 1 + MembersDepth(members) <= MaxNestingLevel
    requires i < |t| && t[i] == '{' as CodeUnit && Holds(t, i + 1, WriteMembers(members) + ['}' as CodeUnit])
    ensures ParseValue(t, i, d).outcome == Done(Obj(members), i + |WriteMembers(members)| + 2)
    decreases Obj(members), 2
  {
    var h := ObjectHandle(i);
    HoldsAt(t, i + 1, WriteMembers(members) + ['}' as CodeUnit], 0);
    if members == [] {
      NoWhiteSpaceAt(t, i + 1);
      assert ParseObjectItems(t, i + 1, d + 1, h).outcome == Done([], i + 2);
    } else {
      WriteMembersStart(members);
      NoWhiteSpaceAt(t, i + 1);
      MembersRoundTrip(t, i + 1, d + 1, h, members);
      assert ParseObjectItems(t, i + 1, d + 1, h).outcome == Done(members, i + |WriteMembers(members)| + 2);
    }
    assert ParseObjectContents(t, i, d, h).outcome == Done(members, i + |WriteMembers(members)| + 2);
  }

  /** How non-empty members and their closing brace lie in the input: the first member, then `}` or `,` and the rest. */
  lemma MembersLayout(t: seq<CodeUnit>, i: nat, members: seq<Member>)
    requires members != [] && Holds(t, i, WriteMembers(members) + ['}' as CodeUnit])
    ensures var e := i + |WriteMember(members[0])|;
      Holds(t, i, WriteMember(members[0])) && e < |t| && t[e] == (if |members| > 1 then ',' else '}') as CodeUnit &&
      (|members| > 1 ==> Holds(t, e + 1, WriteMembers(members[1..]) + ['}' as CodeUnit])) &&
      |WriteMembers(members)| == |WriteMember(members[0])| + (if |members| > 1 then 1 + |WriteMembers(members[1..])| else 0)
  {
    ListLayout(t, i, WriteMember(members[0]), |members| > 1, WriteMembers(members[1..]), '}' as CodeUnit);
  }

  /** The members' compact text and the closing brace parse back to the members. */
  lemma {:induction false} MembersRoundTrip(t: seq<CodeUnit>, i: nat, d: nat, h: Handle, members: seq<Member>)
    requires members != [] && WritableMembers(members) && d + MembersDepth(members) <= MaxNestingLevel
    requires Holds(t, i, WriteMembers(members) + ['}' as CodeUnit])
    ensures ParseMembers(t, i, d, h).outcome == Done(members, i + |WriteMembers(members)| + 1)
    decreases members, 1
  {
    MembersLayout(t, i, members);
    var more := |members| > 1;
    var n := i + |WriteMember(members[0])| + 1;
    SeparatedMemberRoundTrip(t, i, d, h, members[0], more);
    if more {
      MembersRoundTrip(t, n, d, h, members[1..]);
      MembersStep(t, i, d, h, members[0], n, more, members[1..], n + |WriteMembers(members[1..])| + 1);
      assert [members[0]] + members[1..] == members;
    } else {
      MembersStep(t, i, d, h, members[0], n, more, [], n);
      assert [members[0]] == members;
    }
  }

  /** How a member lies in the input: the quoted name, the colon, the value. */
  lemma MemberLayout(t: seq<CodeUnit>, i: nat, m: Member)
    requires Holds(t, i, WriteMember(m))
    ensures var n := i + |EscapeString(m.name)| + 2;
      t[i] == '"' as CodeUnit && Holds(t, i + 1, EscapeString(m.name) + ['"' as CodeUnit]) &&
      n < |t| && t[n] == ':' as CodeUnit && Holds(t, n + 1, Write(m.value)) &&
      |WriteMember(m)| == n + 1 + |Write(m.value)| - i
  {
    var name := WriteString(m.name);
    var n := i + |name|;
    assert WriteMember(m) == name + ([':' as CodeUnit] + Write(m.value));
    HoldsSplit(t, i, name, [':' as CodeUnit] + Write(m.value));
    HoldsSplit(t, n, [':' as CodeUnit], Write(m.value));
    HoldsAt(t, n, [':' as CodeUnit], 0);
    assert name == ['"' as CodeUnit] + (EscapeString(m.name) + ['"' as CodeUnit]);
    HoldsSplit(t, i, ['"' as CodeUnit], EscapeString(m.name) + ['"' as CodeUnit]);
    HoldsAt(t, i, ['"' as CodeUnit], 0);
  }

  /** A member's quoted name and the colon after it parse back to the name. */
  lemma MemberNameRoundTrip(t: seq<CodeUnit>, i: nat, h: Handle, name: seq<CodeUnit>)
    requires i < |t| && t[i] == '"' as CodeUnit && Holds(t, i + 1, EscapeString(name) + ['"' as CodeUnit])
    requires var n := i + |EscapeString(name)| + 2; n < |t| && t[n] == ':' as CodeUnit
    ensures ParseMemberName(t, i, h).outcome == Done(name, i + |EscapeString(name)| + 3)
    ensures ParseMemberName(t, i, h).events == [Event(StartObjectName(h), i), Event(EndObjectName(h, name), i + |EscapeString(name)| + 2)]
  {
    var n := i + |EscapeString(name)| + 2;
    NoWhiteSpaceAt(t, i);
    ScanStringRoundTrip(t, i + 1, name);
    assert ParseObjectName(t, i, h).outcome == Done(name, n);
    NoWhiteSpaceAt(t, n);
  }

  /** One member's compact text parses back, followed by its separator: a comma exactly when `more`. */
  lemma {:induction false} SeparatedMemberRoundTrip(t: seq<CodeUnit>, i: nat, d: nat, h: Handle, m: Member, more: bool)
    requires Writable(m.value) && d + Depth(m.value) <= MaxNestingLevel
    requires Holds(t, i, WriteMember(m))
    requires var e := i + |WriteMember(m)|; e < |t| && t[e] == (if more then ',' else '}') as CodeUnit
    ensures ParseSeparatedMember(t, i, d, h).outcome == Done((m, more), i + |WriteMember(m)| + 1)
    decreases m, 5
  {
    var n := i + |EscapeString(m.name)| + 3;
    var e := i + |WriteMember(m)|;
    MemberNamePart(t, i, h, m, more);
    ValueRoundTrip(t, n, d, m.value);
    SeparatedMemberFromParts(t, i, d, h, m, n, e, more);
  }

  /** A separator as the member loop expects it can end a value. */
  lemma SeparatorEndsValue(t: seq<CodeUnit>, e: nat, more: bool)
    requires e < |t| && t[e] == (if more then ',' else '}') as CodeUnit
    ensures EndsValue(t, e)
  {
  }

  /** The name part of a member's compact text parses back, and its value text follows the colon, up to the separator. */
  lemma MemberNamePart(t: seq<CodeUnit>, i: nat, h: Handle, m: Member, more: bool)
    requires Writable(m.value) && Holds(t, i, WriteMember(m))
    requires var e := i + |WriteMember(m)|; e < |t| && t[e] == (if more then ',' else '}') as CodeUnit
    ensures var n := i + |EscapeString(m.name)| + 3;
      ParseMemberName(t, i, h).outcome == Done(m.name, n) && Holds(t, n, Write(m.value)) &&
      n < |t| && !IsWhiteSpace(t[n]) &&
      i + |WriteMember(m)| == n + |Write(m.value)| && EndsValue(t, n + |Write(m.value)|)
  {
    var n := i + |EscapeString(m.name)| + 3;
    MemberLayout(t, i, m);
    MemberNameRoundTrip(t, i, h, m.name);
    WriteStart(m.value);
    HoldsAt(t, n, Write(m.value), 0);
    SeparatorEndsValue(t, i + |WriteMember(m)|, more);
  }

  /** A parsed name, a value parsed after it and a separator after that make a separated member. */
  lemma SeparatedMemberFromParts(t: seq<CodeUnit>, i: nat, d: nat, h: Handle, m: Member, n: nat, e: nat, more: bool)
    requires i <= |t| && ParseMemberName(t, i, h).outcome == Done(m.name, n)
    requires n < |t| && !IsWhiteSpace(t[n]) && ParseValue(t, n, d).outcome == Done(m.value, e)
    requires e < |t| && t[e] == (if more then ',' else '}') as CodeUnit
    ensures ParseSeparatedMember(t, i, d, h).outcome == Done((m, more), e + 1)
  {
    MemberValueStep(t, n, d, h, m.name, m.value, e);
    MemberStep(t, i, d, h, m.name, n, m.value, e);
    SeparatedMemberStep(t, i, d, h, m, e, more);
  }

  /** A writable value nested no deeper than the engine allows: its compact text is a JSON text that parses back to it. */
  lemma ParseTextRoundTrip(v: JsonValue)
    requires Writable(v) && Depth(v) <= MaxNestingLevel
    ensures ParseText(Write(v)).outcome == Done(v, |Write(v)|)
  {
    var t := Write(v);
    assert Holds(t, 0, t) by {
      Unfold(t, 0, t);
      assert t[0..|t|] == t;
    }
    WriteStart(v);
    NoWhiteSpaceAt(t, 0);
    ValueRoundTrip(t, 0, 0, v);
  }

  // ------------------------------------------------------------ nesting

  /** A failure because an array or object was opened one level too deep. */
  predicate TooDeep<T>(o: Outcome<T>) {
    o.Failed? && o.failure.kind == NestingTooDeep
  }

  /** A container opened at the deepest level fails just after its opening character. */
  lemma OpenTooDeep(t: seq<CodeUnit>, i: nat, d: nat)
    requires i < |t| && (t[i] == '[' as CodeUnit || t[i] == '{' as CodeUnit) && d >= MaxNestingLevel
    ensures ParseValue(t, i, d).outcome == Failed(Failure(NestingTooDeep, i + 1))
  {
    if t[i] == '[' as CodeUnit {
      assert ParseArrayContents(t, i, d, ArrayHandle(i)).outcome == Failed(Failure(NestingTooDeep, i + 1));
    } else {
      assert ParseObjectContents(t, i, d, ObjectHandle(i)).outcome == Failed(Failure(NestingTooDeep, i + 1));
    }
  }

  /** A first element whose value fails makes the element loop fail the same way. */
  lemma FirstElementFails(t: seq<CodeUnit>, i: nat, d: nat, h: Handle, f: Failure)
    requires i <= |t| && (i < |t| ==> !IsWhiteSpace(t[i])) && ParseValue(t, i, d).outcome == Failed(f)
    ensures ParseElements(t, i, d, h).outcome == Failed(f)
  {
    NoWhiteSpaceAt(t, i);
    assert ParseElement(t, i, d, h).outcome == Failed(f);
  }

  /** A failure after a comma makes the element loop fail the same way. */
  lemma LaterElementFails(t: seq<CodeUnit>, i: nat, d: nat, h: Handle, v: JsonValue, n: nat, f: Failure)
    requires i <= |t| && ParseSeparatedElement(t, i, d, h).outcome == Done((v, true), n)
    requires ParseElements(t, n, d, h).outcome == Failed(f)
    ensures ParseElements(t, i, d, h).outcome == Failed(f)
  {
  }

  /** A non-empty array whose elements fail fails the same way. */
  lemma ArrayFails(t: seq<CodeUnit>, i: nat, d: nat, f: Failure)
    requires i + 1 < |t| && t[i] == '[' as CodeUnit && d < MaxNestingLevel
    requires !IsWhiteSpace(t[i + 1]) && t[i + 1] != ']' as CodeUnit
    requires ParseElements(t, i + 1, d + 1, ArrayHandle(i)).outcome == Failed(f)
    ensures ParseValue(t, i, d).outcome == Failed(f)
  {
    NoWhiteSpaceAt(t, i + 1);
    assert ParseArrayContents(t, i, d, ArrayHandle(i)).outcome == Failed(f);
  }

  /** A member whose value fails fails the same way. */
  lemma MemberValueFails(t: seq<CodeUnit>, i: nat, d: nat, h: Handle, name: seq<CodeUnit>, n: nat, f: Failure)
    requires i <= |t| && ParseMemberName(t, i, h).outcome == Done(name, n)
    requires n < |t| && !IsWhiteSpace(t[n]) && ParseValue(t, n, d).outcome == Failed(f)
    ensures ParseMember(t, i, d, h).outcome == Failed(f)
  {
    NoWhiteSpaceAt(t, n);
    assert ParseMemberValue(t, n, d, h, name).outcome == Failed(f);
  }

  /** A first member that fails makes the member loop fail the same way. */
  lemma FirstMemberFails(t: seq<CodeUnit>, i: nat, d: nat, h: Handle, f: Failure)
    requires i <= |t| && ParseMember(t, i, d, h).outcome == Failed(f)
    ensures ParseMembers(t, i, d, h).outcome == Failed(f)
  {
  }

  /** A failure after a comma makes the member loop fail the same way. */
  lemma LaterMemberFails(t: seq<CodeUnit>, i: nat, d: nat, h: Handle, m: Member, n: nat, f: Failure)
    requires i <= |t| && ParseSeparatedMember(t, i, d, h).outcome == Done((m, true), n)
    requires ParseMembers(t, n, d, h).outcome == Failed(f)
    ensures ParseMembers(t, i, d, h).outcome == Failed(f)
  {
  }

  /** A non-empty object whose members fail fails the same way. */
  lemma ObjectFails(t: seq<CodeUnit>, i: nat, d: nat, f: Failure)
    requires i + 1 < |t| && t[i] == '{' as CodeUnit && d < MaxNestingLevel && t[i + 1] == '"' as CodeUnit
    requires ParseMembers(t, i + 1, d + 1, ObjectHandle(i)).outcome == Failed(f)
    ensures ParseValue(t, i, d).outcome == Failed(f)
  {
    NoWhiteSpaceAt(t, i + 1);
    assert ParseObjectContents(t, i, d, ObjectHandle(i)).outcome == Failed(f);
  }

  /**
   * The compact text of a writable value nested deeper than the levels left
   * fails with "Nesting too deep", wherever it stands.
   */
  lemma {:induction false} ValueTooDeep(t: seq<CodeUnit>, i: nat, d: nat, v: JsonValue)
    requires Writable(v) && d <= MaxNestingLevel < d + Depth(v)
    requires Holds(t, i, Write(v))
    ensures TooDeep(ParseValue(t, i, d).outcome)
    decreases v, 3
  {
    if v.Arr? {
      BracketsLayout(t, i, '[', WriteItems(v.items), ']');
      ArrayTooDeep(t, i, d, v.items);
    } else {
      assert v.Obj?;
      BracketsLayout(t, i, '{', WriteMembers(v.members), '}');
      ObjectTooDeep(t, i, d, v.members);
    }
  }

  lemma {:induction false} ArrayTooDeep(t: seq<CodeUnit>, i: nat, d: nat, items: seq<JsonValue>)
    requires WritableItems(items) && d <= MaxNestingLevel < d + 1 + ItemsDepth(items)
    requires i < |t| && t[i] == '[' as CodeUnit && Holds(t, i + 1, WriteItems(items) + [']' as CodeUnit])
    ensures TooDeep(ParseValue(t, i, d).outcome)
    decreases Arr(items), 2
  {
    if d == MaxNestingLevel {
      OpenTooDeep(t, i, d);
    } else {
      WriteStart(items[0]);
      HoldsAt(t, i + 1, WriteItems(items) + [']' as CodeUnit], 0);
      ElementsTooDeep(t, i + 1, d + 1, ArrayHandle(i), items);
      ArrayFails(t, i, d, ParseElements(t, i + 1, d + 1, ArrayHandle(i)).outcome.failure);
    }
  }

  lemma {:induction false} ObjectTooDeep(t: seq<CodeUnit>, i: nat, d: nat, members: seq<Member>)
    requires WritableMembers(members) && d <= MaxNestingLevel < d + 1 + MembersDepth(members)
    requires i < |t| && t[i] == '{' as CodeUnit && Holds(t, i + 1, WriteMembers(members) + ['}' as CodeUnit])
    ensures TooDeep(ParseValue(t, i, d).outcome)
    decreases Obj(members), 2
  {
    if d == MaxNestingLevel {
      OpenTooDeep(t, i, d);
    } else {
      WriteMembersStart(members);
      HoldsAt(t, i + 1, WriteMembers(members) + ['}' as CodeUnit], 0);
      MembersTooDeep(t, i + 1, d + 1, ObjectHandle(i), members);
      ObjectFails(t, i, d, ParseMembers(t, i + 1, d + 1, ObjectHandle(i)).outcome.failure);
    }
  }

  lemma {:induction false} ElementsTooDeep(t: seq<CodeUnit>, i: nat, d: nat, h: Handle, items: seq<JsonValue>)
    requires items != [] && WritableItems(items) && d <= MaxNestingLevel < d + ItemsDepth(items)
    requires Holds(t, i, WriteItems(items) + [']' as CodeUnit])
    ensures TooDeep(ParseElements(t, i, d, h).outcome)
    decreases items, 1
  {
    ItemsLayout(t, i, items);
    WriteStart(items[0]);
    HoldsAt(t, i, Write(items[0]), 0);
    if MaxNestingLevel < d + Depth(items[0]) {
      ValueTooDeep(t, i, d, items[0]);
      FirstElementFails(t, i, d, h, ParseValue(t, i, d).outcome.failure);
    } else {
      assert |items| > 1;
      var n := i + |Write(items[0])| + 1;
      SeparatedElementRoundTrip(t, i, d, h, items[0], true);
      ElementsTooDeep(t, n, d, h, items[1..]);
      LaterElementFails(t, i, d, h, items[0], n, ParseElements(t, n, d, h).outcome.failure);
    }
  }

  lemma {:induction false} MembersTooDeep(t: seq<CodeUnit>, i: nat, d: nat, h: Handle, members: seq<Member>)
    requires members != [] && WritableMembers(members) && d <= MaxNestingLevel < d + MembersDepth(members)
    requires Holds(t, i, WriteMembers(members) + ['}' as CodeUnit])
    ensures TooDeep(ParseMembers(t, i, d, h).outcome)
    decreases members, 1
  {
    MembersLayout(t, i, members);
    var m := members[0];
    if MaxNestingLevel < d + Depth(m.value) {
      MemberTooDeep(t, i, d, h, m);
      FirstMemberFails(t, i, d, h, ParseMember(t, i, d, h).outcome.failure);
    } else {
      assert |members| > 1;
      var n := i + |WriteMember(m)| + 1;
      SeparatedMemberRoundTrip(t, i, d, h, m, true);
      MembersTooDeep(t, n, d, h, members[1..]);
      LaterMemberFails(t, i, d, h, m, n, ParseMembers(t, n, d, h).outcome.failure);
    }
  }

  lemma {:induction false} MemberTooDeep(t: seq<CodeUnit>, i: nat, d: nat, h: Handle, m: Member)
    requires Writable(m.value) && d <= MaxNestingLevel < d + Depth(m.value)
    requires Holds(t, i, WriteMember(m))
    ensures TooDeep(ParseMember(t, i, d, h).outcome)
    decreases m, 5
  {
    MemberLayout(t, i, m);
    var n := i + |EscapeString(m.name)| + 3;
    MemberNameRoundTrip(t, i, h, m.name);
    WriteStart(m.value);
    HoldsAt(t, n, Write(m.value), 0);
    ValueTooDeep(t, n, d, m.value);
    MemberValueFails(t, i, d, h, m.name, n, ParseValue(t, n, d).outcome.failure);
  }

  /** The compact text of a writable value nested deeper than the engine allows fails with "Nesting too deep". */
  lemma ParseTextTooDeep(v: JsonValue)
    requires Writable(v) && Depth(v) > MaxNestingLevel
    ensures TooDeep(ParseText(Write(v)).outcome)
  {
    var t := Write(v);
    assert Holds(t, 0, t) by {
      Unfold(t, 0, t);
      assert t[0..|t|] == t;
    }
    WriteStart(v);
    NoWhiteSpaceAt(t, 0);
    ValueTooDeep(t, 0, 0, v);
  }

  /** The compact text of a writable value parses exactly when its nesting is within the limit, and then to the value. */
  lemma WrittenTextParses(v: JsonValue)
    requires Writable(v)
    ensures ParseText(Write(v)).outcome.Done? <==> Depth(v) <= MaxNestingLevel
    ensures ParseText(Write(v)).outcome.Done? ==> ParseText(Write(v)).outcome.value == v
  {
    if Depth(v) <= MaxNestingLevel {
      ParseTextRoundTrip(v);
    } else {
      ParseTextTooDeep(v);
    }
  }
}
