/**
 * The value model of the `values` package: JSON values as immutable trees.
 * `JsonNumber` keeps the exact lexical text of a number; its integer
 * conversions parse that text on demand and give `None` instead of failing.
 * `Write` is the compact text form (what `toString` produces), which the
 * round-trip and nesting properties of the parser are stated with.
 */
module Values {
  import opened Text
  import opened Wrappers

  const MinInt: int := -0x8000_0000
  const MaxInt: int := 0x7FFF_FFFF
  const MinLong: int := -0x8000_0000_0000_0000
  const MaxLong: int := 0x7FFF_FFFF_FFFF_FFFF

  /** Text of the form: an optional `+` or `-`, then at least one decimal digit. */
  predicate IsIntegerText(s: seq<CodeUnit>) {
    if |s| > 0 && (s[0] == '-' as CodeUnit || s[0] == '+' as CodeUnit) then |s| > 1 && AllDigits(s[1..])
    else |s| > 0 && AllDigits(s)
  }

  /** The integer such a text denotes. */
  function IntegerValue(s: seq<CodeUnit>): int
    requires IsIntegerText(s)
  {
    if s[0] == '-' as CodeUnit then -(DecimalValue(s[1..]) as int)
    else if s[0] == '+' as CodeUnit then DecimalValue(s[1..])
    else DecimalValue(s)
  }

  /**
   * Kotlin's `String.toIntOrNull()` / `toLongOrNull()` for the range [lo, hi]:
   * a leading character below '0' must be a sign followed by more text, and
   * every remaining character must be a decimal digit.
   */
  function ToIntegerOrNull(s: seq<CodeUnit>, lo: int, hi: int): (r: Option<int>)
    ensures r.Some? <==> IsIntegerText(s) && lo <= IntegerValue(s) <= hi
    ensures r.Some? ==> r.value == IntegerValue(s)
  {
    if |s| == 0 then None
    else
      var start := if s[0] < '0' as CodeUnit then 1 else 0;
      if start == 1 && (|s| == 1 || (s[0] != '-' as CodeUnit && s[0] != '+' as CodeUnit)) then None
      else if !AllDigits(s[start..]) then None
      else
        var magnitude: int := DecimalValue(s[start..]);
        var n := if s[0] == '-' as CodeUnit then -magnitude else magnitude;
        if lo <= n <= hi then Some(n) else None
  }

  /** Two's-complement wrap-around of an integer to 32 bits. */
  function Wrap32(x: int): (r: int)
    ensures MinInt <= r <= MaxInt && (r - x) % 0x1_0000_0000 == 0
  {
    (x - MinInt) % 0x1_0000_0000 + MinInt
  }

  /** Java's `String.hashCode`: h = 31 * h + c over the code units, in 32-bit arithmetic. */
  function StringHash(s: seq<CodeUnit>): (r: int)
    ensures MinInt <= r <= MaxInt
  {
    if s == [] then 0 else Wrap32(31 * StringHash(s[..|s| - 1]) + s[|s| - 1])
  }

  /** A number value that retains the text it was parsed from. */
  datatype JsonNumber = JsonNumber(value: seq<CodeUnit>) {

    /** Every number reports that it is one, whatever its text. */
    predicate IsNumber(): (b: bool)
      ensures b && Num(this).IsNumber()
    {
      true
    }

    /** The text as a 32-bit integer, when it is one. */
    function AsInt(): (r: Option<int>)
      ensures r.Some? <==> IsIntegerText(value) && MinInt <= IntegerValue(value) <= MaxInt
      ensures r.Some? ==> r.value == IntegerValue(value)
    {
      ToIntegerOrNull(value, MinInt, MaxInt)
    }

    /** The text as a 64-bit integer, when it is one. */
    function AsLong(): (r: Option<int>)
      ensures r.Some? <==> IsIntegerText(value) && MinLong <= IntegerValue(value) <= MaxLong
      ensures r.Some? ==> r.value == IntegerValue(value)
    {
      ToIntegerOrNull(value, MinLong, MaxLong)
    }

    /** The text, which gives back this very number. */
    function AsString(): (s: seq<CodeUnit>)
      ensures JsonNumber(s) == this
    {
      value
    }

    /** The same text as `AsString`. */
    function ToString(): (s: seq<CodeUnit>)
      ensures s == AsString() && JsonNumber(s) == this
    {
      value
    }

    /** The hash of the text, a 32-bit integer. */
    function HashCode(): (h: int)
      ensures MinInt <= h <= MaxInt
    {
      StringHash(value)
    }

    /** Two numbers are equal exactly when their texts are. */
    predicate Equals(other: JsonValue): (b: bool)
      ensures b <==> other == Num(this)
    {
      other.Num? && other.number.value == value
    }
  }

  /** Every 32-bit integer text is also a 64-bit one, with the same value. */
  lemma IntIsLong(n: JsonNumber)
    ensures n.AsInt().Some? ==> n.AsLong() == n.AsInt()
  {
  }

  /** The decimal text of a natural number up to Int.MAX_VALUE reads back as an Int. */
  lemma DecimalAsInt(k: nat)
    requires k <= MaxInt
    ensures JsonNumber(Decimal(k)).AsInt() == Some(k)
  {
    DecimalRoundTrip(k);
  }

  /** A minus sign and the decimal text of a natural number down to Int.MIN_VALUE reads back as its negation. */
  lemma NegativeDecimalAsInt(k: nat)
    requires k <= -MinInt
    ensures JsonNumber(['-' as CodeUnit] + Decimal(k)).AsInt() == Some(-(k as int))
  {
    var s := ['-' as CodeUnit] + Decimal(k);
    assert s[1..] == Decimal(k);
    DecimalRoundTrip(k);
  }

  /** One past the 32-bit range is no Int, but still a Long. */
  lemma IntOverflowIsLong()
    ensures JsonNumber(Decimal(MaxInt + 1)).AsInt() == None
    ensures JsonNumber(Decimal(MaxInt + 1)).AsLong() == Some(MaxInt + 1)
  {
    DecimalRoundTrip(MaxInt + 1);
  }

  /** Numbers are equal exactly when their texts are, so `0` and `0.0` differ; equal numbers hash alike. */
  lemma NumberEquality(n: JsonNumber, other: JsonValue)
    ensures n.Equals(other) <==> other == Num(n)
    ensures n.Equals(other) ==> other.number.HashCode() == n.HashCode()
  {
  }

  /**
   * A number is written as its text, unchanged. This follows from the
   * definitions of `Write` and `ToString`; that a parsed number keeps the
   * text it consumed through `write` is `RoundTrip.NumberKeepsText`.
   */
  lemma WriteNumber(n: JsonNumber)
    ensures Write(Num(n)) == n.ToString() && |Write(Num(n))| == |n.AsString()|
  {
  }

  datatype Member = Member(name: seq<CodeUnit>, value: JsonValue)

  datatype JsonValue =
    | Null
    | Bool(truth: bool)
    | Str(chars: seq<CodeUnit>)
    | Num(number: JsonNumber)
    | Arr(items: seq<JsonValue>)
    | Obj(members: seq<Member>)
  {
    predicate IsNumber() {
      Num?
    }
  }

  /** Nesting depth: scalars are 0, a container is one more than its deepest child. */
  function Depth(v: JsonValue): nat
    decreases v, 1
  {
    match v
    case Arr(items) => 1 + ItemsDepth(items)
    case Obj(members) => 1 + MembersDepth(members)
    case _ => 0
  }

  function ItemsDepth(items: seq<JsonValue>): nat
    decreases items, 0
  {
    if items == [] then 0
    else
      var d0, d1 := Depth(items[0]), ItemsDepth(items[1..]);
      if d0 < d1 then d1 else d0
  }

  function MembersDepth(members: seq<Member>): nat
    decreases members, 0
  {
    if members == [] then 0
    else
      var d0, d1 := Depth(members[0].value), MembersDepth(members[1..]);
      if d0 < d1 then d1 else d0
  }

  /** The escape sequence the writer uses for one code unit of a string. */
  function EscapeUnit(c: CodeUnit): seq<CodeUnit> {
    if c == '"' as CodeUnit then ['\\' as CodeUnit, '"' as CodeUnit]
    else if c == '\\' as CodeUnit then ['\\' as CodeUnit, '\\' as CodeUnit]
    else if c == '\n' as CodeUnit then ['\\' as CodeUnit, 'n' as CodeUnit]
    else if c == '\r' as CodeUnit then ['\\' as CodeUnit, 'r' as CodeUnit]
    else if c == '\t' as CodeUnit then ['\\' as CodeUnit, 't' as CodeUnit]
    else if c < 0x20 then ['\\' as CodeUnit, 'u' as CodeUnit, '0' as CodeUnit, '0' as CodeUnit, HexDigit(c / 16), HexDigit(c % 16)]
    else [c]
  }

  /** A string's escaped text: the escape of each code unit in turn; `EscapeStringUnfold` takes one step. */
  function EscapeString(s: seq<CodeUnit>): seq<CodeUnit>
    decreases |s|, 1
  {
    Escaped(s, |s| + 1)
  }

  function Escaped(s: seq<CodeUnit>, depth: nat): seq<CodeUnit>
    decreases |s|, 0, depth
  {
    if depth == 0 then (if s == [] then [] else EscapeUnit(s[0]) + EscapeString(s[1..]))
    else Escaped(s, depth - 1)
  }

  lemma {:induction false} EscapedUnfold(s: seq<CodeUnit>, depth: nat)
    ensures Escaped(s, depth) == if s == [] then [] else EscapeUnit(s[0]) + EscapeString(s[1..])
    decreases depth
  {
    if depth > 0 {
      EscapedUnfold(s, depth - 1);
    }
  }

  lemma EscapeStringUnfold(s: seq<CodeUnit>)
    ensures EscapeString(s) == if s == [] then [] else EscapeUnit(s[0]) + EscapeString(s[1..])
  {
    EscapedUnfold(s, |s| + 1);
  }

  function WriteString(s: seq<CodeUnit>): seq<CodeUnit> {
    ['"' as CodeUnit] + EscapeString(s) + ['"' as CodeUnit]
  }

  /** The three literal names. */
  const NullWord: seq<CodeUnit> := ['n' as CodeUnit, 'u' as CodeUnit, 'l' as CodeUnit, 'l' as CodeUnit]
  const TrueWord: seq<CodeUnit> := ['t' as CodeUnit, 'r' as CodeUnit, 'u' as CodeUnit, 'e' as CodeUnit]
  const FalseWord: seq<CodeUnit> := ['f' as CodeUnit, 'a' as CodeUnit, 'l' as CodeUnit, 's' as CodeUnit, 'e' as CodeUnit]

  /** Compact JSON text: no insignificant whitespace, numbers as their retained text. */
  function Write(v: JsonValue): seq<CodeUnit>
    decreases v, 1
  {
    match v
    case Null => NullWord
    case Bool(b) => if b then TrueWord else FalseWord
    case Str(s) => WriteString(s)
    case Num(n) => n.value
    case Arr(items) => ['[' as CodeUnit] + WriteItems(items) + [']' as CodeUnit]
    case Obj(members) => ['{' as CodeUnit] + WriteMembers(members) + ['}' as CodeUnit]
  }

  function WriteItems(items: seq<JsonValue>): seq<CodeUnit>
    decreases items, 0
  {
    if items == [] then []
    else if |items| == 1 then Write(items[0])
    else Write(items[0]) + [',' as CodeUnit] + WriteItems(items[1..])
  }

  function WriteMember(m: Member): seq<CodeUnit>
    decreases m, 0
  {
    WriteString(m.name) + [':' as CodeUnit] + Write(m.value)
  }

  function WriteMembers(members: seq<Member>): seq<CodeUnit>
    decreases members, 0
  {
    if members == [] then []
    else if |members| == 1 then WriteMember(members[0])
    else WriteMember(members[0]) + [',' as CodeUnit] + WriteMembers(members[1..])
  }
}
