/** Option, the stock absent-or-present wrapper used for lookahead and conversions. */
module Wrappers {
  datatype Option<+T> = None | Some(value: T)
}

/**
 * Characters as the parser sees them. A Kotlin `Char` is a UTF-16 code unit, so
 * the input, the decoded strings and the handler's log are sequences of code
 * units; `Units` turns a Dafny string literal into that form.
 */
module Text {

  type CodeUnit = x: int | 0 <= x < 0x1_0000

  /**
   * A Dafny string as code units, one per character. Every character the
   * model writes is in the Basic Multilingual Plane, where this is the UTF-16
   * encoding; characters outside it are not modelled.
   */
  function Units(s: string): (r: seq<CodeUnit>)
    ensures |r| == |s|
    ensures forall k :: 0 <= k < |s| && (s[k] as int) < 0x1_0000 ==> r[k] == s[k] as int
  {
    seq(|s|, k requires 0 <= k < |s| => ((s[k] as int) % 0x1_0000) as CodeUnit)
  }

  /** Code units of a concatenation are the concatenated code units. */
  lemma UnitsConcat(a: string, b: string)
    ensures Units(a + b) == Units(a) + Units(b)
  {
  }

  predicate IsDigit(c: CodeUnit) {
    '0' as CodeUnit <= c <= '9' as CodeUnit
  }

  predicate IsHexDigit(c: CodeUnit) {
    IsDigit(c) || 'a' as CodeUnit <= c <= 'f' as CodeUnit || 'A' as CodeUnit <= c <= 'F' as CodeUnit
  }

  /** Value of one hexadecimal digit, either case. */
  function HexValue(c: CodeUnit): (v: nat)
    requires IsHexDigit(c)
    ensures v < 16
    ensures IsDigit(c) ==> v == c - '0' as int
  {
    if IsDigit(c) then c - '0' as CodeUnit
    else if 'a' as CodeUnit <= c <= 'f' as CodeUnit then c - 'a' as CodeUnit + 10
    else c - 'A' as CodeUnit + 10
  }

  predicate AllHexDigits(s: seq<CodeUnit>) {
    forall k :: 0 <= k < |s| ==> IsHexDigit(s[k])
  }

  function Pow16(n: nat): nat {
    if n == 0 then 1 else 16 * Pow16(n - 1)
  }

  /** The number hexadecimal digits denote, most significant first, as `Integer.parseInt(s, 16)` reads them. */
  function HexNumber(s: seq<CodeUnit>): (v: nat)
    requires AllHexDigits(s)
    ensures v < Pow16(|s|)
  {
    if s == [] then 0 else HexNumber(s[..|s| - 1]) * 16 + HexValue(s[|s| - 1])
  }

  /** The lower-case hexadecimal digit for a value below 16. */
  function HexDigit(v: nat): (c: CodeUnit)
    requires v < 16
    ensures IsHexDigit(c) && HexValue(c) == v
  {
    if v < 10 then ('0' as CodeUnit + v) as CodeUnit else ('a' as CodeUnit + v - 10) as CodeUnit
  }

  predicate AllDigits(s: seq<CodeUnit>) {
    forall k :: 0 <= k < |s| ==> IsDigit(s[k])
  }

  /** Decimal rendering of a natural number, as `Int.toString` produces it. */
  function Decimal(n: nat): (r: seq<CodeUnit>)
    ensures |r| >= 1 && AllDigits(r)
    ensures |r| > 1 ==> r[0] != '0' as CodeUnit
  {
    if n < 10 then [('0' as CodeUnit + n) as CodeUnit]
    else Decimal(n / 10) + [('0' as CodeUnit + n % 10) as CodeUnit]
  }

  /** The number a sequence of decimal digits denotes. */
  function DecimalValue(s: seq<CodeUnit>): nat
    requires AllDigits(s)
  {
    if s == [] then 0
    else DecimalValue(s[..|s| - 1]) * 10 + (s[|s| - 1] - '0' as CodeUnit)
  }

  /** All pieces one after the other. */
  function Concat(pieces: seq<seq<CodeUnit>>): seq<CodeUnit> {
    if pieces == [] then [] else pieces[0] + Concat(pieces[1..])
  }

  /** Appending a piece appends its code units. */
  lemma {:induction false} ConcatAppend(pieces: seq<seq<CodeUnit>>, p: seq<CodeUnit>)
    ensures Concat(pieces + [p]) == Concat(pieces) + p
    decreases |pieces|
  {
    if pieces != [] {
      assert (pieces + [p])[1..] == pieces[1..] + [p];
      ConcatAppend(pieces[1..], p);
    } else {
      assert [p][1..] == [];
    }
  }

  /** Reading back what `Decimal` writes gives the number again. */
  lemma {:induction false} DecimalRoundTrip(n: nat)
    ensures DecimalValue(Decimal(n)) == n
  {
    var r := Decimal(n);
    if n >= 10 {
      DecimalRoundTrip(n / 10);
      assert r[..|r| - 1] == Decimal(n / 10);
    }
  }
}
