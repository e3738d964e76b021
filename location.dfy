/**
 * Position tracking: the offset, line and column of a point in the input.
 * Every consumed code unit advances the offset and the column; only a line
 * feed starts a new line, so CR on its own and the CR of a CRLF pair are
 * ordinary characters for this purpose.
 */
module Locations {
  import opened Text

  const LF: CodeUnit := 0x0A

  /** `offset` counts code units from 0; `line` and `column` count from 1. */
  datatype Location = Location(offset: nat, line: nat, column: nat)

  /** The location reached after consuming `c` at `loc`. */
  function Advance(loc: Location, c: CodeUnit): Location {
    if c == LF then Location(loc.offset + 1, loc.line + 1, 1)
    else Location(loc.offset + 1, loc.line, loc.column + 1)
  }

  /** The live position after the first `n` code units of `t` have been consumed. */
  function LocationAt(t: seq<CodeUnit>, n: nat): (loc: Location)
    requires n <= |t|
    ensures loc.offset == n && loc.line >= 1 && loc.column >= 1
  {
    if n == 0 then Location(0, 1, 1) else Advance(LocationAt(t, n - 1), t[n - 1])
  }

  /** Number of line feeds in `s`. */
  function CountLF(s: seq<CodeUnit>): nat {
    if s == [] then 0 else CountLF(s[..|s| - 1]) + (if s[|s| - 1] == LF then 1 else 0)
  }

  /** `s` contains no line feed. */
  predicate NoLF(s: seq<CodeUnit>) {
    forall k :: 0 <= k < |s| ==> s[k] != LF
  }

  /**
   * The line is one more than the line feeds consumed, and the column counts
   * from the start of the current line `start`: the index just after the last
   * line feed before `n`, or 0 when there is none.
   */
  lemma {:induction false} LocationAtCounts(t: seq<CodeUnit>, n: nat)
    requires n <= |t|
    ensures LocationAt(t, n).line == 1 + CountLF(t[..n])
    ensures exists start :: 0 <= start <= n && NoLF(t[start..n]) && (start == 0 || t[start - 1] == LF) &&
                            LocationAt(t, n).column == n - start + 1
  {
    if n == 0 {
      assert NoLF(t[0..0]);
    } else {
      LocationAtCounts(t, n - 1);
      assert t[..n][..n - 1] == t[..n - 1];
      var start :| 0 <= start <= n - 1 && NoLF(t[start..n - 1]) && (start == 0 || t[start - 1] == LF) &&
                   LocationAt(t, n - 1).column == n - 1 - start + 1;
      if t[n - 1] == LF {
        assert NoLF(t[n..n]);
      } else {
        assert t[start..n] == t[start..n - 1] + [t[n - 1]];
      }
    }
  }

  /** The location depends only on the consumed prefix. */
  lemma {:induction false} LocationAtPrefix(t: seq<CodeUnit>, u: seq<CodeUnit>, n: nat)
    requires n <= |t| && n <= |u| && t[..n] == u[..n]
    ensures LocationAt(t, n) == LocationAt(u, n)
  {
    if n > 0 {
      assert t[n - 1] == t[..n][n - 1] == u[..n][n - 1] == u[n - 1];
      assert t[..n - 1] == t[..n][..n - 1] == u[..n][..n - 1] == u[..n - 1];
      LocationAtPrefix(t, u, n - 1);
    }
  }

  /** On a single line the column is the offset plus one. */
  lemma {:induction false} LocationOnFirstLine(t: seq<CodeUnit>, n: nat)
    requires n <= |t| && NoLF(t[..n])
    ensures LocationAt(t, n) == Location(n, 1, n + 1)
  {
    if n > 0 {
      assert t[n - 1] == t[..n][n - 1];
      assert t[..n - 1] == t[..n][..n - 1];
      LocationOnFirstLine(t, n - 1);
    }
  }

  /** `line:column`, the way a location prints. */
  function ToString(loc: Location): seq<CodeUnit> {
    Decimal(loc.line) + [':' as CodeUnit] + Decimal(loc.column)
  }

  /** The rendering splits at its only colon into the line and the column, in decimal. */
  lemma ToStringReadsBack(loc: Location)
    ensures var s := ToString(loc); var k := |Decimal(loc.line)|;
      k < |s| && s[k] == ':' as CodeUnit && AllDigits(s[..k]) && AllDigits(s[k + 1..]) &&
      DecimalValue(s[..k]) == loc.line && DecimalValue(s[k + 1..]) == loc.column
  {
    var s := ToString(loc);
    var k := |Decimal(loc.line)|;
    assert s[..k] == Decimal(loc.line);
    assert s[k + 1..] == Decimal(loc.column);
    DecimalRoundTrip(loc.line);
    DecimalRoundTrip(loc.column);
  }
}
