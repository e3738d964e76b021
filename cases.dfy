/**
 * The parser's documented cases, stated on the grammar of module Grammar:
 * each lemma pins the failure kind and offset, or the value, that the
 * engine's own tests expect for one concrete input.
 */
module Cases {
  import opened Text
  import opened Locations
  import opened Values
  import opened Grammar
  import opened RoundTrip
  import opened Parser

  // ------------------------------------------------------------ nesting

  const Foo: seq<CodeUnit> := ['f' as CodeUnit, 'o' as CodeUnit, 'o' as CodeUnit]

  /** One level of nesting: an array holding `v`, or an object holding it under the name `foo`. */
  function Level(isArray: bool, v: JsonValue): (w: JsonValue)
    ensures Depth(w) == 1 + Depth(v)
  {
    if isArray then
      assert ItemsDepth([v]) == Depth(v) by { assert [v][1..] == []; }
      Arr([v])
    else
      assert MembersDepth([Member(Foo, v)]) == Depth(v) by { assert [Member(Foo, v)][1..] == []; }
      Obj([Member(Foo, v)])
  }

  /** `inner` wrapped in one level per entry of `kinds`, the first entry outermost. */
  function Nested(kinds: seq<bool>, inner: JsonValue): (v: JsonValue)
    ensures Depth(v) == |kinds| + Depth(inner)
  {
    if kinds == [] then inner else Level(kinds[0], Nested(kinds[1..], inner))
  }

  lemma FooEscapes()
    ensures EscapeString(Foo) == Foo
  {
    assert Foo[1..][1..][1..] == [];
    EscapeStringUnfold(Foo[1..][1..][1..]);
    EscapeStringUnfold(Foo[1..][1..]);
    assert EscapeString(Foo[1..][1..]) == ['o' as CodeUnit];
    EscapeStringUnfold(Foo[1..]);
    assert EscapeString(Foo[1..]) == ['o' as CodeUnit, 'o' as CodeUnit];
    EscapeStringUnfold(Foo);
  }

  /** The compact text that opens one level: `[` or `{"foo":`. */
  function Opener(isArray: bool): seq<CodeUnit> {
    if isArray then ['[' as CodeUnit] else ['{' as CodeUnit, '"' as CodeUnit] + Foo + ['"' as CodeUnit, ':' as CodeUnit]
  }

  function Openers(kinds: seq<bool>): seq<CodeUnit> {
    if kinds == [] then [] else Opener(kinds[0]) + Openers(kinds[1..])
  }

  function Closer(isArray: bool): seq<CodeUnit> {
    if isArray then [']' as CodeUnit] else ['}' as CodeUnit]
  }

  function Closers(kinds: seq<bool>): seq<CodeUnit> {
    if kinds == [] then [] else Closers(kinds[1..]) + Closer(kinds[0])
  }

  lemma WriteArrayLevel(v: JsonValue)
    ensures Write(Level(true, v)) == Opener(true) + Write(v) + Closer(true)
  {
    assert WriteItems([v]) == Write(v);
  }

  lemma WriteObjectLevel(v: JsonValue)
    ensures Write(Level(false, v)) == Opener(false) + Write(v) + Closer(false)
  {
    assert WriteMembers([Member(Foo, v)]) == WriteMember(Member(Foo, v));
    FooEscapes();
  }

  lemma Regroup(a: seq<CodeUnit>, b: seq<CodeUnit>, c: seq<CodeUnit>, d: seq<CodeUnit>, e: seq<CodeUnit>)
    ensures a + (b + c + d) + e == (a + b) + c + (d + e)
  {
  }

  /** The compact text of a nested value: the openers, the inner value, the closers. */
  lemma {:induction false} WriteNested(kinds: seq<bool>, inner: JsonValue)
    ensures Write(Nested(kinds, inner)) == Openers(kinds) + Write(inner) + Closers(kinds)
  {
    if kinds != [] {
      var rest := Nested(kinds[1..], inner);
      assert Nested(kinds, inner) == Level(kinds[0], rest);
      WriteNested(kinds[1..], inner);
      if kinds[0] {
        WriteArrayLevel(rest);
      } else {
        WriteObjectLevel(rest);
      }
      Regroup(Opener(kinds[0]), Openers(kinds[1..]), Write(inner), Closers(kinds[1..]), Closer(kinds[0]));
    }
  }

  /**
   * Openers as deep as the levels left, followed by one more container:
   * the parse fails just after the opening character of that container.
   */
  lemma {:induction false} OpenersTooDeep(t: seq<CodeUnit>, i: nat, d: nat, kinds: seq<bool>, last: bool)
    requires d + |kinds| == MaxNestingLevel
    requires Holds(t, i, Openers(kinds) + [(if last then '[' else '{') as CodeUnit])
    ensures ParseValue(t, i, d).outcome == Failed(Failure(NestingTooDeep, i + |Openers(kinds)| + 1))
    decreases |kinds|, 1
  {
    if kinds == [] {
      HoldsAt(t, i, Openers(kinds) + [(if last then '[' else '{') as CodeUnit], 0);
      OpenTooDeep(t, i, d);
    } else {
      OpenersTooDeepStep(t, i, d, kinds, last);
    }
  }

  /** The step of `OpenersTooDeep`: the first opener fails the way the openers after it fail. */
  lemma {:induction false} OpenersTooDeepStep(t: seq<CodeUnit>, i: nat, d: nat, kinds: seq<bool>, last: bool)
    requires kinds != [] && d + |kinds| == MaxNestingLevel
    requires Holds(t, i, Openers(kinds) + [(if last then '[' else '{') as CodeUnit])
    ensures ParseValue(t, i, d).outcome == Failed(Failure(NestingTooDeep, i + |Openers(kinds)| + 1))
    decreases |kinds|, 0
  {
    var j := i + |Opener(kinds[0])|;
    OpenersLayout(t, i, kinds, last);
    OpenersTooDeep(t, j, d + 1, kinds[1..], last);
    OpenerFails(t, i, d, kinds[0], Failure(NestingTooDeep, i + |Openers(kinds)| + 1));
  }

  /** How non-empty openers and the container after them lie in the input: the first opener, then the rest, which starts a container. */
  lemma OpenersLayout(t: seq<CodeUnit>, i: nat, kinds: seq<bool>, last: bool)
    requires kinds != [] && Holds(t, i, Openers(kinds) + [(if last then '[' else '{') as CodeUnit])
    ensures var j := i + |Opener(kinds[0])|;
      Holds(t, i, Opener(kinds[0])) && Holds(t, j, Openers(kinds[1..]) + [(if last then '[' else '{') as CodeUnit]) &&
      j < |t| && (t[j] == '[' as CodeUnit || t[j] == '{' as CodeUnit) &&
      |Openers(kinds)| == |Opener(kinds[0])| + |Openers(kinds[1..])|
  {
    var close := [(if last then '[' else '{') as CodeUnit];
    var o := Opener(kinds[0]);
    assert Openers(kinds) + close == o + (Openers(kinds[1..]) + close);
    HoldsSplit(t, i, o, Openers(kinds[1..]) + close);
    HoldsAt(t, i + |o|, Openers(kinds[1..]) + close, 0);
  }

  /** A level opened by either opener fails the way the container after it fails. */
  lemma OpenerFails(t: seq<CodeUnit>, i: nat, d: nat, isArray: bool, f: Failure)
    requires d < MaxNestingLevel && Holds(t, i, Opener(isArray))
    requires var j := i + |Opener(isArray)|; j < |t| && (t[j] == '[' as CodeUnit || t[j] == '{' as CodeUnit)
    requires ParseValue(t, i + |Opener(isArray)|, d + 1).outcome == Failed(f)
    ensures ParseValue(t, i, d).outcome == Failed(f)
  {
    if isArray {
      ArrayOpenerFails(t, i, d, f);
    } else {
      ObjectOpenerFails(t, i, d, f);
    }
  }

  /** A level opened by `[` fails the way the value after it fails. */
  lemma ArrayOpenerFails(t: seq<CodeUnit>, i: nat, d: nat, f: Failure)
    requires d < MaxNestingLevel && Holds(t, i, Opener(true))
    requires i + 1 < |t| && (t[i + 1] == '[' as CodeUnit || t[i + 1] == '{' as CodeUnit)
    requires ParseValue(t, i + 1, d + 1).outcome == Failed(f)
    ensures ParseValue(t, i, d).outcome == Failed(f)
  {
    HoldsAt(t, i, Opener(true), 0);
    FirstElementFails(t, i + 1, d + 1, ArrayHandle(i), f);
    ArrayFails(t, i, d, f);
  }

  /** A level opened by `{"foo":` fails the way the value after the colon fails. */
  lemma ObjectOpenerFails(t: seq<CodeUnit>, i: nat, d: nat, f: Failure)
    requires d < MaxNestingLevel && Holds(t, i, Opener(false))
    requires i + 7 < |t| && (t[i + 7] == '[' as CodeUnit || t[i + 7] == '{' as CodeUnit) && ParseValue(t, i + 7, d + 1).outcome == Failed(f)
    ensures ParseValue(t, i, d).outcome == Failed(f)
  {
    var h := ObjectHandle(i);
    var name := Foo + ['"' as CodeUnit];
    assert Opener(false) == ['{' as CodeUnit, '"' as CodeUnit] + (name + [':' as CodeUnit]);
    HoldsSplit(t, i, ['{' as CodeUnit, '"' as CodeUnit], name + [':' as CodeUnit]);
    HoldsSplit(t, i + 2, name, [':' as CodeUnit]);
    HoldsAt(t, i, Opener(false), 0);
    HoldsAt(t, i, Opener(false), 1);
    HoldsAt(t, i, Opener(false), 6);
    FooEscapes();
    MemberNameRoundTrip(t, i + 1, h, Foo);
    MemberValueFails(t, i + 1, d + 1, h, Foo, i + 7, f);
    FirstMemberFails(t, i + 1, d + 1, h, f);
    ObjectFails(t, i, d, f);
  }

  /** `n` levels of the same kind. */
  function Uniform(isArray: bool, n: nat): (kinds: seq<bool>)
    ensures |kinds| == n
    ensures forall k :: 0 <= k < n ==> kinds[k] == isArray
  {
    if n == 0 then [] else [isArray] + Uniform(isArray, n - 1)
  }

  /** `n` pairs of levels, an object around an array. */
  function Alternating(n: nat): (kinds: seq<bool>)
    ensures |kinds| == 2 * n
    ensures forall k :: 0 <= k < 2 * n ==> kinds[k] == (k % 2 == 1)
  {
    if n == 0 then [] else [false, true] + Alternating(n - 1)
  }

  lemma {:induction false} UniformOpeners(isArray: bool, n: nat)
    ensures |Openers(Uniform(isArray, n))| == n * |Opener(isArray)|
  {
    if n > 0 {
      UniformOpeners(isArray, n - 1);
      assert Uniform(isArray, n)[1..] == Uniform(isArray, n - 1);
    }
  }

  lemma {:induction false} AlternatingOpeners(n: nat)
    ensures |Openers(Alternating(n))| == 8 * n
  {
    if n > 0 {
      AlternatingOpeners(n - 1);
      var kinds := Alternating(n);
      assert kinds[1..][1..] == Alternating(n - 1);
      assert |Openers(kinds[1..])| == 1 + |Openers(Alternating(n - 1))|;
    }
  }

  lemma {:induction false} OpenersNoLF(kinds: seq<bool>)
    ensures NoLF(Openers(kinds))
  {
    if kinds != [] {
      OpenersNoLF(kinds[1..]);
      var o := Opener(kinds[0]);
      assert NoLF(o);
      var s := Openers(kinds);
      forall k | 0 <= k < |s| ensures s[k] != LF {
        if k >= |o| {
          assert s[k] == Openers(kinds[1..])[k - |o|];
        }
      }
    }
  }

  lemma HoldsStart(p: seq<CodeUnit>, rest: seq<CodeUnit>)
    ensures Holds(p + rest, 0, p)
  {
    Unfold(p + rest, 0, p);
    assert (p + rest)[0..|p|] == p;
  }

  /** The text of a nested value: its openers, the opening character of the inner container, and the rest. */
  lemma NestedText(kinds: seq<bool>, inner: JsonValue)
    requires inner == Arr([]) || inner == Obj([])
    ensures var first := (if inner.Arr? then '[' else '{') as CodeUnit;
      exists rest :: Write(Nested(kinds, inner)) == (Openers(kinds) + [first]) + rest
  {
    WriteNested(kinds, inner);
    var first := (if inner.Arr? then '[' else '{') as CodeUnit;
    var w := Write(inner);
    assert w == [first] + w[1..];
    Regroup(Openers(kinds), [], [first], w[1..], Closers(kinds));
    assert Write(Nested(kinds, inner)) == (Openers(kinds) + [first]) + (w[1..] + Closers(kinds));
  }

  /** The text of a nested value starts with its openers and the opening character of the inner container. */
  lemma NestedLayout(kinds: seq<bool>, inner: JsonValue)
    requires kinds != [] && (inner == Arr([]) || inner == Obj([]))
    ensures var t := Write(Nested(kinds, inner)); var p := Openers(kinds) + [(if inner.Arr? then '[' else '{') as CodeUnit];
      Holds(t, 0, p) && t[..|p|] == p && t[0] == p[0] && (t[0] == '[' as CodeUnit || t[0] == '{' as CodeUnit)
  {
    var p := Openers(kinds) + [(if inner.Arr? then '[' else '{') as CodeUnit];
    NestedText(kinds, inner);
    var rest :| Write(Nested(kinds, inner)) == p + rest;
    HoldsStart(p, rest);
    assert p[0] == Opener(kinds[0])[0];
  }

  /** No line feed among the openers and the character after them. */
  lemma OpenersLineFree(kinds: seq<bool>, c: CodeUnit)
    requires c != LF
    ensures NoLF(Openers(kinds) + [c])
  {
    OpenersNoLF(kinds);
    var p := Openers(kinds) + [c];
    forall k | 0 <= k < |p| ensures p[k] != LF {
      if k < |p| - 1 {
        assert p[k] == Openers(kinds)[k];
      }
    }
  }

  /**
   * A value nested 1001 levels deep, an empty container innermost: the
   * text fails with "Nesting too deep" just after the last opening
   * character, on line 1.
   */
  lemma NestedTooDeep(kinds: seq<bool>, inner: JsonValue)
    requires |kinds| == MaxNestingLevel && (inner == Arr([]) || inner == Obj([]))
    ensures var t := Write(Nested(kinds, inner)); var n := |Openers(kinds)| + 1;
      n <= |t| && ParseText(t).outcome == Failed(Failure(NestingTooDeep, n)) &&
      ErrorAt(t, Failure(NestingTooDeep, n)).location == Location(n, 1, n + 1)
  {
    var t := Write(Nested(kinds, inner));
    var first := (if inner.Arr? then '[' else '{') as CodeUnit;
    var p := Openers(kinds) + [first];
    NestedLayout(kinds, inner);
    NoWhiteSpaceAt(t, 0);
    OpenersTooDeep(t, 0, 0, kinds, inner.Arr?);
    OpenersLineFree(kinds, first);
    LocationOnFirstLine(t, |p|);
  }

  /** The decimal form of a four-digit number is its four digits. */
  lemma FourDigitDecimal(column: nat, digits: string)
    requires 1000 <= column < 10000 && |digits| == 4
    requires digits[0] as int == '0' as int + column / 1000
    requires digits[1] as int == '0' as int + column / 100 % 10
    requires digits[2] as int == '0' as int + column / 10 % 10
    requires digits[3] as int == '0' as int + column % 10
    ensures Decimal(column) == Units(digits)
  {
    assert Decimal(column / 1000) == Units(digits[..1]);
    assert Decimal(column / 100) == Units(digits[..2]);
    assert Decimal(column / 10) == Units(digits[..3]);
    assert digits[..4] == digits;
  }

  /** A nesting error on the first line reads `Nesting too deep at 1:<column>`. */
  lemma NestingErrorText(offset: nat, column: nat, digits: string)
    requires 1000 <= column < 10000 && |digits| == 4
    requires digits[0] as int == '0' as int + column / 1000
    requires digits[1] as int == '0' as int + column / 100 % 10
    requires digits[2] as int == '0' as int + column / 10 % 10
    requires digits[3] as int == '0' as int + column % 10
    ensures JsonParseError(NestingTooDeep, Location(offset, 1, column)).Text() == Units("Nesting too deep at 1:" + digits)
  {
    FourDigitDecimal(column, digits);
    assert Decimal(1) == Units("1");
    assert "Nesting too deep at 1:" + digits == "Nesting too deep" + " at " + "1" + ":" + digits;
    UnitsConcat("Nesting too deep" + " at " + "1" + ":", digits);
    UnitsConcat("Nesting too deep" + " at " + "1", ":");
    UnitsConcat("Nesting too deep" + " at ", "1");
    UnitsConcat("Nesting too deep", " at ");
  }

  /** The message of the failure in `DeeplyNestedArray`. */
  lemma NestingTextAt1002(t: seq<CodeUnit>)
    requires 1001 <= |t| && ErrorAt(t, Failure(NestingTooDeep, 1001)).location == Location(1001, 1, 1002)
    ensures ErrorAt(t, Failure(NestingTooDeep, 1001)).Text() == Units("Nesting too deep at 1:1002")
  {
    NestingErrorText(1001, 1002, "1002");
  }

  /** The message of the failure in `DeeplyNestedObject`. */
  lemma NestingTextAt7002(t: seq<CodeUnit>)
    requires 7001 <= |t| && ErrorAt(t, Failure(NestingTooDeep, 7001)).location == Location(7001, 1, 7002)
    ensures ErrorAt(t, Failure(NestingTooDeep, 7001)).Text() == Units("Nesting too deep at 1:7002")
  {
    NestingErrorText(7001, 7002, "7002");
  }

  /** The message of the failure in `DeeplyNestedMixed`. */
  lemma NestingTextAt4002(t: seq<CodeUnit>)
    requires 4001 <= |t| && ErrorAt(t, Failure(NestingTooDeep, 4001)).location == Location(4001, 1, 4002)
    ensures ErrorAt(t, Failure(NestingTooDeep, 4001)).Text() == Units("Nesting too deep at 1:4002")
  {
    NestingErrorText(4001, 4002, "4002");
  }

  /** 1001 nested arrays fail with "Nesting too deep" at 1:1002. */
  lemma DeeplyNestedArray()
    ensures var t := Write(Nested(Uniform(true, 1000), Arr([])));
      ParseText(t).outcome == Failed(Failure(NestingTooDeep, 1001)) &&
      ErrorAt(t, Failure(NestingTooDeep, 1001)).location == Location(1001, 1, 1002) &&
      ErrorAt(t, Failure(NestingTooDeep, 1001)).Text() == Units("Nesting too deep at 1:1002")
  {
    UniformOpeners(true, 1000);
    NestedTooDeep(Uniform(true, 1000), Arr([]));
    NestingTextAt1002(Write(Nested(Uniform(true, 1000), Arr([]))));
  }

  /** 1001 nested objects fail with "Nesting too deep" at 1:7002. */
  lemma DeeplyNestedObject()
    ensures var t := Write(Nested(Uniform(false, 1000), Obj([])));
      ParseText(t).outcome == Failed(Failure(NestingTooDeep, 7001)) &&
      ErrorAt(t, Failure(NestingTooDeep, 7001)).location == Location(7001, 1, 7002) &&
      ErrorAt(t, Failure(NestingTooDeep, 7001)).Text() == Units("Nesting too deep at 1:7002")
  {
    UniformOpeners(false, 1000);
    NestedTooDeep(Uniform(false, 1000), Obj([]));
    NestingTextAt7002(Write(Nested(Uniform(false, 1000), Obj([]))));
  }

  /** Objects and arrays nested alternately, 1001 levels, fail with "Nesting too deep" at 1:4002. */
  lemma DeeplyNestedMixed()
    ensures var t := Write(Nested(Alternating(500), Obj([])));
      ParseText(t).outcome == Failed(Failure(NestingTooDeep, 4001)) &&
      ErrorAt(t, Failure(NestingTooDeep, 4001)).location == Location(4001, 1, 4002) &&
      ErrorAt(t, Failure(NestingTooDeep, 4001)).Text() == Units("Nesting too deep at 1:4002")
  {
    AlternatingOpeners(500);
    NestedTooDeep(Alternating(500), Obj([]));
    NestingTextAt4002(Write(Nested(Alternating(500), Obj([]))));
  }
}
