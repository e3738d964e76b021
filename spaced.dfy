/**
 * Insignificant whitespace: a value written with whitespace around every
 * token of its containers, and around the whole text, parses to the same
 * value as its compact text does.
 */
module Spaced {
  import opened Text
  import opened Wrappers
  import opened Values
  import opened Grammar
  import opened RoundTrip

  /** Nothing but JSON whitespace. */
  predicate Blank(ws: seq<CodeUnit>) {
    forall k :: 0 <= k < |ws| ==> IsWhiteSpace(ws[k])
  }

  /**
   * The text of `v` with `ws` inside every bracket and brace, before and
   * after every element, around every member's name and value, and on both
   * sides of every `,` and `:`. Scalars are written as in compact text.
   */
  function WriteSpaced(v: JsonValue, ws: seq<CodeUnit>): seq<CodeUnit>
    decreases v, 1
  {
    match v
    case Arr(items) => ['[' as CodeUnit] + (if items == [] then ws else SpacedItems(items, ws)) + [']' as CodeUnit]
    case Obj(members) => ['{' as CodeUnit] + (if members == [] then ws else SpacedMembers(members, ws)) + ['}' as CodeUnit]
    case _ => Write(v)
  }

  function SpacedItems(items: seq<JsonValue>, ws: seq<CodeUnit>): seq<CodeUnit>
    decreases items, 0
  {
    if items == [] then []
    else
      var first := ws + WriteSpaced(items[0], ws) + ws;
      if |items| == 1 then first else first + [',' as CodeUnit] + SpacedItems(items[1..], ws)
  }

  function SpacedMember(m: Member, ws: seq<CodeUnit>): seq<CodeUnit>
    decreases m, 0
  {
    ws + WriteString(m.name) + ws + [':' as CodeUnit] + ws + WriteSpaced(m.value, ws) + ws
  }

  function SpacedMembers(members: seq<Member>, ws: seq<CodeUnit>): seq<CodeUnit>
    decreases members, 0
  {
    if members == [] then []
    else
      var first := SpacedMember(members[0], ws);
      if |members| == 1 then first else first + [',' as CodeUnit] + SpacedMembers(members[1..], ws)
  }

  // ------------------------------------------------------------ the writer

  /** With no whitespace to put in, the spaced text is the compact text. */
  lemma {:induction false} SpacedWithoutSpace(v: JsonValue)
    ensures WriteSpaced(v, []) == Write(v)
    decreases v, 1
  {
    match v
    case Arr(items) => ItemsWithoutSpace(items);
    case Obj(members) => MembersWithoutSpace(members);
    case _ =>
  }

  lemma {:induction false} ItemsWithoutSpace(items: seq<JsonValue>)
    ensures SpacedItems(items, []) == WriteItems(items)
    decreases items, 0
  {
    if items != [] {
      SpacedWithoutSpace(items[0]);
      var none: seq<CodeUnit> := [];
      assert none + Write(items[0]) + none == Write(items[0]);
      if |items| > 1 {
        ItemsWithoutSpace(items[1..]);
      }
    }
  }

  lemma {:induction false} MembersWithoutSpace(members: seq<Member>)
    ensures SpacedMembers(members, []) == WriteMembers(members)
    decreases members, 0
  {
    if members != [] {
      SpacedWithoutSpace(members[0].value);
      assert SpacedMember(members[0], []) == WriteMember(members[0]);
      if |members| > 1 {
        MembersWithoutSpace(members[1..]);
      }
    }
  }

  /** The spaced text of a value starts with a character that opens a value, as the compact text does. */
  lemma SpacedStart(v: JsonValue, ws: seq<CodeUnit>)
    requires Writable(v)
    ensures |WriteSpaced(v, ws)| >= 1
    ensures var c := WriteSpaced(v, ws)[0];
      !IsWhiteSpace(c) && c != ']' as CodeUnit && c != '}' as CodeUnit
  {
    if !v.Arr? && !v.Obj? {
      WriteStart(v);
    }
  }

  // ------------------------------------------------------------ layout

  /** A run of whitespace that the input holds at `i`, followed by something else, is skipped from anywhere inside it. */
  lemma {:induction false} SkipBlank(t: seq<CodeUnit>, i: nat, ws: seq<CodeUnit>, p: nat)
    requires Holds(t, i, ws) && Blank(ws) && i <= p <= i + |ws|
    requires i + |ws| < |t| ==> !IsWhiteSpace(t[i + |ws|])
    ensures SkipWhiteSpace(t, p) == i + |ws|
    decreases i + |ws| - p
  {
    if p < i + |ws| {
      HoldsAt(t, i, ws, p - i);
      SkipBlank(t, i, ws, p + 1);
    }
  }

  /** What may follow a spaced value: what may follow a compact one, or whitespace. */
  predicate SpacedEnd(t: seq<CodeUnit>, e: nat) {
    EndsValue(t, e) || (e < |t| && IsWhiteSpace(t[e]))
  }

  /** Whitespace at `e` that the input holds, then what may end a value: the value before the whitespace may end at `e`. */
  lemma BlankThenEnds(t: seq<CodeUnit>, e: nat, ws: seq<CodeUnit>)
    requires Holds(t, e, ws) && Blank(ws) && EndsValue(t, e + |ws|)
    ensures SpacedEnd(t, e)
  {
    if |ws| > 0 {
      HoldsAt(t, e, ws, 0);
    }
  }

  /** How one piece, padded with whitespace on both sides, lies in the input. */
  lemma PaddedLayout(t: seq<CodeUnit>, i: nat, ws: seq<CodeUnit>, w: seq<CodeUnit>)
    requires Holds(t, i, ws + w + ws)
    ensures Holds(t, i, ws) && Holds(t, i + |ws|, w) && Holds(t, i + |ws| + |w|, ws)
  {
    HoldsSplit(t, i, ws + w, ws);
    HoldsSplit(t, i, ws, w);
  }

  /** How non-empty spaced items and their closing bracket lie in the input: the padded first value, then `]` or `,` and the rest. */
  lemma SpacedItemsLayout(t: seq<CodeUnit>, i: nat, items: seq<JsonValue>, ws: seq<CodeUnit>)
    requires items != [] && Holds(t, i, SpacedItems(items, ws) + [']' as CodeUnit])
    ensures var w := ws + WriteSpaced(items[0], ws) + ws; var b := i + |w|;
      Holds(t, i, w) && b < |t| && t[b] == (if |items| > 1 then ',' else ']') as CodeUnit &&
      (|items| > 1 ==> Holds(t, b + 1, SpacedItems(items[1..], ws) + [']' as CodeUnit])) &&
      |SpacedItems(items, ws)| == |w| + (if |items| > 1 then 1 + |SpacedItems(items[1..], ws)| else 0)
  {
    ListLayout(t, i, ws + WriteSpaced(items[0], ws) + ws, |items| > 1, SpacedItems(items[1..], ws), ']' as CodeUnit);
  }

  /** How a spaced member lies in the input: whitespace, the quoted name, whitespace, the colon, then the padded value. */
  lemma SpacedMemberLayout(t: seq<CodeUnit>, i: nat, m: Member, ws: seq<CodeUnit>)
    requires Holds(t, i, SpacedMember(m, ws))
    ensures var q := i + |ws|; var e := q + |EscapeString(m.name)| + 2; var c := e + |ws|;
      Holds(t, i, ws) && Holds(t, q, WriteString(m.name)) && Holds(t, e, ws) &&
      c < |t| && t[c] == ':' as CodeUnit && Holds(t, c + 1, ws + WriteSpaced(m.value, ws) + ws) &&
      |SpacedMember(m, ws)| == c + 1 + |ws + WriteSpaced(m.value, ws) + ws| - i
  {
    var name := WriteString(m.name);
    var rest := ws + WriteSpaced(m.value, ws) + ws;
    var q := i + |ws|;
    var c := q + |name| + |ws|;
    assert SpacedMember(m, ws) == ws + (name + (ws + ([':' as CodeUnit] + rest)));
    HoldsSplit(t, i, ws, name + (ws + ([':' as CodeUnit] + rest)));
    HoldsSplit(t, q, name, ws + ([':' as CodeUnit] + rest));
    HoldsSplit(t, q + |name|, ws, [':' as CodeUnit] + rest);
    HoldsSplit(t, c, [':' as CodeUnit], rest);
    HoldsAt(t, c, [':' as CodeUnit], 0);
  }

  /** A quoted name that the input holds at `q` is read back by the name production. */
  lemma ObjectNameRoundTrip(t: seq<CodeUnit>, q: nat, h: Handle, name: seq<CodeUnit>)
    requires Holds(t, q, WriteString(name))
    ensures ParseObjectName(t, q, h).outcome == Done(name, q + |EscapeString(name)| + 2)
  {
    assert WriteString(name) == ['"' as CodeUnit] + (EscapeString(name) + ['"' as CodeUnit]);
    HoldsSplit(t, q, ['"' as CodeUnit], EscapeString(name) + ['"' as CodeUnit]);
    HoldsAt(t, q, ['"' as CodeUnit], 0);
    ScanStringRoundTrip(t, q + 1, name);
  }

  /** Whitespace that the input holds at `e`, then a colon: the colon is found after the whitespace. */
  lemma ColonRoundTrip(t: seq<CodeUnit>, e: nat, ws: seq<CodeUnit>)
    requires Holds(t, e, ws) && Blank(ws) && e + |ws| < |t| && t[e + |ws|] == ':' as CodeUnit
    ensures Colon(t, e) == Done(true, e + |ws| + 1)
  {
    SkipBlank(t, e, ws, e);
  }

  /** How non-empty spaced members and their closing brace lie in the input. */
  lemma SpacedMembersLayout(t: seq<CodeUnit>, i: nat, members: seq<Member>, ws: seq<CodeUnit>)
    requires members != [] && Holds(t, i, SpacedMembers(members, ws) + ['}' as CodeUnit])
    ensures var b := i + |SpacedMember(members[0], ws)|;
      Holds(t, i, SpacedMember(members[0], ws)) &&
      b < |t| && t[b] == (if |members| > 1 then ',' else '}') as CodeUnit &&
      (|members| > 1 ==> Holds(t, b + 1, SpacedMembers(members[1..], ws) + ['}' as CodeUnit])) &&
      |SpacedMembers(members, ws)| == b - i + (if |members| > 1 then 1 + |SpacedMembers(members[1..], ws)| else 0)
  {
    ListLayout(t, i, SpacedMember(members[0], ws), |members| > 1, SpacedMembers(members[1..], ws), '}' as CodeUnit);
  }

  // ------------------------------------------------------------ one production at a time

  /** Whitespace, a value and whitespace make an element. */
  lemma ElementFromParts(t: seq<CodeUnit>, p: nat, d: nat, h: Handle, k: nat, v: JsonValue, a: nat, b: nat)
    requires p <= |t| && SkipWhiteSpace(t, p) == k && ParseValue(t, k, d).outcome == Done(v, a)
    requires a <= |t| && SkipWhiteSpace(t, a) == b
    ensures ParseElement(t, p, d, h).outcome == Done(v, b)
  {
  }

  /** Whitespace, a value and whitespace make a member's value. */
  lemma MemberValueFromParts(t: seq<CodeUnit>, n: nat, d: nat, h: Handle, name: seq<CodeUnit>, k: nat, v: JsonValue, a: nat, b: nat)
    requires n <= |t| && SkipWhiteSpace(t, n) == k && ParseValue(t, k, d).outcome == Done(v, a)
    requires a <= |t| && SkipWhiteSpace(t, a) == b
    ensures ParseMemberValue(t, n, d, h, name).outcome == Done(v, b)
  {
  }

  /** The whitespace before a name, the name, and the colon make a member's name part. */
  lemma MemberNameStep(t: seq<CodeUnit>, p: nat, h: Handle, q: nat, name: seq<CodeUnit>, e: nat, n: nat)
    requires p <= |t| && SkipWhiteSpace(t, p) == q && ParseObjectName(t, q, h).outcome == Done(name, e)
    requires e <= |t| && Colon(t, e) == Done(true, n)
    ensures ParseMemberName(t, p, h).outcome == Done(name, n)
  {
  }

  /** Whitespace, one value and whitespace make a whole text. */
  lemma TextFromParts(t: seq<CodeUnit>, k: nat, v: JsonValue, e: nat)
    requires SkipWhiteSpace(t, 0) == k && ParseValue(t, k, 0).outcome == Done(v, e)
    requires e <= |t| && SkipWhiteSpace(t, e) == |t|
    ensures ParseText(t).outcome == Done(v, |t|)
  {
  }

  // ------------------------------------------------------------ parsing back

  /** The spaced text of a writable value, where a value may end, parses back to the value. */
  lemma {:induction false} SpacedValueRoundTrip(t: seq<CodeUnit>, i: nat, d: nat, v: JsonValue, ws: seq<CodeUnit>)
    requires Writable(v) && d + Depth(v) <= MaxNestingLevel && Blank(ws)
    requires Holds(t, i, WriteSpaced(v, ws)) && SpacedEnd(t, i + |WriteSpaced(v, ws)|)
    ensures ParseValue(t, i, d).outcome == Done(v, i + |WriteSpaced(v, ws)|)
    decreases v, 3
  {
    match v
    case Null => LiteralRoundTrip(t, i, d, v);
    case Bool(_) => LiteralRoundTrip(t, i, d, v);
    case Str(s) => StringValueRoundTrip(t, i, d, s);
    case Num(n) =>
      WriteStart(v);
      HoldsAt(t, i, n.value, 0);
      NumberRoundTrip(t, i, n.value);
    case Arr(items) =>
      BracketsLayout(t, i, '[', if items == [] then ws else SpacedItems(items, ws), ']');
      SpacedArrayRoundTrip(t, i, d, items, ws);
    case Obj(members) =>
      BracketsLayout(t, i, '{', if members == [] then ws else SpacedMembers(members, ws), '}');
      SpacedObjectRoundTrip(t, i, d, members, ws);
  }

  /**
   * A value with whitespace on both sides, followed by what may end a value:
   * the whitespace before it is skipped from anywhere inside it, the value
   * parses back, and the whitespace after it is skipped.
   */
  lemma {:induction false} PaddedValueRoundTrip(t: seq<CodeUnit>, i: nat, p: nat, d: nat, v: JsonValue, ws: seq<CodeUnit>)
    requires Writable(v) && d + Depth(v) <= MaxNestingLevel && Blank(ws) && i <= p <= i + |ws|
    requires Holds(t, i, ws + WriteSpaced(v, ws) + ws) && EndsValue(t, i + |ws + WriteSpaced(v, ws) + ws|)
    ensures var k := i + |ws|; var a := k + |WriteSpaced(v, ws)|;
      k < |t| && !IsWhiteSpace(t[k]) && t[k] != ']' as CodeUnit && t[k] != '}' as CodeUnit &&
      SkipWhiteSpace(t, p) == k && ParseValue(t, k, d).outcome == Done(v, a) && SkipWhiteSpace(t, a) == a + |ws|
    decreases v, 4
  {
    var w := WriteSpaced(v, ws);
    var a := i + |ws| + |w|;
    PaddedLayout(t, i, ws, w);
    SpacedStart(v, ws);
    HoldsAt(t, i + |ws|, w, 0);
    SkipBlank(t, i, ws, p);
    BlankThenEnds(t, a, ws);
    SpacedValueRoundTrip(t, i + |ws|, d, v, ws);
    SkipBlank(t, a, ws, a);
  }

  lemma {:induction false} SpacedArrayRoundTrip(t: seq<CodeUnit>, i: nat, d: nat, items: seq<JsonValue>, ws: seq<CodeUnit>)
    requires WritableItems(items) && d + 1 + ItemsDepth(items) <= MaxNestingLevel && Blank(ws)
    requires var inside := if items == [] then ws else SpacedItems(items, ws);
      i < |t| && t[i] == '[' as CodeUnit && Holds(t, i + 1, inside + [']' as CodeUnit])
    ensures var inside := if items == [] then ws else SpacedItems(items, ws);
      ParseValue(t, i, d).outcome == Done(Arr(items), i + |inside| + 2)
    decreases Arr(items), 2
  {
    var h := ArrayHandle(i);
    var k := i + 1 + |ws|;
    if items == [] {
      HoldsSplit(t, i + 1, ws, [']' as CodeUnit]);
      HoldsAt(t, k, [']' as CodeUnit], 0);
      SkipBlank(t, i + 1, ws, i + 1);
      BlankItems(t, i + 1, d + 1, h, k);
      ArrayFromItems(t, i, d, [], k + 1);
    } else {
      SpacedItemsInside(t, i + 1, d + 1, h, items, ws);
      ArrayFromItems(t, i, d, items, i + |SpacedItems(items, ws)| + 2);
    }
  }

  /** The inside of a non-empty spaced array, from just after its `[`, parses back to the items. */
  lemma {:induction false} SpacedItemsInside(t: seq<CodeUnit>, j: nat, d: nat, h: Handle, items: seq<JsonValue>, ws: seq<CodeUnit>)
    requires items != [] && WritableItems(items) && d + ItemsDepth(items) <= MaxNestingLevel && Blank(ws)
    requires Holds(t, j, SpacedItems(items, ws) + [']' as CodeUnit])
    ensures ParseArrayItems(t, j, d, h).outcome == Done(items, j + |SpacedItems(items, ws)| + 1)
    decreases items, 2
  {
    var k := j + |ws|;
    SpacedItemsLayout(t, j, items, ws);
    PaddedValueRoundTrip(t, j, j, d, items[0], ws);
    SpacedElementsRoundTrip(t, j, k, d, h, items, ws);
    ItemsFromElements(t, j, d, h, k, items, j + |SpacedItems(items, ws)| + 1);
  }

  /** Nothing but whitespace up to `]`: no items, and the end just after it. */
  lemma BlankItems(t: seq<CodeUnit>, j: nat, d: nat, h: Handle, k: nat)
    requires j <= |t| && SkipWhiteSpace(t, j) == k && k < |t| && t[k] == ']' as CodeUnit
    ensures ParseArrayItems(t, j, d, h).outcome == Done([], k + 1)
  {
  }

  /** Whitespace and then elements make the items of an array. */
  lemma ItemsFromElements(t: seq<CodeUnit>, j: nat, d: nat, h: Handle, k: nat, items: seq<JsonValue>, e: nat)
    requires j <= |t| && SkipWhiteSpace(t, j) == k && k < |t| && t[k] != ']' as CodeUnit
    requires ParseElements(t, k, d, h).outcome == Done(items, e)
    ensures ParseArrayItems(t, j, d, h).outcome == Done(items, e)
  {
  }

  /** `[` within the nesting limit and then items make an array. */
  lemma ArrayFromItems(t: seq<CodeUnit>, i: nat, d: nat, items: seq<JsonValue>, e: nat)
    requires i < |t| && t[i] == '[' as CodeUnit && d < MaxNestingLevel
    requires ParseArrayItems(t, i + 1, d + 1, ArrayHandle(i)).outcome == Done(items, e)
    ensures ParseValue(t, i, d).outcome == Done(Arr(items), e)
  {
    assert ParseArrayContents(t, i, d, ArrayHandle(i)).outcome == Done(items, e);
  }

  /** The spaced elements and the closing bracket parse back to the elements, from anywhere in the leading whitespace. */
  lemma {:induction false} SpacedElementsRoundTrip(t: seq<CodeUnit>, i: nat, p: nat, d: nat, h: Handle, items: seq<JsonValue>, ws: seq<CodeUnit>)
    requires items != [] && WritableItems(items) && d + ItemsDepth(items) <= MaxNestingLevel && Blank(ws)
    requires Holds(t, i, SpacedItems(items, ws) + [']' as CodeUnit]) && i <= p <= i + |ws|
    ensures ParseElements(t, p, d, h).outcome == Done(items, i + |SpacedItems(items, ws)| + 1)
    decreases items, 1
  {
    SpacedItemsLayout(t, i, items, ws);
    var more := |items| > 1;
    var b := i + |ws + WriteSpaced(items[0], ws) + ws|;
    SpacedElementRoundTrip(t, i, p, d, h, items[0], ws, more);
    if more {
      SpacedElementsRoundTrip(t, b + 1, b + 1, d, h, items[1..], ws);
      ElementsStep(t, p, d, h, items[0], b + 1, more, items[1..], b + 1 + |SpacedItems(items[1..], ws)| + 1);
      assert [items[0]] + items[1..] == items;
    } else {
      ElementsStep(t, p, d, h, items[0], b + 1, more, [], b + 1);
      assert [items[0]] == items;
    }
  }

  /** One padded element and its separator: a comma exactly when `more`. */
  lemma {:induction false} SpacedElementRoundTrip(t: seq<CodeUnit>, i: nat, p: nat, d: nat, h: Handle, v: JsonValue, ws: seq<CodeUnit>, more: bool)
    requires Writable(v) && d + Depth(v) <= MaxNestingLevel && Blank(ws) && i <= p <= i + |ws|
    requires var b := i + |ws + WriteSpaced(v, ws) + ws|;
      Holds(t, i, ws + WriteSpaced(v, ws) + ws) && b < |t| && t[b] == (if more then ',' else ']') as CodeUnit
    ensures ParseSeparatedElement(t, p, d, h).outcome == Done((v, more), i + |ws + WriteSpaced(v, ws) + ws| + 1)
    decreases v, 5
  {
    var b := i + |ws + WriteSpaced(v, ws) + ws|;
    PaddedValueRoundTrip(t, i, p, d, v, ws);
    ElementFromParts(t, p, d, h, i + |ws|, v, b - |ws|, b);
    SeparatedElementStep(t, p, d, h, v, b, more);
  }

  lemma {:induction false} SpacedObjectRoundTrip(t: seq<CodeUnit>, i: nat, d: nat, members: seq<Member>, ws: seq<CodeUnit>)
    requires WritableMembers(members) && d + 1 + MembersDepth(members) <= MaxNestingLevel && Blank(ws)
    requires var inside := if members == [] then ws else SpacedMembers(members, ws);
      i < |t| && t[i] == '{' as CodeUnit && Holds(t, i + 1, inside + ['}' as CodeUnit])
    ensures var inside := if members == [] then ws else SpacedMembers(members, ws);
      ParseValue(t, i, d).outcome == Done(Obj(members), i + |inside| + 2)
    decreases Obj(members), 2
  {
    var h := ObjectHandle(i);
    var k := i + 1 + |ws|;
    if members == [] {
      HoldsSplit(t, i + 1, ws, ['}' as CodeUnit]);
      HoldsAt(t, k, ['}' as CodeUnit], 0);
      SkipBlank(t, i + 1, ws, i + 1);
      BlankMembers(t, i + 1, d + 1, h, k);
      ObjectFromMembers(t, i, d, [], k + 1);
    } else {
      SpacedMembersInside(t, i + 1, d + 1, h, members, ws);
      ObjectFromMembers(t, i, d, members, i + |SpacedMembers(members, ws)| + 2);
    }
  }

  /** The inside of a non-empty spaced object, from just after its `{`, parses back to the members. */
  lemma {:induction false} SpacedMembersInside(t: seq<CodeUnit>, j: nat, d: nat, h: Handle, members: seq<Member>, ws: seq<CodeUnit>)
    requires members != [] && WritableMembers(members) && d + MembersDepth(members) <= MaxNestingLevel && Blank(ws)
    requires Holds(t, j, SpacedMembers(members, ws) + ['}' as CodeUnit])
    ensures ParseObjectItems(t, j, d, h).outcome == Done(members, j + |SpacedMembers(members, ws)| + 1)
    decreases members, 2
  {
    var k := j + |ws|;
    SpacedMembersLayout(t, j, members, ws);
    SpacedMemberLayout(t, j, members[0], ws);
    HoldsAt(t, k, WriteString(members[0].name), 0);
    SkipBlank(t, j, ws, j);
    SpacedMembersRoundTrip(t, j, k, d, h, members, ws);
    MembersAfterBlank(t, j, d, h, k, members, j + |SpacedMembers(members, ws)| + 1);
  }

  /** Nothing but whitespace up to `}`: no members, and the end just after it. */
  lemma BlankMembers(t: seq<CodeUnit>, j: nat, d: nat, h: Handle, k: nat)
    requires j <= |t| && SkipWhiteSpace(t, j) == k && k < |t| && t[k] == '}' as CodeUnit
    ensures ParseObjectItems(t, j, d, h).outcome == Done([], k + 1)
  {
  }

  /** Whitespace and then members make the members of an object. */
  lemma MembersAfterBlank(t: seq<CodeUnit>, j: nat, d: nat, h: Handle, k: nat, members: seq<Member>, e: nat)
    requires j <= |t| && SkipWhiteSpace(t, j) == k && k < |t| && t[k] != '}' as CodeUnit
    requires ParseMembers(t, k, d, h).outcome == Done(members, e)
    ensures ParseObjectItems(t, j, d, h).outcome == Done(members, e)
  {
  }

  /** `{` within the nesting limit and then members make an object. */
  lemma ObjectFromMembers(t: seq<CodeUnit>, i: nat, d: nat, members: seq<Member>, e: nat)
    requires i < |t| && t[i] == '{' as CodeUnit && d < MaxNestingLevel
    requires ParseObjectItems(t, i + 1, d + 1, ObjectHandle(i)).outcome == Done(members, e)
    ensures ParseValue(t, i, d).outcome == Done(Obj(members), e)
  {
    assert ParseObjectContents(t, i, d, ObjectHandle(i)).outcome == Done(members, e);
  }

  /** The spaced members and the closing brace parse back to the members, from anywhere in the leading whitespace. */
  lemma {:induction false} SpacedMembersRoundTrip(t: seq<CodeUnit>, i: nat, p: nat, d: nat, h: Handle, members: seq<Member>, ws: seq<CodeUnit>)
    requires members != [] && WritableMembers(members) && d + MembersDepth(members) <= MaxNestingLevel && Blank(ws)
    requires Holds(t, i, SpacedMembers(members, ws) + ['}' as CodeUnit]) && i <= p <= i + |ws| && p <= |t|
    ensures ParseMembers(t, p, d, h).outcome == Done(members, i + |SpacedMembers(members, ws)| + 1)
    decreases members, 1
  {
    SpacedMembersLayout(t, i, members, ws);
    var more := |members| > 1;
    var b := i + |SpacedMember(members[0], ws)|;
    SpacedSeparatedMemberRoundTrip(t, i, p, d, h, members[0], ws, more);
    if more {
      SpacedMembersRoundTrip(t, b + 1, b + 1, d, h, members[1..], ws);
      MembersStep(t, p, d, h, members[0], b + 1, more, members[1..], b + 1 + |SpacedMembers(members[1..], ws)| + 1);
      assert [members[0]] + members[1..] == members;
    } else {
      MembersStep(t, p, d, h, members[0], b + 1, more, [], b + 1);
      assert [members[0]] == members;
    }
  }

  /** A name padded with whitespace and the colon after it parse back to the name, from anywhere in the leading whitespace. */
  lemma SpacedMemberNameRoundTrip(t: seq<CodeUnit>, i: nat, p: nat, h: Handle, name: seq<CodeUnit>, ws: seq<CodeUnit>)
    requires Blank(ws) && i <= p <= i + |ws|
    requires var q := i + |ws|; var e := q + |EscapeString(name)| + 2;
      Holds(t, i, ws) && Holds(t, q, WriteString(name)) && Holds(t, e, ws) &&
      e + |ws| < |t| && t[e + |ws|] == ':' as CodeUnit
    ensures ParseMemberName(t, p, h).outcome == Done(name, i + |ws| + |EscapeString(name)| + 2 + |ws| + 1)
  {
    var q := i + |ws|;
    var e := q + |EscapeString(name)| + 2;
    HoldsAt(t, q, WriteString(name), 0);
    SkipBlank(t, i, ws, p);
    ObjectNameRoundTrip(t, q, h, name);
    ColonRoundTrip(t, e, ws);
    MemberNameStep(t, p, h, q, name, e, e + |ws| + 1);
  }

  /** One padded member and its separator: a comma exactly when `more`. */
  lemma {:induction false} SpacedSeparatedMemberRoundTrip(t: seq<CodeUnit>, i: nat, p: nat, d: nat, h: Handle, m: Member, ws: seq<CodeUnit>, more: bool)
    requires Writable(m.value) && d + Depth(m.value) <= MaxNestingLevel && Blank(ws) && i <= p <= i + |ws|
    requires Holds(t, i, SpacedMember(m, ws))
    requires var b := i + |SpacedMember(m, ws)|; b < |t| && t[b] == (if more then ',' else '}') as CodeUnit
    ensures ParseSeparatedMember(t, p, d, h).outcome == Done((m, more), i + |SpacedMember(m, ws)| + 1)
    decreases m, 5
  {
    var n := i + |ws| + |EscapeString(m.name)| + 2 + |ws| + 1;
    var b := n + |ws + WriteSpaced(m.value, ws) + ws|;
    SpacedMemberLayout(t, i, m, ws);
    SpacedMemberNameRoundTrip(t, i, p, h, m.name, ws);
    PaddedValueRoundTrip(t, n, n, d, m.value, ws);
    MemberValueFromParts(t, n, d, h, m.name, n + |ws|, m.value, b - |ws|, b);
    MemberStep(t, p, d, h, m.name, n, m.value, b);
    SeparatedMemberStep(t, p, d, h, m, b, more);
  }

  /** Where a whole spaced text lies in itself: the leading whitespace, the value, the trailing whitespace. */
  lemma TextLayout(t: seq<CodeUnit>, lead: seq<CodeUnit>, w: seq<CodeUnit>, trail: seq<CodeUnit>)
    requires t == lead + w + trail
    ensures Holds(t, 0, lead) && Holds(t, |lead|, w) && Holds(t, |lead| + |w|, trail)
  {
    assert Holds(t, 0, t) by {
      Unfold(t, 0, t);
      assert t[0..|t|] == t;
    }
    HoldsSplit(t, 0, lead + w, trail);
    HoldsSplit(t, 0, lead, w);
  }

  /**
   * A writable value nested no deeper than the engine allows, written with
   * whitespace `ws` throughout and with whitespace `lead` before and `trail`
   * after it, is a JSON text that parses to the value.
   */
  lemma SpacedTextParses(v: JsonValue, ws: seq<CodeUnit>, lead: seq<CodeUnit>, trail: seq<CodeUnit>)
    requires Writable(v) && Depth(v) <= MaxNestingLevel && Blank(ws) && Blank(lead) && Blank(trail)
    ensures var t := lead + WriteSpaced(v, ws) + trail;
      ParseText(t).outcome == Done(v, |t|)
  {
    var w := WriteSpaced(v, ws);
    var t := lead + w + trail;
    var e := |lead| + |w|;
    TextLayout(t, lead, w, trail);
    SpacedStart(v, ws);
    HoldsAt(t, |lead|, w, 0);
    SkipBlank(t, 0, lead, 0);
    BlankThenEnds(t, e, trail);
    SpacedValueRoundTrip(t, |lead|, 0, v, ws);
    SkipBlank(t, e, trail, e);
    TextFromParts(t, |lead|, v, e);
  }
}
