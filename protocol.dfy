/**
 * The event protocol: which handler callbacks a parse makes, in which order,
 * at which offsets and with which arguments. Scalars and containers are
 * described for every input; for the compact text of a value the whole
 * callback sequence is given by `ValueEvents`.
 */
module Protocol {
  import opened Text
  import opened Values
  import opened Grammar
  import opened RoundTrip

  /** A scalar between `i` and `e`: its start event before the first code unit, its end event just after the last. */
  function ScalarEvents(v: JsonValue, i: nat, e: nat): seq<Event>
    requires !v.Arr? && !v.Obj?
  {
    match v
    case Null => [Event(StartNull, i), Event(EndNull, e)]
    case Bool(b) => [Event(StartBoolean, i), Event(EndBoolean(b), e)]
    case Str(s) => [Event(StartString, i), Event(EndString(s), e)]
    case Num(n) => [Event(StartNumber, i), Event(EndNumber(n.value), e)]
  }

  /**
   * The callbacks the compact text of `v`, written from offset `i`, makes:
   * a scalar's two events; a container's start event, then each child
   * bracketed by the events that name the container, then its end event
   * just after the closing character.
   */
  function ValueEvents(v: JsonValue, i: nat): seq<Event>
    decreases v, 1
  {
    var e := i + |Write(v)|;
    match v
    case Arr(items) =>
      var h := ArrayHandle(i);
      [Event(StartArray, i)] + ItemEvents(items, i + 1, h) + [Event(EndArray(h), e)]
    case Obj(members) =>
      var h := ObjectHandle(i);
      [Event(StartObject, i)] + MemberEvents(members, i + 1, h) + [Event(EndObject(h), e)]
    case _ => ScalarEvents(v, i, e)
  }

  /** One element of array `h` at offset `p`: its value's events between `startArrayValue` and `endArrayValue`. */
  function ElementEvents(v: JsonValue, p: nat, h: Handle): seq<Event>
    decreases v, 2
  {
    [Event(StartArrayValue(h), p)] + ValueEvents(v, p) + [Event(EndArrayValue(h), p + |Write(v)|)]
  }

  /** The elements of array `h` from offset `p`, one after the other, a comma between two. */
  function ItemEvents(items: seq<JsonValue>, p: nat, h: Handle): seq<Event>
    decreases items, 0
  {
    if items == [] then []
    else ElementEvents(items[0], p, h) + ItemEvents(items[1..], p + |Write(items[0])| + 1, h)
  }

  /**
   * One member of object `h` at offset `p`: the name between
   * `startObjectName` and `endObjectName`, then after the colon its value's
   * events between `startObjectValue` and `endObjectValue`, all naming `h`.
   */
  function OneMemberEvents(m: Member, p: nat, h: Handle): seq<Event>
    decreases m, 3
  {
    var n := p + |WriteString(m.name)|;
    [Event(StartObjectName(h), p), Event(EndObjectName(h, m.name), n)] + MemberValueEvents(m.value, n + 1, h, m.name)
  }

  /** The value of member `name` of object `h` at offset `q`: its events between `startObjectValue` and `endObjectValue`. */
  function MemberValueEvents(v: JsonValue, q: nat, h: Handle, name: seq<CodeUnit>): seq<Event>
    decreases v, 2
  {
    [Event(StartObjectValue(h, name), q)] + ValueEvents(v, q) + [Event(EndObjectValue(h, name), q + |Write(v)|)]
  }

  /** The members of object `h` from offset `p`, one after the other, a comma between two. */
  function MemberEvents(members: seq<Member>, p: nat, h: Handle): seq<Event>
    decreases members, 0
  {
    if members == [] then []
    else OneMemberEvents(members[0], p, h) + MemberEvents(members[1..], p + |WriteMember(members[0])| + 1, h)
  }

  // ------------------------------------------------------------ any input

  /** On any input, a scalar that parses makes exactly its start event at `i` and its end event where it ends. */
  lemma ScalarEventsHold(t: seq<CodeUnit>, i: nat, d: nat)
    requires i <= |t| && ParseValue(t, i, d).outcome.Done?
    requires var v := ParseValue(t, i, d).outcome.value; !v.Arr? && !v.Obj?
    ensures var o := ParseValue(t, i, d).outcome;
      ParseValue(t, i, d).events == ScalarEvents(o.value, i, o.end)
  {
  }

  /** The element loop, when it succeeds, reads at least one element. */
  lemma ElementsNonEmpty(t: seq<CodeUnit>, i: nat, d: nat, h: Handle)
    requires i <= |t| && ParseElements(t, i, d, h).outcome.Done?
    ensures ParseElements(t, i, d, h).outcome.value != []
  {
  }

  lemma MembersNonEmpty(t: seq<CodeUnit>, i: nat, d: nat, h: Handle)
    requires i <= |t| && ParseMembers(t, i, d, h).outcome.Done?
    ensures ParseMembers(t, i, d, h).outcome.value != []
  {
  }

  /**
   * On any input, an array or object that parses opens with its start event
   * at `i` and closes with its end event where it ends, naming the container
   * that start event created; when it is empty those are its only events.
   */
  lemma ContainerEventsBracket(t: seq<CodeUnit>, i: nat, d: nat)
    requires i <= |t| && ParseValue(t, i, d).outcome.Done?
    requires var v := ParseValue(t, i, d).outcome.value; v.Arr? || v.Obj?
    ensures var r := ParseValue(t, i, d); var o := r.outcome;
      |r.events| >= 2 &&
      r.events[0] == Event(if o.value.Arr? then StartArray else StartObject, i) &&
      r.events[|r.events| - 1] == Event(if o.value.Arr? then EndArray(ArrayHandle(i)) else EndObject(ObjectHandle(i)), o.end)
    ensures var r := ParseValue(t, i, d); var o := r.outcome;
      (o.value == Arr([]) ==> r.events == [Event(StartArray, i), Event(EndArray(ArrayHandle(i)), o.end)]) &&
      (o.value == Obj([]) ==> r.events == [Event(StartObject, i), Event(EndObject(ObjectHandle(i)), o.end)])
  {
    var k := SkipWhiteSpace(t, i + 1);
    if t[i] == '[' as CodeUnit {
      var h := ArrayHandle(i);
      assert ParseArrayContents(t, i, d, h).outcome.Done?;
      assert ParseArrayItems(t, i + 1, d + 1, h).outcome.Done?;
      if !At(t, k, ']') {
        ElementsNonEmpty(t, k, d + 1, h);
      }
    } else {
      var h := ObjectHandle(i);
      assert ParseObjectContents(t, i, d, h).outcome.Done?;
      assert ParseObjectItems(t, i + 1, d + 1, h).outcome.Done?;
      if !At(t, k, '}') {
        MembersNonEmpty(t, k, d + 1, h);
      }
    }
  }

  // ------------------------------------------------------------ one production at a time

  /** A value with no whitespace before it, as an element: its events between the element's two. */
  lemma ElementEventsStep(t: seq<CodeUnit>, i: nat, d: nat, h: Handle)
    requires i <= |t| && (i < |t| ==> !IsWhiteSpace(t[i])) && ParseValue(t, i, d).outcome.Done?
    ensures ParseSeparatedElement(t, i, d, h).events ==
      [Event(StartArrayValue(h), i)] + ParseValue(t, i, d).events + [Event(EndArrayValue(h), ParseValue(t, i, d).outcome.end)]
  {
    NoWhiteSpaceAt(t, i);
    var a := ParseArrayValue(t, i, d, h);
    assert a.events == [Event(StartArrayValue(h), i)] + ParseValue(t, i, d).events + [Event(EndArrayValue(h), ParseValue(t, i, d).outcome.end)];
    assert ParseElement(t, i, d, h).events == a.events;
  }

  /** The element loop's events: the first element's, then the rest's after a comma. */
  lemma ElementsEventsStep(t: seq<CodeUnit>, i: nat, d: nat, h: Handle, n: nat, more: bool)
    requires i <= |t| && ParseSeparatedElement(t, i, d, h).outcome.Done?
    requires ParseSeparatedElement(t, i, d, h).outcome.value.1 == more && ParseSeparatedElement(t, i, d, h).outcome.end == n
    ensures ParseElements(t, i, d, h).events ==
      ParseSeparatedElement(t, i, d, h).events + if more then ParseElements(t, n, d, h).events else []
  {
  }

  /** A member whose name has been read: the name's events, then those of the value from `n`. */
  lemma MemberEventsStep(t: seq<CodeUnit>, i: nat, d: nat, h: Handle, name: seq<CodeUnit>, n: nat)
    requires i <= |t| && ParseMemberName(t, i, h).outcome == Done(name, n)
    ensures ParseSeparatedMember(t, i, d, h).events == ParseMemberName(t, i, h).events + ParseMemberValue(t, n, d, h, name).events
  {
  }

  /** A value with no whitespace before it, as a member's value: its events `es`, ending at `e`, between the member value's two. */
  lemma MemberValueEventsStep(t: seq<CodeUnit>, k: nat, d: nat, h: Handle, name: seq<CodeUnit>, es: seq<Event>, e: nat)
    requires k <= |t| && (k < |t| ==> !IsWhiteSpace(t[k]))
    requires ParseValue(t, k, d).outcome.Done? && ParseValue(t, k, d).outcome.end == e && ParseValue(t, k, d).events == es
    ensures ParseMemberValue(t, k, d, h, name).events == [Event(StartObjectValue(h, name), k)] + es + [Event(EndObjectValue(h, name), e)]
  {
    NoWhiteSpaceAt(t, k);
  }

  /** The member loop's events: the first member's, then the rest's after a comma. */
  lemma MembersEventsStep(t: seq<CodeUnit>, i: nat, d: nat, h: Handle, n: nat, more: bool)
    requires i <= |t| && ParseSeparatedMember(t, i, d, h).outcome.Done?
    requires ParseSeparatedMember(t, i, d, h).outcome.value.1 == more && ParseSeparatedMember(t, i, d, h).outcome.end == n
    ensures ParseMembers(t, i, d, h).events ==
      ParseSeparatedMember(t, i, d, h).events + if more then ParseMembers(t, n, d, h).events else []
  {
  }

  /** An object whose first member starts right after the brace: the members' events between the object's two. */
  lemma ObjectEventsStep(t: seq<CodeUnit>, i: nat, d: nat)
    requires i + 1 < |t| && t[i] == '{' as CodeUnit && !IsWhiteSpace(t[i + 1]) && t[i + 1] != '}' as CodeUnit
    requires d + 1 <= MaxNestingLevel && ParseMembers(t, i + 1, d + 1, ObjectHandle(i)).outcome.Done?
    ensures ParseValue(t, i, d).events ==
      [Event(StartObject, i)] + ParseMembers(t, i + 1, d + 1, ObjectHandle(i)).events +
      [Event(EndObject(ObjectHandle(i)), ParseMembers(t, i + 1, d + 1, ObjectHandle(i)).outcome.end)]
  {
    var h := ObjectHandle(i);
    NoWhiteSpaceAt(t, i + 1);
    assert ParseObjectItems(t, i + 1, d + 1, h) == ParseMembers(t, i + 1, d + 1, h);
    assert ParseObjectContents(t, i, d, h) == ParseMembers(t, i + 1, d + 1, h);
  }

  /** A text with no whitespace before its value makes the value's callbacks. */
  lemma TextEventsStep(t: seq<CodeUnit>)
    requires t != [] && !IsWhiteSpace(t[0])
    ensures ParseText(t).events == ParseValue(t, 0, 0).events
  {
    NoWhiteSpaceAt(t, 0);
  }

  // ------------------------------------------------------------ compact text

  /** The compact text of a writable value makes the callbacks `ValueEvents` lists. */
  lemma {:induction false} ValueEventsHold(t: seq<CodeUnit>, i: nat, d: nat, v: JsonValue)
    requires Writable(v) && d + Depth(v) <= MaxNestingLevel
    requires Holds(t, i, Write(v)) && EndsValue(t, i + |Write(v)|)
    ensures ParseValue(t, i, d).events == ValueEvents(v, i)
    decreases v, 3
  {
    ValueRoundTrip(t, i, d, v);
    match v
    case Arr(items) =>
      BracketsLayout(t, i, '[', WriteItems(items), ']');
      ArrayEvents(t, i, d, items);
    case Obj(members) =>
      BracketsLayout(t, i, '{', WriteMembers(members), '}');
      ObjectEvents(t, i, d, members);
    case _ =>
      ScalarEventsHold(t, i, d);
  }

  lemma {:induction false} ArrayEvents(t: seq<CodeUnit>, i: nat, d: nat, items: seq<JsonValue>)
    requires WritableItems(items) && d + 1 + ItemsDepth(items) <= MaxNestingLevel
    requires i < |t| && t[i] == '[' as CodeUnit && Holds(t, i + 1, WriteItems(items) + [']' as CodeUnit])
    ensures ParseValue(t, i, d).events == ValueEvents(Arr(items), i)
    decreases Arr(items), 2
  {
    var h := ArrayHandle(i);
    assert ParseValue(t, i, d).outcome == Done(Arr(items), i + |WriteItems(items)| + 2) by {
      ArrayRoundTrip(t, i, d, items);
    }
    assert ParseArrayContents(t, i, d, h).events == ItemEvents(items, i + 1, h) by {
      HoldsAt(t, i + 1, WriteItems(items) + [']' as CodeUnit], 0);
      if items != [] {
        WriteStart(items[0]);
        assert WriteItems(items)[0] == Write(items[0])[0];
        NoWhiteSpaceAt(t, i + 1);
        ElementsEvents(t, i + 1, d + 1, h, items);
      } else {
        NoWhiteSpaceAt(t, i + 1);
      }
    }
  }

  lemma {:induction false} ElementsEvents(t: seq<CodeUnit>, i: nat, d: nat, h: Handle, items: seq<JsonValue>)
    requires items != [] && WritableItems(items) && d + ItemsDepth(items) <= MaxNestingLevel
    requires Holds(t, i, WriteItems(items) + [']' as CodeUnit])
    ensures ParseElements(t, i, d, h).events == ItemEvents(items, i, h)
    decreases items, 2
  {
    if |items| > 1 {
      MoreElementsEvents(t, i, d, h, items);
    } else {
      LastElementEvents(t, i, d, h, items);
    }
  }

  /** The element loop over the last element: that element's events. */
  lemma {:induction false} LastElementEvents(t: seq<CodeUnit>, i: nat, d: nat, h: Handle, items: seq<JsonValue>)
    requires |items| == 1 && WritableItems(items) && d + ItemsDepth(items) <= MaxNestingLevel
    requires Holds(t, i, WriteItems(items) + [']' as CodeUnit])
    ensures ParseElements(t, i, d, h).events == ItemEvents(items, i, h)
    decreases items, 1
  {
    ItemsLayout(t, i, items);
    SeparatedElementRoundTrip(t, i, d, h, items[0], false);
    SeparatedElementEvents(t, i, d, h, items[0], false);
    ElementsEventsStep(t, i, d, h, i + |Write(items[0])| + 1, false);
    assert ItemEvents(items, i, h) == ElementEvents(items[0], i, h) by {
      assert ItemEvents(items[1..], i + |Write(items[0])| + 1, h) == [];
    }
  }

  /** The element loop over an element followed by a comma: that element's events, then those of the rest. */
  lemma {:induction false} MoreElementsEvents(t: seq<CodeUnit>, i: nat, d: nat, h: Handle, items: seq<JsonValue>)
    requires |items| > 1 && WritableItems(items) && d + ItemsDepth(items) <= MaxNestingLevel
    requires Holds(t, i, WriteItems(items) + [']' as CodeUnit])
    ensures ParseElements(t, i, d, h).events == ItemEvents(items, i, h)
    decreases items, 1
  {
    FirstElementEvents(t, i, d, h, items);
    RestElementsEvents(t, i, d, h, items);
  }

  /** The element loop over an element followed by a comma: that element's events, then the loop's from after the comma. */
  lemma {:induction false} FirstElementEvents(t: seq<CodeUnit>, i: nat, d: nat, h: Handle, items: seq<JsonValue>)
    requires |items| > 1 && WritableItems(items) && d + ItemsDepth(items) <= MaxNestingLevel
    requires Holds(t, i, WriteItems(items) + [']' as CodeUnit])
    ensures var n := i + |Write(items[0])| + 1;
      n <= |t| && ParseElements(t, i, d, h).events == ElementEvents(items[0], i, h) + ParseElements(t, n, d, h).events
    decreases items, 0
  {
    ItemsLayout(t, i, items);
    SeparatedElementRoundTrip(t, i, d, h, items[0], true);
    SeparatedElementEvents(t, i, d, h, items[0], true);
    ElementsEventsStep(t, i, d, h, i + |Write(items[0])| + 1, true);
  }

  /** The events of the elements after the first comma. */
  lemma {:induction false} RestElementsEvents(t: seq<CodeUnit>, i: nat, d: nat, h: Handle, items: seq<JsonValue>)
    requires |items| > 1 && WritableItems(items) && d + ItemsDepth(items) <= MaxNestingLevel
    requires Holds(t, i, WriteItems(items) + [']' as CodeUnit])
    ensures var n := i + |Write(items[0])| + 1;
      n <= |t| && ParseElements(t, n, d, h).events == ItemEvents(items[1..], n, h)
    decreases items, 0
  {
    ItemsLayout(t, i, items);
    ElementsEvents(t, i + |Write(items[0])| + 1, d, h, items[1..]);
  }

  lemma {:induction false} SeparatedElementEvents(t: seq<CodeUnit>, i: nat, d: nat, h: Handle, v: JsonValue, more: bool)
    requires Writable(v) && d + Depth(v) <= MaxNestingLevel
    requires Holds(t, i, Write(v))
    requires i + |Write(v)| < |t| && t[i + |Write(v)|] == (if more then ',' else ']') as CodeUnit
    ensures ParseSeparatedElement(t, i, d, h).events == ElementEvents(v, i, h)
    decreases v, 4
  {
    assert i < |t| && !IsWhiteSpace(t[i]) by {
      WriteStart(v);
      HoldsAt(t, i, Write(v), 0);
    }
    assert ParseValue(t, i, d).outcome == Done(v, i + |Write(v)|) by {
      ValueRoundTrip(t, i, d, v);
    }
    assert ParseValue(t, i, d).events == ValueEvents(v, i) by {
      ValueEventsHold(t, i, d, v);
    }
    ElementEventsStep(t, i, d, h);
  }

  lemma {:induction false} ObjectEvents(t: seq<CodeUnit>, i: nat, d: nat, members: seq<Member>)
    requires WritableMembers(members) && d + 1 + MembersDepth(members) <= MaxNestingLevel
    requires i < |t| && t[i] == '{' as CodeUnit && Holds(t, i + 1, WriteMembers(members) + ['}' as CodeUnit])
    ensures ParseValue(t, i, d).events == ValueEvents(Obj(members), i)
    decreases Obj(members), 2
  {
    var h := ObjectHandle(i);
    assert ParseValue(t, i, d).outcome == Done(Obj(members), i + |WriteMembers(members)| + 2) by {
      ObjectRoundTrip(t, i, d, members);
    }
    assert ParseObjectContents(t, i, d, h).events == MemberEvents(members, i + 1, h) by {
      HoldsAt(t, i + 1, WriteMembers(members) + ['}' as CodeUnit], 0);
      NoWhiteSpaceAt(t, i + 1);
      if members != [] {
        WriteMembersStart(members);
        MembersEvents(t, i + 1, d + 1, h, members);
      }
    }
  }

  lemma {:induction false} MembersEvents(t: seq<CodeUnit>, i: nat, d: nat, h: Handle, members: seq<Member>)
    requires members != [] && WritableMembers(members) && d + MembersDepth(members) <= MaxNestingLevel
    requires Holds(t, i, WriteMembers(members) + ['}' as CodeUnit])
    ensures ParseMembers(t, i, d, h).events == MemberEvents(members, i, h)
    decreases members, 2
  {
    if |members| > 1 {
      MoreMembersEvents(t, i, d, h, members);
    } else {
      LastMemberEvents(t, i, d, h, members);
    }
  }

  /** The member loop over the last member: that member's events. */
  lemma {:induction false} LastMemberEvents(t: seq<CodeUnit>, i: nat, d: nat, h: Handle, members: seq<Member>)
    requires |members| == 1 && WritableMembers(members) && d + MembersDepth(members) <= MaxNestingLevel
    requires Holds(t, i, WriteMembers(members) + ['}' as CodeUnit])
    ensures ParseMembers(t, i, d, h).events == MemberEvents(members, i, h)
    decreases members, 1
  {
    MembersLayout(t, i, members);
    SeparatedMemberRoundTrip(t, i, d, h, members[0], false);
    SeparatedMemberEvents(t, i, d, h, members[0], false);
    MembersEventsStep(t, i, d, h, i + |WriteMember(members[0])| + 1, false);
    assert MemberEvents(members, i, h) == OneMemberEvents(members[0], i, h) by {
      assert MemberEvents(members[1..], i + |WriteMember(members[0])| + 1, h) == [];
    }
  }

  /** The member loop over a member followed by a comma: that member's events, then those of the rest. */
  lemma {:induction false} MoreMembersEvents(t: seq<CodeUnit>, i: nat, d: nat, h: Handle, members: seq<Member>)
    requires |members| > 1 && WritableMembers(members) && d + MembersDepth(members) <= MaxNestingLevel
    requires Holds(t, i, WriteMembers(members) + ['}' as CodeUnit])
    ensures ParseMembers(t, i, d, h).events == MemberEvents(members, i, h)
    decreases members, 1
  {
    FirstMemberEvents(t, i, d, h, members);
    RestMembersEvents(t, i, d, h, members);
  }

  /** The member loop over a member followed by a comma: that member's events, then the loop's from after the comma. */
  lemma {:induction false} FirstMemberEvents(t: seq<CodeUnit>, i: nat, d: nat, h: Handle, members: seq<Member>)
    requires |members| > 1 && WritableMembers(members) && d + MembersDepth(members) <= MaxNestingLevel
    requires Holds(t, i, WriteMembers(members) + ['}' as CodeUnit])
    ensures var n := i + |WriteMember(members[0])| + 1;
      n <= |t| && ParseMembers(t, i, d, h).events == OneMemberEvents(members[0], i, h) + ParseMembers(t, n, d, h).events
    decreases members, 0
  {
    MembersLayout(t, i, members);
    SeparatedMemberRoundTrip(t, i, d, h, members[0], true);
    SeparatedMemberEvents(t, i, d, h, members[0], true);
    MembersEventsStep(t, i, d, h, i + |WriteMember(members[0])| + 1, true);
  }

  /** The events of the members after the first comma. */
  lemma {:induction false} RestMembersEvents(t: seq<CodeUnit>, i: nat, d: nat, h: Handle, members: seq<Member>)
    requires |members| > 1 && WritableMembers(members) && d + MembersDepth(members) <= MaxNestingLevel
    requires Holds(t, i, WriteMembers(members) + ['}' as CodeUnit])
    ensures var n := i + |WriteMember(members[0])| + 1;
      n <= |t| && ParseMembers(t, n, d, h).events == MemberEvents(members[1..], n, h)
    decreases members, 0
  {
    MembersLayout(t, i, members);
    MembersEvents(t, i + |WriteMember(members[0])| + 1, d, h, members[1..]);
  }

  lemma {:induction false} SeparatedMemberEvents(t: seq<CodeUnit>, i: nat, d: nat, h: Handle, m: Member, more: bool)
    requires Writable(m.value) && d + Depth(m.value) <= MaxNestingLevel
    requires Holds(t, i, WriteMember(m))
    requires i + |WriteMember(m)| < |t| && t[i + |WriteMember(m)|] == (if more then ',' else '}') as CodeUnit
    ensures ParseSeparatedMember(t, i, d, h).events == OneMemberEvents(m, i, h)
    decreases m, 6
  {
    var k := i + |WriteString(m.name)|;
    assert Placed(t, k + 1, d, m.value) by {
      MemberValuePlaced(t, i, d, m, more, k);
    }
    assert ParseSeparatedMember(t, i, d, h).events ==
      [Event(StartObjectName(h), i), Event(EndObjectName(h, m.name), k)] + ParseMemberValue(t, k + 1, d, h, m.name).events by {
      MemberNameEvents(t, i, d, h, m, k);
    }
    assert ParseMemberValue(t, k + 1, d, h, m.name).events == MemberValueEvents(m.value, k + 1, h, m.name) by {
      MemberValueEventsHold(t, k + 1, d, h, m.name, m.value);
    }
    OneMemberEventsUnfold(m, i, h, k);
  }

  lemma OneMemberEventsUnfold(m: Member, i: nat, h: Handle, k: nat)
    requires k == i + |WriteString(m.name)|
    ensures OneMemberEvents(m, i, h) == [Event(StartObjectName(h), i), Event(EndObjectName(h, m.name), k)] + MemberValueEvents(m.value, k + 1, h, m.name)
  {
  }

  /** A value of the compact text, followed by the end of the input or a `,`, `]` or `}`, at a depth that leaves room for it. */
  predicate Placed(t: seq<CodeUnit>, n: nat, d: nat, v: JsonValue) {
    Writable(v) && d + Depth(v) <= MaxNestingLevel && Holds(t, n, Write(v)) && EndsValue(t, n + |Write(v)|)
  }

  /** After a member's compact name and colon comes its value, placed as a value of the compact text. */
  lemma MemberValuePlaced(t: seq<CodeUnit>, i: nat, d: nat, m: Member, more: bool, k: nat)
    requires Writable(m.value) && d + Depth(m.value) <= MaxNestingLevel
    requires Holds(t, i, WriteMember(m)) && k == i + |WriteString(m.name)|
    requires i + |WriteMember(m)| < |t| && t[i + |WriteMember(m)|] == (if more then ',' else '}') as CodeUnit
    ensures Placed(t, k + 1, d, m.value)
  {
    MemberLayout(t, i, m);
    assert |WriteString(m.name)| == |EscapeString(m.name)| + 2;
  }

  /** A member's compact name and colon: the name's two events, then those of the value that follows the colon. */
  lemma MemberNameEvents(t: seq<CodeUnit>, i: nat, d: nat, h: Handle, m: Member, k: nat)
    requires Holds(t, i, WriteMember(m)) && k == i + |WriteString(m.name)|
    ensures k + 1 <= |t|
    ensures ParseSeparatedMember(t, i, d, h).events ==
      [Event(StartObjectName(h), i), Event(EndObjectName(h, m.name), k)] + ParseMemberValue(t, k + 1, d, h, m.name).events
  {
    MemberLayout(t, i, m);
    var n := i + |EscapeString(m.name)| + 3;
    assert |WriteString(m.name)| == |EscapeString(m.name)| + 2;
    MemberNameRoundTrip(t, i, h, m.name);
    MemberEventsStep(t, i, d, h, m.name, n);
  }

  lemma {:induction false} MemberValueEventsHold(t: seq<CodeUnit>, n: nat, d: nat, h: Handle, name: seq<CodeUnit>, v: JsonValue)
    requires Placed(t, n, d, v)
    ensures ParseMemberValue(t, n, d, h, name).events == MemberValueEvents(v, n, h, name)
    decreases v, 4
  {
    assert ParseMemberValue(t, n, d, h, name).events ==
      [Event(StartObjectValue(h, name), n)] + ValueEvents(v, n) + [Event(EndObjectValue(h, name), n + |Write(v)|)] by {
      assert n < |t| && !IsWhiteSpace(t[n]) by {
        WriteStart(v);
        HoldsAt(t, n, Write(v), 0);
      }
      assert ParseValue(t, n, d).outcome == Done(v, n + |Write(v)|) by {
        ValueRoundTrip(t, n, d, v);
      }
      assert ParseValue(t, n, d).events == ValueEvents(v, n) by {
        ValueEventsHold(t, n, d, v);
      }
      MemberValueEventsStep(t, n, d, h, name, ValueEvents(v, n), n + |Write(v)|);
    }
  }

  /** Parsing the compact text of a writable value makes exactly the callbacks `ValueEvents(v, 0)` lists. */
  lemma ParseTextEvents(v: JsonValue)
    requires Writable(v) && Depth(v) <= MaxNestingLevel
    ensures ParseText(Write(v)).events == ValueEvents(v, 0)
  {
    var t := Write(v);
    assert Holds(t, 0, t) by {
      Unfold(t, 0, t);
      assert t[0..|t|] == t;
    }
    WriteStart(v);
    NoWhiteSpaceAt(t, 0);
    ValueRoundTrip(t, 0, 0, v);
    ValueEventsHold(t, 0, 0, v);
  }
}
