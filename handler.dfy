/**
 * The recording handler the parser tests drive: every callback appends one
 * line to a text log, namely the event name, each argument after a space, and
 * the offset of the parser's live location after a space, ending with a
 * line feed; and it remembers that location as `lastLocation`. Containers
 * are handed out fresh and empty, so an argument naming one prints as `[]`
 * or `{}`.
 */
module Handlers {
  import opened Text
  import opened Wrappers
  import opened Locations
  import opened Values
  import opened Grammar

  /** The name each callback logs. */
  function EventName(k: EventKind): seq<CodeUnit> {
    match k
    case StartNull => Units("startNull")
    case EndNull => Units("endNull")
    case StartBoolean => Units("startBoolean")
    case EndBoolean(_) => Units("endBoolean")
    case StartString => Units("startString")
    case EndString(_) => Units("endString")
    case StartNumber => Units("startNumber")
    case EndNumber(_) => Units("endNumber")
    case StartArray => Units("startArray")
    case EndArray(_) => Units("endArray")
    case StartArrayValue(_) => Units("startArrayValue")
    case EndArrayValue(_) => Units("endArrayValue")
    case StartObject => Units("startObject")
    case EndObject(_) => Units("endObject")
    case StartObjectName(_) => Units("startObjectName")
    case EndObjectName(_, _) => Units("endObjectName")
    case StartObjectValue(_, _) => Units("startObjectValue")
    case EndObjectValue(_, _) => Units("endObjectValue")
  }

  /** How a container argument prints: a new empty array or object. */
  function HandleText(h: Handle): seq<CodeUnit> {
    match h
    case ArrayHandle(_) => Units("[]")
    case ObjectHandle(_) => Units("{}")
  }

  function BooleanText(b: bool): seq<CodeUnit> {
    if b then Units("true") else Units("false")
  }

  /** The printed arguments of each callback, in order. */
  function EventArgs(k: EventKind): seq<seq<CodeUnit>> {
    match k
    case EndBoolean(b) => [BooleanText(b)]
    case EndString(s) => [s]
    case EndNumber(s) => [s]
    case EndArray(h) => [HandleText(h)]
    case StartArrayValue(h) => [HandleText(h)]
    case EndArrayValue(h) => [HandleText(h)]
    case EndObject(h) => [HandleText(h)]
    case StartObjectName(h) => [HandleText(h)]
    case EndObjectName(h, name) => [HandleText(h), name]
    case StartObjectValue(h, name) => [HandleText(h), name]
    case EndObjectValue(h, name) => [HandleText(h), name]
    case _ => []
  }

  /** Each argument preceded by a space. */
  function Spaced(args: seq<seq<CodeUnit>>): seq<CodeUnit> {
    if args == [] then [] else Spaced(args[..|args| - 1]) + [' ' as CodeUnit] + args[|args| - 1]
  }

  /** One log line. */
  function Line(name: seq<CodeUnit>, args: seq<seq<CodeUnit>>, offset: nat): seq<CodeUnit> {
    name + Spaced(args) + [' ' as CodeUnit] + Decimal(offset) + [LF]
  }

  function LogLine(e: Event): seq<CodeUnit> {
    Line(EventName(e.kind), EventArgs(e.kind), e.offset)
  }

  /** The whole log of a sequence of events. */
  function Log(events: seq<Event>): seq<CodeUnit> {
    if events == [] then [] else Log(events[..|events| - 1]) + LogLine(events[|events| - 1])
  }

  /** The log's lines, one per callback. */
  function LoggedLines(events: seq<Event>): (lines: seq<seq<CodeUnit>>)
    ensures |lines| == |events|
    ensures Concat(lines) == Log(events)
  {
    var lines := seq(|events|, k requires 0 <= k < |events| => LogLine(events[k]));
    LinesLog(lines, events);
    lines
  }

  /** Lines that render `events` one by one make up their log. */
  lemma {:induction false} LinesLog(lines: seq<seq<CodeUnit>>, events: seq<Event>)
    requires |lines| == |events|
    requires forall k {:trigger LogLine(events[k])} :: 0 <= k < |events| ==> lines[k] == LogLine(events[k])
    ensures Concat(lines) == Log(events)
    decreases |events|
  {
    if events != [] {
      var n := |events| - 1;
      assert lines == lines[..n] + [lines[n]];
      ConcatAppend(lines[..n], lines[n]);
      LinesLog(lines[..n], events[..n]);
      assert lines[n] == LogLine(events[n]);
    }
  }

  function Last<T>(s: seq<T>): T
    requires s != []
  {
    s[|s| - 1]
  }

  class FakeParserHandler {
    var lastLocation: Option<Location>
    var log: seq<CodeUnit>

    /** The callbacks received so far. */
    ghost var events: seq<Event>

    /** The log cut into its lines, one per callback. */
    ghost var lines: seq<seq<CodeUnit>>

    /** The log is the lines one after the other, each line renders the callback at its position, and the last location is the last callback's. */
    ghost predicate Consistent()
      reads this
    {
      log == Concat(lines) && |lines| == |events| &&
      (forall k {:trigger LogLine(events[k])} :: 0 <= k < |events| ==> lines[k] == LogLine(events[k])) &&
      (lastLocation.None? <==> events == []) &&
      (lastLocation.Some? ==> lastLocation.value.offset == Last(events).offset)
    }

    /** `Consistent()`, one unfolding away except for where the last location is: outside this class the log part is only passed along. */
    ghost predicate Valid()
      reads this
    {
      (lastLocation.None? <==> events == []) &&
      (lastLocation.Some? ==> lastLocation.value.offset == Last(events).offset) &&
      Sealed(|log| + 1)
    }

    ghost predicate Sealed(depth: nat)
      reads this
      decreases depth
    {
      if depth == 0 then Consistent() else Sealed(depth - 1)
    }

    lemma {:induction false} SealedUnfold(depth: nat)
      ensures Sealed(depth) <==> Consistent()
      decreases depth
    {
      if depth > 0 {
        SealedUnfold(depth - 1);
      }
    }

    lemma Unseal()
      ensures Valid() <==> Consistent()
    {
      SealedUnfold(|log| + 1);
    }

    constructor ()
      ensures Valid() && events == [] && log == []
    {
      lastLocation, log, events, lines := None, [], [], [];
      new;
      Unseal();
    }

    function GetLog(): (s: seq<CodeUnit>)
      reads this
      requires Valid()
      ensures s == Log(events)
    {
      Unseal();
      LinesLog(lines, events);
      log
    }

    /** Appends one line for `event` and remembers `location`. */
    method Record(event: seq<CodeUnit>, args: seq<seq<CodeUnit>>, location: Location)
      modifies this`lastLocation, this`log
      ensures lastLocation == Some(location)
      ensures log == old(log) + Line(event, args, location.offset)
    {
      lastLocation := Some(location);
      log := log + event;
      for k := 0 to |args|
        invariant log == old(log) + event + Spaced(args[..k])
        invariant lastLocation == Some(location)
      {
        assert args[..k + 1][..k] == args[..k];
        log := log + [' ' as CodeUnit] + args[k];
      }
      assert args[..|args|] == args;
      log := log + [' ' as CodeUnit] + Decimal(location.offset) + [LF];
    }

    /** Records the callback `kind`: `record(name, args...)` with the name and arguments it prints. */
    method Notify(kind: EventKind, location: Location)
      requires Valid()
      modifies this
      ensures Called(old(events), Event(kind, location.offset), location)
    {
      Unseal();
      var e := Event(kind, location.offset);
      Record(EventName(kind), EventArgs(kind), location);
      ConcatAppend(lines, LogLine(e));
      lines, events := lines + [LogLine(e)], events + [e];
      Unseal();
    }

    /** What every callback guarantees: one more event, logged, at `location`. */
    ghost predicate Called(old_events: seq<Event>, e: Event, location: Location)
      reads this
    {
      Valid() && events == old_events + [e] && lastLocation == Some(location)
    }

    method StartNull(location: Location)
      requires Valid()
      modifies this
      ensures Called(old(events), Event(EventKind.StartNull, location.offset), location)
    {
      Notify(EventKind.StartNull, location);
    }

    method EndNull(location: Location)
      requires Valid()
      modifies this
      ensures Called(old(events), Event(EventKind.EndNull, location.offset), location)
    {
      Notify(EventKind.EndNull, location);
    }

    method StartBoolean(location: Location)
      requires Valid()
      modifies this
      ensures Called(old(events), Event(EventKind.StartBoolean, location.offset), location)
    {
      Notify(EventKind.StartBoolean, location);
    }

    method EndBoolean(b: bool, location: Location)
      requires Valid()
      modifies this
      ensures Called(old(events), Event(EventKind.EndBoolean(b), location.offset), location)
    {
      Notify(EventKind.EndBoolean(b), location);
    }

    method StartString(location: Location)
      requires Valid()
      modifies this
      ensures Called(old(events), Event(EventKind.StartString, location.offset), location)
    {
      Notify(EventKind.StartString, location);
    }

    method EndString(s: seq<CodeUnit>, location: Location)
      requires Valid()
      modifies this
      ensures Called(old(events), Event(EventKind.EndString(s), location.offset), location)
    {
      Notify(EventKind.EndString(s), location);
    }

    method StartNumber(location: Location)
      requires Valid()
      modifies this
      ensures Called(old(events), Event(EventKind.StartNumber, location.offset), location)
    {
      Notify(EventKind.StartNumber, location);
    }

    method EndNumber(s: seq<CodeUnit>, location: Location)
      requires Valid()
      modifies this
      ensures Called(old(events), Event(EventKind.EndNumber(s), location.offset), location)
    {
      Notify(EventKind.EndNumber(s), location);
    }

    /** Returns a new empty array, identified by where it started. */
    method StartArray(location: Location) returns (arr: Handle)
      requires Valid()
      modifies this
      ensures Called(old(events), Event(EventKind.StartArray, location.offset), location)
      ensures arr == ArrayHandle(location.offset)
    {
      Notify(EventKind.StartArray, location);
      arr := ArrayHandle(location.offset);
    }

    method EndArray(arr: Handle, location: Location)
      requires Valid()
      modifies this
      ensures Called(old(events), Event(EventKind.EndArray(arr), location.offset), location)
    {
      Notify(EventKind.EndArray(arr), location);
    }

    method StartArrayValue(arr: Handle, location: Location)
      requires Valid()
      modifies this
      ensures Called(old(events), Event(EventKind.StartArrayValue(arr), location.offset), location)
    {
      Notify(EventKind.StartArrayValue(arr), location);
    }

    method EndArrayValue(arr: Handle, location: Location)
      requires Valid()
      modifies this
      ensures Called(old(events), Event(EventKind.EndArrayValue(arr), location.offset), location)
    {
      Notify(EventKind.EndArrayValue(arr), location);
    }

    /** Returns a new empty object, identified by where it started. */
    method StartObject(location: Location) returns (obj: Handle)
      requires Valid()
      modifies this
      ensures Called(old(events), Event(EventKind.StartObject, location.offset), location)
      ensures obj == ObjectHandle(location.offset)
    {
      Notify(EventKind.StartObject, location);
      obj := ObjectHandle(location.offset);
    }

    method EndObject(obj: Handle, location: Location)
      requires Valid()
      modifies this
      ensures Called(old(events), Event(EventKind.EndObject(obj), location.offset), location)
    {
      Notify(EventKind.EndObject(obj), location);
    }

    method StartObjectName(obj: Handle, location: Location)
      requires Valid()
      modifies this
      ensures Called(old(events), Event(EventKind.StartObjectName(obj), location.offset), location)
    {
      Notify(EventKind.StartObjectName(obj), location);
    }

    method EndObjectName(obj: Handle, name: seq<CodeUnit>, location: Location)
      requires Valid()
      modifies this
      ensures Called(old(events), Event(EventKind.EndObjectName(obj, name), location.offset), location)
    {
      Notify(EventKind.EndObjectName(obj, name), location);
    }

    method StartObjectValue(obj: Handle, name: seq<CodeUnit>, location: Location)
      requires Valid()
      modifies this
      ensures Called(old(events), Event(EventKind.StartObjectValue(obj, name), location.offset), location)
    {
      Notify(EventKind.StartObjectValue(obj, name), location);
    }

    method EndObjectValue(obj: Handle, name: seq<CodeUnit>, location: Location)
      requires Valid()
      modifies this
      ensures Called(old(events), Event(EventKind.EndObjectValue(obj, name), location.offset), location)
    {
      Notify(EventKind.EndObjectValue(obj, name), location);
    }
  }
}
