/**
 * The streaming parser engine: recursive descent over a `CharSource`, one
 * code unit of lookahead, a nesting counter, and handler callbacks made with
 * the live location. Every `Read...` method is proved to make exactly the
 * callbacks of its production in module Grammar and, when it fails, to fail
 * with that production's failure kind at that production's offset, reported
 * with the line and column of that offset.
 */
module Parser {
  import opened Text
  import opened Wrappers
  import opened Locations
  import opened Values
  import opened Grammar
  import opened CharSources
  import opened Handlers

  /** The parse error: what went wrong and where. */
  datatype JsonParseError = JsonParseError(kind: ErrorKind, location: Location) {
    /** `<message> at <line>:<column>`. */
    function Text(): seq<CodeUnit> {
      Message(kind) + Units(" at ") + ToString(location)
    }
  }

  /** The error a failure of the grammar is reported as. */
  function ErrorAt(t: seq<CodeUnit>, f: Failure): JsonParseError
    requires f.offset <= |t|
  {
    JsonParseError(f.kind, LocationAt(t, f.offset))
  }

  /** The buffer size `parse(string)` uses; any size gives the same result. */
  const DefaultBufferSize: nat := 1024

  lemma PrependTwice<U>(a: seq<Event>, da: seq<U>, b: seq<Event>, db: seq<U>, r: Run<seq<U>>)
    ensures Prepend(a, da, Prepend(b, db, r)) == Prepend(a + b, da + db, r)
  {
    assert a + (b + r.events) == (a + b) + r.events;
    match r.outcome
    case Done(vs, _) => assert da + (db + vs) == (da + db) + vs;
    case Failed(_) =>
  }


  lemma PrependNothing<U>(r: Run<seq<U>>)
    ensures Prepend([], [], r) == r
  {
    assert [] + r.events == r.events;
    match r.outcome
    case Done(vs, _) => assert [] + vs == vs;
    case Failed(_) =>
  }

  lemma PrefixedNothing(o: Outcome<seq<CodeUnit>>)
    ensures Prefixed([], o) == o
  {
    match o
    case Done(rest, _) => assert [] + rest == rest;
    case Failed(_) =>
  }

  lemma PrefixedTwice(a: seq<CodeUnit>, b: seq<CodeUnit>, o: Outcome<seq<CodeUnit>>)
    ensures Prefixed(a, Prefixed(b, o)) == Prefixed(a + b, o)
  {
    match o
    case Done(rest, _) => assert a + (b + rest) == (a + b) + rest;
    case Failed(_) =>
  }

  /** A running capture grows by the code unit just read. */
  lemma CapturedOneMore(saved: seq<CodeUnit>, t: seq<CodeUnit>, from: nat, p: nat)
    requires from <= p < |t|
    ensures saved + t[from..p + 1] == (saved + t[from..p]) + [t[p]]
  {
    assert t[from..p + 1] == t[from..p] + [t[p]];
  }

  lemma AppendThree<T>(a: seq<T>, b: seq<T>, c: seq<T>)
    ensures a + b + c == a + (b + c)
  {
  }

  class JsonParser {
    const handler: FakeParserHandler
    var source: CharSource
    var nestingLevel: nat

    /** How many callbacks the handler had received when the current parse started, and its last location then. */
    ghost var eventsBefore: nat
    ghost var lastBefore: Option<Location>

    /** The source and the handler are consistent, and the handler's last location is where its last callback was made. */
    ghost predicate Valid()
      reads this, handler, source, source.buffer
    {
      source.Valid() && handler.Valid() && Located()
    }

    /** Every callback of the current parse was made at the live location of the offset it records. */
    ghost predicate Located()
      reads this`eventsBefore, this`lastBefore, this`source, handler
    {
      eventsBefore <= |handler.events| &&
      (|handler.events| == eventsBefore ==> handler.lastLocation == lastBefore) &&
      (|handler.events| > eventsBefore ==>
         handler.lastLocation.Some? && handler.lastLocation.value.offset <= |source.text| &&
         handler.lastLocation.value == LocationAt(source.text, handler.lastLocation.value.offset))
    }

    /** No token text is being captured. */
    ghost predicate Idle()
      reads this, source
    {
      source.Mark() == Paused([])
    }

    /**
     * A production's run `r` happened since the handler had received
     * `before` at nesting level `level`: its callbacks were made, and either
     * it ended where `r` ends at the same nesting level with no capture
     * pending, or it failed with `r`'s failure.
     */
    ghost predicate Follows<T>(r: Run<T>, before: seq<Event>, level: nat, err: Option<JsonParseError>)
      reads this, handler, source, source.buffer
    {
      Valid() && handler.events == before + r.events &&
      match r.outcome
      case Done(_, e) => err.None? && source.offset == e && nestingLevel == level && Idle()
      case Failed(f) => f.offset <= |source.text| && err == Some(ErrorAt(source.text, f))
    }

    constructor (handler: FakeParserHandler)
      ensures this.handler == handler
    {
      this.handler := handler;
      source := new CharSource([], 1);
      nestingLevel := 0;
    }

    /** `parse(string)`: the whole text through a buffer of the default size. */
    method Parse(input: seq<CodeUnit>) returns (err: Option<JsonParseError>)
      requires handler.Valid()
      modifies this, handler
      ensures Parsed(input, old(handler.events), old(handler.lastLocation), err)
    {
      err := ParseReader(Chunked(input, DefaultBufferSize), DefaultBufferSize);
    }

    /**
     * What a whole parse of `t` guarantees: the callbacks of `ParseText(t)`
     * were made, the error is present exactly when the text is rejected and
     * is then the grammar's failure, and the handler's last location is
     * that of the last callback.
     */
    ghost predicate Parsed(t: seq<CodeUnit>, before: seq<Event>, lastBefore: Option<Location>, err: Option<JsonParseError>)
      reads handler
    {
      var r := Grammar.ParseText(t);
      handler.Valid() && handler.events == before + r.events &&
      (match r.outcome
       case Done(_, _) => err.None?
       case Failed(f) => err == Some(ErrorAt(t, f))) &&
      (r.events == [] ==> handler.lastLocation == lastBefore) &&
      (r.events != [] ==> Last(r.events).offset <= |t| &&
                          handler.lastLocation == Some(LocationAt(t, Last(r.events).offset)))
    }

    /** `parse(reader, buffersize)`: the reader delivers `chunks`, each at most one buffer long. */
    method ParseReader(chunks: seq<seq<CodeUnit>>, bufferSize: nat) returns (err: Option<JsonParseError>)
      requires handler.Valid() && bufferSize >= 1 && ChunksFit(chunks, bufferSize)
      modifies this, handler
      ensures Parsed(Concat(chunks), old(handler.events), old(handler.lastLocation), err)
    {
      source := new CharSource(chunks, bufferSize);
      nestingLevel := 0;
      eventsBefore, lastBefore := |handler.events|, handler.lastLocation;
      err := ReadText();
    }

    /** Whitespace, one value, whitespace, and then nothing but the end of the input. */
    method ReadText() returns (err: Option<JsonParseError>)
      requires Valid() && Idle() && source.offset == 0 && nestingLevel == 0
      modifies this`nestingLevel, source, source.buffer, handler
      ensures Follows(ParseText(source.text), old(handler.events), 0, err)
    {
      SkipWhiteSpace();
      err := ReadValue();
      if err.Some? {
        return;
      }
      SkipWhiteSpace();
      if !source.IsEndOfInput() {
        err := Some(Error(UnexpectedCharacter));
      }
    }

    /** `error(message)`: a failure of `kind` at the current location. */
    function Error(kind: ErrorKind): (e: JsonParseError)
      reads this, source, source.buffer
      requires source.Valid()
      ensures e == ErrorAt(source.text, Failure(kind, source.offset))
    {
      JsonParseError(kind, source.GetLocation())
    }

    /** `expected(what)`: at end of input any expectation is an unexpected end of input. */
    function Expecting(kind: ErrorKind): (e: JsonParseError)
      reads this, source, source.buffer
      requires source.Valid()
      ensures e == ErrorAt(source.text, Grammar.Expected(source.text, source.offset, kind))
    {
      if source.IsEndOfInput() then Error(UnexpectedEndOfInput) else Error(kind)
    }

    function IsWhiteSpaceAhead(): (b: bool)
      reads this, source, source.buffer
      requires source.Valid()
      ensures b <==> source.offset < |source.text| && IsWhiteSpace(source.text[source.offset])
    {
      var c := source.Current();
      c == ' ' as int || c == '\t' as int || c == '\n' as int || c == '\r' as int
    }

    function IsDigitAhead(): (b: bool)
      reads this, source, source.buffer
      requires source.Valid()
      ensures b <==> DigitAt(source.text, source.offset)
    {
      var c := source.Current();
      '0' as int <= c <= '9' as int
    }

    function IsHexDigitAhead(): (b: bool)
      reads this, source, source.buffer
      requires source.Valid()
      ensures b <==> source.offset < |source.text| && IsHexDigit(source.text[source.offset])
    {
      var c := source.Current();
      '0' as int <= c <= '9' as int || 'a' as int <= c <= 'f' as int || 'A' as int <= c <= 'F' as int
    }

    // ------------------------------------------------------------ lexical steps

    /** Consumes `ch` if it is the lookahead. */
    method ReadChar(ch: char) returns (b: bool)
      requires source.Valid() && (ch as int) < 0x1_0000
      modifies source, source.buffer
      ensures b == At(source.text, old(source.offset), ch)
      ensures source.offset == old(source.offset) + (if b then 1 else 0)
      ensures source.Moved(old(source.offset), old(source.Mark()))
    {
      if source.Current() != ch as int {
        return false;
      }
      source.Read();
      return true;
    }

    /** Consumes a decimal digit if it is the lookahead. */
    method ReadDigit() returns (b: bool)
      requires source.Valid()
      modifies source, source.buffer
      ensures b == DigitAt(source.text, old(source.offset))
      ensures source.offset == old(source.offset) + (if b then 1 else 0)
      ensures source.Moved(old(source.offset), old(source.Mark()))
    {
      if !IsDigitAhead() {
        return false;
      }
      source.Read();
      return true;
    }

    /** `while (readDigit()) {}`: consumes the run of digits ahead. */
    method ReadDigits()
      requires source.Valid()
      modifies source, source.buffer
      ensures source.offset == SkipDigits(source.text, old(source.offset))
      ensures source.Moved(old(source.offset), old(source.Mark()))
    {
      ghost var t, i, m := source.text, source.offset, source.Mark();
      var more := ReadDigit();
      while more
        invariant source.Moved(i, m)
        invariant more ==> SkipDigits(t, source.offset) == SkipDigits(t, i)
        invariant !more ==> source.offset == SkipDigits(t, i)
        decreases |t| - source.offset, more
      {
        more := ReadDigit();
      }
    }

    method SkipWhiteSpace()
      requires source.Valid() && Idle()
      modifies source, source.buffer
      ensures source.Valid() && Idle()
      ensures source.offset == Grammar.SkipWhiteSpace(source.text, old(source.offset))
    {
      ghost var t, i := source.text, source.offset;
      while IsWhiteSpaceAhead()
        invariant source.Valid() && Idle() && i <= source.offset <= |t|
        invariant Grammar.SkipWhiteSpace(t, source.offset) == Grammar.SkipWhiteSpace(t, i)
        decreases |t| - source.offset
      {
        source.Read();
      }
    }

    /** Consumes `ch` or fails with "Expected '<ch>'". */
    method ReadRequiredChar(ch: char) returns (err: Option<JsonParseError>)
      requires source.Valid() && Idle() && (ch as int) < 0x1_0000
      modifies source, source.buffer
      ensures source.Valid() && Idle()
      ensures At(source.text, old(source.offset), ch) ==> err.None? && source.offset == old(source.offset) + 1
      ensures !At(source.text, old(source.offset), ch) ==>
        err == Some(ErrorAt(source.text, Grammar.Expected(source.text, old(source.offset), ExpectedLiteralChar(ch as CodeUnit))))
    {
      var ok := ReadChar(ch);
      if !ok {
        return Some(Expecting(ExpectedLiteralChar(ch as CodeUnit)));
      }
      return None;
    }

    /** The required characters `word[k..]` of a literal whose first character is at `i`, one after another. */
    method ReadRequiredChars(word: seq<CodeUnit>, k: nat, ghost i: nat) returns (err: Option<JsonParseError>)
      requires source.Valid() && Idle() && k <= |word| && source.offset == i + k
      requires forall q :: 0 <= q < |word| ==> word[q] < 0xD800
      modifies source, source.buffer
      ensures source.Valid() && Idle()
      ensures match MatchRest(source.text, i, word, k)
        case None => err.None? && source.offset == i + |word|
        case Some(f) => err == Some(ErrorAt(source.text, f))
    {
      ghost var t := source.text;
      var j := k;
      while j < |word|
        invariant source.Valid() && Idle() && k <= j <= |word| && source.offset == i + j
        invariant MatchRest(t, i, word, k) == MatchRest(t, i, word, j)
        decreases |word| - j
      {
        err := ReadRequiredChar(word[j] as char);
        if err.Some? {
          return;
        }
        j := j + 1;
      }
      return None;
    }

    /** `readChar(a) || readChar(b)`. */
    method ReadEither(a: char, b: char) returns (found: bool)
      requires source.Valid() && (a as int) < 0x1_0000 && (b as int) < 0x1_0000
      modifies source, source.buffer
      ensures found == (At(source.text, old(source.offset), a) || At(source.text, old(source.offset), b))
      ensures source.offset == old(source.offset) + (if found then 1 else 0)
      ensures source.Moved(old(source.offset), old(source.Mark()))
    {
      found := ReadChar(a);
      if !found {
        found := ReadChar(b);
      }
    }

    /** A digit is required, then every digit that follows is consumed. */
    method ReadRequiredDigits() returns (err: Option<JsonParseError>)
      requires source.Valid()
      modifies source, source.buffer
      ensures source.Moved(old(source.offset), old(source.Mark()))
      ensures match RequiredDigits(source.text, old(source.offset))
        case Done(_, e) => err.None? && source.offset == e
        case Failed(f) => err == Some(ErrorAt(source.text, f))
    {
      var digit := ReadDigit();
      if !digit {
        return Some(Expecting(ExpectedDigit));
      }
      ReadDigits();
      return None;
    }

    // ------------------------------------------------------------ literals

    /** `read()` over a literal's first character, then each remaining character required. */
    method ReadWord(word: seq<CodeUnit>) returns (err: Option<JsonParseError>)
      requires source.Valid() && Idle() && |word| >= 1
      requires source.offset < |source.text| && source.text[source.offset] == word[0]
      requires forall q :: 0 <= q < |word| ==> word[q] < 0xD800
      modifies source, source.buffer
      ensures source.Valid() && Idle()
      ensures match MatchRest(source.text, old(source.offset), word, 1)
        case None => err.None? && source.offset == old(source.offset) + |word|
        case Some(f) => err == Some(ErrorAt(source.text, f))
    {
      ghost var i := source.offset;
      source.Read();
      err := ReadRequiredChars(word, 1, i);
    }

    method ReadNull() returns (err: Option<JsonParseError>)
      requires Valid() && Idle() && source.Current() == 'n' as int
      modifies source, source.buffer, handler
      ensures Follows(ParseLiteral(source.text, old(source.offset), NullWord, Null, EventKind.StartNull, EventKind.EndNull),
                      old(handler.events), nestingLevel, err)
    {
      ghost var i, before := source.offset, handler.events;
      handler.StartNull(source.GetLocation());
      err := ReadWord(NullWord);
      if err.Some? {
        return;
      }
      handler.EndNull(source.GetLocation());
      assert handler.events == before + [Event(EventKind.StartNull, i), Event(EventKind.EndNull, i + 4)];
    }

    method ReadTrue() returns (err: Option<JsonParseError>)
      requires Valid() && Idle() && source.Current() == 't' as int
      modifies source, source.buffer, handler
      ensures Follows(ParseLiteral(source.text, old(source.offset), TrueWord, Bool(true), EventKind.StartBoolean, EventKind.EndBoolean(true)),
                      old(handler.events), nestingLevel, err)
    {
      ghost var i, before := source.offset, handler.events;
      handler.StartBoolean(source.GetLocation());
      err := ReadWord(TrueWord);
      if err.Some? {
        return;
      }
      handler.EndBoolean(true, source.GetLocation());
      assert handler.events == before + [Event(EventKind.StartBoolean, i), Event(EventKind.EndBoolean(true), i + 4)];
    }

    method ReadFalse() returns (err: Option<JsonParseError>)
      requires Valid() && Idle() && source.Current() == 'f' as int
      modifies source, source.buffer, handler
      ensures Follows(ParseLiteral(source.text, old(source.offset), FalseWord, Bool(false), EventKind.StartBoolean, EventKind.EndBoolean(false)),
                      old(handler.events), nestingLevel, err)
    {
      ghost var i, before := source.offset, handler.events;
      handler.StartBoolean(source.GetLocation());
      err := ReadWord(FalseWord);
      if err.Some? {
        return;
      }
      handler.EndBoolean(false, source.GetLocation());
      assert handler.events == before + [Event(EventKind.StartBoolean, i), Event(EventKind.EndBoolean(false), i + 5)];
    }

    // ------------------------------------------------------------ strings

    method ReadString() returns (err: Option<JsonParseError>)
      requires Valid() && Idle() && source.Current() == '"' as int
      modifies source, source.buffer, handler
      ensures Follows(ParseString(source.text, old(source.offset)), old(handler.events), nestingLevel, err)
    {
      ghost var i, before := source.offset, handler.events;
      handler.StartString(source.GetLocation());
      var s;
      s, err := ReadStringInternal();
      if err.Some? {
        return;
      }
      handler.EndString(s, source.GetLocation());
      assert handler.events == before + [Event(EventKind.StartString, i), Event(EventKind.EndString(s), source.offset)];
    }

    /** `readStringInternal`: the opening quote, the characters, the closing quote. */
    method ReadStringInternal() returns (s: seq<CodeUnit>, err: Option<JsonParseError>)
      requires source.Valid() && Idle() && source.Current() == '"' as int
      modifies source, source.buffer
      ensures source.Valid()
      ensures match ScanString(source.text, old(source.offset) + 1)
        case Done(v, e) => err.None? && s == v && source.offset == e && Idle()
        case Failed(f) => err == Some(ErrorAt(source.text, f))
    {
      source.Read();
      s, err := ReadStringChars();
      if err.Some? {
        return;
      }
      source.Read();
    }

    /**
     * The characters of a string up to its closing quote, which stays the
     * lookahead: runs of plain characters are captured, escapes decoded.
     */
    method ReadStringChars() returns (s: seq<CodeUnit>, err: Option<JsonParseError>)
      requires source.Valid() && Idle()
      modifies source, source.buffer
      ensures source.Valid()
      ensures match ScanString(source.text, old(source.offset))
        case Done(v, e) => err.None? && s == v && source.offset + 1 == e && Idle()
        case Failed(f) => err == Some(ErrorAt(source.text, f))
    {
      ghost var t, i := source.text, source.offset;
      source.StartCapture();
      PrefixedNothing(ScanString(t, i));
      while source.Current() != '"' as int
        invariant source.Valid() && source.Capturing() && i <= source.offset <= |t|
        invariant ScanString(t, i) == Prefixed(source.Captured(), ScanString(t, source.offset))
        decreases |t| - source.offset
      {
        ghost var c, u := source.Captured(), StringUnit(t, source.offset);
        err := ReadStringUnit();
        if err.Some? {
          return [], err;
        }
        PrefixedTwice(c, [u.value], ScanString(t, source.offset));
      }
      ghost var c := source.Captured();
      s := source.EndCapture();
      assert c + [] == c;
      err := None;
    }

    /** One loop turn of `readStringInternal`: an escape, or a plain character, which joins the running capture. */
    method ReadStringUnit() returns (err: Option<JsonParseError>)
      requires source.Valid() && source.Capturing() && source.Current() != '"' as int
      modifies source, source.buffer
      ensures source.Valid()
      ensures match StringUnit(source.text, old(source.offset))
        case Done(c, k) => err.None? && source.offset == k && source.Capturing() && source.Captured() == old(source.Captured()) + [c]
        case Failed(f) => err == Some(ErrorAt(source.text, f))
    {
      if source.Current() == '\\' as int {
        err := ReadEscapeInString();
      } else if source.Current() < 0x20 {
        err := Some(Expecting(ExpectedValidStringCharacter));
      } else {
        ReadCapturedChar();
        err := None;
      }
    }

    /** `read()` of a plain character of a string: it joins the running capture. */
    method ReadCapturedChar()
      requires source.Valid() && source.Capturing() && source.offset < |source.text|
      modifies source, source.buffer
      ensures source.Valid() && source.Capturing() && source.offset == old(source.offset) + 1
      ensures source.Captured() == old(source.Captured()) + [source.text[old(source.offset)]]
    {
      ghost var m, p := source.Mark(), source.offset;
      source.CapturedUnfold();
      source.Read();
      source.CapturedUnfold();
      CapturedOneMore(m.saved, source.text, m.from, p);
    }

    /** `pauseCapture(); readEscape(); startCapture();`: the escape's code unit joins the text captured so far. */
    method ReadEscapeInString() returns (err: Option<JsonParseError>)
      requires source.Valid() && source.Capturing() && source.Current() == '\\' as int
      modifies source, source.buffer
      ensures source.Valid()
      ensures match Escape(source.text, old(source.offset))
        case Done(c, e) => err.None? && source.offset == e && source.Capturing() && source.Captured() == old(source.Captured()) + [c]
        case Failed(f) => err == Some(ErrorAt(source.text, f))
    {
      source.PauseCapture();
      err := ReadEscape();
      if err.Some? {
        return;
      }
      source.StartCapture();
    }

    /** `readEscape`: an escape sequence at the lookahead backslash; its meaning is appended to the paused capture. */
    method ReadEscape() returns (err: Option<JsonParseError>)
      requires source.Valid() && !source.Capturing() && source.Current() == '\\' as int
      modifies source, source.buffer
      ensures source.Valid()
      ensures match Escape(source.text, old(source.offset))
        case Done(c, e) => err.None? && source.Mark() == Paused(old(source.captureBuffer) + [c]) && source.offset == e
        case Failed(f) => err == Some(ErrorAt(source.text, f))
    {
      var c;
      c, err := ReadEscapedUnit();
      if err.Some? {
        return;
      }
      source.AppendCaptured(c);
      source.Read();
    }

    /** `read()` past the backslash and the `switch` on the escape character; the escape's last character stays the lookahead. */
    method ReadEscapedUnit() returns (c: CodeUnit, err: Option<JsonParseError>)
      requires source.Valid() && source.Current() == '\\' as int
      modifies source, source.buffer
      ensures source.Moved(old(source.offset), old(source.Mark()))
      ensures match Escape(source.text, old(source.offset))
        case Done(u, e) => err.None? && c == u && source.offset + 1 == e
        case Failed(f) => err == Some(ErrorAt(source.text, f))
    {
      source.Read();
      var current := source.Current();
      if current >= 0 && SimpleEscape(current as CodeUnit).Some? {
        return SimpleEscape(current as CodeUnit).value, None;
      }
      if current == 'u' as int {
        c, err := ReadHexQuad();
        return;
      }
      return 0, Some(Expecting(ExpectedValidEscapeSequence));
    }

    /** From the `u` of a `\u` escape: four hexadecimal digits into a buffer, decoded; the last digit stays the lookahead. */
    method ReadHexQuad() returns (c: CodeUnit, err: Option<JsonParseError>)
      requires source.Valid() && At(source.text, source.offset, 'u')
      modifies source, source.buffer
      ensures source.Moved(old(source.offset), old(source.Mark()))
      ensures match HexRun(source.text, old(source.offset) + 1, 0)
        case None => err.None? && source.offset == old(source.offset) + 4 &&
                     c == HexQuadAt(source.text, old(source.offset) + 1)
        case Some(f) => err == Some(ErrorAt(source.text, f))
    {
      var hexChars := new CodeUnit[4];
      var ok := ReadHexDigits(hexChars);
      if !ok {
        return 0, Some(Expecting(ExpectedHexDigit));
      }
      HexQuadAtSlice(source.text, old(source.offset) + 1);
      return HexQuad(hexChars[..]), None;
    }

    /** The loop of `readEscape`'s `u` case: each of four digits read into `hexChars`, up to the first that is not one. */
    method ReadHexDigits(hexChars: array<CodeUnit>) returns (ok: bool)
      requires source.Valid() && At(source.text, source.offset, 'u')
      requires hexChars.Length == 4 && hexChars != source.buffer
      modifies source, source.buffer, hexChars
      ensures source.Moved(old(source.offset), old(source.Mark()))
      ensures match HexRun(source.text, old(source.offset) + 1, 0)
        case None => ok && source.offset == old(source.offset) + 4 && hexChars[..] == source.text[old(source.offset) + 1..old(source.offset) + 5]
        case Some(f) => !ok && f == Grammar.Expected(source.text, source.offset, ExpectedHexDigit)
    {
      ghost var t, k, m := source.text, source.offset, source.Mark();
      for n := 0 to 4
        invariant source.Moved(k, m) && source.offset == k + n && k + 1 + n <= |t|
        invariant forall q :: k + 1 <= q < k + 1 + n ==> IsHexDigit(t[q])
        invariant forall q :: 0 <= q < n ==> hexChars[q] == t[k + 1 + q]
      {
        source.Read();
        if !IsHexDigitAhead() {
          HexRunStops(t, k + 1, 0, n);
          return false;
        }
        hexChars[n] := source.Current() as CodeUnit;
      }
      HexRunPasses(t, k + 1, 0);
      assert hexChars[..] == t[k + 1..k + 5];
      return true;
    }

    /** An object member's name: a string, required. */
    method ReadName() returns (name: seq<CodeUnit>, err: Option<JsonParseError>)
      requires source.Valid() && Idle()
      modifies source, source.buffer
      ensures source.Valid()
      ensures !At(source.text, old(source.offset), '"') ==>
        err == Some(ErrorAt(source.text, Grammar.Expected(source.text, old(source.offset), ExpectedName)))
      ensures At(source.text, old(source.offset), '"') ==>
        match ScanString(source.text, old(source.offset) + 1)
        case Done(s, e) => err.None? && name == s && source.offset == e && Idle()
        case Failed(f) => err == Some(ErrorAt(source.text, f))
    {
      if source.Current() != '"' as int {
        return [], Some(Expecting(ExpectedName));
      }
      name, err := ReadStringInternal();
    }

    // ------------------------------------------------------------ numbers

    method ReadNumber() returns (err: Option<JsonParseError>)
      requires Valid() && Idle()
      modifies source, source.buffer, handler
      ensures Follows(ParseNumber(source.text, old(source.offset)), old(handler.events), nestingLevel, err)
    {
      ghost var i, before := source.offset, handler.events;
      handler.StartNumber(source.GetLocation());
      var s;
      s, err := ReadNumberCaptured();
      if err.Some? {
        return;
      }
      handler.EndNumber(s, source.GetLocation());
      assert handler.events == before + [Event(EventKind.StartNumber, i), Event(EventKind.EndNumber(s), source.offset)];
    }

    /** `startCapture()`, the number's characters, `endCapture()`: the text exactly as written. */
    method ReadNumberCaptured() returns (s: seq<CodeUnit>, err: Option<JsonParseError>)
      requires source.Valid() && Idle()
      modifies source, source.buffer
      ensures source.Valid()
      ensures match ScanNumber(source.text, old(source.offset))
        case Done(v, e) => err.None? && s == v && source.offset == e && Idle()
        case Failed(f) => err == Some(ErrorAt(source.text, f))
    {
      ghost var t, i := source.text, source.offset;
      source.StartCapture();
      err := ReadNumberText();
      if err.Some? {
        return [], err;
      }
      source.CapturedUnfold();
      s := source.EndCapture();
      assert s == t[i..source.offset];
    }

    /** The integer part, the fraction and the exponent, one after another. */
    method ReadNumberText() returns (err: Option<JsonParseError>)
      requires source.Valid()
      modifies source, source.buffer
      ensures source.Moved(old(source.offset), old(source.Mark()))
      ensures match ScanNumber(source.text, old(source.offset))
        case Done(_, e) => err.None? && source.offset == e
        case Failed(f) => err == Some(ErrorAt(source.text, f))
    {
      err := ReadIntegerPart();
      if err.Some? {
        return;
      }
      var fraction, exponent;
      fraction, err := ReadFraction();
      if err.Some? {
        return;
      }
      exponent, err := ReadExponent();
    }

    /** An optional minus, then `0` alone or a first digit and the digits after it. */
    method ReadIntegerPart() returns (err: Option<JsonParseError>)
      requires source.Valid()
      modifies source, source.buffer
      ensures source.Moved(old(source.offset), old(source.Mark()))
      ensures match IntegerPart(source.text, old(source.offset))
        case Done(_, e) => err.None? && source.offset == e
        case Failed(f) => err == Some(ErrorAt(source.text, f))
    {
      var minus := ReadChar('-');
      var firstDigit := source.Current();
      var digit := ReadDigit();
      if !digit {
        return Some(Expecting(ExpectedDigit));
      }
      if firstDigit != '0' as int {
        ReadDigits();
      }
      return None;
    }

    /** `readFraction`: an optional `.` and its digits; true when present. */
    method ReadFraction() returns (present: bool, err: Option<JsonParseError>)
      requires source.Valid()
      modifies source, source.buffer
      ensures source.Moved(old(source.offset), old(source.Mark()))
      ensures match Fraction(source.text, old(source.offset))
        case Done(b, m) => err.None? && present == b && source.offset == m
        case Failed(f) => err == Some(ErrorAt(source.text, f))
    {
      var dot := ReadChar('.');
      if !dot {
        return false, None;
      }
      err := ReadRequiredDigits();
      present := true;
    }

    /** `readExponent`: an optional `e`/`E`, an optional sign and the digits; true when present. */
    method ReadExponent() returns (present: bool, err: Option<JsonParseError>)
      requires source.Valid()
      modifies source, source.buffer
      ensures source.Moved(old(source.offset), old(source.Mark()))
      ensures match Exponent(source.text, old(source.offset))
        case Done(b, m) => err.None? && present == b && source.offset == m
        case Failed(f) => err == Some(ErrorAt(source.text, f))
    {
      var e := ReadEither('e', 'E');
      if !e {
        return false, None;
      }
      var sign := ReadEither('+', '-');
      err := ReadRequiredDigits();
      present := true;
    }

    // ------------------------------------------------------------ values

    method ReadValue() returns (err: Option<JsonParseError>)
      requires Valid() && Idle()
      modifies this`nestingLevel, source, source.buffer, handler
      ensures Follows(ParseValue(source.text, old(source.offset), old(nestingLevel)), old(handler.events), old(nestingLevel), err)
      decreases |source.text| - source.offset, 2
    {
      var c := source.Current();
      if c == 'n' as int {
        err := ReadNull();
      } else if c == 't' as int {
        err := ReadTrue();
      } else if c == 'f' as int {
        err := ReadFalse();
      } else if c == '"' as int {
        err := ReadString();
      } else if c == '[' as int {
        err := ReadArray();
      } else if c == '{' as int {
        err := ReadObject();
      } else if c == '-' as int || '0' as int <= c <= '9' as int {
        err := ReadNumber();
      } else {
        err := Some(Expecting(ExpectedValue));
      }
    }

    // ------------------------------------------------------------ arrays

    method ReadArray() returns (err: Option<JsonParseError>)
      requires Valid() && Idle() && source.Current() == '[' as int
      modifies this`nestingLevel, source, source.buffer, handler
      ensures Follows(ParseArray(source.text, old(source.offset), old(nestingLevel)), old(handler.events), old(nestingLevel), err)
      decreases |source.text| - source.offset, 1
    {
      ghost var before, i := handler.events, source.offset;
      var arr := handler.StartArray(source.GetLocation());
      ghost var mid := handler.events;
      err := ReadArrayContents(arr);
      AppendThree(before, [Event(EventKind.StartArray, i)], handler.events[|mid|..]);
      if err.Some? {
        return;
      }
      ghost var contents := handler.events[|mid|..];
      handler.EndArray(arr, source.GetLocation());
      AppendThree(before, [Event(EventKind.StartArray, i)] + contents, [Event(EndArray(arr), source.offset)]);
    }

    /** The bracket, the nesting check, the items; the nesting level is restored afterwards. */
    method ReadArrayContents(arr: Handle) returns (err: Option<JsonParseError>)
      requires Valid() && Idle() && source.Current() == '[' as int
      modifies this`nestingLevel, source, source.buffer, handler
      ensures Follows(ParseArrayContents(source.text, old(source.offset), old(nestingLevel), arr), old(handler.events), old(nestingLevel), err)
      decreases |source.text| - source.offset, 0
    {
      source.Read();
      nestingLevel := nestingLevel + 1;
      if nestingLevel > MaxNestingLevel {
        return Some(Error(NestingTooDeep));
      }
      err := ReadArrayItems(arr);
      if err.Some? {
        return;
      }
      nestingLevel := nestingLevel - 1;
    }

    /** After `[`: whitespace and `]`, or the elements. */
    method ReadArrayItems(arr: Handle) returns (err: Option<JsonParseError>)
      requires Valid() && Idle()
      modifies this`nestingLevel, source, source.buffer, handler
      ensures Follows(ParseArrayItems(source.text, old(source.offset), old(nestingLevel), arr), old(handler.events), old(nestingLevel), err)
      decreases |source.text| - source.offset, 7
    {
      SkipWhiteSpace();
      var closed := ReadChar(']');
      if closed {
        return None;
      }
      err := ReadElements(arr);
    }

    /** `while (readChar(',')) ...; if (!readChar(close)) throw expected(...)`: what follows an element or a member. */
    method ReadSeparator(close: char, kind: ErrorKind) returns (more: bool, err: Option<JsonParseError>)
      requires source.Valid() && Idle() && (close as int) < 0x1_0000
      modifies source, source.buffer
      ensures source.Valid() && Idle()
      ensures match Separator(source.text, old(source.offset), close, kind)
        case Done(b, n) => err.None? && more == b && source.offset == n
        case Failed(f) => err == Some(ErrorAt(source.text, f))
    {
      var comma := ReadChar(',');
      if comma {
        return true, None;
      }
      var closed := ReadChar(close);
      if !closed {
        return false, Some(Expecting(kind));
      }
      return false, None;
    }

    /** The element loop: an element, and another after each comma, then the closing bracket. */
    method ReadElements(arr: Handle) returns (err: Option<JsonParseError>)
      requires Valid() && Idle()
      modifies this`nestingLevel, source, source.buffer, handler
      ensures Follows(ParseElements(source.text, old(source.offset), old(nestingLevel), arr), old(handler.events), old(nestingLevel), err)
      decreases |source.text| - source.offset, 6
    {
      ghost var t, i, d, before := source.text, source.offset, nestingLevel, handler.events;
      ghost var evs: seq<Event> := [];
      ghost var done: seq<JsonValue> := [];
      PrependNothing(ParseElements(t, i, d, arr));
      var more := true;
      err := None;
      while more
        invariant Valid() && Idle() && i <= source.offset <= |t| && nestingLevel == d && err.None?
        invariant handler.events == before + evs
        invariant more ==> ParseElements(t, i, d, arr) == Prepend(evs, done, ParseElements(t, source.offset, d, arr))
        invariant !more ==> ParseElements(t, i, d, arr) == Run(evs, Done(done, source.offset))
        decreases |t| - source.offset, more
      {
        ghost var v := ParseSeparatedElement(t, source.offset, d, arr);
        more, err := ReadSeparatedElement(arr);
        AppendThree(before, evs, v.events);
        if err.Some? {
          return;
        }
        if more {
          PrependTwice(evs, done, v.events, [v.outcome.value.0], ParseElements(t, source.offset, d, arr));
        }
        evs, done := evs + v.events, done + [v.outcome.value.0];
      }
    }

    /** One element and the comma or closing character after it. */
    method ReadSeparatedElement(arr: Handle) returns (more: bool, err: Option<JsonParseError>)
      requires Valid() && Idle()
      modifies this`nestingLevel, source, source.buffer, handler
      ensures Follows(ParseSeparatedElement(source.text, old(source.offset), old(nestingLevel), arr), old(handler.events), old(nestingLevel), err)
      ensures err.None? ==> more == ParseSeparatedElement(source.text, old(source.offset), old(nestingLevel), arr).outcome.value.1
      decreases |source.text| - source.offset, 5
    {
      err := ReadElement(arr);
      if err.Some? {
        return false, err;
      }
      more, err := ReadSeparator(']', ExpectedCommaOrBracket);
    }

    /** One element: whitespace, the value between its two callbacks, whitespace. */
    method ReadElement(arr: Handle) returns (err: Option<JsonParseError>)
      requires Valid() && Idle()
      modifies this`nestingLevel, source, source.buffer, handler
      ensures Follows(ParseElement(source.text, old(source.offset), old(nestingLevel), arr), old(handler.events), old(nestingLevel), err)
      decreases |source.text| - source.offset, 4
    {
      SkipWhiteSpace();
      err := ReadArrayValue(arr);
      if err.Some? {
        return;
      }
      SkipWhiteSpace();
    }

    /** `startArrayValue`, the value, `endArrayValue`. */
    method ReadArrayValue(arr: Handle) returns (err: Option<JsonParseError>)
      requires Valid() && Idle()
      modifies this`nestingLevel, source, source.buffer, handler
      ensures Follows(ParseArrayValue(source.text, old(source.offset), old(nestingLevel), arr), old(handler.events), old(nestingLevel), err)
      decreases |source.text| - source.offset, 3
    {
      ghost var before := handler.events;
      handler.StartArrayValue(arr, source.GetLocation());
      ghost var starts := handler.events[|before|..];
      ghost var mid := handler.events;
      err := ReadValue();
      AppendThree(before, starts, handler.events[|mid|..]);
      if err.Some? {
        return;
      }
      handler.EndArrayValue(arr, source.GetLocation());
    }

    // ------------------------------------------------------------ objects

    method ReadObject() returns (err: Option<JsonParseError>)
      requires Valid() && Idle() && source.Current() == '{' as int
      modifies this`nestingLevel, source, source.buffer, handler
      ensures Follows(ParseObject(source.text, old(source.offset), old(nestingLevel)), old(handler.events), old(nestingLevel), err)
      decreases |source.text| - source.offset, 1
    {
      ghost var before, i := handler.events, source.offset;
      var obj := handler.StartObject(source.GetLocation());
      ghost var mid := handler.events;
      err := ReadObjectContents(obj);
      AppendThree(before, [Event(EventKind.StartObject, i)], handler.events[|mid|..]);
      if err.Some? {
        return;
      }
      ghost var contents := handler.events[|mid|..];
      handler.EndObject(obj, source.GetLocation());
      AppendThree(before, [Event(EventKind.StartObject, i)] + contents, [Event(EndObject(obj), source.offset)]);
    }

    /** The brace, the nesting check, the members; the nesting level is restored afterwards. */
    method ReadObjectContents(obj: Handle) returns (err: Option<JsonParseError>)
      requires Valid() && Idle() && source.Current() == '{' as int
      modifies this`nestingLevel, source, source.buffer, handler
      ensures Follows(ParseObjectContents(source.text, old(source.offset), old(nestingLevel), obj), old(handler.events), old(nestingLevel), err)
      decreases |source.text| - source.offset, 0
    {
      source.Read();
      nestingLevel := nestingLevel + 1;
      if nestingLevel > MaxNestingLevel {
        return Some(Error(NestingTooDeep));
      }
      err := ReadObjectItems(obj);
      if err.Some? {
        return;
      }
      nestingLevel := nestingLevel - 1;
    }

    /** After `{`: whitespace and `}`, or the members. */
    method ReadObjectItems(obj: Handle) returns (err: Option<JsonParseError>)
      requires Valid() && Idle()
      modifies this`nestingLevel, source, source.buffer, handler
      ensures Follows(ParseObjectItems(source.text, old(source.offset), old(nestingLevel), obj), old(handler.events), old(nestingLevel), err)
      decreases |source.text| - source.offset, 7
    {
      SkipWhiteSpace();
      var closed := ReadChar('}');
      if closed {
        return None;
      }
      err := ReadMembers(obj);
    }

    /** The member loop: a member, and another after each comma, then the closing brace. */
    method ReadMembers(obj: Handle) returns (err: Option<JsonParseError>)
      requires Valid() && Idle()
      modifies this`nestingLevel, source, source.buffer, handler
      ensures Follows(ParseMembers(source.text, old(source.offset), old(nestingLevel), obj), old(handler.events), old(nestingLevel), err)
      decreases |source.text| - source.offset, 6
    {
      ghost var t, i, d, before := source.text, source.offset, nestingLevel, handler.events;
      ghost var evs: seq<Event> := [];
      ghost var done: seq<Member> := [];
      PrependNothing(ParseMembers(t, i, d, obj));
      var more := true;
      err := None;
      while more
        invariant Valid() && Idle() && i <= source.offset <= |t| && nestingLevel == d && err.None?
        invariant handler.events == before + evs
        invariant more ==> ParseMembers(t, i, d, obj) == Prepend(evs, done, ParseMembers(t, source.offset, d, obj))
        invariant !more ==> ParseMembers(t, i, d, obj) == Run(evs, Done(done, source.offset))
        decreases |t| - source.offset, more
      {
        ghost var v := ParseSeparatedMember(t, source.offset, d, obj);
        more, err := ReadSeparatedMember(obj);
        AppendThree(before, evs, v.events);
        if err.Some? {
          return;
        }
        if more {
          PrependTwice(evs, done, v.events, [v.outcome.value.0], ParseMembers(t, source.offset, d, obj));
        }
        evs, done := evs + v.events, done + [v.outcome.value.0];
      }
    }

    /** One member and the comma or closing character after it. */
    method ReadSeparatedMember(obj: Handle) returns (more: bool, err: Option<JsonParseError>)
      requires Valid() && Idle()
      modifies this`nestingLevel, source, source.buffer, handler
      ensures Follows(ParseSeparatedMember(source.text, old(source.offset), old(nestingLevel), obj), old(handler.events), old(nestingLevel), err)
      ensures err.None? ==> more == ParseSeparatedMember(source.text, old(source.offset), old(nestingLevel), obj).outcome.value.1
      decreases |source.text| - source.offset, 5
    {
      err := ReadMember(obj);
      if err.Some? {
        return false, err;
      }
      more, err := ReadSeparator('}', ExpectedCommaOrBrace);
    }

    /** One member: its name and colon, then its value. */
    method ReadMember(obj: Handle) returns (err: Option<JsonParseError>)
      requires Valid() && Idle()
      modifies this`nestingLevel, source, source.buffer, handler
      ensures Follows(ParseMember(source.text, old(source.offset), old(nestingLevel), obj), old(handler.events), old(nestingLevel), err)
      decreases |source.text| - source.offset, 4
    {
      ghost var before := handler.events;
      var name;
      name, err := ReadMemberName(obj);
      if err.Some? {
        return;
      }
      ghost var mid := handler.events;
      err := ReadMemberValue(obj, name);
      AppendThree(before, mid[|before|..], handler.events[|mid|..]);
    }

    /** Whitespace, the name between its two callbacks, then the colon. */
    method ReadMemberName(obj: Handle) returns (name: seq<CodeUnit>, err: Option<JsonParseError>)
      requires Valid() && Idle()
      modifies source, source.buffer, handler
      ensures Follows(ParseMemberName(source.text, old(source.offset), obj), old(handler.events), nestingLevel, err)
      ensures err.None? ==> name == ParseMemberName(source.text, old(source.offset), obj).outcome.value
    {
      SkipWhiteSpace();
      name, err := ReadObjectName(obj);
      if err.Some? {
        return;
      }
      err := ReadColon();
    }

    /** `startObjectName`, the name, `endObjectName`. */
    method ReadObjectName(obj: Handle) returns (name: seq<CodeUnit>, err: Option<JsonParseError>)
      requires Valid() && Idle()
      modifies source, source.buffer, handler
      ensures Follows(ParseObjectName(source.text, old(source.offset), obj), old(handler.events), nestingLevel, err)
      ensures err.None? ==> name == ParseObjectName(source.text, old(source.offset), obj).outcome.value
    {
      ghost var k, before := source.offset, handler.events;
      handler.StartObjectName(obj, source.GetLocation());
      name, err := ReadName();
      if err.Some? {
        return;
      }
      handler.EndObjectName(obj, name, source.GetLocation());
      assert handler.events == before + [Event(StartObjectName(obj), k), Event(EndObjectName(obj, name), source.offset)];
    }

    /** Whitespace and the colon after a name. */
    method ReadColon() returns (err: Option<JsonParseError>)
      requires source.Valid() && Idle()
      modifies source, source.buffer
      ensures source.Valid()
      ensures match Colon(source.text, old(source.offset))
        case Done(_, n) => err.None? && source.offset == n && Idle()
        case Failed(f) => err == Some(ErrorAt(source.text, f))
    {
      SkipWhiteSpace();
      var colon := ReadChar(':');
      if !colon {
        return Some(Expecting(ExpectedColon));
      }
      return None;
    }

    /** Whitespace, the value between its two callbacks, whitespace. */
    method ReadMemberValue(obj: Handle, name: seq<CodeUnit>) returns (err: Option<JsonParseError>)
      requires Valid() && Idle()
      modifies this`nestingLevel, source, source.buffer, handler
      ensures Follows(ParseMemberValue(source.text, old(source.offset), old(nestingLevel), obj, name), old(handler.events), old(nestingLevel), err)
      decreases |source.text| - source.offset, 4
    {
      SkipWhiteSpace();
      err := ReadObjectValue(obj, name);
      if err.Some? {
        return;
      }
      SkipWhiteSpace();
    }

    /** `startObjectValue`, the value, `endObjectValue`. */
    method ReadObjectValue(obj: Handle, name: seq<CodeUnit>) returns (err: Option<JsonParseError>)
      requires Valid() && Idle()
      modifies this`nestingLevel, source, source.buffer, handler
      ensures Follows(ParseObjectValue(source.text, old(source.offset), old(nestingLevel), obj, name), old(handler.events), old(nestingLevel), err)
      decreases |source.text| - source.offset, 3
    {
      ghost var before := handler.events;
      handler.StartObjectValue(obj, name, source.GetLocation());
      ghost var starts := handler.events[|before|..];
      ghost var mid := handler.events;
      err := ReadValue();
      AppendThree(before, starts, handler.events[|mid|..]);
      if err.Some? {
        return;
      }
      handler.EndObjectValue(obj, name, source.GetLocation());
    }
  }
}
