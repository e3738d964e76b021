/**
 * The buffered character source: a fixed-size buffer refilled from a reader,
 * one-character lookahead (`Current`, -1 at end of input), the live
 * offset/line/column, and the capture of token text that may span refills.
 *
 * The reader is modelled by the chunks it will still deliver, in order; each
 * refill copies the next chunk into the buffer. The ghost constant `text` is
 * the whole input, so every property is stated against one contiguous
 * sequence no matter how the reader splits it.
 */
module CharSources {
  import opened Text
  import opened Locations

  /** What a reader can deliver into a buffer of `size`: every read yields between 1 and `size` code units. */
  predicate ChunksFit(chunks: seq<seq<CodeUnit>>, size: nat) {
    forall k :: 0 <= k < |chunks| ==> 1 <= |chunks[k]| <= size
  }

  /** `s` cut into consecutive pieces of `size` code units, the last one possibly shorter. */
  function Chunked(s: seq<CodeUnit>, size: nat): (r: seq<seq<CodeUnit>>)
    requires size >= 1
    ensures ChunksFit(r, size) && Concat(r) == s
    decreases |s|
  {
    if |s| <= size then (if s == [] then [] else [s])
    else
      var rest := Chunked(s[size..], size);
      assert s == s[..size] + s[size..];
      [s[..size]] + rest
  }

  /**
   * The capture as far as callers can tell: paused with the text kept so
   * far, or running since offset `from` with `saved` kept before it.
   */
  datatype Capture = Paused(kept: seq<CodeUnit>) | Running(saved: seq<CodeUnit>, from: nat)

  class CharSource {
    const buffer: array<CodeUnit>
    var fill: nat
    var index: nat
    var pending: seq<seq<CodeUnit>>
    var offset: nat
    var line: nat
    var column: nat
    var captureBuffer: seq<CodeUnit>
    var captureStart: int

    /** The whole input: what was consumed, what is buffered, and what the reader still holds. */
    ghost const text: seq<CodeUnit>

    /** The offset in `text` of the buffer's first code unit. */
    ghost var base: nat

    /** While capturing: the capture buffer when the capture (re)started, and the offset it started at. */
    ghost var saved: seq<CodeUnit>
    ghost var captureFrom: nat

    /** The buffered code units and the reader's chunks are, in order, the text from `base` on. */
    ghost predicate Window()
      reads this`base, this`fill, this`pending, buffer
    {
      buffer.Length >= 1 && ChunksFit(pending, buffer.Length) && fill <= buffer.Length &&
      base + fill + |Concat(pending)| == |text| &&
      (forall k :: 0 <= k < fill ==> buffer[k] == text[base + k]) &&
      text[base + fill..] == Concat(pending)
    }

    /** The buffer agrees with the text around the cursor and the position is the cursor's. */
    ghost predicate Aligned()
      reads this, buffer
    {
      Window() && index <= fill && offset == base + index &&
      Location(offset, line, column) == LocationAt(text, offset) &&
      -1 <= captureStart <= index
    }

    /**
     * While capturing, the capture buffer holds what was kept before the
     * capture started and the text from its start up to the buffered part.
     */
    ghost predicate CaptureKept()
      reads this`captureStart, this`captureBuffer, this`saved, this`captureFrom, this`base
    {
      captureStart >= 0 ==>
        captureFrom <= base + captureStart <= |text| && captureBuffer == saved + text[captureFrom..base + captureStart]
    }

    /** Aligned, the capture is kept, and the buffer is refilled as soon as it is used up. */
    ghost predicate Consistent()
      reads this, buffer
    {
      Aligned() && CaptureKept() && (index == fill ==> pending == [])
    }

    /**
     * `Consistent()`, one unfolding away, with the cursor inside the text
     * and after the start of a running capture:
     * outside this class the invariant is only passed along, so its parts
     * stay folded there.
     */
    ghost predicate Valid()
      reads this, buffer
    {
      offset <= |text| && (captureStart >= 0 ==> captureFrom <= offset) && Sealed(|text| + 1)
    }

    ghost predicate Sealed(depth: nat)
      reads this, buffer
      decreases depth
    {
      if depth == 0 then Consistent() else Sealed(depth - 1)
    }

    lemma {:induction false} SealedUnfold(depth: nat)
      ensures Sealed(depth) <==> Consistent()
      decreases depth
    {
      if depth > 0 {
        SealedUnfold(depth - 1);
      }
    }

    lemma Unseal()
      ensures Valid() <==> Consistent()
    {
      SealedUnfold(|text| + 1);
    }

    predicate Capturing()
      reads this
    {
      captureStart >= 0
    }

    ghost function Mark(): Capture
      reads this
    {
      if captureStart >= 0 then Running(saved, captureFrom) else Paused(captureBuffer)
    }

    /**
     * Since the state with offset `from` and capture `m`: the cursor has not
     * moved back and the capture is as it was, so a running capture now
     * also holds everything consumed since.
     */
    ghost predicate Moved(from: nat, m: Capture)
      reads this, buffer
    {
      Valid() && from <= offset && Mark() == m
    }

    /**
     * The text captured so far: what was kept, and while a capture runs,
     * everything consumed since it started. The definition sits
     * `|text| + 1` levels down in `CapturedAt`; `CapturedUnfold` opens it.
     */
    ghost function Captured(): seq<CodeUnit>
      reads this, buffer
      requires Valid()
    {
      CapturedAt(|text| + 1)
    }

    ghost function CapturedAt(depth: nat): seq<CodeUnit>
      reads this, buffer
      requires Valid()
      decreases depth
    {
      if depth == 0 then
        match Mark()
        case Paused(kept) => kept
        case Running(s, from) => s + text[from..offset]
      else CapturedAt(depth - 1)
    }

    lemma {:induction false} CapturedAtUnfold(depth: nat)
      requires Valid()
      ensures CapturedAt(depth) == match Mark()
        case Paused(kept) => kept
        case Running(s, from) => s + text[from..offset]
      decreases depth
    {
      if depth > 0 {
        CapturedAtUnfold(depth - 1);
      }
    }

    lemma CapturedUnfold()
      requires Valid()
      ensures Captured() == match Mark()
        case Paused(kept) => kept
        case Running(s, from) => s + text[from..offset]
    {
      CapturedAtUnfold(|text| + 1);
    }

    /** The lookahead: the code unit at the current offset, or -1 at end of input. */
    function Current(): (c: int)
      reads this, buffer
      requires Valid()
      ensures c == if offset < |text| then text[offset] else -1
    {
      Unseal();
      if index < fill then
        assert text[offset..][0] == buffer[index..fill][0];
        buffer[index]
      else -1
    }

    function IsEndOfInput(): (b: bool)
      reads this, buffer
      requires Valid()
      ensures b <==> offset == |text|
    {
      Unseal();
      index == fill
    }

    function GetLocation(): (loc: Location)
      reads this, buffer
      requires Valid()
      ensures loc == LocationAt(text, offset)
    {
      Unseal();
      Location(offset, line, column)
    }

    constructor (chunks: seq<seq<CodeUnit>>, bufferSize: nat)
      requires bufferSize >= 1 && ChunksFit(chunks, bufferSize)
      ensures Valid() && fresh(buffer)
      ensures text == Concat(chunks) && offset == 0
      ensures !Capturing() && captureBuffer == []
    {
      buffer := new CodeUnit[bufferSize];
      text := Concat(chunks);
      fill, index, pending, base := 0, 0, chunks, 0;
      offset, line, column := 0, 1, 1;
      captureBuffer, captureStart := [], -1;
      saved, captureFrom := [], 0;
      new;
      if pending != [] {
        Refill();
      }
      Unseal();
    }

    /** Copies the reader's next chunk into the buffer and rewinds the cursor. */
    method Refill()
      requires Aligned() && index == fill && pending != [] && captureStart <= 0
      modifies this`fill, this`index, this`pending, this`base, buffer
      ensures Aligned() && index == 0 < fill && base == old(base) + old(fill)
      ensures pending == old(pending)[1..]
    {
      var chunk := pending[0];
      ghost var rest := text[base + fill..];
      assert rest == chunk + Concat(pending[1..]);
      var k := 0;
      while k < |chunk|
        modifies buffer
        invariant 0 <= k <= |chunk| <= buffer.Length
        invariant forall j :: 0 <= j < k ==> buffer[j] == chunk[j]
      {
        buffer[k] := chunk[k];
        k := k + 1;
      }
      base, fill, index, pending := base + fill, |chunk|, 0, pending[1..];
      assert forall j :: 0 <= j < fill ==> text[base + j] == rest[j];
      assert text[base + fill..] == rest[fill..];
    }

    /** Moves the cursor over the current code unit, tracking line and column. */
    method Consume()
      requires Valid() && offset < |text|
      modifies this`index, this`offset, this`line, this`column
      ensures Aligned() && offset == old(offset) + 1 && index == old(index) + 1
    {
      Unseal();
      ghost var loc := Location(offset, line, column);
      var c := buffer[index];
      assert c == text[offset];
      index, offset := index + 1, offset + 1;
      if c == LF {
        line, column := line + 1, 1;
      } else {
        column := column + 1;
      }
      assert Location(offset, line, column) == Advance(loc, c);
    }

    /** Consumes the current code unit, refilling the buffer when it is used up. */
    method Read()
      requires Valid() && offset < |text|
      modifies this, buffer
      ensures offset == old(offset) + 1
      ensures Moved(old(offset), old(Mark()))
    {
      Unseal();
      Consume();
      if index == fill && pending != [] {
        if captureStart >= 0 {
          SaveCaptured();
        }
        Refill();
      }
      Unseal();
    }

    /** Before a refill overwrites the buffer, moves its captured part into the capture buffer. */
    method SaveCaptured()
      requires Aligned() && CaptureKept() && index == fill && Capturing()
      modifies this`captureBuffer, this`captureStart
      ensures Aligned() && captureStart == 0 && Mark() == old(Mark())
      ensures captureBuffer == saved + text[captureFrom..base + fill]
    {
      assert buffer[captureStart..fill] == text[base + captureStart..base + fill];
      assert text[captureFrom..base + fill] == text[captureFrom..base + captureStart] + text[base + captureStart..base + fill];
      captureBuffer, captureStart := captureBuffer + buffer[captureStart..fill], 0;
    }

    method StartCapture()
      requires Valid()
      modifies this`captureStart, this`saved, this`captureFrom
      ensures Valid() && Mark() == Running(captureBuffer, offset) && Captured() == captureBuffer
    {
      Unseal();
      captureStart, saved, captureFrom := index, captureBuffer, offset;
      assert text[offset..offset] == [];
      Unseal();
      CapturedUnfold();
    }

    method PauseCapture()
      requires Valid() && Capturing()
      modifies this`captureBuffer, this`captureStart
      ensures Valid() && Mark() == Paused(old(Captured()))
    {
      CapturedUnfold();
      Unseal();
      assert buffer[captureStart..index] == text[base + captureStart..offset];
      assert text[captureFrom..offset] == text[captureFrom..base + captureStart] + text[base + captureStart..offset];
      captureBuffer, captureStart := captureBuffer + buffer[captureStart..index], -1;
      Unseal();
    }

    /** Appends a decoded code unit (an escape's meaning) while the capture is paused. */
    method AppendCaptured(c: CodeUnit)
      requires Valid() && !Capturing()
      modifies this`captureBuffer
      ensures Valid() && Mark() == Paused(old(captureBuffer) + [c])
    {
      Unseal();
      captureBuffer := captureBuffer + [c];
      Unseal();
    }

    method EndCapture() returns (s: seq<CodeUnit>)
      requires Valid() && Capturing()
      modifies this`captureBuffer, this`captureStart
      ensures Valid() && Mark() == Paused([])
      ensures s == old(Captured())
    {
      PauseCapture();
      Unseal();
      s, captureBuffer := captureBuffer, [];
      Unseal();
    }
  }
}
