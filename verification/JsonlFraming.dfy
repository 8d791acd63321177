/**
 `BoundedJsonlReader`: lines out of a byte stream that arrives in chunks of any size, with a bound
 on the length of a line, 1 MiB in the source. Lines are left as bytes.
 */
module JsonlFraming {
  newtype Byte = x: int | 0 <= x < 256

  const LF: Byte := 0x0a
  const CR: Byte := 0x0d

  /** How the stream ends after its last chunk. */
  datatype Ending = EndOfStream | Broken
  datatype Frame = Line(bytes: seq<Byte>) | TooLarge | ClosedEarly | StreamFailed

  function EndFrame(ending: Ending): Frame
  {
    if ending == EndOfStream then ClosedEarly else StreamFailed
  }

  // ---------------------------------------------------------------- the plain stream

  function IndexOfLF(s: seq<Byte>): (i: nat)
    ensures i <= |s|
    ensures i < |s| ==> s[i] == LF
    ensures forall j :: 0 <= j < i ==> s[j] != LF
  {
    if s == [] || s[0] == LF then 0 else 1 + IndexOfLF(s[1..])
  }

  function Stripped(line: seq<Byte>): seq<Byte>
  {
    if line != [] && line[|line| - 1] == CR then line[..|line| - 1] else line
  }

  /** What successive reads of a whole stream give, up to the first error. */
  function Frames(s: seq<Byte>, limit: nat, ending: Ending): seq<Frame>
    decreases |s|
  {
    var n := IndexOfLF(s);
    if n > limit then [TooLarge]
    else if n == |s| then [EndFrame(ending)]
    else [Line(Stripped(s[..n]))] + Frames(s[n + 1..], limit, ending)
  }

  /** The parts of a stream between its line feeds; the last one is the unfinished tail. */
  function Split(s: seq<Byte>): (parts: seq<seq<Byte>>)
    ensures parts != []
    decreases |s|
  {
    var n := IndexOfLF(s);
    if n == |s| then [s] else [s[..n]] + Split(s[n + 1..])
  }

  function Join(parts: seq<seq<Byte>>): seq<Byte>
    requires parts != []
  {
    if |parts| == 1 then parts[0] else parts[0] + [LF] + Join(parts[1..])
  }

  lemma {:induction false} SplitThenJoin(s: seq<Byte>)
    ensures Join(Split(s)) == s && forall part :: part in Split(s) ==> LF !in part
    decreases |s|
  {
    var n := IndexOfLF(s);
    if n < |s| {
      SplitThenJoin(s[n + 1..]);
      assert Split(s)[1..] == Split(s[n + 1..]);
      assert s == s[..n] + [LF] + s[n + 1..];
    }
  }

  lemma {:induction false} JoinThenSplit(parts: seq<seq<Byte>>)
    requires parts != [] && forall part :: part in parts ==> LF !in part
    ensures Split(Join(parts)) == parts
  {
    var s := Join(parts);
    var n := IndexOfLF(s);
    var first := parts[0];
    assert forall i :: 0 <= i < |first| ==> first[i] in first;
    if |parts| == 1 {
      assert n == |s|;
    } else {
      assert s[|first|] == LF && s[..|first|] == first;
      assert n == |first| by {
        assert forall j :: 0 <= j < |first| ==> s[j] == first[j];
      }
      assert s[n + 1..] == Join(parts[1..]);
      JoinThenSplit(parts[1..]);
      assert parts == [first] + parts[1..];
    }
  }

  /** The first part over the limit, or the number of parts. */
  function FirstTooLarge(parts: seq<seq<Byte>>, limit: nat): (k: nat)
    ensures k <= |parts|
    ensures k < |parts| ==> |parts[k]| > limit
    ensures forall i :: 0 <= i < k ==> |parts[i]| <= limit
  {
    if parts == [] || |parts[0]| > limit then 0 else 1 + FirstTooLarge(parts[1..], limit)
  }

  function Lines(parts: seq<seq<Byte>>): seq<Frame>
  {
    seq(|parts|, i requires 0 <= i < |parts| => Line(Stripped(parts[i])))
  }

  /** The stripped lines before the first part over the limit, then "too large"; if no part is over
      it, all the finished lines and then the end of the stream. */
  function FramesOf(parts: seq<seq<Byte>>, limit: nat, ending: Ending): seq<Frame>
    requires parts != []
  {
    var k := FirstTooLarge(parts, limit);
    if k < |parts| then Lines(parts[..k]) + [TooLarge] else Lines(parts[..|parts| - 1]) + [EndFrame(ending)]
  }

  lemma FramesOfCons(first: seq<Byte>, rest: seq<seq<Byte>>, limit: nat, ending: Ending)
    requires rest != [] && |first| <= limit
    ensures FramesOf([first] + rest, limit, ending) == [Line(Stripped(first))] + FramesOf(rest, limit, ending)
  {
    var parts := [first] + rest;
    assert parts[1..] == rest;
    var k := FirstTooLarge(rest, limit);
    assert FirstTooLarge(parts, limit) == k + 1;
    LinesOfCons(first, rest, if k < |rest| then k else |rest| - 1);
  }

  lemma LinesOfCons(first: seq<Byte>, rest: seq<seq<Byte>>, k: nat)
    requires k <= |rest|
    ensures Lines(([first] + rest)[..k + 1]) == [Line(Stripped(first))] + Lines(rest[..k])
  {
  }

  lemma {:induction false} FramesAreSplitLines(s: seq<Byte>, limit: nat, ending: Ending)
    ensures Frames(s, limit, ending) == FramesOf(Split(s), limit, ending)
    decreases |s|
  {
    var n := IndexOfLF(s);
    if n == |s| {
      assert Split(s) == [s] && [s][..0] == [] && Lines([]) == [];
    } else if n > limit {
      assert Split(s)[..0] == [] && Lines([]) == [];
    } else {
      FramesAreSplitLines(s[n + 1..], limit, ending);
      FramesOfCons(s[..n], Split(s[n + 1..]), limit, ending);
    }
  }

  /** "Too large" comes exactly when some line, or the unfinished tail, is over the limit. */
  lemma TooLargeIff(s: seq<Byte>, limit: nat, ending: Ending)
    ensures TooLarge in Frames(s, limit, ending) <==> exists i :: 0 <= i < |Split(s)| && |Split(s)[i]| > limit
  {
    FramesAreSplitLines(s, limit, ending);
    var parts := Split(s);
    var k := FirstTooLarge(parts, limit);
    if k < |parts| { assert (Lines(parts[..k]) + [TooLarge])[k] == TooLarge; }
  }

  function Written(lines: seq<seq<Byte>>, crlf: bool): seq<seq<Byte>>
  {
    seq(|lines|, i requires 0 <= i < |lines| => if crlf then lines[i] + [CR] else lines[i])
  }

  /** A line that fits with what ends it, and without a carriage return that would be taken for an ending. */
  predicate Plain(line: seq<Byte>, limit: nat, crlf: bool)
  {
    LF !in line && |line| + (if crlf then 1 else 0) <= limit && (crlf || line == [] || line[|line| - 1] != CR)
  }

  lemma WrittenParts(lines: seq<seq<Byte>>, limit: nat, crlf: bool)
    requires forall line :: line in lines ==> Plain(line, limit, crlf)
    ensures forall part :: part in Written(lines, crlf) + [[]] ==> LF !in part && |part| <= limit
    ensures Lines(Written(lines, crlf)) == seq(|lines|, i requires 0 <= i < |lines| => Line(lines[i]))
  {
    forall i | 0 <= i < |lines|
      ensures LF !in Written(lines, crlf)[i] && |Written(lines, crlf)[i]| <= limit && Stripped(Written(lines, crlf)[i]) == lines[i]
    {
      assert Plain(lines[i], limit, crlf);
    }
  }

  /** Lines that are written with a line feed, with or without a carriage return before it, are read back; of
      several carriage returns only the last one belongs to the ending. */
  lemma WrittenLinesAreRead(lines: seq<seq<Byte>>, limit: nat, ending: Ending, crlf: bool)
    requires forall line :: line in lines ==> Plain(line, limit, crlf)
    ensures Frames(Join(Written(lines, crlf) + [[]]), limit, ending)
      == seq(|lines|, i requires 0 <= i < |lines| => Line(lines[i])) + [if ending == EndOfStream then ClosedEarly else StreamFailed]
  {
    var parts := Written(lines, crlf) + [[]];
    WrittenParts(lines, limit, crlf);
    JoinThenSplit(parts);
    FramesAreSplitLines(Join(parts), limit, ending);
    assert forall i :: 0 <= i < |parts| ==> parts[i] in parts && |parts[i]| <= limit;
    assert parts[..|parts| - 1] == Written(lines, crlf);
  }

  // ---------------------------------------------------------------- the reader

  function Concat(chunks: seq<seq<Byte>>): seq<Byte>
  {
    if chunks == [] then [] else chunks[0] + Concat(chunks[1..])
  }

  /** The bytes of a stream are those of its chunks, one chunk after another. */
  lemma {:induction false} ChunksInOrder(a: seq<seq<Byte>>, b: seq<seq<Byte>>, chunk: seq<Byte>)
    ensures Concat(a + b) == Concat(a) + Concat(b) && Concat([chunk]) == chunk
  {
    assert Concat([chunk]) == chunk + Concat([chunk][1..]);
    if a == [] {
      assert a + b == b;
    } else {
      assert (a + b)[1..] == a[1..] + b;
      ChunksInOrder(a[1..], b, chunk);
    }
  }

  class BoundedJsonlReader {
    var pending: seq<Byte>
    var chunks: seq<seq<Byte>>
    const ending: Ending
    const limit: nat

    constructor (chunks: seq<seq<Byte>>, ending: Ending, limit: nat)
      ensures Remaining() == Concat(chunks) && this.ending == ending && this.limit == limit
    {
      pending, this.chunks, this.ending, this.limit := [], chunks, ending, limit;
    }

    ghost function Remaining(): seq<Byte>
      reads this
    {
      pending + Concat(chunks)
    }

    /** The next frame of what remains, whatever the chunks are. */
    method NextLine() returns (frame: Frame)
      modifies this
      ensures Frames(old(Remaining()), limit, ending) == [frame] + if frame.Line? then Frames(Remaining(), limit, ending) else []
      ensures frame.Line? ==> |Remaining()| < |old(Remaining())|
    {
      while true
        invariant Remaining() == old(Remaining())
        decreases |chunks|
      {
        var newline := IndexOfLF(pending);
        FirstLineFeed(pending, Concat(chunks));
        if newline < |pending| {
          if newline > limit { return TooLarge; }
          var line := pending[..newline];
          ghost var rest := pending[newline + 1..] + Concat(chunks);
          assert old(Remaining())[newline + 1..] == rest && old(Remaining())[..newline] == line;
          pending := pending[newline + 1..];
          return Line(Stripped(line));
        }
        if |pending| > limit { return TooLarge; }
        if chunks == [] {
          return if ending == EndOfStream then ClosedEarly else StreamFailed;
        }
        pending := if |pending| == 0 then chunks[0] else pending + chunks[0];
        chunks := chunks[1..];
      }
    }

    /** Reading to the first error gives exactly the frames of the concatenated bytes. */
    method ReadAll() returns (frames: seq<Frame>)
      modifies this
      ensures frames == Frames(old(Remaining()), limit, ending)
    {
      frames := [];
      ghost var rest := Frames(Remaining(), limit, ending);
      ghost var all := rest;
      while true
        invariant frames + rest == all && rest == Frames(Remaining(), limit, ending)
        decreases |Remaining()|
      {
        ghost var left := rest;
        var frame := NextLine();
        rest := if frame.Line? then Frames(Remaining(), limit, ending) else [];
        Reassociate(frames, frame, rest, left);
        frames := frames + [frame];
        if !frame.Line? { return; }
      }
    }
  }

  lemma Reassociate(frames: seq<Frame>, frame: Frame, rest: seq<Frame>, left: seq<Frame>)
    requires left == [frame] + rest
    ensures (frames + [frame]) + rest == frames + left
    ensures rest == [] ==> frames + [frame] == frames + left
  {
  }

  lemma FirstLineFeed(pending: seq<Byte>, rest: seq<Byte>)
    ensures IndexOfLF(pending) < |pending| ==> IndexOfLF(pending + rest) == IndexOfLF(pending)
    ensures IndexOfLF(pending) == |pending| ==> IndexOfLF(pending + rest) >= |pending|
    ensures rest == [] ==> pending + rest == pending
  {
    var s := pending + rest;
    assert forall j :: 0 <= j < |pending| ==> s[j] == pending[j];
  }

  /** Two readers of the same bytes read the same frames, however the bytes are cut into chunks. */
  method SameBytesSameFrames(a: seq<seq<Byte>>, b: seq<seq<Byte>>, ending: Ending, limit: nat)
    returns (x: seq<Frame>, y: seq<Frame>)
    requires Concat(a) == Concat(b)
    ensures x == y == Frames(Concat(a), limit, ending)
  {
    var first := new BoundedJsonlReader(a, ending, limit);
    var second := new BoundedJsonlReader(b, ending, limit);
    x := first.ReadAll();
    y := second.ReadAll();
  }
}
