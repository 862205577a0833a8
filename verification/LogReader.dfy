/** Reading log streams (backend/api/log_reader.go). */
module LogReader {
  // Docker streams are multiplexed or raw, and read one line at a time.

  type Byte = b: int | 0 <= b < 256 witness 0

  const NL: Byte := 10
  const CR: Byte := 13
  const MAX_STREAM_TYPE: Byte := 3
  const MAX_FRAME: nat := 0x10_0000
  /** 16 KiB and the length of a timestamp. */
  const MAX_LINE: nat := 16415

  datatype Stream = Stdout | Stderr

  datatype Line = Line(stream: Stream, text: seq<Byte>)

  datatype Error = Eof | UnexpectedEof | InvalidFrame | FrameTooLarge | ReadFailed

  /** What a reader has still to return: lines, then the error that ends it. */
  datatype Transcript = Transcript(lines: seq<Line>, end: Error)

  // -------------------------------------------------------------- one line

  function TrimSuffix(s: seq<Byte>, b: Byte): seq<Byte> {
    if s != [] && s[|s| - 1] == b then s[..|s| - 1] else s
  }

  /** Drops a trailing "\n" or "\r\n". */
  function TrimLineEnding(s: seq<Byte>): seq<Byte> {
    TrimSuffix(TrimSuffix(s, NL), CR)
  }

  function Head(s: seq<Byte>, n: nat): seq<Byte> {
    if |s| <= n then s else s[..n]
  }

  /** The position of the first newline, or the length. */
  function LineLength(s: seq<Byte>): (n: nat)
    ensures n <= |s| && NL !in s[..n] && (n < |s| ==> s[n] == NL)
  {
    if s == [] || s[0] == NL then 0
    else
      var n := LineLength(s[1..]);
      assert s[..n + 1] == [s[0]] + s[1..][..n];
      n + 1
  }

  // -------------------------------------------------- multiplexed streams

  function BigEndian(n: nat): (s: seq<Byte>)
    requires n < 0x1_0000_0000
    ensures |s| == 4
  {
    [n / 0x100_0000, n / 0x1_0000 % 256, n / 256 % 256, n % 256]
  }

  function FromBigEndian(s: seq<Byte>): nat
    requires |s| == 4
  {
    s[0] as int * 0x100_0000 + s[1] as int * 0x1_0000 + s[2] as int * 256 + s[3] as int
  }

  function Split(s: seq<Byte>): seq<seq<Byte>>
    decreases |s|
  {
    var n := LineLength(s);
    if n == |s| then [s] else [s[..n]] + Split(s[n + 1..])
  }

  function Clean(part: seq<Byte>): seq<Byte> {
    Head(TrimLineEnding(part), MAX_LINE)
  }

  function CleanAll(parts: seq<seq<Byte>>): (r: seq<seq<Byte>>)
    ensures |r| == |parts|
  {
    if parts == [] then [] else [Clean(parts[0])] + CleanAll(parts[1..])
  }

  /** The lines of a frame: a trailing newline ends the last one. */
  function SplitLines(payload: seq<Byte>): seq<seq<Byte>> {
    var p := TrimSuffix(payload, NL);
    if p == [] then [] else CleanAll(Split(p))
  }

  function Tagged(stream: Stream, texts: seq<seq<Byte>>): seq<Line> {
    if texts == [] then [] else [Line(stream, texts[0])] + Tagged(stream, texts[1..])
  }

  function StreamOf(kind: Byte): Stream {
    if kind >= 2 then Stderr else Stdout
  }

  /** What `io.ReadFull` reports when the stream ends before `n` bytes. */
  function Short(bytes: seq<Byte>, fails: bool): Error {
    if fails then ReadFailed else if bytes == [] then Eof else UnexpectedEof
  }

  /** One frame, or why there is none. */
  datatype Parsed = NoFrame(error: Error) | Parsed(kind: Byte, payload: seq<Byte>, rest: seq<Byte>)

  function ParseFrame(bytes: seq<Byte>, fails: bool): (p: Parsed)
    ensures p.Parsed? ==> |p.rest| < |bytes|
  {
    if |bytes| < 8 then NoFrame(Short(bytes, fails))
    else if bytes[0] > MAX_STREAM_TYPE || bytes[1] != 0 || bytes[2] != 0 || bytes[3] != 0 then NoFrame(InvalidFrame)
    else
      var size := FromBigEndian(bytes[4..8]);
      if size > MAX_FRAME then NoFrame(FrameTooLarge)
      else if |bytes| - 8 < size then NoFrame(Short(bytes[8..], fails))
      else Parsed(bytes[0], bytes[8..8 + size], bytes[8 + size..])
  }

  /** The lines of the frames, up to the first thing that is not a whole frame. */
  function Demux(bytes: seq<Byte>, fails: bool): Transcript
    decreases |bytes|
  {
    match ParseFrame(bytes, fails)
    case NoFrame(error) => Transcript([], error)
    case Parsed(kind, payload, rest) =>
      var t := Demux(rest, fails);
      Transcript(Tagged(StreamOf(kind), SplitLines(payload)) + t.lines, t.end)
  }

  datatype AnyFrame = Frame(kind: Byte, payload: seq<Byte>)

  /** A frame Docker may send: a known stream type, and not too large. */
  type Frame = f: AnyFrame | f.kind <= MAX_STREAM_TYPE && |f.payload| <= MAX_FRAME witness Frame(0, [])

  function Encode(f: Frame): seq<Byte> {
    [f.kind, 0, 0, 0] + BigEndian(|f.payload|) + f.payload
  }

  function EncodeAll(frames: seq<Frame>): seq<Byte> {
    if frames == [] then [] else Encode(frames[0]) + EncodeAll(frames[1..])
  }

  function LinesOf(frames: seq<Frame>): seq<Line> {
    if frames == [] then []
    else Tagged(StreamOf(frames[0].kind), SplitLines(frames[0].payload)) + LinesOf(frames[1..])
  }

  lemma BigEndianRoundTrip(n: nat)
    requires n < 0x1_0000_0000
    ensures FromBigEndian(BigEndian(n)) == n
  {
    var a, b, c := n / 256, n / 0x1_0000, n / 0x100_0000;
    assert b == a / 256 && c == b / 256;
    assert n == a * 256 + n % 256 && a == b * 256 + a % 256 && b == c * 256 + b % 256;
  }

  lemma DemuxOne(f: Frame, rest: seq<Byte>, fails: bool)
    ensures var t := Demux(rest, fails);
            Demux(Encode(f) + rest, fails) == Transcript(Tagged(StreamOf(f.kind), SplitLines(f.payload)) + t.lines, t.end)
  {
    var size := BigEndian(|f.payload|);
    var bytes := Encode(f) + rest;
    BigEndianRoundTrip(|f.payload|);
    assert bytes == [f.kind, 0, 0, 0] + size + f.payload + rest;
    assert bytes[4..8] == size;
    assert bytes[8..8 + |f.payload|] == f.payload;
    assert bytes[8 + |f.payload|..] == rest;
  }

  /** Reading encoded frames gives the lines of each payload under its stream,
      in order; what follows the frames is reported only after all of them. */
  lemma {:induction false} DemuxFrames(frames: seq<Frame>, rest: seq<Byte>, fails: bool)
    ensures var t := Demux(rest, fails);
            Demux(EncodeAll(frames) + rest, fails) == Transcript(LinesOf(frames) + t.lines, t.end)
  {
    if frames == [] {
      assert [] + rest == rest;
    } else {
      var first, more := Encode(frames[0]), EncodeAll(frames[1..]);
      Associative(first, more, rest);
      DemuxOne(frames[0], more + rest, fails);
      DemuxFrames(frames[1..], rest, fails);
      Associative(Tagged(StreamOf(frames[0].kind), SplitLines(frames[0].payload)), LinesOf(frames[1..]), Demux(rest, fails).lines);
    }
  }

  lemma Associative<T>(a: seq<T>, b: seq<T>, c: seq<T>)
    ensures (a + b) + c == a + (b + c)
  {
  }

  /** A whole stream of frames ends with EOF; after a bad header, or one whose
      size is too large, every earlier line has been returned. */
  lemma FramesThenEnd(frames: seq<Frame>, header: seq<Byte>)
    requires |header| == 8
    ensures Demux(EncodeAll(frames), false) == Transcript(LinesOf(frames), Eof)
    ensures header[0] > MAX_STREAM_TYPE || header[1] != 0 || header[2] != 0 || header[3] != 0
            ==> Demux(EncodeAll(frames) + header, false) == Transcript(LinesOf(frames), InvalidFrame)
    ensures header[0] <= MAX_STREAM_TYPE && header[1] == header[2] == header[3] == 0 && FromBigEndian(header[4..8]) > MAX_FRAME
            ==> Demux(EncodeAll(frames) + header, false) == Transcript(LinesOf(frames), FrameTooLarge)
  {
    DemuxFrames(frames, [], false);
    assert EncodeAll(frames) + [] == EncodeAll(frames);
    DemuxFrames(frames, header, false);
  }

  /** The texts of one stream's lines, in order. */
  function TextsOf(lines: seq<Line>, stream: Stream): seq<seq<Byte>> {
    if lines == [] then []
    else (if lines[0].stream == stream then [lines[0].text] else []) + TextsOf(lines[1..], stream)
  }

  /** The texts in the frames of the types from `low` to `high`, in order. */
  function TextsIn(frames: seq<Frame>, low: int, high: int): seq<seq<Byte>> {
    if frames == [] then []
    else (if low <= frames[0].kind <= high then SplitLines(frames[0].payload) else []) + TextsIn(frames[1..], low, high)
  }

  lemma {:induction false} TextsConcat(a: seq<Line>, b: seq<Line>, stream: Stream)
    ensures TextsOf(a + b, stream) == TextsOf(a, stream) + TextsOf(b, stream)
  {
    if a == [] {
      assert a + b == b;
    } else {
      var first := if a[0].stream == stream then [a[0].text] else [];
      TextsConcat(a[1..], b, stream);
      assert (a + b)[1..] == a[1..] + b && (a + b)[0] == a[0];
      Associative(first, TextsOf(a[1..], stream), TextsOf(b, stream));
    }
  }

  lemma {:induction false} TextsTagged(tag: Stream, texts: seq<seq<Byte>>, stream: Stream)
    ensures TextsOf(Tagged(tag, texts), stream) == if tag == stream then texts else []
  {
    if texts != [] {
      TextsTagged(tag, texts[1..], stream);
      assert texts == [texts[0]] + texts[1..];
      assert Tagged(tag, texts)[1..] == Tagged(tag, texts[1..]);
    }
  }

  lemma {:induction false} LinesApart(frames: seq<Frame>)
    ensures TextsOf(LinesOf(frames), Stdout) == TextsIn(frames, 0, 1)
    ensures TextsOf(LinesOf(frames), Stderr) == TextsIn(frames, 2, 3)
  {
    if frames != [] {
      var f := frames[0];
      var first, more := Tagged(StreamOf(f.kind), SplitLines(f.payload)), LinesOf(frames[1..]);
      LinesApart(frames[1..]);
      TextsConcat(first, more, Stdout);
      TextsConcat(first, more, Stderr);
      TextsTagged(StreamOf(f.kind), SplitLines(f.payload), Stdout);
      TextsTagged(StreamOf(f.kind), SplitLines(f.payload), Stderr);
    }
  }

  lemma FramesEnd(frames: seq<Frame>)
    ensures Demux(EncodeAll(frames), false) == Transcript(LinesOf(frames), Eof)
  {
    DemuxFrames(frames, [], false);
    assert EncodeAll(frames) + [] == EncodeAll(frames) && LinesOf(frames) + [] == LinesOf(frames);
  }

  /** The stdout lines of a stream of frames are exactly those in the frames of
      types 0 and 1, in order, and the stderr lines those of types 2 and 3. */
  lemma StreamsApart(frames: seq<Frame>)
    ensures var lines := Demux(EncodeAll(frames), false).lines;
            TextsOf(lines, Stdout) == TextsIn(frames, 0, 1) && TextsOf(lines, Stderr) == TextsIn(frames, 2, 3)
  {
    FramesEnd(frames);
    LinesApart(frames);
  }

  /** A stream cut off within a frame gives all earlier lines and none of the
      frame. The end is reported as a clean one only between frames, or between a
      header and its payload. */
  lemma CutOff(frames: seq<Frame>, f: Frame, k: nat, fails: bool)
    requires k < |Encode(f)|
    ensures Demux(EncodeAll(frames) + Encode(f)[..k], fails)
            == Transcript(LinesOf(frames), if fails then ReadFailed else if k == 0 || k == 8 then Eof else UnexpectedEof)
  {
    var part := Encode(f)[..k];
    DemuxFrames(frames, part, fails);
    if k >= 8 {
      PartialFrame(f, part, fails);
    }
    assert LinesOf(frames) + [] == LinesOf(frames);
  }

  lemma PartialFrame(f: Frame, part: seq<Byte>, fails: bool)
    requires 8 <= |part| < |Encode(f)| && part == Encode(f)[..|part|]
    ensures ParseFrame(part, fails) == NoFrame(Short(part[8..], fails))
  {
    var size := BigEndian(|f.payload|);
    BigEndianRoundTrip(|f.payload|);
    assert Encode(f) == [f.kind, 0, 0, 0] + size + f.payload;
    assert part[4..8] == size;
  }

  // ---------------------------------------------------- lines of a payload

  function Join(lines: seq<seq<Byte>>): seq<Byte> {
    if lines == [] then [] else lines[0] + [NL] + Join(lines[1..])
  }

  /** A line that reading leaves as it is. */
  predicate Plain(line: seq<Byte>) {
    NL !in line && |line| <= MAX_LINE && (line != [] ==> line[|line| - 1] != CR)
  }

  predicate AllPlain(lines: seq<seq<Byte>>) {
    lines == [] || (Plain(lines[0]) && AllPlain(lines[1..]))
  }

  lemma {:induction false} LineLengthAt(line: seq<Byte>, rest: seq<Byte>)
    requires NL !in line && (rest == [] || rest[0] == NL)
    ensures LineLength(line + rest) == |line|
  {
    if line == [] {
      assert line + rest == rest;
    } else {
      assert line[0] in line;
      assert (line + rest)[1..] == line[1..] + rest;
      LineLengthAt(line[1..], rest);
    }
  }

  lemma SplitFirst(line: seq<Byte>, rest: seq<Byte>)
    requires NL !in line
    ensures Split(line) == [line]
    ensures Split(line + ([NL] + rest)) == [line] + Split(rest)
  {
    LineLengthAt(line, []);
    assert line + [] == line;
    LineLengthAt(line, [NL] + rest);
    FirstOf(line, rest);
  }

  lemma FirstOf(line: seq<Byte>, rest: seq<Byte>)
    ensures var s := line + ([NL] + rest); s[..|line|] == line && s[|line| + 1..] == rest
  {
  }

  /** The joined lines without the newline that ends the last one. */
  function Joined(lines: seq<seq<Byte>>): seq<Byte>
    requires lines != []
  {
    if |lines| == 1 then lines[0] else lines[0] + ([NL] + Joined(lines[1..]))
  }

  lemma {:induction false} JoinEnds(lines: seq<seq<Byte>>)
    requires lines != []
    ensures Join(lines) == Joined(lines) + [NL]
  {
    if |lines| > 1 {
      JoinEnds(lines[1..]);
      assert lines[0] + [NL] + (Joined(lines[1..]) + [NL]) == lines[0] + ([NL] + Joined(lines[1..])) + [NL];
    } else {
      assert lines[1..] == [] && Join(lines) == lines[0] + [NL] + [];
    }
  }

  /** Any lines, of any length and with any ending but the newline. */
  predicate Separate(lines: seq<seq<Byte>>) {
    lines == [] || (NL !in lines[0] && Separate(lines[1..]))
  }

  lemma {:induction false} SplitSeparate(lines: seq<seq<Byte>>)
    requires lines != [] && Separate(lines)
    ensures Split(Joined(lines)) == lines && (Joined(lines) == [] <==> lines == [[]])
  {
    if |lines| == 1 {
      SplitFirst(lines[0], []);
      assert lines == [lines[0]];
    } else {
      SplitSeparate(lines[1..]);
      SplitFirst(lines[0], Joined(lines[1..]));
      assert lines == [lines[0]] + lines[1..];
    }
  }

  /** A line as it is shown: without one carriage return at its end, and cut at
      16,415 bytes. */
  predicate ShownAs(line: seq<Byte>, shown: seq<Byte>) {
    var bare := if line != [] && line[|line| - 1] == 13 then line[..|line| - 1] else line;
    shown == if |bare| > 16415 then bare[..16415] else bare
  }

  lemma {:induction false} CleanShows(lines: seq<seq<Byte>>, i: nat)
    requires Separate(lines) && i < |lines|
    ensures ShownAs(lines[i], CleanAll(lines)[i])
  {
    if i > 0 {
      CleanShows(lines[1..], i - 1);
    } else if lines[0] != [] {
      assert lines[0][|lines[0]| - 1] in lines[0];
    }
  }

  /** Of any payload every line is shown, in order, and nothing else; only a single
      empty line is lost. */
  lemma EveryLineIsShown(lines: seq<seq<Byte>>)
    requires Separate(lines) && lines != [[]]
    ensures var r := SplitLines(Join(lines)); |r| == |lines| && forall i :: 0 <= i < |lines| ==> ShownAs(lines[i], r[i])
  {
    if lines != [] {
      JoinEnds(lines);
      SplitSeparate(lines);
      assert (Joined(lines) + [NL])[..|Joined(lines)|] == Joined(lines);
      forall i | 0 <= i < |lines| ensures ShownAs(lines[i], CleanAll(lines)[i]) {
        CleanShows(lines, i);
      }
    }
  }

  lemma {:induction false} SplitJoined(lines: seq<seq<Byte>>)
    requires lines != [] && AllPlain(lines)
    ensures Split(Joined(lines)) == lines && CleanAll(lines) == lines
    ensures Joined(lines) == [] <==> lines == [[]]
  {
    assert TrimLineEnding(lines[0]) == lines[0] by {
      if lines[0] != [] {
        assert lines[0][|lines[0]| - 1] in lines[0];
      }
    }
    if |lines| == 1 {
      SplitFirst(lines[0], []);
      assert lines == [lines[0]];
    } else {
      SplitJoined(lines[1..]);
      SplitFirst(lines[0], Joined(lines[1..]));
      assert lines == [lines[0]] + lines[1..];
    }
  }

  /** Splitting a payload made of plain lines gives them back, unless it is a
      single empty line: that one is lost. */
  lemma SplitLinesRoundTrip(lines: seq<seq<Byte>>)
    requires AllPlain(lines)
    ensures SplitLines(Join(lines)) == lines <==> lines != [[]]
  {
    if lines != [] {
      JoinEnds(lines);
      SplitJoined(lines);
      assert (Joined(lines) + [NL])[..|Joined(lines)|] == Joined(lines);
    }
  }

  // ------------------------------------------------------------ raw streams

  /** One raw line, or why there is none. */
  datatype RawNext = NoLine(error: Error) | RawNext(text: seq<Byte>, rest: seq<Byte>)

  /** The first bytes of a line, without its ending. The last one may lack its
      newline, unless the reader fails before it. */
  function FirstRaw(bytes: seq<Byte>, fails: bool): (r: RawNext)
    ensures r.RawNext? ==> |r.rest| < |bytes|
  {
    var n := LineLength(bytes);
    if n < |bytes| then RawNext(RawText(bytes[..n + 1]), bytes[n + 1..])
    else if fails || bytes == [] then NoLine(EndError(fails))
    else RawNext(RawText(bytes), [])
  }

  function EndError(fails: bool): Error {
    if fails then ReadFailed else Eof
  }

  function RawText(bytes: seq<Byte>): seq<Byte> {
    TrimLineEnding(Head(bytes, MAX_LINE))
  }

  function RawLines(bytes: seq<Byte>, fails: bool): Transcript
    decreases |bytes|
  {
    match FirstRaw(bytes, fails)
    case NoLine(error) => Transcript([], error)
    case RawNext(text, rest) =>
      var t := RawLines(rest, fails);
      Transcript([Line(Stdout, text)] + t.lines, t.end)
  }

  lemma FirstRawOfLine(line: seq<Byte>, more: seq<Byte>, fails: bool)
    requires Plain(line)
    ensures FirstRaw(line + ([NL] + more), fails) == RawNext(line, more)
  {
    var bytes := line + ([NL] + more);
    LineLengthAt(line, [NL] + more);
    assert bytes[..|line| + 1] == line + [NL] && bytes[|line| + 1..] == more;
    assert (line + [NL])[..|line|] == line;
  }

  /** A raw stream of plain lines gives them back. */
  lemma {:induction false} RawLinesRoundTrip(lines: seq<seq<Byte>>, fails: bool)
    requires AllPlain(lines)
    ensures RawLines(Join(lines), fails) == Transcript(Tagged(Stdout, lines), EndError(fails))
  {
    if lines != [] {
      RawLinesRoundTrip(lines[1..], fails);
      FirstRawOfLine(lines[0], Join(lines[1..]), fails);
      Associative(lines[0], [NL], Join(lines[1..]));
    }
  }

  /** `bufio.Reader.ReadSlice` with a buffer of `size` bytes: up to the newline
      if it is within the buffer, or a full buffer, or what is left. */
  datatype Slice = Whole(chunk: seq<Byte>) | BufferFull(chunk: seq<Byte>) | Ended(chunk: seq<Byte>)

  function ReadSlice(bytes: seq<Byte>, size: nat): Slice
    requires size > 0
  {
    var n := LineLength(bytes);
    if n < |bytes| && n < size then Whole(bytes[..n + 1])
    else if |bytes| >= size then BufferFull(bytes[..size])
    else Ended(bytes)
  }

  lemma HeadMore(taken: seq<Byte>, chunk: seq<Byte>, max: nat)
    ensures Head(taken + chunk, max) == Head(taken, max) + Head(chunk, max - |Head(taken, max)|)
  {
  }

  lemma {:induction false} LineLengthPast(taken: seq<Byte>, rest: seq<Byte>)
    requires NL !in taken
    ensures LineLength(taken + rest) == |taken| + LineLength(rest)
  {
    if taken == [] {
      assert taken + rest == rest;
    } else {
      assert taken[0] in taken;
      assert (taken + rest)[1..] == taken[1..] + rest;
      LineLengthPast(taken[1..], rest);
    }
  }

  /** What each kind of slice says about the line that began with `taken`. */
  ghost predicate SliceMeans(slice: Slice, taken: seq<Byte>, rest: seq<Byte>, fails: bool) {
    var seen := taken + slice.chunk;
    |slice.chunk| <= |rest| &&
    match slice
    case BufferFull(_) => slice.chunk != [] && seen + rest[|slice.chunk|..] == taken + rest && NL !in seen
    case Whole(_) => FirstRaw(taken + rest, fails) == RawNext(RawText(seen), rest[|slice.chunk|..])
    case Ended(_) =>
      FirstRaw(taken + rest, fails) == if fails || seen == [] then NoLine(EndError(fails)) else RawNext(RawText(seen), [])
  }

  lemma Halves<T>(a: seq<T>, b: seq<T>)
    ensures (a + b)[..|a|] == a && (a + b)[|a|..] == b
  {
  }

  lemma WholeTaken(taken: seq<Byte>, chunk: seq<Byte>, more: seq<Byte>, fails: bool)
    requires LineLength(taken + (chunk + more)) == |taken| + |chunk| - 1 && chunk != []
    ensures FirstRaw(taken + (chunk + more), fails) == RawNext(RawText(taken + chunk), more)
  {
    Associative(taken, chunk, more);
    Halves(taken + chunk, more);
  }

  lemma PieceTaken(taken: seq<Byte>, chunk: seq<Byte>, more: seq<Byte>)
    requires NL !in taken && NL !in chunk
    ensures NL !in taken + chunk && (taken + chunk) + more == taken + (chunk + more)
  {
    Associative(taken, chunk, more);
  }

  lemma StartOf(rest: seq<Byte>, n: nat, size: nat)
    requires size <= n <= |rest| && NL !in rest[..n]
    ensures NL !in rest[..size] && rest == rest[..size] + rest[size..]
  {
    forall i | 0 <= i < size ensures rest[..size][i] != NL {
      assert rest[..n][i] == rest[i];
    }
  }

  lemma FullMeans(taken: seq<Byte>, rest: seq<Byte>, size: nat, fails: bool)
    requires NL !in taken && 0 < size <= LineLength(rest)
    ensures SliceMeans(BufferFull(rest[..size]), taken, rest, fails)
  {
    StartOf(rest, LineLength(rest), size);
    PieceTaken(taken, rest[..size], rest[size..]);
  }

  lemma WholeMeans(taken: seq<Byte>, rest: seq<Byte>, n: nat, fails: bool)
    requires NL !in taken && n == LineLength(rest) && n < |rest|
    ensures SliceMeans(Whole(rest[..n + 1]), taken, rest, fails)
  {
    var chunk, more := rest[..n + 1], rest[n + 1..];
    assert rest == chunk + more;
    LineLengthPast(taken, rest);
    WholeTaken(taken, chunk, more, fails);
  }

  lemma EndMeans(taken: seq<Byte>, rest: seq<Byte>, fails: bool)
    requires NL !in taken && LineLength(rest) == |rest|
    ensures SliceMeans(Ended(rest), taken, rest, fails)
  {
    LineLengthPast(taken, rest);
  }

  lemma SliceTaken(taken: seq<Byte>, rest: seq<Byte>, size: nat, fails: bool)
    requires NL !in taken && size > 0
    ensures SliceMeans(ReadSlice(rest, size), taken, rest, fails)
  {
    var n := LineLength(rest);
    if n < |rest| && n < size {
      WholeMeans(taken, rest, n, fails);
    } else if |rest| >= size {
      FullMeans(taken, rest, size, fails);
    } else {
      EndMeans(taken, rest, fails);
    }
  }

  /** `nextRaw`: puts the pieces the buffer cuts a line into back together, so
      that the line does not depend on the buffer. */
  method ReadRaw(bytes: seq<Byte>, fails: bool, bufferSize: nat) returns (r: RawNext)
    requires bufferSize > 0
    ensures r == FirstRaw(bytes, fails)
  {
    var rest := bytes;
    var line: seq<Byte> := [];
    ghost var taken: seq<Byte> := [];
    while true
      invariant taken + rest == bytes && NL !in taken && line == Head(taken, MAX_LINE)
      decreases |rest|
    {
      var slice := ReadSlice(rest, bufferSize);
      HeadMore(taken, slice.chunk, MAX_LINE);
      SliceTaken(taken, rest, bufferSize, fails);
      line := line + Head(slice.chunk, MAX_LINE - |line|);
      taken, rest := taken + slice.chunk, rest[|slice.chunk|..];
      match slice {
        case BufferFull(_) =>
        case Whole(_) =>
          return RawNext(TrimLineEnding(line), rest);
        case Ended(_) =>
          if !fails && |line| > 0 {
            return RawNext(TrimLineEnding(line), []);
          }
          return NoLine(EndError(fails));
      }
    }
  }

  /** `readFrame`. */
  method ReadFrame(bytes: seq<Byte>, fails: bool) returns (p: Parsed)
    ensures p == ParseFrame(bytes, fails)
  {
    if |bytes| < 8 {
      return NoFrame(Short(bytes, fails));
    }
    var header := bytes[..8];
    if header[0] > MAX_STREAM_TYPE || header[1] != 0 || header[2] != 0 || header[3] != 0 {
      return NoFrame(InvalidFrame);
    }
    assert header[4..8] == bytes[4..8];
    var size := FromBigEndian(header[4..8]);
    if size > MAX_FRAME {
      return NoFrame(FrameTooLarge);
    }
    if |bytes| - 8 < size {
      return NoFrame(Short(bytes[8..], fails));
    }
    return Parsed(header[0], bytes[8..8 + size], bytes[8 + size..]);
  }

  // ------------------------------------------------------------- the reader

  /** Everything a stream has, whatever its kind: the first byte tells. */
  function AllOf(bytes: seq<Byte>, fails: bool): Transcript {
    if bytes == [] then Transcript([], EndError(fails))
    else if bytes[0] > MAX_STREAM_TYPE then RawLines(bytes, fails)
    else Demux(bytes, fails)
  }

  /** A stream of frames is recognised as one. */
  lemma FramesRecognised(frames: seq<Frame>)
    ensures AllOf(EncodeAll(frames), false) == Transcript(LinesOf(frames), Eof)
  {
    FramesEnd(frames);
    if frames != [] {
      assert EncodeAll(frames)[0] == frames[0].kind;
    }
  }

  /** Text is recognised as a raw stream, all of it on stdout. */
  lemma TextRecognised(lines: seq<seq<Byte>>)
    requires AllPlain(lines) && lines != [] && Join(lines)[0] >= 4
    ensures AllOf(Join(lines), false).end == Eof && TextsOf(AllOf(Join(lines), false).lines, Stdout) == lines
    ensures TextsOf(AllOf(Join(lines), false).lines, Stderr) == []
  {
    RawLinesRoundTrip(lines, false);
    TextsTagged(Stdout, lines, Stdout);
    TextsTagged(Stdout, lines, Stderr);
  }

  datatype Result = Next(line: Line) | Failure(error: Error)

  /** The result is the next of `before`, and `after` is what is left. */
  predicate Delivers(r: Result, before: Transcript, after: Transcript) {
    if before.lines == [] then r == Failure(before.end)
    else r == Next(before.lines[0]) && after == Transcript(before.lines[1..], before.end)
  }

  /** The lines of the current frame not yet returned, then the rest. */
  function Multiplexed(stream: Stream, pending: seq<seq<Byte>>, rest: seq<Byte>, fails: bool): Transcript {
    var t := Demux(rest, fails);
    Transcript(Tagged(stream, pending) + t.lines, t.end)
  }

  lemma DeliversPending(stream: Stream, pending: seq<seq<Byte>>, rest: seq<Byte>, fails: bool)
    requires pending != []
    ensures Delivers(Next(Line(stream, pending[0])), Multiplexed(stream, pending, rest, fails),
                     Multiplexed(stream, pending[1..], rest, fails))
  {
    var t := Demux(rest, fails);
    assert Tagged(stream, pending) + t.lines == [Line(stream, pending[0])] + (Tagged(stream, pending[1..]) + t.lines);
  }

  lemma DeliversRaw(bytes: seq<Byte>, fails: bool)
    ensures match FirstRaw(bytes, fails) {
              case NoLine(error) => RawLines(bytes, fails) == Transcript([], error)
              case RawNext(text, rest) => Delivers(Next(Line(Stdout, text)), RawLines(bytes, fails), RawLines(rest, fails))
            }
  {
  }

  class LogLineReader {
    var rest: seq<Byte>      // what the underlying reader has not returned yet
    const fails: bool        // whether it ends with an error other than EOF
    const bufferSize: nat
    var detected: bool
    var raw: bool
    var pending: seq<seq<Byte>>
    var pendingStream: Stream

    constructor (bytes: seq<Byte>, fails: bool, bufferSize: nat)
      ensures Remaining() == AllOf(bytes, fails) && this.bufferSize == bufferSize
    {
      rest, this.fails, this.bufferSize := bytes, fails, bufferSize;
      detected, raw, pending, pendingStream := false, false, [], Stdout;
    }

    /** The lines still to come, and the error that ends them. */
    function Remaining(): Transcript
      reads this
    {
      if !detected then AllOf(rest, fails)
      else if raw then RawLines(rest, fails)
      else Multiplexed(pendingStream, pending, rest, fails)
    }

    /** `next`: the next line, in order; the error only once none is left. */
    method NextLine() returns (r: Result)
      requires bufferSize > 0
      modifies this
      ensures Delivers(r, old(Remaining()), Remaining())
    {
      if !detected {
        if rest == [] {
          return Failure(EndError(fails));
        }
        detected, raw, pending := true, rest[0] > MAX_STREAM_TYPE, [];
        assert Tagged(pendingStream, []) + Demux(rest, fails).lines == Demux(rest, fails).lines;
      }
      if raw {
        r := NextRaw();
      } else {
        r := NextMultiplexed();
      }
    }

    method NextRaw() returns (r: Result)
      requires bufferSize > 0
      modifies `rest
      ensures Delivers(r, RawLines(old(rest), fails), RawLines(rest, fails))
    {
      DeliversRaw(rest, fails);
      var next := ReadRaw(rest, fails, bufferSize);
      match next {
        case NoLine(error) =>
          r := Failure(error);
        case RawNext(text, more) =>
          r, rest := Next(Line(Stdout, text)), more;
      }
    }

    /** `nextMultiplexed`: reads frames until one holds a line. */
    method NextMultiplexed() returns (r: Result)
      modifies `rest, `pending, `pendingStream
      ensures Delivers(r, old(Multiplexed(pendingStream, pending, rest, fails)), Multiplexed(pendingStream, pending, rest, fails))
    {
      while pending == []
        invariant Multiplexed(pendingStream, pending, rest, fails) == old(Multiplexed(pendingStream, pending, rest, fails))
        decreases |rest|
      {
        var p := ReadFrame(rest, fails);
        if p.NoFrame? {
          return Failure(p.error);
        }
        assert Tagged(pendingStream, []) + Demux(rest, fails).lines == Demux(rest, fails).lines;
        pendingStream, pending, rest := if p.kind >= 2 then Stderr else Stdout, SplitLines(p.payload), p.rest;
      }
      DeliversPending(pendingStream, pending, rest, fails);
      r := Next(Line(pendingStream, pending[0]));
      pending := pending[1..];
    }
  }
}
