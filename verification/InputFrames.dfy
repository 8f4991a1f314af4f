/**
 Input frames: an attach client's input as length-prefixed frames with a
 zero-length end marker, written and read over streams that may deliver any
 number of bytes per read.
 */
module InputFrames {
  import opened Options

  type Byte = x: int | 0 <= x < 256
  type Bytes = seq<Byte>

  const MAX_FRAME := 32768
  const WORD := 0x1_0000_0000

  // ---- lengths ---------------------------------------------------------

  function PutUint32(n: nat): (h: Bytes)
    requires n < WORD
    ensures |h| == 4
  {
    [n / 0x100_0000, n / 0x1_0000 % 256, n / 256 % 256, n % 256]
  }

  function GetUint32(h: Bytes): (n: nat)
    requires |h| == 4
    ensures n < WORD
  {
    ((h[0] as int * 256 + h[1]) * 256 + h[2]) * 256 + h[3]
  }

  lemma Uint32RoundTrip(n: nat)
    requires n < WORD
    ensures GetUint32(PutUint32(n)) == n
  {
    var a, b := n / 256, n / 0x1_0000;
    assert n == a * 256 + n % 256;
    assert a == b * 256 + a % 256;
    assert b == n / 0x100_0000 * 256 + b % 256;
  }

  // ---- the format ------------------------------------------------------

  /** Chunks a writer can frame: none empty, none too large. */
  predicate Frameable(chunks: seq<Bytes>) {
    forall i :: 0 <= i < |chunks| ==> 0 < |chunks[i]| <= MAX_FRAME
  }

  function Concat(chunks: seq<Bytes>): Bytes {
    if chunks == [] then [] else chunks[0] + Concat(chunks[1..])
  }

  function Frames(chunks: seq<Bytes>): Bytes
    requires Frameable(chunks)
  {
    if chunks == [] then []
    else PutUint32(|chunks[0]|) + chunks[0] + Frames(chunks[1..])
  }

  const END_MARKER: Bytes := [0, 0, 0, 0]

  function Encode(chunks: seq<Bytes>): Bytes
    requires Frameable(chunks)
  {
    Frames(chunks) + END_MARKER
  }

  datatype Ending = EndOfInput | Truncated | TooLarge

  /** The bytes and the ending that a stream holds, with remaining bytes left of the current frame. */
  datatype Parsed = Parsed(bytes: Bytes, ending: Ending)

  function Parse(stream: Bytes, remaining: nat): Parsed
    decreases |stream|, remaining
  {
    if remaining > 0 then
      if |stream| < remaining then Parsed(stream, Truncated)
      else
        var rest := Parse(stream[remaining..], 0);
        Parsed(stream[..remaining] + rest.bytes, rest.ending)
    else if |stream| < 4 then Parsed([], Truncated)
    else
      var n := GetUint32(stream[..4]);
      if n == 0 then Parsed([], EndOfInput)
      else if n > MAX_FRAME then Parsed([], TooLarge)
      else Parse(stream[4..], n)
  }

  /** Every framed input is read back whole, and whatever follows the end marker is ignored. */
  lemma {:induction false} ParseEncode(chunks: seq<Bytes>, after: Bytes)
    requires Frameable(chunks)
    ensures Parse(Encode(chunks) + after, 0) == Parsed(Concat(chunks), EndOfInput)
  {
    var stream := Encode(chunks) + after;
    if chunks == [] {
      assert stream[..4] == END_MARKER;
    } else {
      var c := chunks[0];
      var rest := Encode(chunks[1..]) + after;
      assert stream == PutUint32(|c|) + c + rest;
      CutFrame(PutUint32(|c|), c, rest, |stream|);
      assert stream[..|stream|] == stream && rest[..|rest|] == rest;
      Uint32RoundTrip(|c|);
      ParseEncode(chunks[1..], after);
    }
  }

  lemma CutFrame(header: Bytes, c: Bytes, rest: Bytes, k: nat)
    requires |header| == 4 && 4 <= k <= |header + c + rest|
    ensures
      var cut := (header + c + rest)[..k];
      && cut[..4] == header
      && (k - 4 < |c| ==> cut[4..] == c[..k - 4])
      && (k - 4 >= |c| ==> cut[4..][..|c|] == c && cut[4..][|c|..] == rest[..k - 4 - |c|])
  {
    var stream := header + c + rest;
    var cut := stream[..k];
    assert cut[..4] == stream[..4] == header;
    assert cut[4..] == stream[4..k];
    assert k - 4 < |c| ==> stream[4..k] == c[..k - 4];
    assert k - 4 >= |c| ==> stream[4..k] == c + rest[..k - 4 - |c|];
  }

  /** A stream cut short anywhere yields a prefix of the input and is never taken for its end. */
  lemma {:induction false} ParsePrefix(chunks: seq<Bytes>, k: nat)
    requires Frameable(chunks) && k < |Encode(chunks)|
    ensures Parse(Encode(chunks)[..k], 0).ending == Truncated
    ensures Parse(Encode(chunks)[..k], 0).bytes <= Concat(chunks)
  {
    var cut := Encode(chunks)[..k];
    if chunks != [] && k >= 4 {
      var c := chunks[0];
      var rest := Encode(chunks[1..]);
      assert Encode(chunks) == PutUint32(|c|) + c + rest;
      CutFrame(PutUint32(|c|), c, rest, k);
      Uint32RoundTrip(|c|);
      if k - 4 >= |c| {
        ParsePrefix(chunks[1..], k - 4 - |c|);
      }
    }
  }

  lemma {:induction false} FramesSnoc(chunks: seq<Bytes>, c: Bytes)
    requires Frameable(chunks) && 0 < |c| <= MAX_FRAME
    ensures Frameable(chunks + [c])
    ensures Frames(chunks + [c]) == Frames(chunks) + (PutUint32(|c|) + c)
  {
    if chunks == [] {
      assert chunks + [c] == [c];
      assert Frames([c]) == PutUint32(|c|) + c + Frames([]);
    } else {
      assert (chunks + [c])[1..] == chunks[1..] + [c];
      FramesSnoc(chunks[1..], c);
      Regroup(PutUint32(|chunks[0]|) + chunks[0], Frames(chunks[1..]), PutUint32(|c|) + c);
    }
  }

  lemma {:induction false} ConcatSnoc(chunks: seq<Bytes>, c: Bytes)
    ensures Concat(chunks + [c]) == Concat(chunks) + c
  {
    if chunks == [] {
      assert chunks + [c] == [c];
    } else {
      assert (chunks + [c])[1..] == chunks[1..] + [c];
      ConcatSnoc(chunks[1..], c);
    }
  }

  lemma Regroup(a: Bytes, b: Bytes, c: Bytes)
    ensures a + (b + c) == a + b + c
  {
  }

  /** Taking part of the current frame's bytes leaves the parse of what follows. */
  lemma ParseTake(stream: Bytes, remaining: nat, k: nat)
    requires remaining > 0 && k <= remaining && k <= |stream|
    ensures Parse(stream, remaining) ==
      Parsed(stream[..k] + Parse(stream[k..], remaining - k).bytes, Parse(stream[k..], remaining - k).ending)
  {
    if |stream| < remaining {
      assert stream == stream[..k] + stream[k..];
    } else if k < remaining {
      assert stream[k..][..remaining - k] == stream[k..remaining];
      assert stream[k..][remaining - k..] == stream[remaining..];
      assert stream[..remaining] == stream[..k] + stream[k..remaining];
    }
  }

  // ---- streams ---------------------------------------------------------

  /** How much the next read delivers at most, and whether it reports the end with the last bytes. */
  datatype Piece = Piece(count: nat, early: bool)

  datatype StreamError = EOF | Broken

  /** A reader over given bytes that ends, or breaks, after them; the plan decides how reads are split. */
  class Stream {
    var rest: Bytes
    var plan: seq<Piece>
    const end: StreamError

    constructor (data: Bytes, plan: seq<Piece>, end: StreamError)
      ensures rest == data && this.plan == plan && this.end == end
    {
      rest, this.plan, this.end := data, plan, end;
    }

    ghost function Left(): nat
      reads this
    {
      |rest| + |plan|
    }

    method Read(n: nat) returns (chunk: Bytes, err: Option<StreamError>)
      modifies this
      ensures chunk + rest == old(rest) && |chunk| <= n
      ensures err.Some? ==> rest == [] && err.value == end
      ensures Left() <= old(Left())
      ensures err.None? && n > 0 ==> Left() < old(Left())
      ensures old(plan) == [] ==> plan == [] && |chunk| == if |old(rest)| < n then |old(rest)| else n
    {
      var piece := if plan == [] then Piece(n, false) else plan[0];
      var k := if piece.count < n then piece.count else n;
      if |rest| < k {
        k := |rest|;
      }
      chunk, rest := rest[..k], rest[k..];
      err := None;
      if rest == [] && (piece.early || (plan == [] && chunk == [] && n > 0)) {
        err := Some(end);
      }
      if plan != [] {
        plan := plan[1..];
      }
    }
  }

  datatype FullError = Empty | Short | Failed

  /** io.ReadFull: all n bytes, or all there are and an error. */
  method ReadFull(stream: Stream, n: nat) returns (got: Bytes, err: Option<FullError>)
    modifies stream
    ensures |old(stream.rest)| >= n ==>
      err.None? && got == old(stream.rest)[..n] && stream.rest == old(stream.rest)[n..]
    ensures |old(stream.rest)| < n ==> got == old(stream.rest) && stream.rest == []
    ensures |old(stream.rest)| < n ==>
      err == Some(if stream.end.Broken? then Failed else if got == [] then Empty else Short)
    ensures stream.Left() <= old(stream.Left())
    ensures old(stream.plan) == [] ==> stream.plan == []
  {
    got := [];
    var e: Option<StreamError> := None;
    while |got| < n && e.None?
      invariant got + stream.rest == old(stream.rest) && |got| <= n
      invariant e.Some? ==> stream.rest == [] && e.value == stream.end
      invariant stream.Left() <= old(stream.Left())
      invariant old(stream.plan) == [] ==> stream.plan == []
      decreases e.None?, stream.Left()
    {
      var chunk;
      chunk, e := stream.Read(n - |got|);
      got := got + chunk;
    }
    if |got| >= n {
      return got, None;
    }
    if e.value.Broken? {
      return got, Some(Failed);
    }
    return got, Some(if got == [] then Empty else Short);
  }

  // ---- the writer ------------------------------------------------------

  /** One write to a connection that takes room bytes in all and then fails. */
  method Send(sent: Bytes, data: Bytes, room: Option<nat>) returns (now: Bytes, ok: bool)
    requires data != []
    ensures ok ==> now == sent + data
    ensures !ok ==> room.Some? && now < sent + data
  {
    if room.Some? && room.value < |sent| + |data| {
      var k := if room.value < |sent| then 0 else room.value - |sent|;
      assert sent + data == sent + data[..k] + data[k..];
      return sent + data[..k], false;
    }
    return sent + data, true;
  }

  /**
   writeInputFrames. On success the stream frames exactly the input and ends
   with the marker; when the input breaks or a write fails, what was sent is a
   strict prefix of a framing.
   */
  method WriteInputFrames(input: Stream, room: Option<nat>) returns (sent: Bytes, ok: bool, ghost chunks: seq<Bytes>)
    modifies input
    ensures Frameable(chunks)
    ensures Concat(chunks) + input.rest == old(input.rest)
    ensures ok ==> input.end.EOF? && input.rest == [] && sent == Encode(chunks)
    ensures !ok ==> sent < Encode(chunks)
    ensures input.end.EOF? && room.None? ==> ok
  {
    var err;
    sent, err, chunks := WriteChunks(input, room);
    if err.None? || err.value.Broken? {
      StrictPrefix(chunks, sent);
      return sent, false, chunks;
    }
    sent, ok := Send(sent, PutUint32(0), room);
  }

  /** The copy loop: it ends with the input's error, or with none when a write failed. */
  method WriteChunks(input: Stream, room: Option<nat>)
    returns (sent: Bytes, err: Option<StreamError>, ghost chunks: seq<Bytes>)
    modifies input
    ensures Frameable(chunks)
    ensures Concat(chunks) + input.rest == old(input.rest)
    ensures err.Some? ==> input.rest == [] && err.value == input.end && sent == Frames(chunks)
    ensures err.None? ==> room.Some? && sent < Frames(chunks)
  {
    sent, err, chunks := [], None, [];
    while err.None?
      invariant Frameable(chunks) && sent == Frames(chunks)
      invariant Concat(chunks) + input.rest == old(input.rest)
      invariant err.Some? ==> input.rest == [] && err.value == input.end
      decreases err.None?, input.Left()
    {
      var chunk, ok;
      chunk, err := input.Read(MAX_FRAME);
      if |chunk| > 0 {
        FramesSnoc(chunks, chunk);
        ConcatSnoc(chunks, chunk);
        Regroup(Concat(chunks), chunk, input.rest);
        chunks := chunks + [chunk];
        sent, ok := Send(sent, PutUint32(|chunk|) + chunk, room);
        if !ok {
          return sent, None, chunks;
        }
      }
    }
  }

  lemma StrictPrefix(chunks: seq<Bytes>, sent: Bytes)
    requires Frameable(chunks) && sent <= Frames(chunks)
    ensures sent < Encode(chunks)
  {
  }

  // ---- the reader ------------------------------------------------------

  /** The length a read asks for: the caller's length is compared as 32 bits. */
  function Clip(n: nat, remaining: nat): nat {
    if n % WORD > remaining then remaining else n
  }

  /** Buffer lengths for which a frame's bound is respected. */
  predicate Bounded(n: nat) {
    n < WORD || n % WORD > MAX_FRAME
  }

  /** Within the frame limit the clipping works for exactly the bounded lengths. */
  lemma ClipExact(n: nat)
    ensures Bounded(n) <==> forall r :: 0 < r <= MAX_FRAME ==> Clip(n, r) <= r
  {
    if !Bounded(n) {
      assert Clip(n, MAX_FRAME) > MAX_FRAME;
    }
  }

  /** A length of 2^32 is not clipped: the bytes of the next header come out as input. */
  lemma ClipOverflows()
    ensures Clip(WORD, 1) == WORD
    ensures Parse([120] + END_MARKER, 1) == Parsed([120], EndOfInput)
    ensures !([120] + END_MARKER <= Parse([120] + END_MARKER, 1).bytes)
  {
    assert ([120] + END_MARKER)[1..][..4] == END_MARKER;
  }

  /** What one delivery inside a frame leaves to be parsed. */
  lemma BodyTaken(before: Bytes, left: nat, n: nat, chunk: Bytes, rest: Bytes)
    requires 0 < left <= MAX_FRAME && Bounded(n) && |chunk| <= Clip(n, left) && chunk + rest == before
    ensures |chunk| <= left && (left - |chunk|) % WORD == left - |chunk|
    ensures
      var after := Parse(rest, left - |chunk|);
      Parse(before, left) == Parsed(chunk + after.bytes, after.ending)
    ensures rest == [] ==> Parse(before, left) == Parsed(chunk, Truncated)
  {
    ClipExact(n);
    assert before[..|chunk|] == chunk && before[|chunk|..] == rest;
    ParseTake(before, left, |chunk|);
  }

  datatype FrameError = InputEnded | UnexpectedEnd | Oversized | ConnectionFailed

  class FrameReader {
    const stream: Stream
    var remaining: nat
    var ended: bool

    constructor (stream: Stream)
      ensures this.stream == stream && remaining == 0 && !ended
    {
      this.stream, remaining, ended := stream, 0, false;
    }

    /** What the reader has still to return. */
    ghost function Expected(): Parsed
      reads this, stream
    {
      if ended then Parsed([], EndOfInput) else Parse(stream.rest, remaining)
    }

    /** One call with a buffer of n bytes; Oversized is reported before any byte of that frame. */
    method Read(n: nat) returns (chunk: Bytes, err: Option<FrameError>)
      modifies this, stream
      ensures |chunk| <= n
      ensures stream.Left() <= old(stream.Left())
      ensures err.None? && n > 0 ==> stream.Left() < old(stream.Left())
      ensures !old(ended) && old(remaining) == 0 && |old(stream.rest)| >= 4 && old(stream.plan) == [] ==>
        var size := GetUint32(old(stream.rest)[..4]);
        0 < size <= MAX_FRAME && |old(stream.rest)| - 4 <= Clip(n, size) ==> chunk == old(stream.rest)[4..]
      ensures Bounded(n) && old(remaining) <= MAX_FRAME ==>
        match err {
          case None =>
            && remaining <= MAX_FRAME
            && old(Expected()) == Parsed(chunk + Expected().bytes, Expected().ending)
          case Some(InputEnded) => old(Expected()) == Parsed([], EndOfInput) && chunk == [] && ended
          case Some(Oversized) => old(Expected()) == Parsed([], TooLarge) && chunk == []
          case Some(_) => old(Expected()) == Parsed(chunk, Truncated)
        }
    {
      if ended {
        return [], Some(InputEnded);
      }
      if remaining == 0 {
        var header, e := ReadFull(stream, 4);
        if e.Some? {
          return [], Some(if e.value.Failed? then ConnectionFailed else UnexpectedEnd);
        }
        remaining := GetUint32(header);
        if remaining == 0 {
          ended := true;
          return [], Some(InputEnded);
        }
        if remaining > MAX_FRAME {
          return [], Some(Oversized);
        }
      }
      chunk, err := ReadBody(n);
    }

    /** The rest of Read, inside a frame: whatever the clipped length lets through. */
    method ReadBody(n: nat) returns (chunk: Bytes, err: Option<FrameError>)
      requires remaining > 0
      modifies this`remaining, stream
      ensures |chunk| <= n
      ensures stream.Left() <= old(stream.Left())
      ensures err.None? && n > 0 ==> stream.Left() < old(stream.Left())
      ensures err.Some? ==> err.value.UnexpectedEnd? || err.value.ConnectionFailed?
      ensures chunk + stream.rest == old(stream.rest) && |chunk| <= Clip(n, old(remaining))
      ensures old(stream.plan) == [] && |old(stream.rest)| <= Clip(n, old(remaining)) ==> chunk == old(stream.rest)
      ensures Bounded(n) && old(remaining) <= MAX_FRAME ==>
        var before, after := Parse(old(stream.rest), old(remaining)), Parse(stream.rest, remaining);
        && remaining <= MAX_FRAME
        && (err.None? ==> before == Parsed(chunk + after.bytes, after.ending))
        && (err.Some? ==> before == Parsed(chunk, Truncated))
    {
      ghost var before, left := stream.rest, remaining;
      var e;
      chunk, e := stream.Read(Clip(n, remaining));
      remaining := (remaining - |chunk|) % WORD;
      if Bounded(n) && left <= MAX_FRAME {
        BodyTaken(before, left, n, chunk, stream.rest);
      }
      err := None;
      if e.Some? {
        err := Some(if e.value.EOF? then UnexpectedEnd else ConnectionFailed);
      }
    }
  }

  /**
   A one-byte frame and the end marker, read with a buffer of 2^32 bytes: the
   reader hands out the marker as input.
   */
  method OverreadsFrame() returns (chunk: Bytes)
    ensures Parse(PutUint32(1) + [120] + END_MARKER, 0) == Parsed([120], EndOfInput)
    ensures chunk == [120] + END_MARKER
  {
    var framed := PutUint32(1) + [120] + END_MARKER;
    Uint32RoundTrip(1);
    assert framed[..4] == PutUint32(1) && framed[4..] == [120] + END_MARKER;
    ClipOverflows();
    var stream := new Stream(framed, [], EOF);
    var reader := new FrameReader(stream);
    var err;
    chunk, err := reader.Read(WORD);
  }

  // ---- both ends together ----------------------------------------------

  function Reported(ending: Ending): set<FrameError> {
    match ending
    case EndOfInput => {InputEnded}
    case TooLarge => {Oversized}
    case Truncated => {UnexpectedEnd, ConnectionFailed}
  }

  /** A caller that reads with buffers of any lengths until the reader reports something. */
  method ReadAll(reader: FrameReader, lengths: seq<nat>) returns (bytes: Bytes, err: FrameError)
    requires reader.remaining <= MAX_FRAME
    requires forall i :: 0 <= i < |lengths| ==> Bounded(lengths[i])
    modifies reader, reader.stream
    ensures bytes == old(reader.Expected()).bytes
    ensures err in Reported(old(reader.Expected()).ending)
  {
    bytes := [];
    var e: Option<FrameError> := None;
    var k := 0;
    while e.None?
      invariant k <= |lengths|
      invariant e.None? ==>
        && reader.remaining <= MAX_FRAME
        && old(reader.Expected()) == Parsed(bytes + reader.Expected().bytes, reader.Expected().ending)
      invariant e.Some? ==>
        && bytes == old(reader.Expected()).bytes
        && e.value in Reported(old(reader.Expected()).ending)
      decreases e.None?, reader.stream.Left() + |lengths| - k
    {
      var n := 512;
      if k < |lengths| {
        n, k := lengths[k], k + 1;
      }
      ghost var before := reader.Expected();
      var chunk;
      chunk, e := reader.Read(n);
      Regroup(bytes, chunk, reader.Expected().bytes);
      assert e.None? ==> before.bytes == chunk + reader.Expected().bytes;
      bytes := bytes + chunk;
    }
    err := e.value;
  }

  /**
   The whole path: an input split in any way is framed, the connection delivers
   the stream, or a part of it, split in any way, and the receiver reads with
   any buffers. The receiver sees the end of input only after all of it.
   */
  method Transfer(input: Bytes, inputPlan: seq<Piece>, inputEnd: StreamError, room: Option<nat>, lost: nat,
                  connectionPlan: seq<Piece>, connectionEnd: StreamError, lengths: seq<nat>)
    returns (received: Bytes, err: FrameError)
    requires forall i :: 0 <= i < |lengths| ==> Bounded(lengths[i])
    ensures received <= input
    ensures err.InputEnded? ==> received == input && inputEnd.EOF? && lost == 0
    ensures inputEnd.EOF? && room.None? && lost == 0 ==> err.InputEnded?
    ensures !err.Oversized?
  {
    var source := new Stream(input, inputPlan, inputEnd);
    var sent, ok; ghost var chunks;
    sent, ok, chunks := WriteInputFrames(source, room);
    var kept := if lost <= |sent| then sent[..|sent| - lost] else [];
    var connection := new Stream(kept, connectionPlan, connectionEnd);
    var reader := new FrameReader(connection);
    received, err := ReadAll(reader, lengths);
    if ok && lost == 0 {
      ParseEncode(chunks, []);
      assert Encode(chunks) + [] == kept;
    } else {
      assert kept < Encode(chunks) && kept == Encode(chunks)[..|kept|];
      ParsePrefix(chunks, |kept|);
    }
  }
}
