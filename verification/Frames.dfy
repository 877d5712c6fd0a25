/** Length-prefixed framing: a four-byte big-endian length, then that many bytes. The
    codec is any pair of functions; what is asked of it is that decoding undoes encoding. */
module Frames {
  import opened Base

  type byte = n: int | 0 <= n < 256

  const MAX_SIZE: nat := 1_048_576
  const HEADER: nat := 4

  datatype FrameError = Io | Closed | TooLarge(claimed: nat) | Malformed

  datatype Read<+S> = Got(signal: S) | Failed(error: FrameError)

  type Decoder<!S> = seq<byte> -> Option<S>
  type Encoder<!S> = S -> seq<byte>

  // ---- the length header ---------------------------------------------------------------

  function ToBytes(n: nat): (b: seq<byte>)
    requires n < 0x1_0000_0000
    ensures |b| == HEADER
  {
    [n / 0x100_0000, n / 0x1_0000 % 256, n / 256 % 256, n % 256]
  }

  function FromBytes(b: seq<byte>): (n: nat)
    requires |b| == HEADER
    ensures n < 0x1_0000_0000
  {
    var x: int := b[0];
    var y: int := b[1];
    var z: int := b[2];
    ((x * 256 + y) * 256 + z) * 256 + b[3]
  }

  lemma {:induction false} LengthRoundTrip(n: nat)
    requires n < 0x1_0000_0000
    ensures FromBytes(ToBytes(n)) == n
  {
    var a := n / 256;
    var b := a / 256;
    Quotients(n);
    assert ToBytes(n) == [b / 256, b % 256, a % 256, n % 256];
    assert n == a * 256 + n % 256 && a == b * 256 + a % 256 && b == b / 256 * 256 + b % 256;
    hide ToBytes;
  }

  lemma {:induction false} Quotients(n: nat)
    ensures n / 0x1_0000 == n / 256 / 256 && n / 0x100_0000 == n / 256 / 256 / 256
  {
  }

  lemma {:induction false} BytesRoundTrip(b: seq<byte>)
    requires |b| == HEADER
    ensures ToBytes(FromBytes(b)) == b
  {
    var x: int, y: int, z: int, w: int := b[0], b[1], b[2], b[3];
    Digit(x * 65536 + y * 256 + z, w);
    Digit(x * 256 + y, z);
    Digit(x, y);
    var n := FromBytes(b);
    assert n / 256 == x * 65536 + y * 256 + z;
    assert n / 0x1_0000 == n / 256 / 256;
    assert n / 0x100_0000 == n / 256 / 256 / 256;
  }

  lemma {:induction false} Digit(high: int, low: int)
    requires 0 <= high && 0 <= low < 256
    ensures (high * 256 + low) / 256 == high && (high * 256 + low) % 256 == low
  {
  }

  // ---- one frame ---------------------------------------------------------------------------

  function Framed(body: seq<byte>): seq<byte>
    requires |body| <= MAX_SIZE
  {
    ToBytes(|body|) + body
  }

  /** A frame to send, unless the encoding is over the maximum. */
  function WriteFrame<S>(encode: Encoder<S>, signal: S): Option<seq<byte>> {
    if |encode(signal)| > MAX_SIZE then None else Some(Framed(encode(signal)))
  }

  /** One read from the bytes that remain until the connection ends. */
  function ReadFrame<S>(decode: Decoder<S>, stream: seq<byte>): (r: (Read<S>, seq<byte>))
    ensures r.0.Got? ==> |r.1| < |stream|
  {
    if |stream| < HEADER then (Failed(Closed), [])
    else
      var claimed, rest := FromBytes(stream[..HEADER]), stream[HEADER..];
      if claimed > MAX_SIZE then (Failed(TooLarge(claimed)), rest)
      else if claimed == 0 then (Failed(Malformed), rest)
      else if |rest| < claimed then (Failed(Io), [])
      else match decode(rest[..claimed])
        case None => (Failed(Malformed), rest[claimed..])
        case Some(signal) => (Got(signal), rest[claimed..])
  }

  class FrameStream<!S> {
    var stream: seq<byte>

    constructor (stream: seq<byte>)
      ensures this.stream == stream
    {
      this.stream := stream;
    }

    /** Fills the buffer, or takes what is left and reports the end of the stream. */
    method ReadExact(buffer: array<byte>) returns (ok: bool)
      modifies this, buffer
      ensures ok <==> |old(stream)| >= buffer.Length
      ensures ok ==> buffer[..] == old(stream)[..buffer.Length] && stream == old(stream)[buffer.Length..]
      ensures !ok ==> stream == []
    {
      var n := if |stream| < buffer.Length then |stream| else buffer.Length;
      for i := 0 to n
        invariant buffer[..i] == old(stream)[..i]
        invariant stream == old(stream)
      {
        buffer[i] := stream[i];
      }
      ok := n == buffer.Length;
      stream := stream[n..];
      assert ok ==> buffer[..] == buffer[..n];
    }

    method ReadSignal(decode: Decoder<S>) returns (result: Read<S>)
      modifies this
      ensures (result, stream) == ReadFrame(decode, old(stream))
    {
      var header := new byte[HEADER];
      var ok := ReadExact(header);
      if !ok {
        return Failed(Closed);
      }
      var claimed := FromBytes(header[..]);
      if claimed > MAX_SIZE {
        return Failed(TooLarge(claimed));
      }
      if claimed == 0 {
        return Failed(Malformed);
      }
      var body := new byte[claimed];
      ok := ReadExact(body);
      if !ok {
        return Failed(Io);
      }
      match decode(body[..])
      case None => return Failed(Malformed);
      case Some(signal) => return Got(signal);
    }

    method WriteSignal(encode: Encoder<S>, signal: S) returns (ok: bool)
      modifies this
      ensures ok <==> WriteFrame(encode, signal).Some?
      ensures stream == old(stream) + if ok then WriteFrame(encode, signal).value else []
    {
      var body := encode(signal);
      if |body| > MAX_SIZE {
        return false;
      }
      stream := stream + ToBytes(|body|);
      stream := stream + body;
      ok := true;
    }
  }

  // ---- what a read means -----------------------------------------------------------------------

  ghost predicate FrameOf<S(!new)>(decode: Decoder<S>, stream: seq<byte>, signal: S, body: seq<byte>, rest: seq<byte>) {
    1 <= |body| <= MAX_SIZE && decode(body) == Some(signal) && stream == Framed(body) + rest
  }

  /** A read returns a signal exactly when the stream begins with a frame that decodes to
      it, and it consumes that frame and no more. */
  lemma {:induction false} ReadIsOneFrame<S(!new)>(decode: Decoder<S>, stream: seq<byte>, signal: S, rest: seq<byte>)
    ensures ReadFrame(decode, stream) == (Got(signal), rest) <==> exists body :: FrameOf(decode, stream, signal, body, rest)
  {
    if ReadFrame(decode, stream) == (Got(signal), rest) {
      var claimed := FromBytes(stream[..HEADER]);
      var body := stream[HEADER..][..claimed];
      BytesRoundTrip(stream[..HEADER]);
      assert stream == stream[..HEADER] + (body + rest);
      assert FrameOf(decode, stream, signal, body, rest);
    }
    if body :| FrameOf(decode, stream, signal, body, rest) {
      assert stream[..HEADER] == ToBytes(|body|);
      LengthRoundTrip(|body|);
      assert stream[HEADER..] == body + rest;
      assert stream[HEADER..][..|body|] == body;
      assert stream[HEADER..][|body|..] == rest;
    }
  }

  /** The four bytes as a number, the first the highest. */
  function Claimed(stream: seq<byte>): int
    requires |stream| >= 4
  {
    stream[0] as int * 0x100_0000 + stream[1] as int * 0x1_0000 + stream[2] as int * 0x100 + stream[3] as int
  }

  lemma {:induction false} ClaimIsHeader(stream: seq<byte>)
    requires |stream| >= 4
    ensures FromBytes(stream[..HEADER]) == Claimed(stream)
  {
  }

  /** Any other read says what was wrong, and what it leaves of the stream: a header that is
      not there, a claim of nothing or of too much, a body that is not all there, or one that
      does not decode. */
  lemma {:induction false} FailureSays<S(!new)>(decode: Decoder<S>, stream: seq<byte>)
    ensures var (r, rest) := ReadFrame(decode, stream);
            if |stream| < 4 then r == Failed(Closed) && rest == []
            else
              var n := Claimed(stream);
              if n == 0 then r == Failed(Malformed) && rest == stream[4..]
              else if n > 1_048_576 then r == Failed(TooLarge(n)) && rest == stream[4..]
              else if |stream| < 4 + n then r == Failed(Io) && rest == []
              else (r == Failed(Malformed) <==> decode(stream[4..4 + n]) == None) && (r.Failed? ==> r.error == Malformed)
                   && rest == stream[4 + n..]
  {
    if |stream| >= 4 {
      var n := Claimed(stream);
      ClaimIsHeader(stream);
      if n <= |stream| - 4 {
        assert stream[4..][..n] == stream[4..4 + n] && stream[4..][n..] == stream[4 + n..];
      }
    }
    hide FromBytes, Claimed;
  }

  /** A signal is refused a frame exactly when it encodes to more than the maximum. */
  lemma {:induction false} WriteRefusesIff<S(!new)>(encode: Encoder<S>, signal: S)
    ensures WriteFrame(encode, signal) == None <==> |encode(signal)| > 1_048_576
    ensures WriteFrame(encode, signal).Some? ==>
              var frame := WriteFrame(encode, signal).value;
              |frame| == 4 + |encode(signal)| && frame[4..] == encode(signal) && Claimed(frame) == |encode(signal)|
  {
    if |encode(signal)| <= MAX_SIZE {
      LengthRoundTrip(|encode(signal)|);
      var frame := Framed(encode(signal));
      ClaimIsHeader(frame);
      assert frame[..4] == ToBytes(|encode(signal)|);
    }
    hide ToBytes, FromBytes, Claimed;
  }

  // ---- whole streams -------------------------------------------------------------------------------

  /** Every signal until the first error, and that error. */
  function ReadAll<S>(decode: Decoder<S>, stream: seq<byte>): (seq<S>, FrameError)
    decreases |stream|
  {
    match ReadFrame(decode, stream)
    case (Failed(e), _) => ([], e)
    case (Got(signal), rest) =>
      var (signals, e) := ReadAll(decode, rest);
      ([signal] + signals, e)
  }

  /** The whole of a stream reads as these signals and then this error. */
  ghost predicate Reads<S>(decode: Decoder<S>, stream: seq<byte>, signals: seq<S>, error: FrameError) {
    ReadAll(decode, stream) == (signals, error)
  }

  ghost predicate Faithful<S(!new)>(encode: Encoder<S>, decode: Decoder<S>) {
    forall s :: 1 <= |encode(s)| <= MAX_SIZE && decode(encode(s)) == Some(s)
  }

  function WriteAll<S>(encode: Encoder<S>, signals: seq<S>): seq<byte>
    requires forall s <- signals :: |encode(s)| <= MAX_SIZE
  {
    if signals == [] then [] else Framed(encode(signals[0])) + WriteAll(encode, signals[1..])
  }

  /** How many whole frames fit into the first `cut` bytes, and how many bytes are left. */
  function WholeFrames<S>(encode: Encoder<S>, signals: seq<S>, cut: nat): (r: (nat, nat))
    ensures r.0 <= |signals| && (r.0 < |signals| ==> r.1 < HEADER + |encode(signals[r.0])|)
  {
    if signals == [] || cut < HEADER + |encode(signals[0])| then (0, cut)
    else
      var (n, left) := WholeFrames(encode, signals[1..], cut - HEADER - |encode(signals[0])|);
      (n + 1, left)
  }

  /** The whole frames and the bytes left account for every byte of the prefix. */
  lemma {:induction false} WholeFramesFill<S>(encode: Encoder<S>, signals: seq<S>, cut: nat)
    requires forall s <- signals :: |encode(s)| <= MAX_SIZE
    ensures var (n, left) := WholeFrames(encode, signals, cut);
            |WriteAll(encode, signals[..n])| + left == cut
  {
    if signals == [] || cut < HEADER + |encode(signals[0])| {
    } else {
      var rest := cut - HEADER - |encode(signals[0])|;
      WholeFramesFill(encode, signals[1..], rest);
      var n := WholeFrames(encode, signals[1..], rest).0;
      assert signals[..n + 1][1..] == signals[1..][..n];
    }
  }

  /** A frame cut short is an end of stream inside the header, an I/O error inside the body. */
  lemma {:induction false} TornFrame<S(!new)>(decode: Decoder<S>, body: seq<byte>, cut: nat)
    requires 1 <= |body| <= MAX_SIZE && cut < HEADER + |body|
    ensures ReadFrame(decode, Framed(body)[..cut]).0 == Failed(if cut < HEADER then Closed else Io)
  {
    if cut >= HEADER {
      assert Framed(body)[..cut][..HEADER] == ToBytes(|body|);
      LengthRoundTrip(|body|);
    }
  }

  lemma {:induction false} WholeFrame<S(!new)>(decode: Decoder<S>, signal: S, body: seq<byte>, rest: seq<byte>,
          read: seq<S>, e: FrameError)
    requires 1 <= |body| <= MAX_SIZE && decode(body) == Some(signal) && Reads(decode, rest, read, e)
    ensures Reads(decode, Framed(body) + rest, [signal] + read, e)
  {
    assert FrameOf(decode, Framed(body) + rest, signal, body, rest);
    ReadIsOneFrame(decode, Framed(body) + rest, signal, rest);
  }

  /** Reading any prefix of written frames yields the signals whose frames are whole, in
      order; then the stream is closed if the cut falls on a frame boundary or inside a
      length header, and fails if it falls inside a body. */
  lemma {:induction false} PrefixReads<S(!new)>(encode: Encoder<S>, decode: Decoder<S>, signals: seq<S>, cut: nat)
    requires Faithful(encode, decode) && cut <= |WriteAll(encode, signals)|
    ensures var (n, left) := WholeFrames(encode, signals, cut);
            Reads(decode, WriteAll(encode, signals)[..cut], signals[..n], if left < HEADER then Closed else Io)
  {
    assert forall s :: |encode(s)| <= MAX_SIZE;
    hide *;
    if signals == [] || cut < HEADER + |encode(signals[0])| {
      TornPrefix(encode, decode, signals, cut);
    } else {
      var rest := cut - HEADER - |encode(signals[0])|;
      OneMoreFrame(encode, signals, cut);
      PrefixReads(encode, decode, signals[1..], rest);
      var (n, left) := WholeFrames(encode, signals[1..], rest);
      LaterPrefix(encode, decode, signals, cut, signals[1..][..n], if left < HEADER then Closed else Io);
    }
  }

  lemma {:induction false} OneMoreFrame<S>(encode: Encoder<S>, signals: seq<S>, cut: nat)
    requires (forall s <- signals :: |encode(s)| <= MAX_SIZE) && signals != [] && HEADER + |encode(signals[0])| <= cut
    ensures var size := HEADER + |encode(signals[0])|;
            var (n, left) := WholeFrames(encode, signals[1..], cut - size);
            && WholeFrames(encode, signals, cut) == (n + 1, left)
            && signals[..n + 1] == [signals[0]] + signals[1..][..n]
            && |WriteAll(encode, signals)| == size + |WriteAll(encode, signals[1..])|
  {
  }

  lemma {:induction false} TornPrefix<S(!new)>(encode: Encoder<S>, decode: Decoder<S>, signals: seq<S>, cut: nat)
    requires Faithful(encode, decode) && cut <= |WriteAll(encode, signals)|
    requires signals == [] || cut < HEADER + |encode(signals[0])|
    ensures Reads(decode, WriteAll(encode, signals)[..cut], [], if cut < HEADER then Closed else Io)
  {
    if signals != [] {
      var body := encode(signals[0]);
      var torn := Framed(body)[..cut];
      assert WriteAll(encode, signals)[..cut] == torn;
      TornFrame(decode, body, cut);
      hide WriteAll, Framed, ReadFrame;
      assert ReadAll(decode, torn) == ([], if cut < HEADER then Closed else Io);
    }
  }

  lemma {:induction false} LaterPrefix<S(!new)>(encode: Encoder<S>, decode: Decoder<S>, signals: seq<S>, cut: nat,
          read: seq<S>, e: FrameError)
    requires Faithful(encode, decode) && signals != []
    requires HEADER + |encode(signals[0])| <= cut <= |WriteAll(encode, signals)|
    requires Reads(decode, WriteAll(encode, signals[1..])[..cut - HEADER - |encode(signals[0])|], read, e)
    ensures Reads(decode, WriteAll(encode, signals)[..cut], [signals[0]] + read, e)
  {
    var body := encode(signals[0]);
    var rest := WriteAll(encode, signals[1..]);
    var later := rest[..cut - HEADER - |body|];
    assert WriteAll(encode, signals)[..cut] == Framed(body) + later;
    WholeFrame(decode, signals[0], body, later, read, e);
  }

  /** The whole stream yields every signal, then a clean end. */
  lemma {:induction false} StreamRoundTrip<S(!new)>(encode: Encoder<S>, decode: Decoder<S>, signals: seq<S>)
    requires Faithful(encode, decode)
    ensures ReadAll(decode, WriteAll(encode, signals)) == (signals, Closed)
  {
    var all := WriteAll(encode, signals);
    AllFramesAreWhole(encode, signals);
    assert all[..|all|] == all && signals[..|signals|] == signals;
    PrefixReads(encode, decode, signals, |all|);
  }

  lemma {:induction false} AllFramesAreWhole<S>(encode: Encoder<S>, signals: seq<S>)
    requires forall s <- signals :: |encode(s)| <= MAX_SIZE
    ensures WholeFrames(encode, signals, |WriteAll(encode, signals)|) == (|signals|, 0)
  {
    if signals != [] { AllFramesAreWhole(encode, signals[1..]); }
  }
}
