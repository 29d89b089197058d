/** The length-prefixed frame stream between Host and sidecar (vita-agent-protocol/src/lib.rs). */
module Frames {
  import opened Utf8

  const MAX_FRAME_BYTES: nat := 512 * 1024

  datatype FrameError = TruncatedLength | TruncatedBody | ZeroLength | TooLarge | InvalidUtf8

  datatype Result<+T> = Ok(value: T) | Err(error: FrameError)

  /** What one read yields: a body, a clean end, or an error. */
  datatype Read = Body(body: seq<Byte>) | End | Failed(error: FrameError)

  // ---- Big-endian length ----------------------------------------------------------------------

  /** The high half first, and in each half the high byte first. */
  function ToBeBytes(n: nat): (b: seq<Byte>)
    requires n < 0x1_0000_0000
    ensures |b| == 4
  {
    HalfToBytes(n / 0x1_0000) + HalfToBytes(n % 0x1_0000)
  }

  function HalfToBytes(n: nat): (b: seq<Byte>)
    requires n < 0x1_0000
    ensures |b| == 2 && b[0] as int * 0x100 + b[1] as int == n
  {
    [n / 0x100, n % 0x100]
  }

  function FromBeBytes(b: seq<Byte>): (n: nat)
    requires |b| == 4
    ensures n < 0x1_0000_0000
  {
    b[0] as int * 0x100_0000 + b[1] as int * 0x1_0000 + b[2] as int * 0x100 + b[3] as int
  }

  lemma LowByte(high: nat, low: nat)
    requires low < 0x100
    ensures (high * 0x100 + low) / 0x100 == high && (high * 0x100 + low) % 0x100 == low
  {
  }

  /** The length goes over the wire with its most significant byte first. */
  lemma BigEndian(n: nat)
    requires n < 0x1_0000_0000
    ensures var b := ToBeBytes(n);
            b == [n / 0x100_0000, n / 0x1_0000 % 0x100, n / 0x100 % 0x100, n % 0x100]
  {
    var high, low := n / 0x1_0000, n % 0x1_0000;
    var y, z := low / 0x100, low % 0x100;
    assert n == (high * 0x100 + y) * 0x100 + z;
    LowByte(high * 0x100 + y, z);
    LowByte(high, y);
    assert n / 0x100_0000 == high / 0x100;
  }

  lemma BeRoundTrip(n: nat)
    requires n < 0x1_0000_0000
    ensures FromBeBytes(ToBeBytes(n)) == n
  {
    var b := ToBeBytes(n);
    assert b[..2] == HalfToBytes(n / 0x1_0000) && b[2..] == HalfToBytes(n % 0x1_0000);
    assert b[0] as int * 0x100 + b[1] as int == n / 0x1_0000 && b[2] as int * 0x100 + b[3] as int == n % 0x1_0000;
  }

  lemma HalfIsUnique(x: Byte, y: Byte, n: nat)
    requires n == x as int * 0x100 + y as int
    ensures HalfToBytes(n) == [x, y]
  {
  }

  lemma BeBytesRoundTrip(b: seq<Byte>)
    requires |b| == 4
    ensures ToBeBytes(FromBeBytes(b)) == b
  {
    var high, low: nat := b[0] as int * 0x100 + b[1] as int, b[2] as int * 0x100 + b[3] as int;
    assert FromBeBytes(b) == high * 0x1_0000 + low;
    HalfIsUnique(b[0], b[1], high);
    HalfIsUnique(b[2], b[3], low);
    assert b == b[..2] + b[2..];
  }

  // ---- Frames -----------------------------------------------------------------------------------

  function EncodeFrame(body: seq<Byte>): (r: Result<seq<Byte>>)
    ensures r.Ok? <==> 0 < |body| <= MAX_FRAME_BYTES
    ensures r.Ok? ==> |r.value| == 4 + |body| && r.value[4..] == body
  {
    if body == [] then Err(ZeroLength)
    else if |body| > MAX_FRAME_BYTES then Err(TooLarge)
    else Ok(ToBeBytes(|body|) + body)
  }

  /** A body the protocol can carry. */
  predicate Carried(body: seq<Byte>) {
    0 < |body| <= MAX_FRAME_BYTES && Valid(body)
  }

  predicate AllCarried(bodies: seq<seq<Byte>>) {
    forall i :: 0 <= i < |bodies| ==> Carried(bodies[i])
  }

  /** One read of the front of a stream, and how much of it was consumed.  After an error the
      position is the one where the reader gave up. */
  function ReadFrame(s: seq<Byte>): (r: (Read, nat))
    ensures r.1 <= |s|
    ensures r.0.Body? ==> Carried(r.0.body) && r.1 == 4 + |r.0.body|
    ensures r.0.End? <==> s == []
  {
    if s == [] then (End, 0)
    else if |s| < 4 then (Failed(TruncatedLength), |s|)
    else
      var length := FromBeBytes(s[..4]);
      if length == 0 then (Failed(ZeroLength), 4)
      else if length > MAX_FRAME_BYTES then (Failed(TooLarge), 4)
      else if |s| < 4 + length then (Failed(TruncatedBody), |s|)
      else if !Valid(s[4..4 + length]) then (Failed(InvalidUtf8), 4 + length)
      else (Body(s[4..4 + length]), 4 + length)
  }

  /** What one read makes of the front of a stream, by cases: a length of four bytes, most significant
      first, between 1 and 512 KiB, and then that many bytes of UTF-8. */
  lemma ReadExactly(s: seq<Byte>)
    ensures s == [] ==> ReadFrame(s) == (End, 0)
    ensures 0 < |s| < 4 ==> ReadFrame(s) == (Failed(TruncatedLength), |s|)
    ensures |s| >= 4 ==>
              var n := s[0] as int * 16_777_216 + s[1] as int * 65_536 + s[2] as int * 256 + s[3] as int;
              ReadFrame(s) == if n == 0 then (Failed(ZeroLength), 4)
                              else if n > 524_288 then (Failed(TooLarge), 4)
                              else if |s| < 4 + n then (Failed(TruncatedBody), |s|)
                              else if Valid(s[4..4 + n]) then (Body(s[4..4 + n]), 4 + n)
                              else (Failed(InvalidUtf8), 4 + n)
  {
  }

  /** What one write makes of a body. */
  lemma EncodeExactly(body: seq<Byte>)
    ensures EncodeFrame(body) == if |body| == 0 then Err(ZeroLength)
                                 else if |body| > 524_288 then Err(TooLarge)
                                 else Ok([0, |body| / 65_536, |body| / 256 % 256, |body| % 256] + body)
  {
    if 0 < |body| <= 524_288 {
      BigEndian(|body|);
    }
  }

  /** Reading until the end or the first error. */
  function ReadAll(s: seq<Byte>): (r: (seq<seq<Byte>>, Read))
    ensures !r.1.Body?
    decreases |s|
  {
    var (read, n) := ReadFrame(s);
    if !read.Body? then ([], read)
    else
      var (bodies, end) := ReadAll(s[n..]);
      ([read.body] + bodies, end)
  }

  function EncodeAll(bodies: seq<seq<Byte>>): (s: seq<Byte>)
    requires AllCarried(bodies)
  {
    if bodies == [] then [] else EncodeFrame(bodies[0]).value + EncodeAll(bodies[1..])
  }

  lemma ReadEncoded(body: seq<Byte>, rest: seq<Byte>)
    requires Carried(body)
    ensures ReadFrame(EncodeFrame(body).value + rest) == (Body(body), 4 + |body|)
  {
    var s := EncodeFrame(body).value + rest;
    assert s[..4] == ToBeBytes(|body|);
    BeRoundTrip(|body|);
    assert s[4..4 + |body|] == body;
  }

  /** A frame cut short is a truncation error, never a partial body. */
  lemma ReadCut(body: seq<Byte>, n: nat)
    requires Carried(body) && 0 < n < 4 + |body|
    ensures ReadFrame(EncodeFrame(body).value[..n]).0 == Failed(if n < 4 then TruncatedLength else TruncatedBody)
  {
    var s := EncodeFrame(body).value[..n];
    if n >= 4 {
      assert s[..4] == ToBeBytes(|body|);
      BeRoundTrip(|body|);
    }
  }

  lemma ReadAllStep(s: seq<Byte>)
    requires ReadFrame(s).0.Body?
    ensures ReadAll(s) == ([ReadFrame(s).0.body] + ReadAll(s[ReadFrame(s).1..]).0, ReadAll(s[ReadFrame(s).1..]).1)
  {
  }

  lemma ReadAllEnds(s: seq<Byte>)
    requires !ReadFrame(s).0.Body?
    ensures ReadAll(s) == ([], ReadFrame(s).0)
  {
  }

  lemma OneMore(bodies: seq<seq<Byte>>, body: seq<Byte>, rest: seq<seq<Byte>>)
    ensures bodies + ([body] + rest) == (bodies + [body]) + rest
  {
  }

  lemma FrameFirst(bodies: seq<seq<Byte>>, rest: seq<Byte>)
    requires AllCarried(bodies) && bodies != []
    ensures EncodeAll(bodies) + rest == EncodeFrame(bodies[0]).value + (EncodeAll(bodies[1..]) + rest)
    ensures AllCarried(bodies[1..])
  {
  }

  /** Reading after a list of encoded frames starts with exactly that list. */
  lemma {:induction false} ReadAfter(bodies: seq<seq<Byte>>, rest: seq<Byte>)
    requires AllCarried(bodies)
    ensures ReadAll(EncodeAll(bodies) + rest) == (bodies + ReadAll(rest).0, ReadAll(rest).1)
  {
    hide ReadAll, ReadFrame, Valid;
    if bodies == [] {
      assert EncodeAll(bodies) + rest == rest;
      assert bodies + ReadAll(rest).0 == ReadAll(rest).0;
    } else {
      var frame, more := EncodeFrame(bodies[0]).value, EncodeAll(bodies[1..]) + rest;
      FrameFirst(bodies, rest);
      FrameThenMore(bodies[0], more);
      ReadAfter(bodies[1..], rest);
      OneMore([], bodies[0], bodies[1..] + ReadAll(rest).0);
      assert bodies + ReadAll(rest).0 == [bodies[0]] + (bodies[1..] + ReadAll(rest).0);
    }
  }

  lemma FrameThenMore(body: seq<Byte>, more: seq<Byte>)
    requires Carried(body)
    ensures ReadAll(EncodeFrame(body).value + more) == ([body] + ReadAll(more).0, ReadAll(more).1)
  {
    hide ReadAll, ReadFrame, Valid;
    var frame := EncodeFrame(body).value;
    ReadEncoded(body, more);
    assert (frame + more)[4 + |body|..] == more;
    ReadAllStep(frame + more);
  }

  /** Main result: a stream reads cleanly, as `bodies`, exactly when it is the encoding of `bodies`
      and each of them can be carried.  So encoding and reading are inverse to each other. */
  lemma {:induction false} StreamRoundTrip(s: seq<Byte>, bodies: seq<seq<Byte>>)
    ensures ReadAll(s) == (bodies, End) <==>
              AllCarried(bodies) && s == EncodeAll(bodies)
  {
    if AllCarried(bodies) && s == EncodeAll(bodies) {
      ReadAfter(bodies, []);
      assert s + [] == s && bodies + [] == bodies;
    } else if ReadAll(s) == (bodies, End) {
      CleanReadIsEncoding(s);
    }
  }

  lemma {:induction false} CleanReadIsEncoding(s: seq<Byte>)
    requires ReadAll(s).1.End?
    ensures AllCarried(ReadAll(s).0) && s == EncodeAll(ReadAll(s).0)
    decreases |s|
  {
    hide ReadFrame, Valid;
    var (read, n) := ReadFrame(s);
    if read.Body? {
      ReadAllStep(s);
      CleanReadIsEncoding(s[n..]);
      assert ReadAll(s).0[1..] == ReadAll(s[n..]).0;
      FrontIsFrame(s);
      assert s == s[..n] + s[n..];
    }
  }

  lemma FrontIsFrame(s: seq<Byte>)
    requires ReadFrame(s).0.Body?
    ensures s[..ReadFrame(s).1] == EncodeFrame(ReadFrame(s).0.body).value
  {
    hide Valid;
    BeBytesRoundTrip(s[..4]);
  }

  /** Main result: the stream encoding is injective. */
  lemma EncodingIsInjective(a: seq<seq<Byte>>, b: seq<seq<Byte>>)
    requires AllCarried(a) && AllCarried(b)
    requires EncodeAll(a) == EncodeAll(b)
    ensures a == b
  {
    StreamRoundTrip(EncodeAll(a), a);
    StreamRoundTrip(EncodeAll(a), b);
  }

  /** Main result: a stream cut inside a frame yields all earlier frames and then a truncation error. */
  lemma CutStream(first: seq<seq<Byte>>, body: seq<Byte>, n: nat)
    requires AllCarried(first) && Carried(body) && 0 < n < 4 + |body|
    ensures ReadAll(EncodeAll(first) + EncodeFrame(body).value[..n])
              == (first, Failed(if n < 4 then TruncatedLength else TruncatedBody))
  {
    ReadAfter(first, EncodeFrame(body).value[..n]);
    ReadCut(body, n);
    assert first + [] == first;
  }

  // ---- Serving a stream ---------------------------------------------------------------------------

  /** Bodies are decoded, checked and dispatched one by one until one is refused; whether a body is
      refused may depend on everything served before it. */
  function Serve(served: seq<seq<Byte>>, bodies: seq<seq<Byte>>, handles: seq<seq<Byte>> -> bool): (r: (seq<seq<Byte>>, bool))
    decreases |bodies|
  {
    if bodies == [] then (served, false)
    else if handles(served + [bodies[0]]) then Serve(served + [bodies[0]], bodies[1..], handles)
    else (served, true)
  }

  /** Main result: what is served is the longest prefix of the bodies each of which is handled. */
  lemma {:induction false} ServesLongestPrefix(served: seq<seq<Byte>>, bodies: seq<seq<Byte>>, handles: seq<seq<Byte>> -> bool)
    ensures var (all, refused) := Serve(served, bodies, handles);
            && served <= all <= served + bodies
            && (forall n :: |served| < n <= |all| ==> handles(all[..n]))
            && (refused <==> all != served + bodies)
            && (refused ==> !handles((served + bodies)[..|all| + 1]))
    decreases |bodies|
  {
    if bodies == [] {
      assert served + bodies == served;
    } else {
      var next := served + [bodies[0]];
      assert next + bodies[1..] == served + bodies;
      if handles(next) {
        ServesLongestPrefix(next, bodies[1..], handles);
        var all := Serve(served, bodies, handles).0;
        assert all[..|next|] == next;
      } else {
        assert (served + bodies)[..|served| + 1] == next;
        assert |served + bodies| > |served|;
      }
    }
  }

  // ---- The imperative reader and writer ---------------------------------------------------------

  /** Fills a frame buffer: length first, then the body. */
  method WriteFrame(body: seq<Byte>) returns (r: Result<seq<Byte>>)
    ensures r == EncodeFrame(body)
  {
    if |body| == 0 {
      return Err(ZeroLength);
    }
    if |body| > MAX_FRAME_BYTES {
      return Err(TooLarge);
    }
    var frame := ToBeBytes(|body|);
    frame := frame + body;
    return Ok(frame);
  }

  class FrameReader {
    const stream: seq<Byte>
    var position: nat

    predicate Inside()
      reads this
    {
      position <= |stream|
    }

    constructor (stream: seq<Byte>)
      ensures this.stream == stream && position == 0
    {
      this.stream, position := stream, 0;
    }

    /** `read_exact`: all of the buffer, or an error at the end of the stream. */
    method ReadExact(n: nat) returns (bytes: seq<Byte>, ok: bool)
      requires Inside()
      modifies this
      ensures Inside() && ok == (|stream| - old(position) >= n)
      ensures ok ==> position == old(position) + n && bytes == stream[old(position)..position]
      ensures !ok ==> position == |stream|
    {
      if |stream| - position < n {
        position := |stream|;
        return [], false;
      }
      bytes, ok := stream[position..position + n], true;
      position := position + n;
    }

    method Read() returns (read: Read)
      requires Inside()
      modifies this
      ensures Inside()
      ensures (read, position - old(position)) == ReadFrame(stream[old(position)..])
    {
      ghost var start, s := position, stream[position..];
      var first, more := ReadExact(1);
      if !more {
        return End;
      }
      var tail, whole := ReadExact(3);
      if !whole {
        return Failed(TruncatedLength);
      }
      assert first + tail == s[..4];
      var length := FromBeBytes(first + tail);
      if length == 0 {
        return Failed(ZeroLength);
      }
      if length > MAX_FRAME_BYTES {
        return Failed(TooLarge);
      }
      var body, complete := ReadExact(length);
      if !complete {
        return Failed(TruncatedBody);
      }
      assert body == s[4..4 + length];
      if !Valid(body) {
        return Failed(InvalidUtf8);
      }
      return Body(body);
    }

    /** The reader loop: every frame up to the end of the stream or the first error. */
    method ReadToEnd() returns (bodies: seq<seq<Byte>>, end: Read)
      requires Inside()
      modifies this
      ensures Inside() && (bodies, end) == ReadAll(stream[old(position)..])
    {
      hide ReadAll, ReadFrame;
      bodies := [];
      assert bodies + ReadAll(stream[position..]).0 == ReadAll(stream[position..]).0;
      while true
        invariant Inside()
        invariant ReadAll(stream[old(position)..])
                    == (bodies + ReadAll(stream[position..]).0, ReadAll(stream[position..]).1)
        decreases |stream| - position
      {
        ghost var s := stream[position..];
        var read := Read();
        assert stream[position..] == s[ReadFrame(s).1..];
        if !read.Body? {
          ReadAllEnds(s);
          assert bodies + [] == bodies;
          return bodies, read;
        }
        ReadAllStep(s);
        OneMore(bodies, read.body, ReadAll(stream[position..]).0);
        bodies := bodies + [read.body];
      }
    }

    /** The reader loop as a whole: it also ends at the first body that is not handled. */
    method ServeToEnd(handles: seq<seq<Byte>> -> bool) returns (served: seq<seq<Byte>>, refused: bool)
      requires Inside()
      modifies this
      ensures Inside() && (served, refused) == Serve([], ReadAll(stream[old(position)..]).0, handles)
    {
      hide ReadAll, ReadFrame;
      served := [];
      while true
        invariant Inside()
        invariant Serve([], ReadAll(stream[old(position)..]).0, handles)
                    == Serve(served, ReadAll(stream[position..]).0, handles)
        decreases |stream| - position
      {
        ghost var s := stream[position..];
        var read := Read();
        assert stream[position..] == s[ReadFrame(s).1..];
        if !read.Body? {
          ReadAllEnds(s);
          return served, false;
        }
        ReadAllStep(s);
        ghost var rest := ReadAll(stream[position..]).0;
        assert ReadAll(s).0 == [read.body] + rest && ([read.body] + rest)[1..] == rest;
        if !handles(served + [read.body]) {
          return served, true;
        }
        served := served + [read.body];
      }
    }
  }
}
