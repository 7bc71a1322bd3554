/** pkg/proto/codec.go: length-prefixed frames. Headers are opaque bytes here. */
module FrameCodec {
  import opened Bytes

  const MAX_FRAME := 1048576 // MaxFrameLen
  const MAX_HEADER := 65535 // MaxHeaderLen
  const OVERHEAD := 3 // frameOverhead: type byte and header length

  datatype Frame = Frame(kind: byte, header: seq<byte>, payload: seq<byte>) {
    function WireLen(): nat { OVERHEAD + |header| + |payload| }
  }

  predicate Encodable(f: Frame) { |f.header| <= MAX_HEADER && f.WireLen() <= MAX_FRAME }

  function Wire(f: Frame): (bs: seq<byte>)
    ensures |bs| == 4 + f.WireLen()
  {
    U32(f.WireLen()) + [f.kind] + U16(|f.header|) + f.header + f.payload
  }

  function WireAll(fs: seq<Frame>): seq<byte> {
    if fs == [] then [] else Wire(fs[0]) + WireAll(fs[1..])
  }

  /** What io.ReadFull returns when it gets nothing, and when it gets too little. */
  datatype IoError = EOF | UnexpectedEOF

  datatype Failure =
    | Eof // io.EOF itself: a clean close between frames
    | ReadLength(wrapped: IoError)
    | ReadBody(wrapped: IoError)
    | FrameTooLarge
    | BadFrame
  {
    /** errors.Is(err, io.ErrUnexpectedEOF): the documented answer to a peer that dies inside a frame. */
    predicate DiedInside() { (ReadLength? || ReadBody?) && wrapped.UnexpectedEOF? }
  }

  datatype ReadResult = Got(frame: Frame, rest: seq<byte>) | Failed(why: Failure)

  function Decode(bs: seq<byte>): ReadResult {
    if bs == [] then Failed(Eof)
    else if |bs| < 4 then Failed(ReadLength(UnexpectedEOF))
    else
      var total := FromU32(bs[..4]);
      if total > MAX_FRAME then Failed(FrameTooLarge)
      else if total < OVERHEAD then Failed(BadFrame)
      else if |bs| < 4 + total then Failed(ReadBody(if |bs| == 4 then EOF else UnexpectedEOF))
      else DecodeBody(bs[4..4 + total], bs[4 + total..])
  }

  function DecodeBody(body: seq<byte>, rest: seq<byte>): ReadResult
    requires |body| >= OVERHEAD
  {
    var headerLen := FromU16(body[1..3]);
    if OVERHEAD + headerLen > |body| then Failed(BadFrame)
    else Got(Frame(body[0], body[OVERHEAD..OVERHEAD + headerLen], body[OVERHEAD + headerLen..]), rest)
  }

  /** Everything a connection yields before its first failure. */
  function DecodeAll(bs: seq<byte>): (seq<Frame>, Failure)
    decreases |bs|
  {
    match Decode(bs)
    case Failed(why) => ([], why)
    case Got(f, rest) =>
      DecodeShrinks(bs);
      var (fs, why) := DecodeAll(rest);
      ([f] + fs, why)
  }

  lemma DecodeShrinks(bs: seq<byte>)
    ensures Decode(bs).Got? ==> |Decode(bs).rest| < |bs|
  {
  }

  function Body(f: Frame): (b: seq<byte>)
    ensures |b| == f.WireLen()
  {
    [f.kind] + U16(|f.header|) + f.header + f.payload
  }

  lemma WireParts(f: Frame, rest: seq<byte>)
    ensures Wire(f) == U32(f.WireLen()) + Body(f)
    ensures (Wire(f) + rest)[..4] == U32(f.WireLen())
    ensures (Wire(f) + rest)[4..4 + f.WireLen()] == Body(f)
    ensures (Wire(f) + rest)[4 + f.WireLen()..] == rest
  {
    assert Wire(f) == U32(f.WireLen()) + Body(f);
  }

  lemma BodyParts(f: Frame)
    requires Encodable(f)
    ensures DecodeBody(Body(f), []) == Got(f, [])
  {
    var b, n := Body(f), |f.header|;
    assert b[1..3] == U16(n);
    assert FromU16(U16(n)) == n;
    assert b[OVERHEAD..OVERHEAD + n] == f.header;
    assert b[OVERHEAD + n..] == f.payload;
  }

  lemma DecodeWire(f: Frame, rest: seq<byte>)
    requires Encodable(f)
    ensures Decode(Wire(f) + rest) == Got(f, rest)
  {
    WireParts(f, rest);
    U32RoundTrip(f.WireLen());
    BodyParts(f);
  }

  lemma DecodeOneMore(f: Frame, rest: seq<byte>)
    requires Encodable(f)
    ensures DecodeAll(Wire(f) + rest).0 == [f] + DecodeAll(rest).0 && DecodeAll(Wire(f) + rest).1 == DecodeAll(rest).1
  {
    DecodeWire(f, rest);
  }

  /** Decoding what was encoded returns it, frame by frame, up to the clean close. */
  lemma {:induction false} RoundTrip(fs: seq<Frame>)
    requires forall i :: 0 <= i < |fs| ==> Encodable(fs[i])
    ensures DecodeAll(WireAll(fs)).0 == fs && DecodeAll(WireAll(fs)).1 == Eof
  {
    if fs != [] {
      DecodeOneMore(fs[0], WireAll(fs[1..]));
      RoundTrip(fs[1..]);
      assert [fs[0]] + fs[1..] == fs;
    }
  }

  lemma BodyAgain(body: seq<byte>, rest: seq<byte>)
    requires OVERHEAD <= |body| <= MAX_FRAME && DecodeBody(body, rest).Got?
    ensures Encodable(DecodeBody(body, rest).frame) && Body(DecodeBody(body, rest).frame) == body
  {
    var f := DecodeBody(body, rest).frame;
    var n := FromU16(body[1..3]);
    assert U16(n) == body[1..3] by {
      assert n / 0x100 == body[1] && n % 256 == body[2];
    }
    assert body == [body[0]] + body[1..3] + body[3..3 + n] + body[3 + n..];
  }

  /** Every frame the decoder returns re-encodes to exactly the bytes it consumed. */
  lemma ReEncodes(bs: seq<byte>)
    requires Decode(bs).Got?
    ensures var Got(f, rest) := Decode(bs); Encodable(f) && Wire(f) + rest == bs
  {
    var f, rest := Decode(bs).frame, Decode(bs).rest;
    var total := FromU32(bs[..4]);
    BodyAgain(bs[4..4 + total], rest);
    FromU32RoundTrip(bs[..4]);
    assert f.WireLen() == total;
    WireParts(f, rest);
    assert bs == bs[..4] + bs[4..4 + total] + bs[4 + total..];
  }

  /** So what is decoded is exactly what was encoded. */
  lemma GotIffEncoded(bs: seq<byte>, f: Frame, rest: seq<byte>)
    ensures Decode(bs) == Got(f, rest) <==> Encodable(f) && bs == Wire(f) + rest
  {
    if Decode(bs) == Got(f, rest) {
      ReEncodes(bs);
    }
    if Encodable(f) && bs == Wire(f) + rest {
      DecodeWire(f, rest);
    }
  }

  /** The layout: the length of what follows it, the type, the header's length, header, payload. */
  lemma WireLayout(f: Frame)
    requires Encodable(f)
    ensures var w, h := Wire(f), |f.header|;
      && BigEndian(w[..4]) == |w| - 4 && w[4] == f.kind && BigEndian(w[5..7]) == h
      && w[7..7 + h] == f.header && w[7 + h..] == f.payload
  {
    var w := Wire(f);
    PrefixesAreBigEndian(f.WireLen());
    PrefixesAreBigEndian(|f.header|);
    assert w[..4] == U32(f.WireLen()) && w[5..7] == U16(|f.header|);
  }

  /** Why a connection that has sent a length prefix is refused. */
  lemma RefusedIff(bs: seq<byte>)
    requires |bs| >= 4
    ensures var n := BigEndian(bs[..4]);
      && (Decode(bs) == Failed(FrameTooLarge) <==> n > MAX_FRAME)
      && (Decode(bs) == Failed(BadFrame) <==>
            n < OVERHEAD || (n <= MAX_FRAME && |bs| >= 4 + n && OVERHEAD + BigEndian(bs[5..7]) > n))
      && (Decode(bs).Failed? && Decode(bs).why.ReadBody? <==> OVERHEAD <= n <= MAX_FRAME && |bs| < 4 + n)
  {
    var n := FromU32(bs[..4]);
    FourAreBigEndian(bs[..4]);
    if OVERHEAD <= n && |bs| >= 4 + n {
      SliceOfSlice(bs, 4, 4 + n, 1, 3);
      TwoAreBigEndian(bs[5..7]);
    }
  }

  /** The same for a whole connection. */
  lemma {:induction false} ReEncodesAll(bs: seq<byte>)
    ensures WireAll(DecodeAll(bs).0) <= bs
    ensures DecodeAll(bs).1 == Eof ==> WireAll(DecodeAll(bs).0) == bs
    decreases |bs|
  {
    if Decode(bs).Got? {
      var f, rest := Decode(bs).frame, Decode(bs).rest;
      ReEncodes(bs);
      DecodeShrinks(bs);
      ReEncodesAll(rest);
      var (fs, why) := DecodeAll(rest);
      assert ([f] + fs)[1..] == fs;
      assert bs == Wire(f) + rest;
      assert bs[..|Wire(f) + WireAll(fs)|] == Wire(f) + rest[..|WireAll(fs)|];
    }
  }

  /** A frame cut short is never mistaken for another one. */
  lemma DecodeTorn(f: Frame, more: seq<byte>, n: nat)
    requires Encodable(f) && n < |Wire(f)|
    ensures Decode((Wire(f) + more)[..n]) ==
      Failed(if n == 0 then Eof else if n < 4 then ReadLength(UnexpectedEOF)
             else ReadBody(if n == 4 then EOF else UnexpectedEOF))
  {
    WireParts(f, more);
    U32RoundTrip(f.WireLen());
    if n >= 4 {
      assert (Wire(f) + more)[..n][..4] == (Wire(f) + more)[..4];
    }
  }

  /** The one place where a dying peer is reported by an error that is not the documented one. */
  lemma DiesAfterPrefix(f: Frame)
    requires Encodable(f)
    ensures Decode(Wire(f)[..4]) == Failed(ReadBody(EOF)) && !Decode(Wire(f)[..4]).why.DiedInside()
  {
    DecodeTorn(f, [], 4);
    assert Wire(f) + [] == Wire(f);
  }

  /**
   * What the frames fs, cut after n bytes, may yield: exactly the frames complete before the cut,
   * then a clean EOF if the cut is at a frame boundary and an error otherwise. That error is the
   * documented one if and only if the cut is not right after a length prefix; there it wraps a
   * plain EOF.
   */
  ghost predicate CutOk(fs: seq<Frame>, n: nat, got: seq<Frame>, why: Failure) {
    && got <= fs
    && |WireAll(got)| <= n && (|got| < |fs| ==> n < |WireAll(got)| + |Wire(fs[|got|])|)
    && (why == Eof <==> n == |WireAll(got)|)
    && (why != Eof ==> (why.DiedInside() <==> n - |WireAll(got)| != 4))
    && (why != Eof && !why.DiedInside() ==> why == ReadBody(EOF))
  }

  lemma CutOkMore(fs: seq<Frame>, n: nat, got: seq<Frame>, why: Failure, m: nat)
    requires fs != [] && CutOk(fs[1..], m, got, why) && n == m + |Wire(fs[0])|
    ensures CutOk(fs, n, [fs[0]] + got, why)
  {
    assert ([fs[0]] + got)[1..] == got;
    assert |got| < |fs[1..]| ==> fs[1..][|got|] == fs[|got| + 1];
  }

  lemma {:induction false} CutAnywhere(fs: seq<Frame>, n: nat)
    requires (forall i :: 0 <= i < |fs| ==> Encodable(fs[i])) && n <= |WireAll(fs)|
    ensures CutOk(fs, n, DecodeAll(WireAll(fs)[..n]).0, DecodeAll(WireAll(fs)[..n]).1)
  {
    if fs != [] {
      var w, more := Wire(fs[0]), WireAll(fs[1..]);
      if n < |w| {
        DecodeTorn(fs[0], more, n);
      } else {
        var m := n - |w|;
        assert WireAll(fs)[..n] == w + more[..m];
        DecodeOneMore(fs[0], more[..m]);
        CutAnywhere(fs[1..], m);
        CutOkMore(fs, n, DecodeAll(more[..m]).0, DecodeAll(more[..m]).1, m);
      }
    }
  }

  // ── The objects ─────────────────────────────────────────────────────

  /** proto.Encoder: one write per frame, through a reused buffer. */
  class Encoder {
    var written: seq<byte>
    var buf: seq<byte>

    constructor ()
      ensures written == []
    {
      written, buf := [], [];
    }

    method Write(f: Frame) returns (ok: bool)
      modifies this
      ensures ok <==> Encodable(f)
      ensures written == if ok then old(written) + Wire(f) else old(written)
    {
      buf := buf[..0];
      if |f.header| > MAX_HEADER {
        return false;
      }
      var total := f.WireLen();
      if total > MAX_FRAME {
        return false;
      }
      buf := buf + U32(total);
      buf := buf + [f.kind];
      buf := buf + U16(|f.header|);
      buf := buf + f.header;
      buf := buf + f.payload;
      assert buf == Wire(f);
      written := written + buf;
      return true;
    }
  }

  /** proto.Decoder over the bytes that will ever arrive. */
  class Decoder {
    var input: seq<byte>

    constructor (bs: seq<byte>)
      ensures input == bs
    {
      input := bs;
    }

    /** io.ReadFull. */
    method ReadFull(n: nat) returns (bs: seq<byte>, err: Option<IoError>)
      modifies this
      ensures err.None? <==> |old(input)| >= n
      ensures err.Some? ==> err.value == if old(input) == [] then EOF else UnexpectedEOF
      ensures bs == old(input)[..Min(n, |old(input)|)] && input == old(input)[|bs|..]
    {
      var k := Min(n, |input|);
      err := if |input| >= n then None else if k == 0 then Some(EOF) else Some(UnexpectedEOF);
      bs, input := input[..k], input[k..];
    }

    method Read() returns (r: ReadResult)
      modifies this
      ensures r == Decode(old(input))
      ensures r.Got? ==> input == r.rest
    {
      ghost var before := input;
      var head, err := ReadFull(4);
      if err.Some? {
        return Failed(if err.value == EOF then Eof else ReadLength(err.value));
      }
      var total := FromU32(head);
      if total > MAX_FRAME {
        return Failed(FrameTooLarge);
      }
      if total < OVERHEAD {
        return Failed(BadFrame);
      }
      var body;
      body, err := ReadFull(total);
      assert before[4..][..Min(total, |before| - 4)] == before[4..4 + |body|];
      if err.Some? {
        return Failed(ReadBody(err.value));
      }
      var headerLen := FromU16(body[1..3]);
      if OVERHEAD + headerLen > total {
        return Failed(BadFrame);
      }
      return Got(Frame(body[0], body[OVERHEAD..OVERHEAD + headerLen], body[OVERHEAD + headerLen..]), input);
    }
  }
}
