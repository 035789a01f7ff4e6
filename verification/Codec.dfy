/**
 suduo/bench/zeromq/codec.h: messages behind a four-byte big-endian length.

 `Decode` says what the receiving loop makes of a byte string.  Soundness and completeness
 tie it to the only reading a byte string has as frames followed by an unfinished rest, and
 chunk independence says that it does not matter how the bytes arrived.
 */
module Codec {
  import opened Bytes
  import opened Endian
  import opened Buffers
  import Chunks

  type Message = seq<byte>

  const HEADER_LEN: nat := 4
  const MAX_MESSAGE: nat := 65536

  lemma Pow256Values()
    ensures Pow256(1) == 256 && Pow256(2) == 65536
    ensures Pow256(3) == 0x100_0000 && Pow256(4) == 0x1_0000_0000
  {
    assert Pow256(1) == 256 * Pow256(0);
    assert Pow256(2) == 256 * Pow256(1);
    assert Pow256(3) == 256 * Pow256(2);
    assert Pow256(4) == 256 * Pow256(3);
  }

  /** `static_cast<int32_t>` of a size. */
  function ToInt32(n: nat): (x: int)
    ensures SignedRange(x, HEADER_LEN)
  {
    ToSigned(n % Pow256(HEADER_LEN), HEADER_LEN)
  }

  /** What `send` puts on the connection for one message. */
  function Frame(m: Message): seq<byte> {
    EncodeInt(ToInt32(|m|), HEADER_LEN) + m
  }

  function Frames(ms: seq<Message>): seq<byte> {
    if ms == [] then [] else Frame(ms[0]) + Frames(ms[1..])
  }

  ghost predicate AllShort(ms: seq<Message>) {
    forall m <- ms :: |m| <= MAX_MESSAGE
  }

  /** The signed 32-bit length at the front. */
  function Header(b: seq<byte>): int
    requires |b| >= HEADER_LEN
  {
    var u: int := b[0] as int * 0x100_0000 + b[1] as int * 0x1_0000 + b[2] as int * 0x100 + b[3] as int;
    if u < 0x8000_0000 then u else u - 0x1_0000_0000
  }

  lemma HeaderIsInt(b: seq<byte>)
    requires |b| >= HEADER_LEN
    ensures Header(b) == DecodeInt(b[..HEADER_LEN])
  {
    var h := b[..HEADER_LEN];
    assert h[..3][..2] == h[..2] && h[..2][..1] == h[..1] && h[..1][..0] == [];
    assert FromBigEndian(h[..1]) == b[0];
    assert FromBigEndian(h[..2]) == b[0] as int * 0x100 + b[1] as int;
    assert FromBigEndian(h[..3]) == b[0] as int * 0x1_0000 + b[1] as int * 0x100 + b[2] as int;
    Pow256Values();
  }

  predicate BadHeader(b: seq<byte>) {
    |b| >= HEADER_LEN && !(0 <= Header(b) <= MAX_MESSAGE)
  }

  predicate HasFrame(b: seq<byte>) {
    |b| >= HEADER_LEN && 0 <= Header(b) <= MAX_MESSAGE && |b| >= HEADER_LEN + Header(b)
  }

  /** The first frame's message, and what follows that frame. */
  function Body(b: seq<byte>): Message
    requires HasFrame(b)
  {
    b[HEADER_LEN..HEADER_LEN + Header(b)]
  }

  function After(b: seq<byte>): (rest: seq<byte>)
    requires HasFrame(b)
    ensures |rest| < |b|
  {
    b[HEADER_LEN + Header(b)..]
  }

  /** Neither a whole frame nor an invalid header at the front. */
  predicate Unfinished(b: seq<byte>) {
    !HasFrame(b) && !BadHeader(b)
  }

  datatype Decoded = Decoded(msgs: seq<Message>, rest: seq<byte>, bad: bool)

  function Decode(b: seq<byte>): Decoded
    decreases |b|
  {
    if HasFrame(b) then
      var d := Decode(After(b));
      d.(msgs := [Body(b)] + d.msgs)
    else Decoded([], b, BadHeader(b))
  }

  /** The decoding of a byte string of which some messages are delivered and `b` is left. */
  ghost function Resumed(early: seq<Message>, b: seq<byte>): Decoded {
    var d := Decode(b);
    Decoded(early + d.msgs, d.rest, d.bad)
  }

  lemma AsResumed(b: seq<byte>)
    ensures Resumed([], b) == Decode(b)
  {
  }

  lemma ResumeStep(early: seq<Message>, b: seq<byte>)
    requires HasFrame(b)
    ensures Resumed(early + [Body(b)], After(b)) == Resumed(early, b)
  {
    var d := Decode(After(b));
    assert early + [Body(b)] + d.msgs == early + ([Body(b)] + d.msgs);
  }

  class LengthHeaderCodec {
    /** The messages handed to the message callback, and the calls of `shutdown`. */
    var emitted: seq<Message>
    var shutdowns: nat

    constructor ()
      ensures emitted == [] && shutdowns == 0
    {
      emitted := [];
      shutdowns := 0;
    }

    method OnMessage(host: ByteOrder, buf: Buffer)
      requires buf.Valid()
      modifies this, buf
      ensures buf.Valid() && buf.data == old(buf.data)
      ensures var d := Decode(old(buf.V()).readable);
        && emitted == old(emitted) + d.msgs
        && buf.V().readable == d.rest
        && shutdowns == old(shutdowns) + (if d.bad then 1 else 0)
    {
      hide Header, Body, After;
      ghost var front := buf.V().readable;
      ghost var early: seq<Message> := [];
      ghost var all := Decode(front);
      AsResumed(front);
      while buf.ReadableBytes() >= HEADER_LEN
        invariant buf.Valid() && buf.data == old(buf.data)
        invariant emitted == old(emitted) + early && shutdowns == old(shutdowns)
        invariant front == buf.V().readable && Resumed(early, front) == all
        decreases |front|
      {
        var taken := Turn(host, buf);
        if !taken {
          break;
        }
        ResumeStep(early, front);
        early := early + [Body(front)];
        front := buf.V().readable;
      }
    }

    /** The body of the loop; false where the source breaks out of it. */
    method Turn(host: ByteOrder, buf: Buffer) returns (taken: bool)
      requires buf.Valid() && |buf.V().readable| >= HEADER_LEN
      modifies this, buf
      ensures buf.Valid() && buf.data == old(buf.data)
      ensures taken <==> HasFrame(old(buf.V().readable))
      ensures taken ==> emitted == old(emitted) + [Body(old(buf.V().readable))]
      ensures taken ==> buf.V().readable == After(old(buf.V().readable)) && shutdowns == old(shutdowns)
      ensures !taken ==> emitted == old(emitted) && buf.V() == old(buf.V())
      ensures !taken ==> shutdowns == old(shutdowns) + if BadHeader(buf.V().readable) then 1 else 0
    {
      var len := PeekLength(host, buf);
      if len > MAX_MESSAGE || len < 0 {
        shutdowns := shutdowns + 1;
        taken := false;
      } else if buf.ReadableBytes() >= len + HEADER_LEN {
        var message := TakeFrame(buf, len);
        emitted := emitted + [message];
        taken := true;
      } else {
        taken := false;
      }
    }

    static method PeekLength(host: ByteOrder, buf: Buffer) returns (len: int)
      requires buf.Valid() && |buf.V().readable| >= HEADER_LEN
      ensures len == Header(buf.V().readable)
    {
      len := buf.PeekInt(host, HEADER_LEN);
      HeaderIsInt(buf.V().readable);
    }

    /** Lines 33 to 36 without the callback: drop the header, copy the message, drop it. */
    static method TakeFrame(buf: Buffer, len: nat) returns (message: Message)
      requires buf.Valid() && HasFrame(buf.V().readable) && len == Header(buf.V().readable)
      modifies buf
      ensures buf.Valid() && buf.data == old(buf.data)
      ensures message == Body(old(buf.V().readable))
      ensures buf.V().readable == After(old(buf.V().readable))
    {
      ghost var front := buf.V().readable;
      buf.Retrieve(HEADER_LEN);
      assert buf.V().readable == front[HEADER_LEN..];
      var text := buf.ToString();
      message := text[..len];
      buf.Retrieve(len);
      assert buf.V().readable == front[HEADER_LEN..][len..];
    }

    /** Builds the frame in a fresh buffer; what `conn->send` receives. */
    method Send(host: ByteOrder, message: Message) returns (payload: seq<byte>)
      ensures payload == Frame(message)
    {
      var buf := new Buffer();
      buf.Append(message);
      assert buf.V().readable == message;
      var len := ToInt32(|message|);
      buf.PrependInt(host, len, HEADER_LEN);
      payload := buf.RetrieveAllAsString();
    }
  }

  lemma FrameHeader(m: Message, more: seq<byte>)
    requires |m| <= MAX_MESSAGE
    ensures |Frame(m)| == HEADER_LEN + |m| && Header(Frame(m) + more) == |m|
  {
    Pow256Values();
    assert ToInt32(|m|) == |m|;
    DecodeEncodeInt(|m|, HEADER_LEN);
    HeaderIsInt(Frame(m) + more);
    assert (Frame(m) + more)[..HEADER_LEN] == EncodeInt(ToInt32(|m|), HEADER_LEN);
  }

  lemma FrontFrame(m: Message, more: seq<byte>)
    requires |m| <= MAX_MESSAGE
    ensures var b := Frame(m) + more;
      HasFrame(b) && Body(b) == m && After(b) == more
  {
    FrameHeader(m, more);
  }

  lemma FrameOfBody(b: seq<byte>)
    requires HasFrame(b)
    ensures b == Frame(Body(b)) + After(b) && |Body(b)| <= MAX_MESSAGE
  {
    EncodeDecodeInt(b[..HEADER_LEN]);
    HeaderIsInt(b);
    Pow256Values();
    assert ToInt32(|Body(b)|) == Header(b);
  }

  /** `d` is the one way to read `b`: frames, then a bad header or an unfinished frame. */
  ghost predicate Reads(b: seq<byte>, d: Decoded) {
    && b == Frames(d.msgs) + d.rest
    && AllShort(d.msgs)
    && d.bad == BadHeader(d.rest)
    && !HasFrame(d.rest)
  }

  lemma ReadsOneMore(m: Message, after: seq<byte>, d: Decoded)
    requires |m| <= MAX_MESSAGE && Reads(after, d)
    ensures Reads(Frame(m) + after, d.(msgs := [m] + d.msgs))
  {
    FramesCons(m, d.msgs);
    assert Frame(m) + (Frames(d.msgs) + d.rest) == Frame(m) + Frames(d.msgs) + d.rest;
  }

  /** Soundness: the input is the frames of what was delivered, then what is left. */
  lemma {:induction false} DecodeSound(b: seq<byte>)
    ensures Reads(b, Decode(b))
    decreases |b|
  {
    if HasFrame(b) {
      DecodeSound(After(b));
      FrameOfBody(b);
      ReadsOneMore(Body(b), After(b), Decode(After(b)));
    } else {
      assert Frames([]) + b == b;
    }
  }

  /**
   What is left over: a length field outside 0 to 65536, which is what `bad` says, or fewer bytes
   than a field, or fewer than the field announces.
   */
  lemma RestIsUnfinished(b: seq<byte>)
    ensures var d := Decode(b);
      && (d.bad <==> |d.rest| >= 4 && !(0 <= DecodeInt(d.rest[..4]) <= 65536))
      && (!d.bad ==> |d.rest| < 4 || |d.rest| < 4 + DecodeInt(d.rest[..4]))
  {
    DecodeSound(b);
    var rest := Decode(b).rest;
    if |rest| >= 4 {
      HeaderIsInt(rest);
    }
  }

  /** Completeness: there is no other way to read it. */
  lemma {:induction false} DecodeComplete(b: seq<byte>, d: Decoded)
    requires Reads(b, d)
    ensures d == Decode(b)
    decreases |d.msgs|
  {
    hide Header, Frame;
    if d.msgs == [] {
      assert Frames([]) + d.rest == d.rest;
    } else {
      var m := d.msgs[0];
      var later := d.(msgs := d.msgs[1..]);
      var after := Frames(later.msgs) + d.rest;
      assert b == Frame(m) + after;
      FrontFrame(m, after);
      DecodeComplete(after, later);
    }
  }

  lemma FramesCons(m: Message, ms: seq<Message>)
    ensures Frames([m] + ms) == Frame(m) + Frames(ms)
  {
    assert ([m] + ms)[1..] == ms;
  }

  lemma HeaderStays(b: seq<byte>, more: seq<byte>)
    ensures BadHeader(b) ==> BadHeader(b + more) && !HasFrame(b + more)
    ensures HasFrame(b) ==>
      HasFrame(b + more) && Body(b + more) == Body(b) && After(b + more) == After(b) + more
  {
  }

  /** Chunk independence: decoding what is left together with the next bytes continues the decoding. */
  lemma {:induction false} DecodeChunk(a: seq<byte>, b: seq<byte>)
    ensures var d := Decode(a); var next := Decode(d.rest + b);
      Decode(a + b) == Decoded(d.msgs + next.msgs, next.rest, next.bad)
    decreases |a|
  {
    if HasFrame(a) {
      var later := After(a);
      DecodeChunk(later, b);
      DecodeMore(a, b);
      ConcatAssociative([Body(a)], Decode(later).msgs, Decode(Decode(later).rest + b).msgs);
    } else {
      assert [] + Decode(a + b).msgs == Decode(a + b).msgs;
    }
  }

  lemma DecodeMore(a: seq<byte>, b: seq<byte>)
    requires HasFrame(a)
    ensures Decode(a + b) == Decode(After(a) + b).(msgs := [Body(a)] + Decode(After(a) + b).msgs)
  {
    HeaderStays(a, b);
  }

  /** The receiving end: `OnMessage` once per arriving chunk. */
  function Feed(d: Decoded, chunk: seq<byte>): Decoded {
    var next := Decode(d.rest + chunk);
    Decoded(d.msgs + next.msgs, next.rest, next.bad)
  }

  lemma FeedContinues(a: seq<byte>, chunk: seq<byte>)
    ensures Feed(Decode(a), chunk) == Decode(a + chunk)
  {
    DecodeChunk(a, chunk);
  }

  /** However a byte string is cut into chunks, the receiver ends as if it had come whole. */
  lemma ChunksDoNotMatter(chunks: seq<seq<byte>>)
    ensures Chunks.FeedAll(Feed, Decode([]), chunks) == Decode(Flatten(chunks))
  {
    forall a: seq<byte>, chunk: seq<byte> ensures Feed(Decode(a), chunk) == Decode(a + chunk) {
      FeedContinues(a, chunk);
    }
    Chunks.ChunksDoNotMatter(Feed, Decode, [], chunks);
    assert [] + Flatten(chunks) == Flatten(chunks);
  }

  lemma FrameUnfinished(m: Message, p: seq<byte>)
    requires |m| <= MAX_MESSAGE && p <= Frame(m) && |p| < |Frame(m)|
    ensures Unfinished(p)
  {
    FrameHeader(m, []);
    assert Frame(m) + [] == Frame(m);
  }

  /** Having seen only a beginning of the frames, the receiver has delivered a beginning of the list. */
  lemma {:induction false} DecodePrefix(ms: seq<Message>, p: seq<byte>)
    requires AllShort(ms) && p <= Frames(ms)
    ensures !Decode(p).bad && Decode(p).msgs <= ms
    decreases |ms|
  {
    if ms == [] {
      assert p == [];
    } else {
      var first := Frame(ms[0]);
      PrefixOfConcat(p, first, Frames(ms[1..]));
      if |p| >= |first| {
        var later := p[|first|..];
        DecodePrefix(ms[1..], later);
        FrontFrame(ms[0], later);
      } else {
        FrameUnfinished(ms[0], p);
      }
    }
  }

  /** The length limit is exact: a message is delivered intact iff it has at most 65536 bytes. */
  lemma FrameDeliveredIff(m: Message)
    ensures Decode(Frame(m)).msgs == [m] <==> |m| <= MAX_MESSAGE
  {
    if |m| <= MAX_MESSAGE {
      FrontFrame(m, []);
      assert Frame(m) + [] == Frame(m);
    } else {
      var b := Frame(m);
      HeaderIsInt(b);
      assert b[..HEADER_LEN] == EncodeInt(ToInt32(|m|), HEADER_LEN);
      DecodeEncodeInt(ToInt32(|m|), HEADER_LEN);
      if HasFrame(b) {
        assert Decode(b).msgs[0] == Body(b) != m;
      }
    }
  }

  /** And a list of messages is delivered intact iff all of them have. */
  lemma FramesDeliveredIff(ms: seq<Message>)
    ensures Decode(Frames(ms)).msgs == ms <==> AllShort(ms)
    ensures AllShort(ms) ==> Decode(Frames(ms)) == Decoded(ms, [], false)
  {
    DecodeSound(Frames(ms));
    if AllShort(ms) {
      assert Frames(ms) + [] == Frames(ms);
      DecodeComplete(Frames(ms), Decoded(ms, [], false));
    }
  }
}
