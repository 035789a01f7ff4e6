/**
 suduo/bench/http/HttpServer.cpp over the life of a connection: `onMessage` answers at most
 one request each time bytes arrive, however many are there.
 */
module HttpSessions {
  import opened Bytes
  import opened Buffers
  import opened Http

  datatype Served = Served(requests: seq<Request>, last: Parsed)

  /** All whole requests in `b`, and where parsing stops behind them. */
  function ServeFrom(state: ParseState, r: Request, b: seq<byte>): (s: Served)
    requires Running(state)
    ensures s.last.ok ==> Running(s.last.state)
    decreases |b|
  {
    var p := Parse(state, r, b);
    ParseConsumes(state, r, b);
    if p.state.GotAll? then
      var s := ServeFrom(ExpectRequestLine, EMPTY_REQUEST, p.rest);
      s.(requests := [p.request] + s.requests)
    else Served([], p)
  }

  lemma {:induction false} ParseConsumes(state: ParseState, r: Request, b: seq<byte>)
    requires Running(state)
    ensures var p := Parse(state, r, b);
      && (p.state.GotAll? ==> p.ok && |p.rest| < |b|)
      && (!p.state.GotAll? ==> Running(p.state))
    decreases |b|
  {
    if FirstCrlf(b).Some? {
      var k := FirstCrlf(b).value;
      var line := OneLine(state, r, b[..k]);
      if line.Continue? {
        ParseConsumes(ExpectHeaders, line.r, b[k + 2..]);
      }
    }
  }

  /** More bytes behind what has been served. */
  function Extended(s: Served, b: seq<byte>): Served
    requires s.last.ok ==> Running(s.last.state)
  {
    if s.last.ok then
      var more := ServeFrom(s.last.state, s.last.request, s.last.rest + b);
      Served(s.requests + more.requests, more.last)
    else s.(last := s.last.(rest := s.last.rest + b))
  }

  lemma {:induction false} ServeChunk(state: ParseState, r: Request, a: seq<byte>, b: seq<byte>)
    requires Running(state)
    ensures ServeFrom(state, r, a + b) == Extended(ServeFrom(state, r, a), b)
    decreases |a|
  {
    hide Parse;
    var p := Parse(state, r, a);
    ParseChunk(state, r, a, b);
    ParseConsumes(state, r, a);
    ParseConsumes(state, r, a + b);
    if p.state.GotAll? {
      ServeChunk(ExpectRequestLine, EMPTY_REQUEST, p.rest, b);
      var s := ServeFrom(ExpectRequestLine, EMPTY_REQUEST, p.rest);
      if s.last.ok {
        ConcatAssociative([p.request], s.requests, ServeFrom(s.last.state, s.last.request, s.last.rest + b).requests);
      }
    } else if p.ok {
      var more := ServeFrom(p.state, p.request, p.rest + b);
      assert [] + more.requests == more.requests;
    }
  }

  // The server's side of a connection.

  /** Where its parser is, and what it has answered. */
  datatype Session = Session(parser: Parsed, answered: seq<Request>)

  const OPENED := Session(START, [])

  /** What is left after a call, and the request it answers. */
  function Received(h: Session, chunk: seq<byte>): Session
    requires h.parser.Waiting()
  {
    var p := Parse(h.parser.state, h.parser.request, h.parser.rest + chunk);
    if p.state.GotAll? then Session(START.(rest := p.rest), h.answered + [p.request])
    else Session(p, h.answered)
  }

  /** The whole requests that are there and have not been answered. */
  function LeftWaiting(h: Session): Served
    requires h.parser.Waiting()
  {
    ServeFrom(h.parser.state, h.parser.request, h.parser.rest)
  }

  /** `answered`, then what is left waiting, is all there is in the bytes received. */
  ghost predicate Tracks(h: Session, received: seq<byte>) {
    h.parser.Waiting() &&
    var all := ServeFrom(ExpectRequestLine, EMPTY_REQUEST, received);
    all == Served(h.answered + LeftWaiting(h).requests, LeftWaiting(h).last)
  }

  lemma WaitingParsesToItself(p: Parsed)
    requires p.Waiting() && FirstCrlf(p.rest).None?
    ensures ServeFrom(p.state, p.request, p.rest) == Served([], p)
  {
  }

  /** More bytes, seen by the whole and by the session. */
  lemma TracksMore(h: Session, received: seq<byte>, chunk: seq<byte>)
    requires Tracks(h, received)
    ensures var there := ServeFrom(h.parser.state, h.parser.request, h.parser.rest + chunk);
      ServeFrom(ExpectRequestLine, EMPTY_REQUEST, received + chunk)
        == Served(h.answered + there.requests, there.last)
  {
    hide ServeFrom;
    var left := LeftWaiting(h);
    ServeChunk(ExpectRequestLine, EMPTY_REQUEST, received, chunk);
    ServeChunk(h.parser.state, h.parser.request, h.parser.rest, chunk);
    if left.last.ok {
      ConcatAssociative(h.answered, left.requests,
        ServeFrom(left.last.state, left.last.request, left.last.rest + chunk).requests);
    }
  }

  /** One call of `onMessage`: one request is answered, the oldest, iff one is there. */
  lemma ReceivedTracks(h: Session, received: seq<byte>, chunk: seq<byte>)
    requires Tracks(h, received)
    ensures var all := ServeFrom(ExpectRequestLine, EMPTY_REQUEST, received + chunk);
      var g := Received(h, chunk);
      && g.answered <= all.requests
      && |g.answered| == (if |all.requests| > |h.answered| then |h.answered| + 1 else |h.answered|)
      && (g.parser.Waiting() ==> Tracks(g, received + chunk))
      && (!g.parser.Waiting() ==> g.parser == all.last && !all.last.ok && all.requests == g.answered)
  {
    TracksMore(h, received, chunk);
    var b := h.parser.rest + chunk;
    var p := Parse(h.parser.state, h.parser.request, b);
    var g := Received(h, chunk);
    ParseConsumes(h.parser.state, h.parser.request, b);
    hide Parse;
    if p.state.GotAll? {
      var later := ServeFrom(ExpectRequestLine, EMPTY_REQUEST, p.rest);
      ConcatAssociative(h.answered, [p.request], later.requests);
    } else {
      assert h.answered + [] == h.answered;
      if p.ok {
        WaitingParsesToItself(p);
      }
    }
  }

  /** The session after some chunks; a bad request ends it. */
  function Run(h: Session, chunks: seq<seq<byte>>): Session
    requires h.parser.Waiting()
    decreases |chunks|
  {
    if chunks == [] then h
    else
      var g := Received(h, chunks[0]);
      if g.parser.Waiting() then Run(g, chunks[1..]) else g
  }

  lemma {:induction false} RunTracks(h: Session, received: seq<byte>, chunks: seq<seq<byte>>)
    requires Tracks(h, received)
    requires Run(h, chunks).parser.Waiting()
    ensures Tracks(Run(h, chunks), received + Flatten(chunks))
    decreases |chunks|
  {
    assert h.parser.Waiting();
    hide Tracks, Received;
    if chunks == [] {
      assert received + [] == received;
    } else {
      ReceivedTracks(h, received, chunks[0]);
      var g := Received(h, chunks[0]);
      RunTracks(g, received + chunks[0], chunks[1..]);
      ConcatAssociative(received, chunks[0], Flatten(chunks[1..]));
    }
  }

  lemma OpenedTracks()
    ensures Tracks(OPENED, [])
  {
    var none := ServeFrom(ExpectRequestLine, EMPTY_REQUEST, []);
    assert [] + none.requests == none.requests;
  }

  /**
   Over every run of `onMessage` without a bad request: the answered requests, followed by
   those left waiting, are exactly the whole requests among the bytes received, in order.
   */
  lemma AnsweredAndWaiting(chunks: seq<seq<byte>>)
    requires Run(OPENED, chunks).parser.Waiting()
    ensures var h := Run(OPENED, chunks);
      ServeFrom(ExpectRequestLine, EMPTY_REQUEST, Flatten(chunks)).requests
        == h.answered + LeftWaiting(h).requests
  {
    OpenedTracks();
    RunTracks(OPENED, [], chunks);
    assert [] + Flatten(chunks) == Flatten(chunks);
  }

  /**
   And when a whole request is left waiting: exactly if the bytes received hold more than one
   request beyond those that had been answered before the last chunk.
   */
  lemma LeftWaitingIff(chunks: seq<seq<byte>>, chunk: seq<byte>)
    requires Run(OPENED, chunks).parser.Waiting()
    requires Received(Run(OPENED, chunks), chunk).parser.Waiting()
    ensures var h := Run(OPENED, chunks); var g := Received(h, chunk);
      var whole := |ServeFrom(ExpectRequestLine, EMPTY_REQUEST, Flatten(chunks) + chunk).requests|;
      && |g.answered| == (if whole > |h.answered| then |h.answered| + 1 else |h.answered|)
      && (LeftWaiting(g).requests != [] <==> whole > |h.answered| + 1)
  {
    hide Run, Received, ServeFrom;
    OpenedTracks();
    RunTracks(OPENED, [], chunks);
    assert [] + Flatten(chunks) == Flatten(chunks);
    ReceivedTracks(Run(OPENED, chunks), Flatten(chunks), chunk);
  }

  /** The session that the server's objects stand for, before the next chunk. */
  ghost function SessionOf(context: HttpContext, buf: Buffer, answered: seq<Request>): Session
    requires buf.Valid()
    reads context, context.request, buf, buf.data
  {
    Session(Parsed(true, context.state, context.request.R(), buf.V().readable), answered)
  }

  /** Bytes are read into the buffer and `onMessage` is called: one step of the session. */
  method OnChunk(context: HttpContext, buf: Buffer, chunk: seq<byte>) returns (bad: bool, answered: Option<Request>)
    requires context.Entry() && buf.Valid()
    modifies context, context.request, buf, buf.data
    ensures buf.Valid()
    ensures var g := Received(old(SessionOf(context, buf, [])), chunk);
      && bad == !g.parser.Waiting()
      && g.answered == (if answered.Some? then [answered.value] else [])
      && g.parser == SessionOf(context, buf, []).parser.(ok := !bad)
  {
    hide Parse;
    ParseConsumes(context.state, context.request.R(), buf.V().readable + chunk);
    buf.Append(chunk);
    bad, answered := context.OnMessage(buf);
  }
}
