/**
 suduo/bench/http: HttpRequest, HttpContext::parseRequest and HttpServer::onMessage.

 `Parse` is the incremental parser on byte strings; the classes are proved to compute it on
 real buffers.  The receive time of a request is not modelled.
 */
module Http {
  import opened Bytes
  import opened Buffers
  import Chunks

  datatype Method = Invalid | Get | Post | Head | Put | Delete
  datatype Version = Unknown | Http10 | Http11
  datatype ParseState = ExpectRequestLine | ExpectHeaders | ExpectBody | GotAll

  datatype Request = Request(
    verb: Method,
    version: Version,
    path: seq<byte>,
    query: seq<byte>,
    headers: map<seq<byte>, seq<byte>>)

  const EMPTY_REQUEST := Request(Invalid, Unknown, [], [], map[])

  const SPACE: byte := 32
  const COLON: byte := 58
  const QUESTION: byte := 63
  const GET_TEXT: seq<byte> := [71, 69, 84]
  const POST_TEXT: seq<byte> := [80, 79, 83, 84]
  const HEAD_TEXT: seq<byte> := [72, 69, 65, 68]
  const PUT_TEXT: seq<byte> := [80, 85, 84]
  const DELETE_TEXT: seq<byte> := [68, 69, 76, 69, 84, 69]
  /** "HTTP/1." */
  const HTTP1_TEXT: seq<byte> := [72, 84, 84, 80, 47, 49, 46]
  const DIGIT_0: byte := 48
  const DIGIT_1: byte := 49

  /** `isspace` in the C locale. */
  predicate IsSpace(b: byte) {
    b == SPACE || 9 <= b <= 13
  }

  function MethodOf(text: seq<byte>): Method {
    if text == GET_TEXT then Get
    else if text == POST_TEXT then Post
    else if text == HEAD_TEXT then Head
    else if text == PUT_TEXT then Put
    else if text == DELETE_TEXT then Delete
    else Invalid
  }

  /** `std::find`: the first position of `b`, or the length. */
  function Find(s: seq<byte>, b: byte): (k: nat)
    ensures k <= |s| && (k < |s| ==> s[k] == b)
    ensures b !in s[..k]
  {
    if s == [] || s[0] == b then 0
    else
      var k := Find(s[1..], b);
      assert s[..k + 1] == [s[0]] + s[1..][..k];
      k + 1
  }

  lemma FindIs(s: seq<byte>, b: byte, k: nat)
    requires k <= |s| && b !in s[..k] && (k < |s| ==> s[k] == b)
    ensures Find(s, b) == k
  {
  }

  function TrimLeft(s: seq<byte>): (t: seq<byte>)
    ensures |t| <= |s|
  {
    if s != [] && IsSpace(s[0]) then TrimLeft(s[1..]) else s
  }

  function TrimRight(s: seq<byte>): (t: seq<byte>)
    ensures |t| <= |s|
  {
    if s != [] && IsSpace(s[|s| - 1]) then TrimRight(s[..|s| - 1]) else s
  }

  function Trim(s: seq<byte>): seq<byte> {
    TrimRight(TrimLeft(s))
  }

  predicate Trimmed(s: seq<byte>) {
    s == [] || (!IsSpace(s[0]) && !IsSpace(s[|s| - 1]))
  }

  /** The request line's fields, as far as it gets, and whether the line is valid. */
  function RequestLine(r: Request, line: seq<byte>): (bool, Request) {
    var sp := Find(line, SPACE);
    if sp == |line| then (false, r)
    else
      var withMethod := r.(verb := MethodOf(line[..sp]));
      if withMethod.verb == Invalid then (false, withMethod)
      else
        var later := line[sp + 1..];
        var sp2 := Find(later, SPACE);
        if sp2 == |later| then (false, withMethod)
        else
          var target := later[..sp2];
          var q := Find(target, QUESTION);
          var withPath := withMethod.(path := target[..q]);
          var withTarget := if q != |target| then withPath.(query := target[q..]) else withPath;
          var protocol := later[sp2 + 1..];
          if |protocol| == 8 && protocol[..7] == HTTP1_TEXT then
            if protocol[7] == DIGIT_1 then (true, withTarget.(version := Http11))
            else if protocol[7] == DIGIT_0 then (true, withTarget.(version := Http10))
            else (false, withTarget)
          else (false, withTarget)
  }

  function WithHeader(r: Request, line: seq<byte>, colon: nat): Request
    requires colon < |line|
  {
    r.(headers := r.headers[line[..colon] := Trim(line[colon + 1..])])
  }

  predicate Running(s: ParseState) {
    s.ExpectRequestLine? || s.ExpectHeaders?
  }

  datatype Parsed = Parsed(ok: bool, state: ParseState, request: Request, rest: seq<byte>) {
    predicate Waiting() {
      ok && Running(state)
    }
  }

  const START := Parsed(true, ExpectRequestLine, EMPTY_REQUEST, [])

  /** What one complete line does to the request. */
  datatype LineResult = Reject(r: Request) | Continue(r: Request) | Finish

  function OneLine(state: ParseState, r: Request, line: seq<byte>): LineResult
    requires Running(state)
  {
    if state.ExpectRequestLine? then
      var (ok, filled) := RequestLine(r, line);
      if ok then Continue(filled) else Reject(filled)
    else
      var colon := Find(line, COLON);
      if colon != |line| then Continue(WithHeader(r, line, colon)) else Finish
  }

  /** The parser's loop.  It is total on the two states it is entered in, by the bytes left. */
  function Parse(state: ParseState, r: Request, b: seq<byte>): (p: Parsed)
    requires Running(state)
    ensures !p.state.ExpectBody?
    ensures |p.rest| <= |b|
    ensures p.Waiting() ==> FirstCrlf(p.rest).None?
    decreases |b|
  {
    match FirstCrlf(b)
    case None => Parsed(true, state, r, b)
    case Some(k) =>
      match OneLine(state, r, b[..k])
      case Reject(filled) => Parsed(false, state, filled, b)
      case Continue(filled) => Parse(ExpectHeaders, filled, b[k + 2..])
      case Finish => Parsed(true, GotAll, r, b[k + 2..])
  }

  // Chunk independence.

  /** Bytes arriving later change nothing that is decided, and continue what is not. */
  lemma {:induction false} ParseChunk(state: ParseState, r: Request, a: seq<byte>, b: seq<byte>)
    requires Running(state)
    ensures var p := Parse(state, r, a);
      Parse(state, r, a + b)
        == if p.Waiting() then Parse(p.state, p.request, p.rest + b) else p.(rest := p.rest + b)
    decreases |a|
  {
    if FirstCrlf(a).Some? {
      var k := FirstCrlf(a).value;
      FirstCrlfStable(a, b);
      assert (a + b)[..k] == a[..k] && (a + b)[k + 2..] == a[k + 2..] + b;
      var line := OneLine(state, r, a[..k]);
      if line.Continue? {
        ParseChunk(ExpectHeaders, line.r, a[k + 2..], b);
      }
    }
  }

  /** One chunk arrives: it is parsed with what was left, until failure or the whole request. */
  function Feed(p: Parsed, chunk: seq<byte>): Parsed {
    if p.Waiting() then Parse(p.state, p.request, p.rest + chunk)
    else p.(rest := p.rest + chunk)
  }

  lemma FeedOne(state: ParseState, r: Request, a: seq<byte>, chunk: seq<byte>)
    requires Running(state)
    ensures Feed(Parse(state, r, a), chunk) == Parse(state, r, a + chunk)
  {
    ParseChunk(state, r, a, chunk);
  }

  /**
   However a byte string is cut into chunks: the same verdict, parse state, request and
   unconsumed bytes as when it is parsed whole.
   */
  lemma ChunksDoNotMatter(chunks: seq<seq<byte>>)
    ensures Chunks.FeedAll(Feed, START, chunks)
      == Parse(ExpectRequestLine, EMPTY_REQUEST, Flatten(chunks))
  {
    var whole := (b: seq<byte>) => Parse(ExpectRequestLine, EMPTY_REQUEST, b);
    forall a: seq<byte>, chunk: seq<byte> ensures Feed(whole(a), chunk) == whole(a + chunk) {
      FeedOne(ExpectRequestLine, EMPTY_REQUEST, a, chunk);
    }
    Chunks.ChunksDoNotMatter(Feed, whole, [], chunks);
    assert [] + Flatten(chunks) == Flatten(chunks);
  }

  // The classes.

  class HttpRequest {
    var verb: Method
    var version: Version
    var path: seq<byte>
    var query: seq<byte>
    var headers: map<seq<byte>, seq<byte>>

    function R(): Request
      reads this
    {
      Request(verb, version, path, query, headers)
    }

    constructor ()
      ensures R() == EMPTY_REQUEST
    {
      verb, version, path, query, headers := Invalid, Unknown, [], [], map[];
    }

    /** The source asserts that no method was set before. */
    method SetMethod(text: seq<byte>) returns (ok: bool)
      requires verb == Invalid
      modifies this
      ensures R() == old(R()).(verb := MethodOf(text))
      ensures ok <==> verb != Invalid
    {
      if text == GET_TEXT {
        verb := Get;
      } else if text == POST_TEXT {
        verb := Post;
      } else if text == HEAD_TEXT {
        verb := Head;
      } else if text == PUT_TEXT {
        verb := Put;
      } else if text == DELETE_TEXT {
        verb := Delete;
      } else {
        verb := Invalid;
      }
      ok := verb != Invalid;
    }

    method AddHeader(line: seq<byte>, colon: nat)
      requires colon < |line|
      modifies this
      ensures R() == WithHeader(old(R()), line, colon)
    {
      var field := line[..colon];
      var k := colon + 1;
      while k < |line| && IsSpace(line[k])
        invariant colon < k <= |line|
        invariant TrimLeft(line[k..]) == TrimLeft(line[colon + 1..])
      {
        assert line[k..][1..] == line[k + 1..];
        k := k + 1;
      }
      var value := line[k..];
      while value != [] && IsSpace(value[|value| - 1])
        invariant TrimRight(value) == TrimRight(line[k..])
        decreases |value|
      {
        value := value[..|value| - 1];
      }
      headers := headers[field := value];
    }

    method Swap(that: HttpRequest)
      modifies this, that
      ensures R() == old(that.R()) && that.R() == old(R())
    {
      verb, that.verb := that.verb, verb;
      version, that.version := that.version, version;
      path, that.path := that.path, path;
      query, that.query := that.query, query;
      headers, that.headers := that.headers, headers;
    }
  }

  class HttpContext {
    var state: ParseState
    const request: HttpRequest

    constructor ()
      ensures fresh(request)
      ensures state == ExpectRequestLine && request.R() == EMPTY_REQUEST
    {
      state := ExpectRequestLine;
      request := new HttpRequest();
    }

    /**
     What `onMessage` keeps between messages: the parser is in one of its two running
     states, and a request line is only expected by an empty request.
     */
    ghost predicate Entry()
      reads this, request
    {
      Running(state) && (state.ExpectRequestLine? ==> request.R() == EMPTY_REQUEST)
    }

    method ProcessRequestLine(line: seq<byte>) returns (succeed: bool)
      requires request.verb == Invalid
      modifies request
      ensures (succeed, request.R()) == RequestLine(old(request.R()), line)
    {
      hide Find, MethodOf;
      succeed := false;
      var space := Find(line, SPACE);
      if space != |line| {
        var known := request.SetMethod(line[..space]);
        if known {
          var later := line[space + 1..];
          var space2 := Find(later, SPACE);
          if space2 != |later| {
            var target := later[..space2];
            var question := Find(target, QUESTION);
            if question != |target| {
              request.path := target[..question];
              request.query := target[question..];
            } else {
              request.path := target[..question];
            }
            var protocol := later[space2 + 1..];
            succeed := |protocol| == 8 && protocol[..7] == HTTP1_TEXT;
            if succeed {
              if protocol[7] == DIGIT_1 {
                request.version := Http11;
              } else if protocol[7] == DIGIT_0 {
                request.version := Http10;
              } else {
                succeed := false;
              }
            }
          }
        }
      }
    }

    /** The body of the loop for one complete line, lines 53 to 82 without the buffer. */
    method HandleLine(line: seq<byte>) returns (ok: bool, hasMore: bool)
      requires Entry()
      modifies this, request
      ensures match OneLine(old(state), old(request.R()), line)
        case Reject(r) => !ok && !hasMore && state == old(state) && request.R() == r
        case Continue(r) => ok && hasMore && state == ExpectHeaders && request.R() == r
        case Finish => ok && !hasMore && state == GotAll && request.R() == old(request.R())
    {
      ok, hasMore := true, true;
      if state == ExpectRequestLine {
        ok := ProcessRequestLine(line);
        if ok {
          state := ExpectHeaders;
        } else {
          hasMore := false;
        }
      } else {
        var colon := Find(line, COLON);
        if colon != |line| {
          request.AddHeader(line, colon);
        } else {
          state := GotAll;
          hasMore := false;
        }
      }
    }

    /** One turn of the loop. */
    method Turn(buf: Buffer) returns (ok: bool, hasMore: bool)
      requires Entry() && buf.Valid()
      modifies this, request, buf
      ensures buf.Valid() && buf.data == old(buf.data)
      ensures hasMore ==> ok && Entry() && |buf.V().readable| < |old(buf.V().readable)|
      ensures Parse(old(state), old(request.R()), old(buf.V().readable))
        == if hasMore then Parse(state, request.R(), buf.V().readable)
           else Parsed(ok, state, request.R(), buf.V().readable)
    {
      hide RequestLine, OneLine, FirstCrlf;
      var crlf := buf.FindCrlf();
      if crlf.None? {
        ok, hasMore := true, false;
      } else {
        var line := TakeLine(buf, crlf.value);
        ok, hasMore := HandleLine(line);
        if ok {
          DropLine(buf, crlf.value);
        }
      }
    }

    method ParseRequest(buf: Buffer) returns (ok: bool)
      requires Entry() && buf.Valid()
      modifies this, request, buf
      ensures buf.Valid() && buf.data == old(buf.data)
      ensures Parsed(ok, state, request.R(), buf.V().readable)
        == Parse(old(state), old(request.R()), old(buf.V().readable))
    {
      ok := true;
      var hasMore := true;
      ghost var whole := Parse(state, request.R(), buf.V().readable);
      while hasMore
        invariant buf.Valid() && buf.data == old(buf.data)
        invariant hasMore ==> (Entry() && whole == Parse(state, request.R(), buf.V().readable))
        invariant !hasMore ==> (whole == Parsed(ok, state, request.R(), buf.V().readable))
        decreases hasMore, |buf.V().readable|
      {
        ok, hasMore := Turn(buf);
      }
    }

    /** The bytes before the line end; the buffer is unchanged. */
    static method TakeLine(buf: Buffer, crlf: nat) returns (line: seq<byte>)
      requires buf.Valid() && CrlfAt(buf.V().readable, crlf)
      ensures line == buf.V().readable[..crlf]
    {
      var all := buf.ToString();
      line := all[..crlf];
    }

    /** `retrieve_until(crlf + 2)`. */
    static method DropLine(buf: Buffer, crlf: nat)
      requires buf.Valid() && CrlfAt(buf.V().readable, crlf)
      modifies buf
      ensures buf.Valid() && buf.data == old(buf.data)
      ensures buf.V().readable == old(buf.V().readable)[crlf + 2..]
    {
      buf.Retrieve(crlf + 2);
    }

    method Reset()
      modifies this, request
      ensures state == ExpectRequestLine && request.R() == EMPTY_REQUEST
    {
      state := ExpectRequestLine;
      var dummy := new HttpRequest();
      request.Swap(dummy);
    }

    /** `HttpServer::onMessage`: at most one request is answered, and the entry invariant is kept. */
    method OnMessage(buf: Buffer) returns (bad: bool, answered: Option<Request>)
      requires Entry() && buf.Valid()
      modifies this, request, buf
      ensures buf.Valid()
      ensures var p := Parse(old(state), old(request.R()), old(buf.V().readable));
        && buf.V().readable == p.rest
        && (bad <==> !p.ok)
        && answered == (if p.state.GotAll? then Some(p.request) else None)
        && (p.Waiting() ==> state == p.state && request.R() == p.request)
        && (p.state.GotAll? ==> state == ExpectRequestLine && request.R() == EMPTY_REQUEST)
        && (bad ==> state == p.state && request.R() == p.request)
        && (Entry() <==> !bad || p.request.verb == Invalid)
    {
      ghost var p := Parse(state, request.R(), buf.V().readable);
      WaitingRequest(state, request.R(), buf.V().readable);
      BadRequest(state, request.R(), buf.V().readable);
      var ok := ParseRequest(buf);
      bad := !ok;
      answered := None;
      if state == GotAll {
        answered := Some(request.R());
        Reset();
      }
    }
  }

  /** A parser that still expects the request line has not touched the request. */
  lemma {:induction false} WaitingRequest(state: ParseState, r: Request, b: seq<byte>)
    requires Running(state)
    ensures var p := Parse(state, r, b);
      && (p.Waiting() && p.state.ExpectRequestLine? ==> p.request == r && state.ExpectRequestLine?)
      && (!p.ok ==> p.state.ExpectRequestLine?)
    decreases |b|
  {
    if FirstCrlf(b).Some? {
      var k := FirstCrlf(b).value;
      var line := OneLine(state, r, b[..k]);
      if line.Continue? {
        WaitingRequest(ExpectHeaders, line.r, b[k + 2..]);
      }
    }
  }

  /** A request line that fails before its method is read leaves no trace. */
  lemma FailedLine(line: seq<byte>)
    ensures var (ok, r) := RequestLine(EMPTY_REQUEST, line);
      && (!ok && r.verb == Invalid ==> r == EMPTY_REQUEST)
      && (r.verb != Invalid ==> Find(line, SPACE) != |line|)
  {
    hide Find, MethodOf;
  }

  /** A bad request is a first line that stays in the buffer. */
  lemma {:induction false} BadRequest(state: ParseState, r: Request, b: seq<byte>)
    requires Running(state) && (state.ExpectRequestLine? ==> r == EMPTY_REQUEST)
    ensures var p := Parse(state, r, b);
      !p.ok ==>
        && state.ExpectRequestLine? && p.rest == b && FirstCrlf(b).Some?
        && p.request == RequestLine(EMPTY_REQUEST, b[..FirstCrlf(b).value]).1
        && (p.request.verb == Invalid ==> p.request == EMPTY_REQUEST)
        && (p.request.verb != Invalid ==> Find(b[..FirstCrlf(b).value], SPACE) != FirstCrlf(b).value)
    decreases |b|
  {
    hide Find, RequestLine;
    if FirstCrlf(b).Some? {
      var k := FirstCrlf(b).value;
      FailedLine(b[..k]);
      var line := OneLine(state, r, b[..k]);
      if line.Continue? {
        BadRequest(ExpectHeaders, line.r, b[k + 2..]);
      }
    }
  }

  /** `setMethod` is reached with a method already set. */
  predicate AssertionFails(state: ParseState, r: Request, b: seq<byte>) {
    && state.ExpectRequestLine? && FirstCrlf(b).Some?
    && Find(b[..FirstCrlf(b).value], SPACE) != FirstCrlf(b).value
    && r.verb != Invalid
  }

  /**
   After a bad request the server goes on reading.  Whatever arrives next, the assertion of
   `setMethod` then fails if and only if the bad line had a valid method; otherwise the
   same line is found bad again.
   */
  lemma AfterBadRequest(b: seq<byte>, chunk: seq<byte>)
    ensures var p := Parse(ExpectRequestLine, EMPTY_REQUEST, b);
      !p.ok ==>
        && (AssertionFails(p.state, p.request, p.rest + chunk) <==> p.request.verb != Invalid)
        && (p.request.verb == Invalid ==>
              Running(p.state) && Parse(p.state, p.request, p.rest + chunk) == p.(rest := p.rest + chunk))
  {
    hide RequestLine, Find;
    WaitingRequest(ExpectRequestLine, EMPTY_REQUEST, b);
    BadRequest(ExpectRequestLine, EMPTY_REQUEST, b);
    if !Parse(ExpectRequestLine, EMPTY_REQUEST, b).ok {
      FirstCrlfStable(b, chunk);
      var k := FirstCrlf(b).value;
      assert (b + chunk)[..k] == b[..k];
      ParseChunk(ExpectRequestLine, EMPTY_REQUEST, b, chunk);
    }
  }
}
