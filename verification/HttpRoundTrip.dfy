/** Printing a request and parsing it back, one request or many in a row, in any chunks. */
module HttpRoundTrip {
  import opened Bytes
  import opened Buffers
  import opened Http
  import opened HttpSessions
  import Chunks

  datatype Header = Header(name: seq<byte>, value: seq<byte>)

  /** A request as it is written: one target, and the header fields in their order. */
  datatype Message = Message(verb: Method, version: Version, target: seq<byte>, headers: seq<Header>)

  predicate Printable(m: Message) {
    m.verb != Invalid && m.version != Unknown
  }

  function MethodText(m: Method): seq<byte>
    requires m != Invalid
  {
    match m
    case Get => GET_TEXT
    case Post => POST_TEXT
    case Head => HEAD_TEXT
    case Put => PUT_TEXT
    case Delete => DELETE_TEXT
  }

  function VersionText(v: Version): (t: seq<byte>)
    requires v != Unknown
    ensures |t| == 8
  {
    HTTP1_TEXT + [if v == Http11 then DIGIT_1 else DIGIT_0]
  }

  function RequestLineText(m: Message): seq<byte>
    requires Printable(m)
  {
    MethodText(m.verb) + [SPACE] + m.target + [SPACE] + VersionText(m.version)
  }

  function HeaderText(h: Header): seq<byte> {
    h.name + [COLON, SPACE] + h.value
  }

  function HeaderLines(hs: seq<Header>): seq<byte> {
    if hs == [] then [] else HeaderText(hs[0]) + CRLF + HeaderLines(hs[1..])
  }

  function Print(m: Message): seq<byte>
    requires Printable(m)
  {
    RequestLineText(m) + CRLF + (HeaderLines(m.headers) + CRLF)
  }

  /** What the parser needs of a header field: it can be cut at its first colon. */
  ghost predicate GoodHeader(h: Header) {
    && COLON !in h.name
    && Trimmed(h.value)
    && FirstCrlf(HeaderText(h)).None?
  }

  /** What it needs of a request; names need not differ, the last field of a name counts. */
  ghost predicate WellFormed(m: Message) {
    && Printable(m)
    && SPACE !in m.target
    && FirstCrlf(RequestLineText(m)).None?
    && (forall h <- m.headers :: GoodHeader(h))
  }

  function HeaderMap(start: map<seq<byte>, seq<byte>>, hs: seq<Header>): map<seq<byte>, seq<byte>>
    decreases |hs|
  {
    if hs == [] then start else HeaderMap(start[hs[0].name := hs[0].value], hs[1..])
  }

  /** The target is cut before its first question mark. */
  function Meaning(m: Message): Request {
    var q := Find(m.target, QUESTION);
    Request(m.verb, m.version, m.target[..q], m.target[q..], HeaderMap(map[], m.headers))
  }

  lemma MeaningKeepsTarget(m: Message)
    ensures Meaning(m).path + Meaning(m).query == m.target
    ensures QUESTION !in Meaning(m).path
    ensures Meaning(m).query == [] || Meaning(m).query[0] == QUESTION
  {
  }

  /** With distinct names, the map holds exactly the fields. */
  lemma {:induction false} HeaderMapHolds(start: map<seq<byte>, seq<byte>>, hs: seq<Header>)
    requires forall i, j :: 0 <= i < j < |hs| ==> hs[i].name != hs[j].name
    ensures var m := HeaderMap(start, hs);
      && (forall h <- hs :: h.name in m && m[h.name] == h.value)
      && (forall n :: n in m <==> n in start || exists h <- hs :: h.name == n)
      && (forall n <- start :: (forall h <- hs :: h.name != n) ==> m[n] == start[n])
    decreases |hs|
  {
    if hs != [] {
      var h := hs[0];
      HeaderMapHolds(start[h.name := h.value], hs[1..]);
      assert forall g :: g in hs <==> g == h || g in hs[1..];
    }
  }

  // Lines.

  lemma LineEnd(line: seq<byte>, more: seq<byte>)
    requires FirstCrlf(line).None?
    ensures FirstCrlf(line + CRLF + more) == Some(|line|)
    ensures (line + CRLF + more)[..|line|] == line
    ensures (line + CRLF + more)[|line| + 2..] == more
  {
    hide FirstCrlf;
    var b := line + CRLF + more;
    forall j: nat | j < |line| ensures !CrlfAt(b, j) {
      assert !CrlfAt(line, j);
    }
    assert CrlfAt(b, |line|);
    FirstCrlfIs(b, |line|);
  }

  lemma TrimmedStays(s: seq<byte>)
    requires Trimmed(s)
    ensures Trim([SPACE] + s) == s
  {
    assert TrimLeft([SPACE] + s) == TrimLeft(([SPACE] + s)[1..]);
    assert ([SPACE] + s)[1..] == s;
  }

  lemma HeaderRead(r: Request, h: Header)
    requires GoodHeader(h)
    ensures OneLine(ExpectHeaders, r, HeaderText(h))
      == Continue(r.(headers := r.headers[h.name := h.value]))
  {
    hide Find, FirstCrlf, Trim;
    var line := HeaderText(h);
    assert line[..|h.name|] == h.name;
    FindIs(line, COLON, |h.name|);
    assert line[|h.name| + 1..] == [SPACE] + h.value;
    TrimmedStays(h.value);
  }

  lemma MethodRead(m: Method)
    requires m != Invalid
    ensures MethodOf(MethodText(m)) == m && SPACE !in MethodText(m)
  {
  }

  lemma RequestLineRead(m: Message)
    requires Printable(m) && SPACE !in m.target
    ensures OneLine(ExpectRequestLine, EMPTY_REQUEST, RequestLineText(m))
      == Continue(Meaning(m).(headers := map[]))
  {
    hide Find, FirstCrlf, MethodOf, MethodText;
    var line, verb := RequestLineText(m), MethodText(m.verb);
    MethodRead(m.verb);
    assert line[..|verb|] == verb;
    FindIs(line, SPACE, |verb|);
    var later := line[|verb| + 1..];
    assert later == m.target + [SPACE] + VersionText(m.version);
    assert later[..|m.target|] == m.target;
    FindIs(later, SPACE, |m.target|);
    assert later[|m.target| + 1..] == VersionText(m.version);
    assert VersionText(m.version)[..7] == HTTP1_TEXT;
    var q := Find(m.target, QUESTION);
    assert q == |m.target| ==> m.target[q..] == [];
  }

  /** Latin letters as bytes. */
  predicate Spells(b: seq<byte>, text: string) {
    |b| == |text| && forall i :: 0 <= i < |b| ==> b[i] == text[i] as int
  }

  lemma TextsSpelled()
    ensures Spells(MethodText(Get), "GET") && Spells(MethodText(Post), "POST") && Spells(MethodText(Head), "HEAD")
    ensures Spells(MethodText(Put), "PUT") && Spells(MethodText(Delete), "DELETE")
    ensures Spells(VersionText(Http10), "HTTP/1.0") && Spells(VersionText(Http11), "HTTP/1.1")
    ensures Spells([SPACE, COLON, QUESTION], " :?") && Spells(CRLF, "\r\n")
  {
  }

  /** A method, a target without spaces and a version, with single spaces between them. */
  ghost predicate IsRequestLine(line: seq<byte>) {
    exists m: Message :: Printable(m) && SPACE !in m.target && line == RequestLineText(m)
  }

  lemma MethodKnown(text: seq<byte>)
    requires MethodOf(text) != Invalid
    ensures text == MethodText(MethodOf(text))
  {
  }

  lemma CutAt(s: seq<byte>, k: nat)
    requires k < |s|
    ensures s == s[..k] + [s[k]] + s[k + 1..]
  {
  }

  /** The two spaces and the protocol of an accepted line. */
  lemma AcceptedLineParts(line: seq<byte>) returns (sp: nat, sp2: nat, version: Version)
    requires OneLine(ExpectRequestLine, EMPTY_REQUEST, line).Continue?
    ensures sp < |line| && line[sp] == SPACE && MethodOf(line[..sp]) != Invalid
    ensures var later := line[sp + 1..];
      && sp2 < |later| && later[sp2] == SPACE && SPACE !in later[..sp2]
      && version != Unknown && later[sp2 + 1..] == VersionText(version)
  {
    hide Find, MethodOf;
    sp := Find(line, SPACE);
    sp2 := Find(line[sp + 1..], SPACE);
    version := OneLine(ExpectRequestLine, EMPTY_REQUEST, line).r.version;
    var protocol := line[sp + 1..][sp2 + 1..];
    assert protocol == protocol[..7] + [protocol[7]];
  }

  /** What an accepted line says. */
  lemma AcceptedLineText(line: seq<byte>) returns (m: Message)
    requires OneLine(ExpectRequestLine, EMPTY_REQUEST, line).Continue?
    ensures Printable(m) && SPACE !in m.target && line == RequestLineText(m)
  {
    hide OneLine, MethodOf, MethodText, VersionText;
    var sp, sp2, version := AcceptedLineParts(line);
    var text, later := line[..sp], line[sp + 1..];
    m := Message(MethodOf(text), version, later[..sp2], []);
    MethodKnown(text);
    CutAt(line, sp);
    CutAt(later, sp2);
    var t, v := m.target + [SPACE], VersionText(version);
    ConcatAssociative(text + [SPACE], t, v);
    ConcatAssociative(text + [SPACE], m.target, [SPACE]);
  }

  /** Exactly the request lines are accepted; what the request holds is told by `RequestLineRead`. */
  lemma RequestLineAcceptedIff(line: seq<byte>)
    ensures OneLine(ExpectRequestLine, EMPTY_REQUEST, line).Continue? <==> IsRequestLine(line)
    ensures !OneLine(ExpectRequestLine, EMPTY_REQUEST, line).Finish?
  {
    hide Find, RequestLineText, RequestLine, Meaning;
    if OneLine(ExpectRequestLine, EMPTY_REQUEST, line).Continue? {
      var m := AcceptedLineText(line);
    }
    if IsRequestLine(line) {
      var m: Message :| Printable(m) && SPACE !in m.target && line == RequestLineText(m);
      RequestLineRead(m);
    }
  }

  /** A refused line leaves a method in the request exactly when it begins with that method and a space. */
  lemma RefusedLineMethod(line: seq<byte>, verb: Method)
    requires OneLine(ExpectRequestLine, EMPTY_REQUEST, line).Reject? && verb != Invalid
    ensures OneLine(ExpectRequestLine, EMPTY_REQUEST, line).r.verb == verb <==> MethodText(verb) + [SPACE] <= line
  {
    hide Find, MethodOf, MethodText;
    var sp := Find(line, SPACE);
    var text := MethodText(verb);
    MethodRead(verb);
    if text + [SPACE] <= line {
      assert line[..|text|] == text && line[|text|] == SPACE;
      FindIs(line, SPACE, |text|);
    }
    if sp < |line| && MethodOf(line[..sp]) == verb {
      MethodKnown(line[..sp]);
      assert line[..sp + 1] == text + [SPACE];
    }
  }

  /** White space as `isspace` counts it in the C locale: SP, HT, LF, VT, FF and CR. */
  predicate Blank(s: seq<byte>) {
    forall b <- s :: b == 32 || b == 9 || b == 10 || b == 11 || b == 12 || b == 13
  }

  lemma {:induction false} LeftBlankTrimmed(pad: seq<byte>, s: seq<byte>)
    requires Blank(pad)
    ensures TrimLeft(pad + s) == TrimLeft(s)
  {
    if pad == [] {
      assert pad + s == s;
    } else {
      assert IsSpace((pad + s)[0]) by { assert pad[0] in pad; }
      TailOfConcat(pad, s);
      assert forall b <- pad[1..] :: b in pad;
      LeftBlankTrimmed(pad[1..], s);
    }
  }

  lemma {:induction false} RightBlankTrimmed(s: seq<byte>, pad: seq<byte>)
    requires Blank(pad)
    ensures TrimRight(s + pad) == TrimRight(s)
    decreases |pad|
  {
    if pad == [] {
      assert s + pad == s;
    } else {
      var n := |pad| - 1;
      assert IsSpace((s + pad)[|s| + n]) by { assert pad[n] in pad; }
      assert (s + pad)[..|s| + n] == s + pad[..n];
      assert forall b <- pad[..n] :: b in pad;
      RightBlankTrimmed(s, pad[..n]);
    }
  }

  lemma {:induction false} TrimLeftSplits(s: seq<byte>) returns (pad: seq<byte>)
    ensures Blank(pad) && s == pad + TrimLeft(s)
    ensures TrimLeft(s) != [] ==> !IsSpace(TrimLeft(s)[0])
  {
    pad := [];
    if s != [] && IsSpace(s[0]) {
      var more := TrimLeftSplits(s[1..]);
      pad := [s[0]] + more;
    }
  }

  lemma {:induction false} TrimRightSplits(s: seq<byte>) returns (pad: seq<byte>)
    ensures Blank(pad) && s == TrimRight(s) + pad
    ensures TrimRight(s) != [] ==> !IsSpace(TrimRight(s)[|TrimRight(s)| - 1])
    decreases |s|
  {
    pad := [];
    if s != [] && IsSpace(s[|s| - 1]) {
      var more := TrimRightSplits(s[..|s| - 1]);
      pad := more + [s[|s| - 1]];
      assert s == s[..|s| - 1] + [s[|s| - 1]];
    }
  }

  /** The value of a field without the white space around it, for any white space. */
  lemma TrimmedIs(pad: seq<byte>, value: seq<byte>, tail: seq<byte>)
    requires Blank(pad) && Blank(tail) && Trimmed(value)
    ensures Trim(pad + value + tail) == value
  {
    assert pad + value + tail == pad + (value + tail);
    LeftBlankTrimmed(pad, value + tail);
    if value == [] {
      assert value + tail == tail + [] && tail == tail + [];
      LeftBlankTrimmed(tail, []);
    } else {
      assert TrimLeft(value + tail) == value + tail;
      RightBlankTrimmed(value, tail);
      assert value + [] == value;
    }
  }

  /** And a value always is some trimmed bytes between two pieces of white space. */
  lemma TrimSplits(s: seq<byte>) returns (pad: seq<byte>, tail: seq<byte>)
    ensures Blank(pad) && Blank(tail) && Trimmed(Trim(s)) && s == pad + Trim(s) + tail
  {
    hide IsSpace, Blank, TrimLeft, TrimRight;
    var left := TrimLeft(s);
    pad := TrimLeftSplits(s);
    tail := TrimRightSplits(left);
    ConcatAssociative(pad, TrimRight(left), tail);
    if TrimRight(left) != [] {
      assert TrimRight(left)[0] == left[0];
    }
  }

  /** A field as it may be sent: any white space around its value. */
  function FieldText(name: seq<byte>, pad: seq<byte>, value: seq<byte>, tail: seq<byte>): seq<byte> {
    name + [COLON] + (pad + value + tail)
  }

  /** Any field is entered under its name with its trimmed value. */
  lemma FieldRead(r: Request, name: seq<byte>, pad: seq<byte>, value: seq<byte>, tail: seq<byte>)
    requires COLON !in name && Blank(pad) && Trimmed(value) && Blank(tail)
    ensures OneLine(ExpectHeaders, r, FieldText(name, pad, value, tail))
      == Continue(r.(headers := r.headers[name := value]))
  {
    hide Find, Trim, Trimmed, Blank;
    var line := FieldText(name, pad, value, tail);
    assert line[..|name|] == name && line[|name|] == COLON;
    FindIs(line, COLON, |name|);
    assert line[|name| + 1..] == pad + value + tail;
    TrimmedIs(pad, value, tail);
  }

  ghost predicate IsField(line: seq<byte>) {
    exists name, pad, value, tail :: line == FieldText(name, pad, value, tail)
      && COLON !in name && Blank(pad) && Trimmed(value) && Blank(tail)
  }

  /** Exactly a line without a colon ends the header, and any other is a field, read by `FieldRead`. */
  lemma HeaderEndsIff(r: Request, line: seq<byte>)
    ensures OneLine(ExpectHeaders, r, line).Finish? <==> COLON !in line
    ensures OneLine(ExpectHeaders, r, line).Continue? <==> IsField(line)
  {
    hide Find, Trim, Trimmed, Blank;
    var k := Find(line, COLON);
    if k == |line| {
      assert line[..k] == line;
    } else {
      var pad, tail := TrimSplits(line[k + 1..]);
      assert line == FieldText(line[..k], pad, Trim(line[k + 1..]), tail);
    }
  }

  lemma {:induction false} HeadersRead(r: Request, hs: seq<Header>, more: seq<byte>)
    requires forall h <- hs :: GoodHeader(h)
    ensures Parse(ExpectHeaders, r, HeaderLines(hs) + CRLF + more)
      == Parsed(true, GotAll, r.(headers := HeaderMap(r.headers, hs)), more)
    decreases |hs|
  {
    hide OneLine, FirstCrlf, GoodHeader, HeaderText;
    if hs == [] {
      EmptyLineRead(r);
      LineEnd([], more);
      assert HeaderLines(hs) + CRLF + more == [] + CRLF + more;
    } else {
      assert hs[0] in hs;
      var line, later := HeaderText(hs[0]), HeaderLines(hs[1..]) + CRLF + more;
      GoodHeaderLine(hs[0]);
      LineEnd(line, later);
      HeaderRead(r, hs[0]);
      HeadersRead(r.(headers := r.headers[hs[0].name := hs[0].value]), hs[1..], more);
      assert HeaderLines(hs) + CRLF + more == line + CRLF + later;
    }
  }

  lemma GoodHeaderLine(h: Header)
    requires GoodHeader(h)
    ensures FirstCrlf(HeaderText(h)).None?
  {
  }

  lemma EmptyLineRead(r: Request)
    ensures OneLine(ExpectHeaders, r, []) == Finish && FirstCrlf([]).None?
  {
  }

  /** Round trip: a printed request parses to its meaning, and what follows it is left. */
  lemma PrintParse(m: Message, more: seq<byte>)
    requires WellFormed(m)
    ensures Parse(ExpectRequestLine, EMPTY_REQUEST, Print(m) + more)
      == Parsed(true, GotAll, Meaning(m), more)
  {
    hide OneLine, FirstCrlf, GoodHeader, HeaderLines, RequestLineText, HeaderMap;
    var line, later := RequestLineText(m), HeaderLines(m.headers) + CRLF + more;
    assert Print(m) + more == line + CRLF + later;
    LineEnd(line, later);
    RequestLineRead(m);
    HeadersRead(Meaning(m).(headers := map[]), m.headers, more);
  }

  /** In whatever chunks a printed request arrives, it is received. */
  lemma PrintedInChunks(m: Message, chunks: seq<seq<byte>>)
    requires Printable(m) && WellFormed(m) && Flatten(chunks) == Print(m)
    ensures Chunks.FeedAll(Feed, START, chunks) == Parsed(true, GotAll, Meaning(m), [])
  {
    hide Parse, Print, WellFormed, Meaning;
    Http.ChunksDoNotMatter(chunks);
    PrintParse(m, []);
    assert Print(m) + [] == Print(m);
  }

  // Requests one after the other, with a reset between them.

  function Serve(b: seq<byte>): Served {
    ServeFrom(ExpectRequestLine, EMPTY_REQUEST, b)
  }

  function PrintAll(ms: seq<Message>): seq<byte>
    requires forall m <- ms :: Printable(m)
  {
    if ms == [] then [] else Print(ms[0]) + PrintAll(ms[1..])
  }

  function Meanings(ms: seq<Message>): seq<Request> {
    if ms == [] then [] else [Meaning(ms[0])] + Meanings(ms[1..])
  }

  lemma NothingToParse()
    ensures Serve([]) == Served([], START)
  {
  }

  /** Pipelined requests come out in order, and nothing is left over. */
  lemma {:induction false} PrintAllServe(ms: seq<Message>)
    requires forall m <- ms :: Printable(m) && WellFormed(m)
    ensures Serve(PrintAll(ms)) == Served(Meanings(ms), START)
    decreases |ms|
  {
    hide Parse, Print, WellFormed, Meaning;
    if ms == [] {
      NothingToParse();
    } else {
      var m := ms[0];
      assert m in ms;
      PrintParse(m, PrintAll(ms[1..]));
      PrintNonEmpty(m);
      PrintAllServe(ms[1..]);
    }
  }

  /** Sent in one chunk, the first is answered and all others wait for more bytes. */
  lemma PipelinedRequestsWait(ms: seq<Message>)
    requires ms != [] && forall m <- ms :: Printable(m) && WellFormed(m)
    ensures var h := HttpSessions.Run(OPENED, [PrintAll(ms)]);
      && h.parser.Waiting()
      && h.answered == [Meaning(ms[0])] && LeftWaiting(h).requests == Meanings(ms[1..])
  {
    hide Parse, Print, WellFormed, Meaning;
    var m := ms[0];
    assert m in ms;
    PrintParse(m, PrintAll(ms[1..]));
    PrintAllServe(ms[1..]);
    assert [] + PrintAll(ms) == PrintAll(ms);
    assert [PrintAll(ms)][1..] == [];
  }

  lemma PrintNonEmpty(m: Message)
    requires Printable(m)
    ensures |Print(m)| > 0
  {
  }

  // The grammar of RFC 7230 is covered.

  /** tchar, section 3.2.6. */
  predicate TokenByte(b: byte) {
    || 48 <= b <= 57 || 65 <= b <= 90 || 97 <= b <= 122
    || b == 33 || 35 <= b <= 39 || b == 42 || b == 43 || b == 45 || b == 46
    || 94 <= b <= 96 || b == 124 || b == 126
  }

  /** VCHAR and obs-text, with SP and HTAB inside a value, section 3.2. */
  predicate FieldByte(b: byte) {
    33 <= b <= 126 || 128 <= b || b == SPACE || b == 9
  }

  ghost predicate Rfc7230Header(h: Header) {
    && h.name != [] && (forall b <- h.name :: TokenByte(b))
    && (forall b <- h.value :: FieldByte(b))
    && Trimmed(h.value)
  }

  /** Sections 3.1.1 and 3.2, with the five methods and two versions the parser knows. */
  ghost predicate Rfc7230Request(m: Message) {
    && Printable(m)
    && m.target != [] && (forall b <- m.target :: 33 <= b <= 126)
    && (forall h <- m.headers :: Rfc7230Header(h))
  }

  lemma NoCrNoCrlf(s: seq<byte>)
    requires CR !in s
    ensures FirstCrlf(s).None?
  {
    hide FirstCrlf;
    NoCrlfIs(s);
  }

  lemma Rfc7230WellFormed(m: Message)
    requires Rfc7230Request(m)
    ensures WellFormed(m)
  {
    hide FirstCrlf, Trimmed;
    assert CR !in MethodText(m.verb);
    NoCrNoCrlf(RequestLineText(m));
    forall h | h in m.headers ensures GoodHeader(h) {
      assert CR !in h.name && CR !in h.value && COLON !in h.name;
      NoCrNoCrlf(HeaderText(h));
    }
  }
}
