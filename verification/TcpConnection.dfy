/**
 The `TcpConnection` class.  Each method is one handler of the source on real buffers, and
 is proved to take the matching step of the connection's state machine.
 */
module TcpConnections {
  import opened Bytes
  import opened Buffers
  import opened Connection
  import opened ConnectionStates

  function Taken(h: History, written: seq<byte>, payload: seq<byte>): History {
    h.(wire := h.wire + written, payloads := h.payloads + [payload])
  }

  /** `send_in_loop` as its parts: the write at once, what it took, and the buffering of the rest. */
  lemma SentInParts(cfg: Config, c: Conn, message: seq<byte>, w: WriteResult)
    requires Offered(|message|, w)
    ensures c.state.Disconnected? ==> SentInLoop(cfg, c, message, w) == c
    ensures !c.state.Disconnected? ==>
      var n := if Direct(c) && w.Wrote? then w.n else 0;
      var tried := c.(past := c.past.(notices := c.past.notices
        + (if Direct(c) && w.Wrote? && w.n == |message| then Completed(cfg) else [])));
      var taken := if Dropped(c, message, w) then tried else tried.(past := Taken(tried.past, message[..n], message));
      SentInLoop(cfg, c, message, w) ==
        if (Direct(c) && w.PeerGone?) || n == |message| then taken
        else taken.(output := c.output + message[n..], writing := true,
                    past := taken.past.(notices := taken.past.notices
                      + Crossing(cfg, |c.output|, |c.output + message[n..]|)))
  {
    assert c.output + [] == c.output && c.past.notices + [] == c.past.notices;
  }

  /** The steps of a call on another thread, with nothing in between. */
  lemma CallAlone(c: Conn, q: Posted)
    ensures q.PostedSend? ==> Enqueued(Checked(c, q), q) == c.(posted := c.posted + [q])
    ensures !q.PostedSend? ==>
      Enqueued(Committed(Checked(c, q), q), q)
        == c.(state := Disconnecting, past := Asked(c.past, q.PostedShutdown?), posted := c.posted + [q])
  {
    hide Asked;
    BagBack(c.owed, q);
    BagBack(c.checked, q);
  }

  lemma BagBack(bag: multiset<Posted>, q: Posted)
    ensures bag + multiset{q} - multiset{q} == bag
  {
  }

  lemma CallSteps(c: Conn, q: Posted)
    ensures if q.PostedSend? then q in Checked(c, q).owed
            else q in Checked(c, q).checked && q in Committed(Checked(c, q), q).owed
  {
  }

  class TcpConnection {
    const cfg: Config
    var state: State
    var wantsRead: bool
    var reading: bool
    var writing: bool
    const outputBuffer: Buffer
    const inputBuffer: Buffer
    var posted: seq<Posted>

    // what calls on other threads have read and not done yet
    ghost var checked: multiset<Posted>
    ghost var owed: multiset<Posted>
    ghost var past: History

    ghost function Repr(): set<object>
      reads this, outputBuffer, inputBuffer
    {
      {this, outputBuffer, inputBuffer, outputBuffer.data, inputBuffer.data}
    }

    ghost predicate Valid()
      reads this, outputBuffer, inputBuffer
    {
      && outputBuffer.Valid() && inputBuffer.Valid()
      && outputBuffer != inputBuffer
      && outputBuffer.data != inputBuffer.data
    }

    ghost function C(): Conn
      requires Valid()
      reads this, outputBuffer, inputBuffer, outputBuffer.data, inputBuffer.data
    {
      Conn(state, wantsRead, reading, writing, outputBuffer.V().readable, inputBuffer.V().readable,
           posted, checked, owed, past)
    }

    constructor (cfg: Config)
      ensures Valid() && fresh(Repr()) && this.cfg == cfg
      ensures C() == FRESH
    {
      this.cfg := cfg;
      state, wantsRead, reading, writing := Connecting, true, false, false;
      outputBuffer := new Buffer();
      inputBuffer := new Buffer();
      posted, checked, owed := [], multiset{}, multiset{};
      past := FRESH.past;
    }

    method AppendOutput(rest: seq<byte>)
      requires Valid()
      modifies outputBuffer, outputBuffer.data
      ensures Valid() && fresh(Repr() - old(Repr()))
      ensures C() == old(C()).(output := old(C()).output + rest)
    {
      outputBuffer.Append(rest);
      assert inputBuffer.V() == old(inputBuffer.V());
    }

    /** Lines 133 to 143: notice, buffer, and ask for write events. */
    method BufferRest(rest: seq<byte>)
      requires Valid() && rest != []
      modifies Repr()
      ensures Valid() && fresh(Repr() - old(Repr()))
      ensures var c := old(C());
        C() == c.(output := c.output + rest, writing := true,
                  past := c.past.(notices := c.past.notices + Crossing(cfg, |c.output|, |c.output + rest|)))
    {
      var oldLen, remaining := outputBuffer.ReadableBytes(), |rest|;
      if cfg.highWaterMark.Some? {
        var mark := cfg.highWaterMark.value;
        if oldLen + remaining >= mark && oldLen < mark {
          past := past.(notices := past.notices + [HighWater(oldLen + remaining)]);
        }
      }
      AppendOutput(rest);
      if !writing {
        writing := true;
      }
    }

    /** Lines 112 to 130: the attempt to write at once. */
    method WriteAtOnce(message: seq<byte>, w: WriteResult) returns (nwrote: nat, faultError: bool)
      requires Valid() && Offered(|message|, w)
      modifies this`past
      ensures Valid() && Repr() == old(Repr())
      ensures nwrote == (if Direct(old(C())) && w.Wrote? then w.n else 0)
      ensures faultError == (Direct(old(C())) && w.PeerGone?)
      ensures C() == old(C()).(past := old(past).(notices := old(past).notices
        + (if Direct(old(C())) && w.Wrote? && w.n == |message| then Completed(cfg) else [])))
    {
      nwrote := 0;
      faultError := false;
      if !writing && outputBuffer.ReadableBytes() == 0 {
        if w.Wrote? {
          nwrote := w.n;
          if |message| - nwrote == 0 && cfg.writeComplete {
            past := past.(notices := past.notices + [WriteComplete]);
          }
        } else if w.PeerGone? {
          faultError := true;
        }
      }
    }

    method SendInLoop(message: seq<byte>, w: WriteResult)
      requires Valid() && Offered(|message|, w)
      modifies Repr()
      ensures Valid() && fresh(Repr() - old(Repr()))
      ensures C() == SentInLoop(cfg, old(C()), message, w)
    {
      hide SentInLoop, Crossing, Completed, Conn.InFlight, Conn.Accepted;
      ghost var c := C();
      SentInParts(cfg, c, message, w);
      if state == Disconnected {
        return;
      }
      var nwrote, faultError := WriteAtOnce(message, w);
      var remaining := |message| - nwrote;
      if !Dropped(c, message, w) {
        past := Taken(past, message[..nwrote], message);
      }
      if !faultError && remaining > 0 {
        BufferRest(message[nwrote..]);
      }
    }

    /** `send(const std::string&)` on the loop's thread. */
    method Send(message: seq<byte>, w: WriteResult)
      requires Valid() && Connection.Legal(C(), Event.Send(message, w))
      modifies Repr()
      ensures Valid() && fresh(Repr() - old(Repr()))
      ensures C() == Connection.Step(cfg, old(C()), Event.Send(message, w))
    {
      if state == Connected {
        SendInLoop(message, w);
      }
    }

    /** `send(Buffer*)` on the loop's thread: the buffer is emptied iff the connection took it. */
    method SendBuffer(buf: Buffer, w: WriteResult)
      requires Valid() && buf.Valid() && {buf, buf.data} !! Repr()
      requires Offered(|buf.V().readable|, w)
      modifies Repr(), buf
      ensures Valid() && fresh(Repr() - old(Repr()))
      ensures C() == Connection.Step(cfg, old(C()), Event.Send(old(buf.V().readable), w))
      ensures buf.Valid()
      ensures buf.V().readable == if old(state) == Connected then [] else old(buf.V().readable)
    {
      if state == Connected {
        var message := buf.ToString();
        SendInLoop(message, w);
        buf.RetrieveAll();
      }
    }

    /** The test of a call on another thread; for a send, the copy of its payload is then owed. */
    method Check(q: Posted) returns (passed: bool)
      requires Valid()
      modifies this
      ensures Valid() && Repr() == old(Repr())
      ensures passed <==> Connection.Legal(old(C()), Event.Check(q))
      ensures C() == if passed then Checked(old(C()), q) else old(C())
    {
      passed := if q.PostedForceClose? then state == Connected || state == Disconnecting else state == Connected;
      if passed {
        if q.PostedSend? {
          owed := owed + multiset{q};
        } else {
          checked := checked + multiset{q};
        }
      }
    }

    /** The write of a `shutdown` or a `force_close` on another thread. */
    method Commit(q: Posted)
      requires Valid() && q in checked
      modifies this
      ensures Valid() && Repr() == old(Repr())
      ensures C() == Committed(old(C()), q)
    {
      ghost var goal := Committed(C(), q);
      state := Disconnecting;
      past, checked, owed := goal.past, goal.checked, goal.owed;
    }

    method Enqueue(q: Posted)
      requires Valid() && q in owed
      modifies this
      ensures Valid() && Repr() == old(Repr())
      ensures C() == Enqueued(old(C()), q)
    {
      owed := owed - multiset{q};
      posted := posted + [q];
    }

    /** A call on another thread with no other in between: the functor is queued iff the test passes. */
    method PostCall(q: Posted)
      requires Valid()
      modifies this
      ensures Valid() && Repr() == old(Repr())
      ensures var c := old(C());
        C() == if !Connection.Legal(c, Event.Check(q)) then c
               else if q.PostedSend? then c.(posted := c.posted + [q])
               else c.(state := Disconnecting, past := Asked(c.past, q.PostedShutdown?), posted := c.posted + [q])
    {
      CallAlone(C(), q);
      hide Checked, Committed, Enqueued, Conn.InFlight;
      CallSteps(C(), q);
      var passed := Check(q);
      if passed {
        if !q.PostedSend? {
          Commit(q);
        }
        Enqueue(q);
      }
    }

    /** `send(const std::string&)` from another thread. */
    method PostSend(message: seq<byte>)
      requires Valid()
      modifies this
      ensures Valid() && Repr() == old(Repr())
      ensures C() == old(C()).(posted := old(posted)
        + if old(state) == Connected then [PostedSend(message)] else [])
    {
      assert posted + [] == posted;
      PostCall(PostedSend(message));
    }

    /** `send(Buffer*)` from another thread: the buffer is emptied iff its text was queued. */
    method PostBuffer(buf: Buffer)
      requires Valid() && buf.Valid() && {buf, buf.data} !! Repr()
      modifies this, buf
      ensures Valid() && Repr() == old(Repr()) && buf.Valid()
      ensures C() == old(C()).(posted := old(posted)
        + if old(state) == Connected then [PostedSend(old(buf.V().readable))] else [])
      ensures buf.V().readable == if old(state) == Connected then [] else old(buf.V().readable)
    {
      assert posted + [] == posted;
      if state == Connected {
        var message := buf.RetrieveAllAsString();
        PostCall(PostedSend(message));
      }
    }

    method ShutdownInLoop()
      requires Valid()
      modifies this
      ensures Valid() && Repr() == old(Repr())
      ensures C() == ShutInLoop(old(C()))
    {
      if !writing {
        past := past.(shutAt := past.shutAt + [|past.wire|],
                      overtook := past.overtook || C().output != [] || C().InFlight());
      }
    }

    /** On the loop's thread. */
    method Shutdown()
      requires Valid()
      modifies this
      ensures Valid() && Repr() == old(Repr())
      ensures C() == Connection.Step(cfg, old(C()), Event.Shutdown)
    {
      if state == Connected {
        state := Disconnecting;
        past := Asked(past, true);
        ShutdownInLoop();
      }
    }

    /** On the loop's thread. */
    method ForceClose()
      requires Valid()
      modifies this
      ensures Valid() && Repr() == old(Repr())
      ensures C() == Connection.Step(cfg, old(C()), Event.ForceClose)
    {
      if state == Connected || state == Disconnecting {
        state := Disconnecting;
        posted := posted + [PostedForceClose];
      }
    }

    method HandleClose()
      requires Valid() && C().Up()
      modifies this
      ensures Valid() && Repr() == old(Repr())
      ensures C() == Closed(old(C()))
    {
      state := Disconnected;
      reading, writing := false, false;
    }

    method ForceCloseInLoop()
      requires Valid()
      modifies this
      ensures Valid() && Repr() == old(Repr())
      ensures C() == if old(C()).Up() then Closed(old(C())) else old(C())
    {
      if state == Connected || state == Disconnecting {
        HandleClose();
      }
    }

    /** The loop runs the oldest functor it holds for this connection. */
    method RunPosted(w: WriteResult)
      requires Valid() && posted != [] && Connection.Legal(C(), Event.RunPosted(posted[0], w))
      modifies Repr()
      ensures Valid() && fresh(Repr() - old(Repr()))
      ensures C() == Connection.Step(cfg, old(C()), Event.RunPosted(old(posted)[0], w))
    {
      var functor := posted[0];
      posted := posted[1..];
      match functor
      case PostedSend(payload) => SendInLoop(payload, w);
      case PostedShutdown => ShutdownInLoop();
      case PostedForceClose => ForceCloseInLoop();
    }

    /** Lines 264 to 267: the socket took `n` bytes. */
    method TookOutput(n: nat)
      requires Valid() && n <= |C().output|
      modifies this`past, outputBuffer
      ensures Valid() && Repr() == old(Repr())
      ensures C() == old(C()).(output := old(C()).output[n..],
                               past := old(past).(wire := old(past).wire + old(C()).output[..n]))
    {
      past := past.(wire := past.wire + outputBuffer.V().readable[..n]);
      outputBuffer.Retrieve(n);
      assert inputBuffer.V() == old(inputBuffer.V());
    }

    /** Lines 269 to 276. */
    method OutputDrained()
      requires Valid()
      modifies this
      ensures Valid() && Repr() == old(Repr())
      ensures C() == Drained(cfg, old(C()))
    {
      writing := false;
      if cfg.writeComplete {
        past := past.(notices := past.notices + [WriteComplete]);
      }
      if state == Disconnecting {
        ShutdownInLoop();
      }
    }

    method HandleWrite(w: WriteResult)
      requires Valid() && Connection.Legal(C(), Event.Writable(w))
      modifies this, outputBuffer
      ensures Valid() && Repr() == old(Repr())
      ensures C() == Connection.Step(cfg, old(C()), Event.Writable(w))
    {
      if writing {
        if w.Wrote? && w.n > 0 {
          TookOutput(w.n);
          if outputBuffer.ReadableBytes() == 0 {
            OutputDrained();
          }
        }
      }
    }

    method ReadInput(result: ReadResult) returns (n: int)
      requires Valid() && Buffers.Legal(inputBuffer.V(), Op.ReadFd(result))
      modifies inputBuffer, inputBuffer.data
      ensures Valid() && fresh(Repr() - old(Repr())) && outputBuffer.data == old(outputBuffer.data)
      ensures result.ReadError? ==> n < 0 && C() == old(C())
      ensures result.ReadBytes? ==> n == |result.bytes|
      ensures result.ReadBytes? ==> C() == old(C()).(input := old(C()).input + result.bytes)
    {
      var savedErrno;
      n, savedErrno := inputBuffer.ReadFd(result);
    }

    /** Answers whether the message callback is due on the input buffer. */
    method HandleRead(result: ReadResult) returns (message: bool)
      requires Valid() && Connection.Legal(C(), Read(result)) && (result == ReadBytes([]) ==> C().Up())
      requires Buffers.Legal(inputBuffer.V(), Op.ReadFd(result))
      modifies this, inputBuffer, inputBuffer.data
      ensures Valid() && fresh(Repr() - old(Repr())) && outputBuffer.data == old(outputBuffer.data)
      ensures C() == Connection.Step(cfg, old(C()), Read(result))
      ensures message <==> result.ReadBytes? && result.bytes != []
    {
      var n := ReadInput(result);
      if n > 0 {
        message := true;
      } else if n == 0 {
        message := false;
        HandleClose();
      } else {
        message := false;
      }
    }

    method ConnectEstablished()
      requires Valid() && Connection.Legal(C(), Establish)
      modifies this
      ensures Valid() && Repr() == old(Repr())
      ensures C() == Connection.Step(cfg, old(C()), Establish)
    {
      state := Connected;
      reading := true;
    }

    method ConnectDestroyed()
      requires Valid()
      modifies this
      ensures Valid() && Repr() == old(Repr())
      ensures C() == Connection.Step(cfg, old(C()), Destroy)
    {
      if state == Connected {
        state := Disconnected;
        reading, writing := false, false;
      }
    }

    method StartReadInLoop()
      requires Valid()
      modifies this
      ensures Valid() && Repr() == old(Repr())
      ensures C() == Connection.Step(cfg, old(C()), StartRead)
    {
      if !wantsRead || !reading {
        reading := true;
        wantsRead := true;
      }
    }

    method StopReadInLoop()
      requires Valid()
      modifies this
      ensures Valid() && Repr() == old(Repr())
      ensures C() == Connection.Step(cfg, old(C()), StopRead)
    {
      if wantsRead || reading {
        reading := false;
        wantsRead := false;
      }
    }
  }
}
