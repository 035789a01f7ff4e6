/** suduo/net/Channel.h and Channel.cpp: the event mask and the dispatch of one poll result. */
module Channels {

  /** `enable_reading` asks for POLLIN and POLLPRI together, so the mask has two bits. */
  datatype Interest = Interest(read: bool, write: bool)

  const NONE := Interest(false, false)

  /** The five ways in which a channel rewrites its mask before it updates its poller. */
  datatype Ask = EnableReading | DisableReading | EnableWriting | DisableWriting | DisableAll

  function Asked(events: Interest, ask: Ask): Interest {
    match ask
    case EnableReading => events.(read := true)
    case DisableReading => events.(read := false)
    case EnableWriting => events.(write := true)
    case DisableWriting => events.(write := false)
    case DisableAll => NONE
  }

  const POLLIN: nat := 0x1
  const POLLPRI: nat := 0x2
  const POLLOUT: nat := 0x4
  const POLLERR: nat := 0x8
  const POLLHUP: nat := 0x10
  const POLLNVAL: nat := 0x20
  const POLLRDHUP: nat := 0x2000

  predicate Has(revents: nat, bit: nat)
    requires bit > 0
  {
    revents / bit % 2 == 1
  }

  datatype Callback = CloseCallback | ErrorCallback | ReadCallback | WriteCallback

  function When(c: bool, callback: Callback): seq<Callback> {
    if c then [callback] else []
  }

  /** The callbacks of one dispatch, in order; none if the tied object is gone. */
  function Dispatch(revents: nat, tied: bool, alive: bool): seq<Callback> {
    if tied && !alive then []
    else
      When(Has(revents, POLLHUP) && !Has(revents, POLLIN), CloseCallback)
      + When(Has(revents, POLLERR) || Has(revents, POLLNVAL), ErrorCallback)
      + When(Has(revents, POLLIN) || Has(revents, POLLPRI) || Has(revents, POLLRDHUP), ReadCallback)
      + When(Has(revents, POLLOUT), WriteCallback)
  }

  /** A dispatch both closes and reads exactly on a hang-up without POLLIN but with POLLPRI or POLLRDHUP. */
  lemma CloseAndReadIff(revents: nat, tied: bool, alive: bool)
    ensures var d := Dispatch(revents, tied, alive);
      (CloseCallback in d && ReadCallback in d)
        <==> && (!tied || alive) && Has(revents, POLLHUP) && !Has(revents, POLLIN)
             && (Has(revents, POLLPRI) || Has(revents, POLLRDHUP))
  {
    hide Has;
  }

  /** A close comes before the other callbacks of the dispatch, and once. */
  lemma CloseComesFirst(revents: nat, tied: bool, alive: bool)
    requires CloseCallback in Dispatch(revents, tied, alive)
    ensures Dispatch(revents, tied, alive)[0] == CloseCallback
    ensures CloseCallback !in Dispatch(revents, tied, alive)[1..]
  {
    hide Has;
    var d := Dispatch(revents, tied, alive);
    assert d[1..] == When(Has(revents, POLLERR) || Has(revents, POLLNVAL), ErrorCallback)
      + When(Has(revents, POLLIN) || Has(revents, POLLPRI) || Has(revents, POLLRDHUP), ReadCallback)
      + When(Has(revents, POLLOUT), WriteCallback);
  }

  /** Each callback is made exactly for its bits; nothing is made for a tied object that is gone. */
  lemma DispatchExactly(revents: nat, tied: bool, alive: bool)
    ensures var d := Dispatch(revents, tied, alive); var heard := !tied || alive;
      && (CloseCallback in d <==> heard && Has(revents, POLLHUP) && !Has(revents, POLLIN))
      && (ErrorCallback in d <==> heard && (Has(revents, POLLERR) || Has(revents, POLLNVAL)))
      && (ReadCallback in d <==>
            heard && (Has(revents, POLLIN) || Has(revents, POLLPRI) || Has(revents, POLLRDHUP)))
      && (WriteCallback in d <==> heard && Has(revents, POLLOUT))
  {
    hide Has;
  }

  function Rank(c: Callback): nat {
    match c
    case CloseCallback => 0
    case ErrorCallback => 1
    case ReadCallback => 2
    case WriteCallback => 3
  }

  /** In this order, so each at most once. */
  lemma DispatchInOrder(revents: nat, tied: bool, alive: bool, i: nat, j: nat)
    requires i < j < |Dispatch(revents, tied, alive)|
    ensures var d := Dispatch(revents, tied, alive); Rank(d[i]) < Rank(d[j])
  {
    hide Has;
  }

  /** A bit of the reported events: `low` are the bits below it and `high` those above. */
  lemma HasBit(high: nat, bit: nat, isSet: bool, low: nat)
    requires bit > 0 && low < bit
    ensures Has((2 * high + (if isSet then 1 else 0)) * bit + low, bit) <==> isSet
  {
    QuotientIs(2 * high + if isSet then 1 else 0, bit, low);
  }

  lemma QuotientIs(q: nat, bit: nat, low: nat)
    requires bit > 0 && low < bit
    ensures (q * bit + low) / bit == q
  {
    var r := (q * bit + low) / bit;
    assert (q - r) * bit == (q * bit + low) % bit - low;
    MultipleIsFar(q - r, bit);
  }

  lemma MultipleIsFar(d: int, bit: nat)
    requires bit > 0
    ensures d == 0 || d * bit >= bit || d * bit + bit <= 0
  {
  }

  /** A request changes the bit it names, or both bits to nothing. */
  lemma AskedExactly(events: Interest, ask: Ask)
    ensures var e := Asked(events, ask);
      && e.read == (ask.EnableReading? || (events.read && !ask.DisableReading? && !ask.DisableAll?))
      && e.write == (ask.EnableWriting? || (events.write && !ask.DisableWriting? && !ask.DisableAll?))
  {
  }

  class Channel {
    const fd: nat
    var index: int
    var events: Interest
    var revents: nat
    var tied: bool
    var eventHandling: bool
    // history
    ghost var calls: seq<Callback>

    constructor (fd: nat)
      ensures this.fd == fd && index == -1 && events == NONE && revents == 0 && !tied && !eventHandling
    {
      this.fd := fd;
      index, events, revents, tied, eventHandling := -1, NONE, 0, false, false;
      calls := [];
    }

    /** The mask only; the poller's update follows. */
    method Rewrite(ask: Ask)
      modifies this`events
      ensures events == Asked(old(events), ask)
    {
      match ask
      case EnableReading => events := events.(read := true);
      case DisableReading => events := events.(read := false);
      case EnableWriting => events := events.(write := true);
      case DisableWriting => events := events.(write := false);
      case DisableAll => events := NONE;
    }

    /** `alive` says whether the tied object still exists. */
    method HandleEvent(alive: bool)
      modifies this`eventHandling, this`calls
      ensures calls == old(calls) + Dispatch(revents, tied, alive)
      ensures eventHandling == (old(eventHandling) && tied && !alive)
    {
      hide Has;
      if tied {
        if alive {
          HandleEventWithGuard();
        }
      } else {
        HandleEventWithGuard();
      }
    }

    method HandleEventWithGuard()
      modifies this`eventHandling, this`calls
      ensures calls == old(calls) + Dispatch(revents, false, true)
      ensures !eventHandling
    {
      hide Has;
      eventHandling := true;
      ghost var made: seq<Callback> := [];
      if Has(revents, POLLHUP) && !Has(revents, POLLIN) {
        made := [CloseCallback];
      }
      if Has(revents, POLLERR) || Has(revents, POLLNVAL) {
        made := made + [ErrorCallback];
      }
      if Has(revents, POLLIN) || Has(revents, POLLPRI) || Has(revents, POLLRDHUP) {
        made := made + [ReadCallback];
      }
      if Has(revents, POLLOUT) {
        made := made + [WriteCallback];
      }
      calls := calls + made;
      eventHandling := false;
    }
  }
}
