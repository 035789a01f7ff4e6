/**
 Every legal run of buffer operations acts on the readable bytes as on a plain byte queue,
 whatever growing, compacting or shrinking happens underneath.
 */
module ByteQueue {
  import opened Bytes
  import opened Endian
  import opened Buffers

  ghost predicate QueueLegal(q: seq<byte>, op: Op) {
    match op
    case Unwrite(len) => len <= |q|
    case RetrieveAsString(len) => len <= |q|
    case AppendInt(x, width) => SignedRange(x, width)
    case PrependInt(x, width) => SignedRange(x, width)
    case PeekInt(width) => width <= |q|
    case ReadInt(width) => width <= |q|
    case _ => true
  }

  function Dropped(q: seq<byte>, len: nat): seq<byte> {
    if len < |q| then q[len..] else []
  }

  /** The queue has no array, no indices and no capacity. */
  ghost function QueueStep(q: seq<byte>, op: Op): seq<byte>
    requires QueueLegal(q, op)
  {
    match op
    case Append(bytes) => q + bytes
    case Unwrite(len) => q[..|q| - len]
    case Retrieve(len) => Dropped(q, len)
    case RetrieveAsString(len) => Dropped(q, len)
    case Prepend(bytes) => bytes + q
    case ReadFd(ReadBytes(bytes)) => q + bytes
    case AppendInt(x, width) => q + EncodeInt(x, width)
    case PrependInt(x, width) => EncodeInt(x, width) + q
    case ReadInt(width) => Dropped(q, width)
    case _ => q
  }

  ghost function QueueResult(q: seq<byte>, op: Op): Output
    requires QueueLegal(q, op)
  {
    match op
    case RetrieveAsString(len) => OutBytes(q[..len])
    case PeekInt(width) => OutInt(DecodeInt(q[..width]))
    case ReadInt(width) => OutInt(DecodeInt(q[..width]))
    case _ => NoOutput
  }

  ghost predicate LegalRun(v: View, ops: seq<Op>)
    requires v.Valid()
    decreases |ops|
  {
    ops == [] || (Legal(v, ops[0]) && LegalRun(Step(v, ops[0]), ops[1..]))
  }

  ghost function Run(v: View, ops: seq<Op>): (w: View)
    requires v.Valid() && LegalRun(v, ops)
    ensures w.Valid()
    decreases |ops|
  {
    if ops == [] then v else Run(Step(v, ops[0]), ops[1..])
  }

  ghost function Outputs(v: View, ops: seq<Op>): seq<Output>
    requires v.Valid() && LegalRun(v, ops)
    decreases |ops|
  {
    if ops == [] then [] else [Result(v, ops[0])] + Outputs(Step(v, ops[0]), ops[1..])
  }

  ghost predicate QueueLegalRun(q: seq<byte>, ops: seq<Op>)
    decreases |ops|
  {
    ops == [] || (QueueLegal(q, ops[0]) && QueueLegalRun(QueueStep(q, ops[0]), ops[1..]))
  }

  ghost function QueueRun(q: seq<byte>, ops: seq<Op>): seq<byte>
    requires QueueLegalRun(q, ops)
    decreases |ops|
  {
    if ops == [] then q else QueueRun(QueueStep(q, ops[0]), ops[1..])
  }

  ghost function QueueOutputs(q: seq<byte>, ops: seq<Op>): seq<Output>
    requires QueueLegalRun(q, ops)
    decreases |ops|
  {
    if ops == [] then [] else [QueueResult(q, ops[0])] + QueueOutputs(QueueStep(q, ops[0]), ops[1..])
  }

  lemma StepRefinesQueue(v: View, op: Op)
    requires v.Valid() && Legal(v, op)
    ensures QueueLegal(v.readable, op)
    ensures Step(v, op).readable == QueueStep(v.readable, op)
    ensures Result(v, op) == QueueResult(v.readable, op)
  {
    if op.ReadFd? && op.result.ReadBytes? && |op.result.bytes| > v.Writeable() {
      var bytes := op.result.bytes;
      assert bytes == bytes[..v.Writeable()] + bytes[v.Writeable()..];
    }
  }

  /** Refinement over whole runs: same readable bytes, same outputs. */
  lemma {:induction false} RunRefinesQueue(v: View, ops: seq<Op>)
    requires v.Valid() && LegalRun(v, ops)
    ensures QueueLegalRun(v.readable, ops)
    ensures Run(v, ops).readable == QueueRun(v.readable, ops)
    ensures Outputs(v, ops) == QueueOutputs(v.readable, ops)
    decreases |ops|
  {
    if ops != [] {
      StepRefinesQueue(v, ops[0]);
      RunRefinesQueue(Step(v, ops[0]), ops[1..]);
    }
  }

  ghost predicate PrependFree(ops: seq<Op>) {
    forall op <- ops :: !op.Prepend? && !op.PrependInt?
  }

  /**
   The reserved prefix: after any run without a prepend, eight bytes or fewer can be
   prepended without touching the capacity.
   */
  lemma {:induction false} ReservedPrefixKept(v: View, ops: seq<Op>)
    requires v.Valid() && LegalRun(v, ops) && PrependFree(ops)
    requires v.headroom >= PRE_APPEND_SIZE
    ensures Run(v, ops).headroom >= PRE_APPEND_SIZE
    ensures forall bytes :: |bytes| <= PRE_APPEND_SIZE ==> Legal(Run(v, ops), Prepend(bytes))
    decreases |ops|
  {
    if ops != [] {
      assert ops[0] in ops;
      ReservedPrefixKept(Step(v, ops[0]), ops[1..]);
    }
  }

  /** Emptied by whatever retrieval, a buffer is back at its reserved prefix; a shorter one moves the read index. */
  lemma RetrievalMovesIndex(v: View, len: nat)
    requires v.Valid()
    ensures var w := Step(v, Retrieve(len));
      && w.size == v.size
      && w.headroom == (if len < |v.readable| then v.headroom + len else 8)
  {
  }

  /** The array grows exactly if the free bytes but for the reserved prefix do not suffice, and to what is needed. */
  lemma GrowsIffNeeded(v: View, len: nat)
    requires v.Valid()
    ensures var w := Step(v, EnsureWriteable(len));
      && w.Writeable() >= len
      && (v.Writeable() >= len ==> w == v)
      && (w.size > v.size <==> v.Writeable() < len && v.size < 8 + |v.readable| + len)
      && (w.size > v.size ==> w.size == v.headroom + |v.readable| + len && w.headroom == v.headroom)
      && (w.size == v.size && w != v ==> w.headroom == 8)
  {
  }

  /** A shrunk buffer has its reserved prefix and room for the reserve, and no more than it needs. */
  lemma ShrunkHasReserve(v: View, reserve: nat)
    requires v.Valid()
    ensures var w := Step(v, Shrink(reserve));
      && w.headroom == 8 && w.Writeable() >= reserve
      && w.size == (if |v.readable| + reserve <= 1024 then 1032 else 8 + |v.readable| + reserve)
  {
  }

  // Integers read back unchanged.

  datatype Sized = Sized(x: int, width: nat)

  ghost predicate InRange(ints: seq<Sized>) {
    forall i <- ints :: SignedRange(i.x, i.width)
  }

  ghost function AppendAll(ints: seq<Sized>): seq<Op> {
    if ints == [] then [] else [AppendInt(ints[0].x, ints[0].width)] + AppendAll(ints[1..])
  }

  ghost function ReadAll(ints: seq<Sized>): seq<Op> {
    if ints == [] then [] else [ReadInt(ints[0].width)] + ReadAll(ints[1..])
  }

  ghost function Encoded(ints: seq<Sized>): seq<byte>
    requires InRange(ints)
  {
    if ints == [] then [] else EncodeInt(ints[0].x, ints[0].width) + Encoded(ints[1..])
  }

  lemma RunCons(v: View, op: Op, ops: seq<Op>)
    requires v.Valid() && Legal(v, op) && LegalRun(Step(v, op), ops)
    ensures LegalRun(v, [op] + ops)
    ensures Run(v, [op] + ops) == Run(Step(v, op), ops)
    ensures Outputs(v, [op] + ops) == [Result(v, op)] + Outputs(Step(v, op), ops)
  {
    assert ([op] + ops)[1..] == ops;
  }

  lemma {:induction false} AppendAllWrites(v: View, ints: seq<Sized>)
    requires v.Valid() && InRange(ints)
    ensures LegalRun(v, AppendAll(ints))
    ensures Run(v, AppendAll(ints)).readable == v.readable + Encoded(ints)
    decreases |ints|
  {
    if ints != [] {
      var first := AppendInt(ints[0].x, ints[0].width);
      var code := EncodeInt(ints[0].x, ints[0].width);
      assert Step(v, first).readable == v.readable + code;
      AppendAllWrites(Step(v, first), ints[1..]);
      RunCons(v, first, AppendAll(ints[1..]));
      ConcatAssociative(v.readable, code, Encoded(ints[1..]));
    }
  }

  ghost function Values(ints: seq<Sized>): seq<Output> {
    if ints == [] then [] else [OutInt(ints[0].x)] + Values(ints[1..])
  }

  lemma ReadOne(v: View, i: Sized, rest: seq<byte>)
    requires v.Valid() && SignedRange(i.x, i.width)
    requires v.readable == EncodeInt(i.x, i.width) + rest
    ensures Legal(v, ReadInt(i.width)) && Result(v, ReadInt(i.width)) == OutInt(i.x)
    ensures Step(v, ReadInt(i.width)).readable == rest
  {
    DecodeEncodeInt(i.x, i.width);
    assert v.readable[..i.width] == EncodeInt(i.x, i.width);
  }

  lemma {:induction false} ReadAllReads(v: View, ints: seq<Sized>)
    requires v.Valid() && InRange(ints) && v.readable == Encoded(ints)
    ensures LegalRun(v, ReadAll(ints))
    ensures Outputs(v, ReadAll(ints)) == Values(ints)
    ensures Run(v, ReadAll(ints)).readable == []
    decreases |ints|
  {
    if ints != [] {
      var first := ReadInt(ints[0].width);
      ReadOne(v, ints[0], Encoded(ints[1..]));
      ReadAllReads(Step(v, first), ints[1..]);
      RunCons(v, first, ReadAll(ints[1..]));
    }
  }

  /** Any list of integers of any widths, appended behind anything, reads back in order. */
  lemma AppendedIntegersReadBack(v: View, ints: seq<Sized>)
    requires v.Valid() && InRange(ints)
    ensures LegalRun(v, AppendAll(ints))
    ensures var w := Step(Run(v, AppendAll(ints)), Retrieve(|v.readable|));
      && LegalRun(w, ReadAll(ints))
      && Outputs(w, ReadAll(ints)) == Values(ints)
      && Run(w, ReadAll(ints)).readable == []
  {
    AppendAllWrites(v, ints);
    var full := Run(v, AppendAll(ints));
    var w := Step(full, Retrieve(|v.readable|));
    assert w.readable == Encoded(ints);
    ReadAllReads(w, ints);
  }

  /** A prepended integer reads back, and reading it restores the readable bytes. */
  lemma PrependedIntegerReadsBack(v: View, x: int, width: nat)
    requires v.Valid() && Legal(v, PrependInt(x, width))
    ensures var w := Step(v, PrependInt(x, width));
      && Legal(w, ReadInt(width))
      && Result(w, ReadInt(width)) == OutInt(x)
      && Step(w, ReadInt(width)).readable == v.readable
  {
    ReadOne(Step(v, PrependInt(x, width)), Sized(x, width), v.readable);
  }
}
