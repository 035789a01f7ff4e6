/**
 suduo/net/Buffer.h and Buffer.cpp: a growable array with two indices.

 Three levels.  `Buffer` is the class over an array.  `View` is its observable shape: the
 readable bytes, the read index and the array size.  A plain byte queue is a sequence.
 Each method of the class performs one case of `Step` on views, and every legal run of steps acts
 on the readable bytes as on the queue.
 */
module Buffers {
  import opened Bytes
  import opened Endian

  const INIT_SIZE: nat := 1024
  const PRE_APPEND_SIZE: nat := 8
  const EXTRA_SIZE: nat := 65536

  datatype View = View(readable: seq<byte>, headroom: nat, size: nat) {
    ghost predicate Valid() {
      PRE_APPEND_SIZE <= size && headroom + |readable| <= size
    }

    function Writeable(): nat
      requires Valid()
    {
      size - headroom - |readable|
    }
  }

  const EMPTY_VIEW := View([], PRE_APPEND_SIZE, PRE_APPEND_SIZE + INIT_SIZE)

  /** What one `readv` delivered, or its errno. */
  datatype ReadResult = ReadError(errno: int) | ReadBytes(bytes: seq<byte>)

  datatype Op =
    | EnsureWriteable(len: nat)
    | Append(bytes: seq<byte>)
    | Unwrite(len: nat)
    | Retrieve(len: nat)
    | RetrieveAsString(len: nat)
    | Prepend(bytes: seq<byte>)
    | Shrink(reserve: nat)
    | ReadFd(result: ReadResult)
    | AppendInt(x: int, width: nat)
    | PrependInt(x: int, width: nat)
    | PeekInt(width: nat)
    | ReadInt(width: nat)

  datatype Output = NoOutput | OutBytes(bytes: seq<byte>) | OutInt(x: int)

  /** What the caller, or the kernel for `ReadFd`, must respect. */
  ghost predicate Legal(v: View, op: Op)
    requires v.Valid()
  {
    match op
    case Unwrite(len) => len <= |v.readable|
    case RetrieveAsString(len) => len <= |v.readable|
    case Prepend(bytes) => |bytes| <= v.headroom
    case ReadFd(ReadBytes(bytes)) =>
      |bytes| <= v.Writeable() + (if v.Writeable() < EXTRA_SIZE then EXTRA_SIZE else 0)
    case AppendInt(x, width) => SignedRange(x, width)
    case PrependInt(x, width) => SignedRange(x, width) && width <= v.headroom
    case PeekInt(width) => width <= |v.readable|
    case ReadInt(width) => width <= |v.readable|
    case _ => true
  }

  ghost predicate MustGrow(v: View, len: nat)
    requires v.Valid()
  {
    v.Writeable() + v.headroom < len + PRE_APPEND_SIZE
  }

  ghost function MadeRoom(v: View, len: nat): (w: View)
    requires v.Valid()
    ensures w.Valid() && w.readable == v.readable && w.Writeable() >= len
    ensures w.headroom <= v.headroom && w.size >= v.size
  {
    if v.Writeable() >= len then v
    else if MustGrow(v, len) then v.(size := v.headroom + |v.readable| + len)
    else v.(headroom := PRE_APPEND_SIZE)
  }

  ghost function Appended(v: View, bytes: seq<byte>): (w: View)
    requires v.Valid()
    ensures w.Valid() && w.readable == v.readable + bytes
  {
    var r := MadeRoom(v, |bytes|);
    r.(readable := v.readable + bytes)
  }

  ghost function Retrieved(v: View, len: nat): (w: View)
    requires v.Valid()
    ensures w.Valid()
  {
    if len < |v.readable| then v.(readable := v.readable[len..], headroom := v.headroom + len)
    else v.(readable := [], headroom := PRE_APPEND_SIZE)
  }

  ghost function Step(v: View, op: Op): (w: View)
    requires v.Valid() && Legal(v, op)
    ensures w.Valid()
  {
    match op
    case EnsureWriteable(len) => MadeRoom(v, len)
    case Append(bytes) => Appended(v, bytes)
    case Unwrite(len) => v.(readable := v.readable[..|v.readable| - len])
    case Retrieve(len) => Retrieved(v, len)
    case RetrieveAsString(len) => Retrieved(v, len)
    case Prepend(bytes) => v.(readable := bytes + v.readable, headroom := v.headroom - |bytes|)
    case Shrink(reserve) => Appended(MadeRoom(EMPTY_VIEW, |v.readable| + reserve), v.readable)
    case ReadFd(ReadError(_)) => v
    case ReadFd(ReadBytes(bytes)) =>
      if |bytes| <= v.Writeable() then v.(readable := v.readable + bytes)
      else
        Appended(v.(readable := v.readable + bytes[..v.Writeable()]), bytes[v.Writeable()..])
    case AppendInt(x, width) => Appended(v, EncodeInt(x, width))
    case PrependInt(x, width) =>
      v.(readable := EncodeInt(x, width) + v.readable, headroom := v.headroom - width)
    case PeekInt(width) => v
    case ReadInt(width) => Retrieved(v, width)
  }

  ghost function Result(v: View, op: Op): Output
    requires v.Valid() && Legal(v, op)
  {
    match op
    case RetrieveAsString(len) => OutBytes(v.readable[..len])
    case PeekInt(width) => OutInt(DecodeInt(v.readable[..width]))
    case ReadInt(width) => OutInt(DecodeInt(v.readable[..width]))
    case _ => NoOutput
  }

  /**
   The compaction branch is reached only with a read index above the reserved prefix, so its
   copy moves bytes to lower indices; and afterwards the requested room is there.
   */
  lemma CompactionMovesLeft(v: View, len: nat)
    requires v.Valid() && v.Writeable() < len && !MustGrow(v, len)
    ensures v.headroom > PRE_APPEND_SIZE
    ensures v.size - PRE_APPEND_SIZE - |v.readable| >= len
  {
  }

  lemma SegmentIs(a: array<byte>, lo: nat, hi: nat, s: seq<byte>)
    requires lo <= hi <= a.Length && |s| == hi - lo
    requires forall j :: lo <= j < hi ==> a[j] == s[j - lo]
    ensures a[lo..hi] == s
  {
  }

  /** `std::copy` of bytes into an array. */
  method Store(a: array<byte>, at: nat, bytes: seq<byte>)
    requires at + |bytes| <= a.Length
    modifies a
    ensures forall j :: at <= j < at + |bytes| ==> a[j] == bytes[j - at]
    ensures forall j :: 0 <= j < at || at + |bytes| <= j < a.Length ==> a[j] == old(a[j])
  {
    var k := 0;
    while k < |bytes|
      invariant 0 <= k <= |bytes|
      invariant forall j :: at <= j < at + k ==> a[j] == bytes[j - at]
      invariant forall j :: 0 <= j < at || at + k <= j < a.Length ==> a[j] == old(a[j])
    {
      a[at + k] := bytes[k];
      k := k + 1;
    }
  }

  class Buffer {
    var data: array<byte>
    var readIndex: nat
    var writeIndex: nat

    ghost predicate Valid()
      reads this
    {
      PRE_APPEND_SIZE <= data.Length && readIndex <= writeIndex <= data.Length
    }

    ghost function V(): (v: View)
      requires Valid()
      reads this, data
      ensures v.Valid()
    {
      View(data[readIndex..writeIndex], readIndex, data.Length)
    }

    constructor ()
      ensures Valid() && fresh(data)
      ensures V() == EMPTY_VIEW
    {
      data := new byte[PRE_APPEND_SIZE + INIT_SIZE];
      readIndex := PRE_APPEND_SIZE;
      writeIndex := PRE_APPEND_SIZE;
    }

    function ReadableBytes(): (n: nat)
      requires Valid()
      reads this, data
      ensures n == |V().readable|
    {
      writeIndex - readIndex
    }

    function WriteableBytes(): (n: nat)
      requires Valid()
      reads this, data
      ensures n == V().Writeable()
    {
      data.Length - writeIndex
    }

    /** The readable bytes as a string; the buffer is unchanged. */
    method ToString() returns (s: seq<byte>)
      requires Valid()
      ensures s == V().readable
    {
      s := data[readIndex..writeIndex];
    }

    /** First position of CR LF among the readable bytes. */
    method FindCrlf() returns (at: Option<nat>)
      requires Valid()
      ensures at == FirstCrlf(V().readable)
    {
      var k := readIndex;
      while k + 1 < writeIndex
        invariant readIndex <= k <= writeIndex
        invariant forall j :: 0 <= j < k - readIndex ==> !CrlfAt(V().readable, j)
      {
        if data[k] == CR && data[k + 1] == LF {
          assert CrlfAt(V().readable, k - readIndex);
          FirstCrlfIs(V().readable, k - readIndex);
          return Some(k - readIndex);
        }
        k := k + 1;
      }
      NoCrlfIs(V().readable);
      return None;
    }

    method RetrieveAll()
      requires Valid()
      modifies this
      ensures Valid() && data == old(data)
      ensures V() == old(V()).(readable := [], headroom := PRE_APPEND_SIZE)
    {
      readIndex := PRE_APPEND_SIZE;
      writeIndex := PRE_APPEND_SIZE;
    }

    method Retrieve(len: nat)
      requires Valid()
      modifies this
      ensures Valid() && data == old(data)
      ensures V() == Retrieved(old(V()), len)
    {
      if len < ReadableBytes() {
        readIndex := readIndex + len;
      } else {
        RetrieveAll();
      }
    }

    method RetrieveAsString(len: nat) returns (s: seq<byte>)
      requires Valid() && len <= |V().readable|
      modifies this
      ensures Valid() && data == old(data)
      ensures s == old(V()).readable[..len] && V() == Retrieved(old(V()), len)
    {
      s := data[readIndex..readIndex + len];
      Retrieve(len);
    }

    method RetrieveAllAsString() returns (s: seq<byte>)
      requires Valid()
      modifies this
      ensures Valid() && data == old(data)
      ensures s == old(V()).readable && V() == Retrieved(old(V()), |s|)
    {
      s := RetrieveAsString(ReadableBytes());
    }

    method Unwrite(len: nat)
      requires Valid() && Legal(V(), Op.Unwrite(len))
      modifies this
      ensures Valid() && data == old(data)
      ensures V() == Step(old(V()), Op.Unwrite(len))
    {
      ghost var kept := V().readable[..ReadableBytes() - len];
      writeIndex := writeIndex - len;
      SegmentIs(data, readIndex, writeIndex, kept);
    }

    /** Compaction: an ascending copy within the array, to lower indices. */
    method Compact()
      requires Valid() && readIndex > PRE_APPEND_SIZE
      modifies this, data
      ensures Valid() && data == old(data)
      ensures V() == old(V()).(headroom := PRE_APPEND_SIZE)
    {
      ghost var kept := V().readable;
      var readable := ReadableBytes();
      var k := 0;
      while k < readable
        modifies data
        invariant 0 <= k <= readable
        invariant forall j :: PRE_APPEND_SIZE <= j < PRE_APPEND_SIZE + k ==> data[j] == kept[j - PRE_APPEND_SIZE]
        invariant forall j :: readIndex + k <= j < writeIndex ==> data[j] == kept[j - readIndex]
      {
        data[PRE_APPEND_SIZE + k] := data[readIndex + k];
        k := k + 1;
      }
      readIndex := PRE_APPEND_SIZE;
      writeIndex := readIndex + readable;
      SegmentIs(data, readIndex, writeIndex, kept);
    }

    /** `std::vector::resize`: a longer array with the same beginning. */
    method Resize(size: nat)
      requires Valid() && size >= data.Length
      modifies this
      ensures Valid() && fresh(data)
      ensures V() == old(V()).(size := size)
    {
      var bigger := new byte[size];
      forall k | 0 <= k < data.Length {
        bigger[k] := data[k];
      }
      ghost var readable := V().readable;
      data := bigger;
      SegmentIs(data, readIndex, writeIndex, readable);
    }

    method MakeSpace(len: nat)
      requires Valid() && WriteableBytes() < len
      modifies this, data
      ensures Valid() && (data == old(data) || fresh(data))
      ensures V() == MadeRoom(old(V()), len)
    {
      if WriteableBytes() + readIndex < len + PRE_APPEND_SIZE {
        Resize(writeIndex + len);
      } else {
        CompactionMovesLeft(V(), len);
        Compact();
      }
    }

    method EnsureWriteableBytes(len: nat)
      requires Valid()
      modifies this, data
      ensures Valid() && (data == old(data) || fresh(data))
      ensures V() == MadeRoom(old(V()), len)
    {
      if WriteableBytes() < len {
        MakeSpace(len);
      }
    }

    /** Copies bytes behind the readable ones, where there is room, and advances the write index. */
    method CopyIn(bytes: seq<byte>)
      requires Valid() && |bytes| <= WriteableBytes()
      modifies this, data
      ensures Valid() && data == old(data)
      ensures V() == old(V()).(readable := old(V()).readable + bytes)
    {
      ghost var readable := V().readable;
      Store(data, writeIndex, bytes);
      writeIndex := writeIndex + |bytes|;
      SegmentIs(data, readIndex, writeIndex, readable + bytes);
    }

    method Append(bytes: seq<byte>)
      requires Valid()
      modifies this, data
      ensures Valid() && (data == old(data) || fresh(data))
      ensures V() == Appended(old(V()), bytes)
    {
      EnsureWriteableBytes(|bytes|);
      CopyIn(bytes);
    }

    method Prepend(bytes: seq<byte>)
      requires Valid() && Legal(V(), Op.Prepend(bytes))
      modifies this, data
      ensures Valid() && data == old(data)
      ensures V() == Step(old(V()), Op.Prepend(bytes))
    {
      ghost var readable := V().readable;
      readIndex := readIndex - |bytes|;
      Store(data, readIndex, bytes);
      SegmentIs(data, readIndex, writeIndex, bytes + readable);
    }

    method Swap(other: Buffer)
      requires Valid() && other.Valid()
      modifies this, other
      ensures Valid() && other.Valid()
      ensures data == old(other.data) && other.data == old(data)
      ensures V() == old(other.V()) && other.V() == old(V())
    {
      data, other.data := other.data, data;
      readIndex, other.readIndex := other.readIndex, readIndex;
      writeIndex, other.writeIndex := other.writeIndex, writeIndex;
    }

    method Shrink(reserve: nat)
      requires Valid()
      modifies this
      ensures Valid() && fresh(data)
      ensures V() == Step(old(V()), Op.Shrink(reserve))
    {
      var s := ToString();
      var other := Rebuilt(s, reserve);
      Swap(other);
    }

    static method Rebuilt(s: seq<byte>, reserve: nat) returns (other: Buffer)
      ensures fresh(other) && other.Valid() && fresh(other.data)
      ensures other.V() == Appended(MadeRoom(EMPTY_VIEW, |s| + reserve), s)
    {
      other := new Buffer();
      other.EnsureWriteableBytes(|s| + reserve);
      other.Append(s);
    }

    /** Scatter read: the writeable tail first, then an array on the stack that is appended. */
    method ReadFd(result: ReadResult) returns (n: int, savedErrno: int)
      requires Valid() && Legal(V(), Op.ReadFd(result))
      modifies this, data
      ensures Valid() && (data == old(data) || fresh(data))
      ensures V() == Step(old(V()), Op.ReadFd(result))
      ensures result.ReadError? ==> n < 0 && savedErrno == result.errno
      ensures result.ReadBytes? ==> n == |result.bytes|
    {
      savedErrno := 0;
      match result
      case ReadError(errno) =>
        n := -1;
        savedErrno := errno;
      case ReadBytes(bytes) =>
        n := |bytes|;
        var writeable := WriteableBytes();
        if n <= writeable {
          CopyIn(bytes);
        } else {
          CopyIn(bytes[..writeable]);
          assert writeIndex == data.Length;
          Append(bytes[writeable..]);
        }
    }

    method AppendInt(host: ByteOrder, x: int, width: nat)
      requires Valid() && SignedRange(x, width)
      modifies this, data
      ensures Valid() && (data == old(data) || fresh(data))
      ensures V() == Appended(old(V()), EncodeInt(x, width))
    {
      NetworkImageIsBigEndian(host, ToUnsigned(x, width), width);
      var swapped := HostToNetwork(host, ToUnsigned(x, width), width);
      Append(Image(host, swapped, width));
    }

    method PrependInt(host: ByteOrder, x: int, width: nat)
      requires Valid() && SignedRange(x, width) && width <= V().headroom
      modifies this, data
      ensures Valid() && data == old(data)
      ensures V() == Step(old(V()), Op.PrependInt(x, width))
    {
      NetworkImageIsBigEndian(host, ToUnsigned(x, width), width);
      var swapped := HostToNetwork(host, ToUnsigned(x, width), width);
      Prepend(Image(host, swapped, width));
    }

    method PeekInt(host: ByteOrder, width: nat) returns (x: int)
      requires Valid() && width <= |V().readable|
      ensures x == DecodeInt(V().readable[..width])
    {
      var image := data[readIndex..readIndex + width];
      assert image == V().readable[..width];
      LoadedNetworkInteger(host, image);
      FromBigEndianRoundTrip(image);
      x := ToSigned(NetworkToHost(host, FromImage(host, image), width), width);
    }

    method ReadInt(host: ByteOrder, width: nat) returns (x: int)
      requires Valid() && width <= |V().readable|
      modifies this
      ensures Valid() && data == old(data)
      ensures x == DecodeInt(old(V()).readable[..width]) && V() == Retrieved(old(V()), width)
    {
      x := PeekInt(host, width);
      Retrieve(width);
    }
  }

  // Searching for CR LF.

  const CR: byte := 13
  const LF: byte := 10
  const CRLF: seq<byte> := [CR, LF]

  predicate CrlfAt(s: seq<byte>, k: nat) {
    k + 1 < |s| && s[k] == CR && s[k + 1] == LF
  }

  function FirstCrlf(s: seq<byte>): (at: Option<nat>)
    ensures at.Some? ==> CrlfAt(s, at.value) && forall j: nat :: j < at.value ==> !CrlfAt(s, j)
    ensures at.None? ==> forall j: nat :: !CrlfAt(s, j)
  {
    if |s| < 2 then None
    else if CrlfAt(s, 0) then Some(0)
    else
      var rest := FirstCrlf(s[1..]);
      assert forall j: nat | j > 0 :: CrlfAt(s, j) <==> CrlfAt(s[1..], j - 1);
      if rest.Some? then Some(rest.value + 1) else None
  }

  lemma FirstCrlfIs(s: seq<byte>, k: nat)
    requires CrlfAt(s, k) && forall j: nat :: j < k ==> !CrlfAt(s, j)
    ensures FirstCrlf(s) == Some(k)
  {
  }

  lemma NoCrlfIs(s: seq<byte>)
    requires forall j: nat :: j + 1 < |s| ==> !CrlfAt(s, j)
    ensures FirstCrlf(s) == None
  {
  }

  /** Bytes that arrive later do not move a CR LF that is already there. */
  lemma FirstCrlfStable(s: seq<byte>, more: seq<byte>)
    requires FirstCrlf(s).Some?
    ensures FirstCrlf(s + more) == FirstCrlf(s)
  {
    var k := FirstCrlf(s).value;
    forall j: nat | j < k ensures !CrlfAt(s + more, j) {
      assert !CrlfAt(s, j);
    }
    assert CrlfAt(s + more, k);
    FirstCrlfIs(s + more, k);
  }
}
