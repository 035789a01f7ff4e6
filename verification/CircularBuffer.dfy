/** suduo/base/CircularBuffer.h: a fixed array used as a ring. */
module CircularBuffers {

  /** The array slot of the `i`-th element of a ring of `n` slots that begins at `begin`. */
  function Slot(begin: nat, i: nat, n: nat): (k: nat)
    requires begin < n && i <= n
    ensures k < n
  {
    if begin + i < n then begin + i else begin + i - n
  }

  class CircularBuffer<T(0)> {
    const buffer: array<T>
    var begin: nat
    var end: nat
    var size: nat

    ghost predicate Valid()
      reads this
    {
      && size <= buffer.Length
      && (buffer.Length == 0 ==> begin == 0 && end == 0)
      && (buffer.Length > 0 ==> begin < buffer.Length && end == Slot(begin, size, buffer.Length))
    }

    ghost function Contents(): (s: seq<T>)
      requires Valid()
      reads this, buffer
      ensures |s| == size
    {
      seq(size, i requires 0 <= i < size && Valid() reads this, buffer =>
        buffer[Slot(begin, i, buffer.Length)])
    }

    constructor (maxSize: nat)
      ensures Valid() && fresh(buffer) && buffer.Length == maxSize
      ensures Contents() == []
    {
      buffer := new T[maxSize];
      begin, end, size := 0, 0, 0;
    }

    predicate Full()
      requires Valid()
      reads this, buffer
      ensures Full() <==> |Contents()| == buffer.Length
    {
      size == buffer.Length
    }

    predicate Empty()
      requires Valid()
      reads this, buffer
      ensures Empty() <==> Contents() == []
    {
      size == 0
    }

    /** What the source calls `capacity` is the number of free slots. */
    function Capacity(): (free: nat)
      requires Valid()
      reads this, buffer
      ensures |Contents()| + free == buffer.Length
    {
      buffer.Length - size
    }

    /** A push on a full ring is silently dropped. */
    method Push(val: T)
      requires Valid()
      modifies this, buffer
      ensures Valid()
      ensures Contents()
        == if |old(Contents())| == buffer.Length then old(Contents()) else old(Contents()) + [val]
    {
      if Full() {
        return;
      }
      ghost var before := Contents();
      buffer[end] := val;
      end := end + 1;
      if end >= buffer.Length {
        end := 0;
      }
      size := size + 1;
      assert forall i :: 0 <= i < |before| ==> Contents()[i] == before[i];
      assert Contents() == before + [val];
    }

    /** The source leaves a pop on an empty ring undefined. */
    method Pop() returns (val: T)
      requires Valid() && Contents() != []
      modifies this
      ensures Valid()
      ensures val == old(Contents())[0] && Contents() == old(Contents())[1..]
    {
      ghost var before := Contents();
      val := buffer[begin];
      assert val == before[0];
      begin := begin + 1;
      if begin >= buffer.Length {
        begin := 0;
      }
      size := size - 1;
      assert forall i :: 0 <= i < size ==> Contents()[i] == before[i + 1];
    }
  }
}
