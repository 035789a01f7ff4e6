/** suduo/base/LogStream.h: the fixed-size buffer under log lines and log files. */
module StreamBuffers {
  import opened Bytes

  type Text = seq<byte>

  class StreamBuffer {
    const data: array<byte>
    var current: nat

    ghost predicate Valid()
      reads this
    {
      current <= data.Length
    }

    ghost function T(): (t: Text)
      requires Valid()
      reads this, data
      ensures |t| == current
    {
      data[..current]
    }

    constructor (capacity: nat)
      ensures Valid() && fresh(data) && data.Length == capacity
      ensures T() == []
    {
      data := new byte[capacity];
      current := 0;
    }

    function Availability(): (n: nat)
      requires Valid()
      reads this, data
      ensures |T()| + n == data.Length
    {
      data.Length - current
    }

    /** Text that does not fit with a byte to spare is dropped whole. */
    method Append(text: Text)
      requires Valid()
      modifies this, data
      ensures Valid()
      ensures T() == Appended(old(T()), data.Length, text)
    {
      if Availability() > |text| {
        var k := 0;
        ghost var before := T();
        while k < |text|
          modifies data
          invariant k <= |text|
          invariant forall j :: 0 <= j < current ==> data[j] == before[j]
          invariant forall j :: 0 <= j < k ==> data[current + j] == text[j]
        {
          data[current + k] := text[k];
          k := k + 1;
        }
        current := current + |text|;
        assert T() == before + text;
      }
    }

    method Reset()
      requires Valid()
      modifies this
      ensures Valid() && T() == []
    {
      current := 0;
    }
  }

  function Appended(t: Text, capacity: nat, text: Text): (r: Text)
    ensures |t| <= capacity ==> |r| <= capacity
  {
    if |t| + |text| < capacity then t + text else t
  }

  /** All or nothing: text is kept whole exactly if it fits with a byte to spare. */
  lemma AppendedIff(t: Text, capacity: nat, text: Text)
    ensures Appended(t, capacity, text) == t + text || Appended(t, capacity, text) == t
    ensures text != [] ==> (Appended(t, capacity, text) == t + text <==> |t| + |text| < capacity)
  {
    assert text != [] ==> |t + text| != |t|;
  }
}
