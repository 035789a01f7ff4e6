/**
 Byte-order conversions of suduo/net/Endian.h.

 An unsigned integer of `n` bytes has an image in memory that depends on the host.  The
 conversions return an integer again; what matters is that the image of the converted
 integer is the big-endian one on every host, and that the two directions cancel.
 */
module Endian {
  import opened Bytes

  datatype ByteOrder = LittleEndianHost | BigEndianHost

  function Pow256(n: nat): (p: nat)
    ensures p >= 1
  {
    if n == 0 then 1 else 256 * Pow256(n - 1)
  }

  /** Most significant byte first. */
  function BigEndian(x: nat, n: nat): (s: seq<byte>)
    ensures |s| == n
  {
    if n == 0 then [] else BigEndian(x / 256, n - 1) + [x % 256]
  }

  function FromBigEndian(s: seq<byte>): nat {
    if s == [] then 0 else FromBigEndian(s[..|s| - 1]) * 256 + s[|s| - 1]
  }

  /** Least significant byte first. */
  function LittleEndian(x: nat, n: nat): (s: seq<byte>)
    ensures |s| == n
  {
    if n == 0 then [] else [x % 256] + LittleEndian(x / 256, n - 1)
  }

  function FromLittleEndian(s: seq<byte>): nat {
    if s == [] then 0 else s[0] + 256 * FromLittleEndian(s[1..])
  }

  lemma {:induction false} BigEndianRoundTrip(x: nat, n: nat)
    requires x < Pow256(n)
    ensures FromBigEndian(BigEndian(x, n)) == x
  {
    if n != 0 {
      BigEndianRoundTrip(x / 256, n - 1);
      assert BigEndian(x, n)[..n - 1] == BigEndian(x / 256, n - 1);
    }
  }

  lemma {:induction false} FromBigEndianRoundTrip(s: seq<byte>)
    ensures FromBigEndian(s) < Pow256(|s|)
    ensures BigEndian(FromBigEndian(s), |s|) == s
  {
    if s != [] {
      FromBigEndianRoundTrip(s[..|s| - 1]);
      assert s == s[..|s| - 1] + [s[|s| - 1]];
    }
  }

  lemma {:induction false} LittleEndianRoundTrip(x: nat, n: nat)
    requires x < Pow256(n)
    ensures FromLittleEndian(LittleEndian(x, n)) == x
  {
    if n != 0 {
      LittleEndianRoundTrip(x / 256, n - 1);
    }
  }

  lemma {:induction false} LittleIsReversedBig(x: nat, n: nat)
    ensures LittleEndian(x, n) == Reverse(BigEndian(x, n))
  {
    if n != 0 {
      LittleIsReversedBig(x / 256, n - 1);
      var high: seq<byte>, low: byte := BigEndian(x / 256, n - 1), x % 256;
      ReverseSnoc(high, low);
      assert BigEndian(x, n) == high + [low];
    }
  }

  /** The bytes in memory of an `n`-byte unsigned integer. */
  function Image(host: ByteOrder, x: nat, n: nat): (s: seq<byte>)
    ensures |s| == n
  {
    if host.LittleEndianHost? then LittleEndian(x, n) else BigEndian(x, n)
  }

  /** The integer that `memcpy` from these bytes makes. */
  function FromImage(host: ByteOrder, s: seq<byte>): nat {
    if host.LittleEndianHost? then FromLittleEndian(s) else FromBigEndian(s)
  }

  /** `htobeNN`: the identity on a big-endian host, a byte swap on a little-endian one. */
  function HostToNetwork(host: ByteOrder, x: nat, n: nat): nat {
    if host.LittleEndianHost? then FromBigEndian(LittleEndian(x, n)) else x
  }

  /** `beNNtoh`. */
  function NetworkToHost(host: ByteOrder, x: nat, n: nat): nat {
    if host.LittleEndianHost? then FromBigEndian(LittleEndian(x, n)) else x
  }

  /** A converted integer lies in memory most significant byte first, whatever the host. */
  lemma NetworkImageIsBigEndian(host: ByteOrder, x: nat, n: nat)
    requires x < Pow256(n)
    ensures HostToNetwork(host, x, n) < Pow256(n)
    ensures Image(host, HostToNetwork(host, x, n), n) == BigEndian(x, n)
  {
    if host.LittleEndianHost? {
      var swapped := HostToNetwork(host, x, n);
      FromBigEndianRoundTrip(LittleEndian(x, n));
      LittleIsReversedBig(swapped, n);
      LittleIsReversedBig(x, n);
      ReverseTwice(BigEndian(x, n));
    }
  }

  /** Loading big-endian bytes and converting gives the integer they denote, whatever the host. */
  lemma LoadedNetworkInteger(host: ByteOrder, s: seq<byte>)
    ensures NetworkToHost(host, FromImage(host, s), |s|) == FromBigEndian(s)
  {
    if host.LittleEndianHost? {
      var x := FromBigEndian(s);
      FromBigEndianRoundTrip(s);
      NetworkImageIsBigEndian(host, x, |s|);
      var swapped := HostToNetwork(host, x, |s|);
      LittleEndianRoundTrip(swapped, |s|);
      assert FromImage(host, s) == swapped;
      BigEndianRoundTrip(x, |s|);
      LittleIsReversedBig(swapped, |s|);
      assert LittleEndian(swapped, |s|) == BigEndian(x, |s|);
    }
  }

  /** The two conversions cancel. */
  lemma ConversionsCancel(host: ByteOrder, x: nat, n: nat)
    requires x < Pow256(n)
    ensures NetworkToHost(host, HostToNetwork(host, x, n), n) == x
  {
    NetworkImageIsBigEndian(host, x, n);
    if host.LittleEndianHost? {
      BigEndianRoundTrip(x, n);
    }
  }

  // Two's complement, for the signed types the buffer stores.

  predicate SignedRange(x: int, n: nat) {
    2 * x < Pow256(n) && 2 * -x <= Pow256(n)
  }

  function ToUnsigned(x: int, n: nat): (u: nat)
    requires SignedRange(x, n)
    ensures u < Pow256(n)
  {
    if x < 0 then x + Pow256(n) else x
  }

  function ToSigned(u: nat, n: nat): (x: int)
    requires u < Pow256(n)
    ensures SignedRange(x, n) && ToUnsigned(x, n) == u
  {
    if 2 * u < Pow256(n) then u else u - Pow256(n)
  }

  /** What the wire carries for a signed integer: its two's complement, big-endian. */
  function EncodeInt(x: int, n: nat): (s: seq<byte>)
    requires SignedRange(x, n)
    ensures |s| == n
  {
    BigEndian(ToUnsigned(x, n), n)
  }

  function DecodeInt(s: seq<byte>): (x: int)
    ensures SignedRange(x, |s|)
  {
    FromBigEndianRoundTrip(s);
    ToSigned(FromBigEndian(s), |s|)
  }

  lemma DecodeEncodeInt(x: int, n: nat)
    requires SignedRange(x, n)
    ensures DecodeInt(EncodeInt(x, n)) == x
  {
    BigEndianRoundTrip(ToUnsigned(x, n), n);
  }

  lemma EncodeDecodeInt(s: seq<byte>)
    ensures EncodeInt(DecodeInt(s), |s|) == s
  {
    FromBigEndianRoundTrip(s);
  }
}
