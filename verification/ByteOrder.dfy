/** Fixed-width integers as bytes: the host's memory image, network byte order, and the
    in-place reversal loop `hton` of src/RpcMessage.cc. */
module ByteOrder {
  type byte = b: int | 0 <= b < 256
  type Bytes = seq<byte>

  function Pow256(n: nat): (p: nat)
    ensures p > 0
  {
    if n == 0 then 1 else 256 * Pow256(n - 1)
  }

  /** The `n` low-order bytes of `v`, most significant first. */
  function BigEndian(n: nat, v: nat): (s: Bytes)
    ensures |s| == n
  {
    if n == 0 then [] else BigEndian(n - 1, v / 256) + [v % 256]
  }

  /** The number written by `s`, most significant byte first. */
  function Value(s: Bytes): nat {
    if s == [] then 0 else Value(s[..|s| - 1]) * 256 + s[|s| - 1]
  }

  function Reversed(s: Bytes): (r: Bytes)
    ensures |r| == |s|
    ensures forall i | 0 <= i < |s| :: r[i] == s[|s| - 1 - i]
  {
    seq(|s|, i requires 0 <= i < |s| => s[|s| - 1 - i])
  }

  /** How a host stores the `n`-byte integer `v`. */
  function Image(little: bool, n: nat, v: nat): (s: Bytes)
    ensures |s| == n
  {
    if little then Reversed(BigEndian(n, v)) else BigEndian(n, v)
  }

  /** The integer a host reads back from memory. */
  function Load(little: bool, s: Bytes): nat {
    if little then Value(Reversed(s)) else Value(s)
  }

  /** The value `hton` returns: the integer whose memory image is `v` in network order. */
  function NetOrder(little: bool, n: nat, v: nat): nat {
    Load(little, BigEndian(n, v))
  }

  lemma {:induction false} ValueBound(s: Bytes)
    ensures Value(s) < Pow256(|s|)
  {
    if s != [] {
      ValueBound(s[..|s| - 1]);
    }
  }

  lemma {:induction false} ValueOfBigEndian(n: nat, v: nat)
    requires v < Pow256(n)
    ensures Value(BigEndian(n, v)) == v
  {
    if n > 0 {
      ValueOfBigEndian(n - 1, v / 256);
      var s := BigEndian(n, v);
      assert s[..|s| - 1] == BigEndian(n - 1, v / 256);
    }
  }

  lemma {:induction false} BigEndianOfValue(s: Bytes)
    ensures BigEndian(|s|, Value(s)) == s
  {
    if s != [] {
      var front := s[..|s| - 1];
      BigEndianOfValue(front);
      assert Value(s) / 256 == Value(front);
      assert s == front + [s[|s| - 1]];
    }
  }

  lemma ReversedTwice(s: Bytes)
    ensures Reversed(Reversed(s)) == s
  {}

  lemma LoadBound(little: bool, s: Bytes)
    ensures Load(little, s) < Pow256(|s|)
  {
    ValueBound(s);
    ValueBound(Reversed(s));
  }

  lemma ImageOfLoad(little: bool, s: Bytes)
    ensures Image(little, |s|, Load(little, s)) == s
  {
    BigEndianOfValue(s);
    BigEndianOfValue(Reversed(s));
    ReversedTwice(s);
  }

  /** Writing the result of `hton` gives big-endian bytes on every host, for every width. */
  lemma NetOrderImage(little: bool, n: nat, v: nat)
    ensures NetOrder(little, n, v) < Pow256(n)
    ensures Image(little, n, NetOrder(little, n, v)) == BigEndian(n, v)
  {
    LoadBound(little, BigEndian(n, v));
    ImageOfLoad(little, BigEndian(n, v));
  }

  /** Loading received bytes and passing them to `ntoh` gives their big-endian value on every host. */
  lemma NetOrderOfLoad(little: bool, s: Bytes)
    ensures NetOrder(little, |s|, Load(little, s)) == Value(s)
  {
    if little {
      BigEndianOfValue(Reversed(s));
      ReversedTwice(s);
    } else {
      BigEndianOfValue(s);
    }
  }

  /** `ntoh` is `hton`: applying it twice is the identity, for every width and host. */
  lemma NetOrderInvolution(little: bool, n: nat, v: nat)
    requires v < Pow256(n)
    ensures NetOrder(little, n, NetOrder(little, n, v)) == v
  {
    NetOrderOfLoad(little, BigEndian(n, v));
    ValueOfBigEndian(n, v);
  }

  lemma Widths()
    ensures Pow256(1) == 0x100
    ensures Pow256(2) == 0x1_0000
    ensures Pow256(4) == 0x1_0000_0000
    ensures Pow256(8) == 0x1_0000_0000_0000_0000
  {
    assert Pow256(3) == 0x100_0000;
    assert Pow256(4) == 256 * Pow256(3);
    assert Pow256(5) == 256 * Pow256(4);
    assert Pow256(6) == 256 * Pow256(5);
    assert Pow256(7) == 256 * Pow256(6);
  }

  /** The byte loop of `hton`: on a little-endian host the image is copied back to front. */
  method Hton(little: bool, n: nat, t: nat) returns (net: nat)
    requires t < Pow256(n)
    ensures net < Pow256(n)
    ensures net == NetOrder(little, n, t)
    ensures Image(little, n, net) == BigEndian(n, t)
  {
    var host := Image(little, n, t);
    var memory := new byte[n](i requires 0 <= i < n => host[i]);
    if little {
      var i := 0;
      while i < n
        invariant 0 <= i <= n
        invariant forall k | 0 <= k < i :: memory[k] == host[n - 1 - k]
      {
        memory[i] := host[n - 1 - i];
        i := i + 1;
      }
      assert memory[..] == BigEndian(n, t);
    } else {
      assert memory[..] == BigEndian(n, t);
    }
    net := Load(little, memory[..]);
    NetOrderImage(little, n, t);
  }
}
