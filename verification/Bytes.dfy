/** Bytes and big-endian numbers. */
module Bytes {
  import opened Basics

  type Byte = x: int | 0 <= x < 256

  function Pow256(n: nat): nat {
    if n == 0 then 1 else 256 * Pow256(n - 1)
  }

  function FromBytes(s: seq<Byte>): nat {
    if s == [] then 0 else FromBytes(s[..|s| - 1]) * 256 + s[|s| - 1]
  }

  /** The low `n` bytes of `v`. */
  function ToBytes(v: nat, n: nat): (s: seq<Byte>)
    ensures |s| == n
  {
    if n == 0 then [] else ToBytes(v / 256, n - 1) + [v % 256]
  }

  /** Big-endian bytes without leading zeros. */
  function Minimal(v: nat): seq<Byte> {
    if v == 0 then [] else Minimal(v / 256) + [v % 256]
  }

  function Zeros(n: nat): (s: seq<Byte>)
    ensures |s| == n
  {
    if n == 0 then [] else Zeros(n - 1) + [0]
  }

  lemma {:induction false} FromBytesBound(s: seq<Byte>)
    ensures FromBytes(s) < Pow256(|s|)
  {
    if s != [] {
      FromBytesBound(s[..|s| - 1]);
    }
  }

  lemma {:induction false} FromToBytes(v: nat, n: nat)
    requires v < Pow256(n)
    ensures FromBytes(ToBytes(v, n)) == v
  {
    if n > 0 {
      FromToBytes(v / 256, n - 1);
      assert ToBytes(v, n)[..n - 1] == ToBytes(v / 256, n - 1);
    }
  }

  lemma {:induction false} ToFromBytes(s: seq<Byte>)
    ensures ToBytes(FromBytes(s), |s|) == s
  {
    if s != [] {
      ToFromBytes(s[..|s| - 1]);
      var v := FromBytes(s);
      assert v / 256 == FromBytes(s[..|s| - 1]) && v % 256 == s[|s| - 1];
    }
  }

  lemma {:induction false} MinimalFits(v: nat, n: nat)
    requires v < Pow256(n)
    ensures |Minimal(v)| <= n
  {
    if v > 0 {
      MinimalFits(v / 256, n - 1);
    }
  }

  lemma {:induction false} ZeroBytes(n: nat)
    ensures ToBytes(0, n) == Zeros(n)
  {
    if n > 0 {
      ZeroBytes(n - 1);
    }
  }

  /** Left-padding the minimal form with zeros gives the fixed-width form. */
  lemma {:induction false} PadMinimal(v: nat, n: nat)
    requires v < Pow256(n)
    ensures |Minimal(v)| <= n && Zeros(n - |Minimal(v)|) + Minimal(v) == ToBytes(v, n)
  {
    MinimalFits(v, n);
    if v == 0 {
      ZeroBytes(n);
    } else {
      PadMinimal(v / 256, n - 1);
      assert Zeros(n - |Minimal(v)|) + Minimal(v) == Zeros(n - |Minimal(v)|) + Minimal(v / 256) + [v % 256];
    }
  }

  lemma Width32()
    ensures Pow256(32) == U256
  {
    assert Pow256(8) == 0x1_0000_0000_0000_0000;
    assert Pow256(16) == 0x1_0000_0000_0000_0000_0000_0000_0000_0000;
    assert Pow256(24) == 0x1_0000_0000_0000_0000_0000_0000_0000_0000_0000_0000_0000_0000;
  }

  lemma {:induction false} ZerosAt(n: nat)
    ensures forall k :: 0 <= k < n ==> Zeros(n)[k] == 0
  {
    if n > 0 {
      ZerosAt(n - 1);
    }
  }

  lemma {:induction false} Widen(v: nat, zeros: nat, n: nat)
    requires v < Pow256(n)
    ensures Zeros(zeros) + ToBytes(v, n) == ToBytes(v, zeros + n)
  {
    if n == 0 {
      ZeroBytes(zeros);
    } else {
      Widen(v / 256, zeros, n - 1);
    }
  }
}
