/** Low-S normal form of 65-byte signatures (V, then R and S as 32-byte numbers). */
module Signature {
  import opened Basics
  import opened Bytes

  const N: nat := 0xFFFFFFFF_FFFFFFFF_FFFFFFFF_FFFFFFFE_BAAEDCE6_AF48A03B_BFD25E8C_D0364141
  const HALF_N: nat := 0x7FFFFFFF_FFFFFFFF_FFFFFFFF_FFFFFFFF_5D576E73_57A4501D_DFE92F46_681B20A0

  type Sig = s: seq<Byte> | |s| == 65 witness Zeros(65)

  function S(sig: Sig): nat {
    FromBytes(sig[33..])
  }

  /** Flip the recovery bit, of a bare value or of a header byte. The header's sum is a byte. */
  function Flip(v: Byte): Byte {
    if v < 27 then (if v % 2 == 0 then v + 1 else v - 1)
    else
      var header := v - 27;
      (27 + (1 - header % 2) + (header - header % 2)) % 256
  }

  /** Flipping twice is the identity, except where a bare value becomes a header or the sum wraps. */
  lemma FlipTwice(v: Byte)
    ensures Flip(Flip(v)) == v <==> v != 26 && v != 255
  {
  }

  /** The other signature of the same message by the same key. */
  function Mirror(sig: Sig): Sig
    requires S(sig) <= N
  {
    [Flip(sig[0])] + sig[1..33] + ToBytes(N - S(sig), 32)
  }

  function Abs(x: int): nat {
    if x < 0 then -x else x
  }

  /** A number above N leaves the distance to N, as its sign is lost in the byte form. */
  function Normalize(sig: Sig): Sig {
    if S(sig) <= HALF_N then sig
    else [Flip(sig[0])] + sig[1..33] + ToBytes(Abs(N - S(sig)), 32)
  }

  /** Zero the last 32 bytes, then copy the number right-aligned over them. */
  method WriteTail(a: array<Byte>, sBytes: seq<Byte>)
    requires a.Length == 65 && |sBytes| <= 32
    modifies a
    ensures a[..33] == old(a[..33])
    ensures a[33..] == Zeros(32 - |sBytes|) + sBytes
  {
    for i := 33 to 65
      invariant a[..33] == old(a[..33])
      invariant forall k :: 33 <= k < i ==> a[k] == 0
    {
      a[i] := 0;
    }
    var from := 65 - |sBytes|;
    for i := 0 to |sBytes|
      invariant a[..33] == old(a[..33])
      invariant forall k :: 33 <= k < from ==> a[k] == 0
      invariant forall k :: 0 <= k < i ==> a[from + k] == sBytes[k]
    {
      a[from + i] := sBytes[i];
    }
    ZerosAt(from - 33);
  }

  lemma DistanceFits(sig: Sig)
    ensures var s := Abs(N - S(sig));
            |Minimal(s)| <= 32 && Zeros(32 - |Minimal(s)|) + Minimal(s) == ToBytes(s, 32)
  {
    SBound(sig);
    Width32();
    PadMinimal(Abs(N - S(sig)), 32);
  }

  /** `normalizeSignature`, on a copy of the bytes. */
  method NormalizeSignature(sig: Sig) returns (result: Sig)
    ensures result == Normalize(sig)
  {
    var a := new Byte[65](i requires 0 <= i < 65 => sig[i]);
    assert a[..] == sig;
    var s := FromBytes(sig[33..]);
    if s > HALF_N {
      s := Abs(N - s);
      DistanceFits(sig);
      WriteTail(a, Minimal(s));
      result := [Flip(a[0])] + a[1..];
      assert a[1..] == a[..33][1..] + a[33..];
    } else {
      result := a[..];
    }
  }

  lemma SBound(sig: Sig)
    ensures S(sig) < U256
  {
    FromBytesBound(sig[33..]);
    Width32();
  }

  /** Reassembling a signature from its parts. */
  lemma Parts(v: Byte, r: seq<Byte>, s: nat)
    requires |r| == 32 && s < U256
    ensures var sig := [v] + r + ToBytes(s, 32);
            sig[0] == v && sig[1..33] == r && |sig| == 65 && FromBytes(sig[33..]) == s
  {
    Width32();
    FromToBytes(s, 32);
    var sig := [v] + r + ToBytes(s, 32);
    assert sig[33..] == ToBytes(s, 32);
  }

  lemma Whole(sig: Sig)
    ensures sig == [sig[0]] + sig[1..33] + ToBytes(S(sig), 32)
  {
    ToFromBytes(sig[33..]);
    assert sig == [sig[0]] + sig[1..33] + sig[33..];
  }

  /** The normal form has low S and is its own normal form, whatever the bytes were. */
  lemma NormalizeIdempotent(sig: Sig)
    ensures S(Normalize(sig)) <= HALF_N
    ensures Normalize(Normalize(sig)) == Normalize(sig)
  {
    if S(sig) > HALF_N {
      SBound(sig);
      Parts(Flip(sig[0]), sig[1..33], Abs(N - S(sig)));
    }
  }

  /** A signature with a scalar S in range and a V whose flip can be undone. */
  predicate Regular(sig: Sig) {
    0 < S(sig) < N && sig[0] != 26 && sig[0] != 255
  }

  lemma MirrorTwice(sig: Sig)
    requires Regular(sig)
    ensures 0 < S(Mirror(sig)) < N && S(Mirror(sig)) == N - S(sig) && Mirror(Mirror(sig)) == sig
    ensures Mirror(sig) != sig
  {
    Parts(Flip(sig[0]), sig[1..33], N - S(sig));
    FlipTwice(sig[0]);
    Whole(sig);
  }

  predicate SignaturesEqual(a: Sig, b: Sig) {
    Normalize(a) == Normalize(b)
  }

  predicate SameOrMirror(a: Sig, b: Sig) {
    a == b || (S(b) <= N && a == Mirror(b))
  }

  /** Exactly one of a signature and its mirror is in normal form. */
  lemma NormalizePicks(sig: Sig)
    requires Regular(sig)
    ensures Normalize(sig) == if S(sig) <= HALF_N then sig else Mirror(sig)
    ensures Normalize(Mirror(sig)) == Normalize(sig)
  {
    MirrorTwice(sig);
  }

  /** Comparison in normal form finds exactly the equal and the mirrored signatures. */
  lemma EqualIffMirror(a: Sig, b: Sig)
    requires Regular(a) && Regular(b)
    ensures SignaturesEqual(a, b) <==> SameOrMirror(a, b)
  {
    NormalizePicks(a);
    NormalizePicks(b);
    MirrorTwice(a);
    MirrorTwice(b);
  }

  /** Outside the regular V values two unrelated signatures can compare equal. */
  lemma IrregularCollision(r: seq<Byte>) returns (a: Sig, b: Sig)
    requires |r| == 32
    ensures 0 < S(a) < N && 0 < S(b) < N && SignaturesEqual(a, b)
    ensures !SameOrMirror(a, b) && !SameOrMirror(b, a)
  {
    a, b := [26] + r + ToBytes(N - 1, 32), [28] + r + ToBytes(N - 1, 32);
    Parts(26, r, N - 1);
    Parts(28, r, N - 1);
    Parts(27, r, 1);
    Parts(Flip(26), r, 1);
    assert Mirror(a)[0] == 27 && Mirror(b)[0] == 27;
  }

  predicate AllDistinct(sigs: seq<Sig>) {
    forall i, j :: 0 <= i < j < |sigs| ==> !SignaturesEqual(sigs[i], sigs[j])
  }

  /** `checkSignaturesUnique` over the signatures of a batch. */
  method CheckSignaturesUnique(sigs: seq<Sig>) returns (unique: bool)
    ensures unique <==> AllDistinct(sigs)
  {
    var seen: set<Sig> := {};
    for k := 0 to |sigs|
      invariant forall x :: x in seen <==> exists i :: 0 <= i < k && Normalize(sigs[i]) == x
      invariant forall i, j :: 0 <= i < j < k ==> !SignaturesEqual(sigs[i], sigs[j])
    {
      var normalized := NormalizeSignature(sigs[k]);
      if normalized in seen {
        return false;
      }
      seen := seen + {normalized};
    }
    unique := true;
  }

  /** For regular signatures, a batch passes exactly when no two are equal or mirrored. */
  lemma UniqueIffUnrelated(sigs: seq<Sig>)
    requires forall k :: 0 <= k < |sigs| ==> Regular(sigs[k])
    ensures AllDistinct(sigs) <==> forall i, j :: 0 <= i < j < |sigs| ==> !SameOrMirror(sigs[i], sigs[j])
  {
    forall i, j | 0 <= i < j < |sigs| ensures SignaturesEqual(sigs[i], sigs[j]) <==> SameOrMirror(sigs[i], sigs[j]) {
      EqualIffMirror(sigs[i], sigs[j]);
    }
  }
}
