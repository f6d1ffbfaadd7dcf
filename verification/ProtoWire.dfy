/** The Protocol Buffers wire format: varints, tags and length-delimited fields, and UTF-8 text. */
module ProtoWire {
  import opened Basics
  import opened Bytes

  type Data = seq<Byte>

  const BYTES_TYPE: nat := 2
  const MAX_INT32: nat := 0x7FFF_FFFF
  const RECURSION_LIMIT: int := 10000

  /** A value read from the front of the input, and how many bytes it took. */
  datatype Read<T> = Read(value: T, size: nat)

  datatype Tag = Tag(number: nat, kind: nat)

  // ---- Varints ----

  /** What a varint whose first byte is byte `k` of ten can still hold. */
  function Capacity(k: nat): nat
    requires k <= 9
    decreases 9 - k
  {
    if k == 9 then 2 else 128 * Capacity(k + 1)
  }

  lemma CapacityIs64Bits()
    ensures Capacity(0) == U64
  {
    assert Capacity(5) == 2 * 0x1000_0000;
  }

  function VarintFrom(b: Data, k: nat): (r: Option<Read<nat>>)
    requires k <= 9
    ensures r.Some? ==> 0 < r.value.size <= |b|
    decreases 9 - k
  {
    if b == [] then None
    else if k == 9 then (if b[0] < 2 then Some(Read(b[0], 1)) else None)
    else if b[0] < 128 then Some(Read(b[0], 1))
    else match VarintFrom(b[1..], k + 1)
      case None => None
      case Some(rest) => Some(Read(b[0] - 128 + 128 * rest.value, 1 + rest.size))
  }

  function ConsumeVarint(b: Data): (r: Option<Read<nat>>)
    ensures r.Some? ==> 0 < r.value.size <= |b|
  {
    VarintFrom(b, 0)
  }

  function Varint(v: nat): (b: Data)
    ensures b != []
  {
    if v < 128 then [v] else [v % 128 + 128] + Varint(v / 128)
  }

  lemma {:induction false} VarintFromBack(v: nat, k: nat, rest: Data)
    requires k <= 9 && v < Capacity(k)
    ensures VarintFrom(Varint(v) + rest, k) == Some(Read(v, |Varint(v)|))
    decreases 9 - k
  {
    var b := Varint(v) + rest;
    if v < 128 {
      assert b[0] == v;
    } else {
      assert b[0] == v % 128 + 128;
      assert b[1..] == Varint(v / 128) + rest;
      VarintFromBack(v / 128, k + 1, rest);
    }
  }

  lemma VarintBack(v: nat, rest: Data)
    requires v < U64
    ensures ConsumeVarint(Varint(v) + rest) == Some(Read(v, |Varint(v)|))
  {
    CapacityIs64Bits();
    VarintFromBack(v, 0, rest);
  }

  // ---- Tags and fields ----

  function ConsumeTag(b: Data): (r: Option<Read<Tag>>)
    ensures r.Some? ==> 0 < r.value.size <= |b|
  {
    match ConsumeVarint(b)
    case None => None
    case Some(v) =>
      if v.value / 8 > MAX_INT32 || v.value / 8 < 1 then None
      else Some(Read(Tag(v.value / 8, v.value % 8), v.size))
  }

  function ConsumeBytes(b: Data): (r: Option<Read<Data>>)
    ensures r.Some? ==> |r.value.value| < r.value.size <= |b|
  {
    match ConsumeVarint(b)
    case None => None
    case Some(n) =>
      if n.value > |b| - n.size then None
      else Some(Read(b[n.size..n.size + n.value], n.size + n.value))
  }

  /** The length of a field's value, whatever its kind; groups nest. */
  function SkipValue(number: nat, kind: nat, b: Data, depth: int): (r: Option<nat>)
    ensures r.Some? ==> r.value <= |b|
    decreases |b|, 1
  {
    match kind
    case 0 => (match ConsumeVarint(b) case None => None case Some(v) => Some(v.size))
    case 1 => if |b| < 8 then None else Some(8)
    case 2 => (match ConsumeBytes(b) case None => None case Some(v) => Some(v.size))
    case 3 => if depth < 0 then None else SkipGroup(number, b, depth)
    case 5 => if |b| < 4 then None else Some(4)
    case _ => None
  }

  function SkipGroup(number: nat, b: Data, depth: int): (r: Option<nat>)
    ensures r.Some? ==> r.value <= |b|
    decreases |b|, 0
  {
    match ConsumeTag(b)
    case None => None
    case Some(tag) =>
      if tag.value.kind == 4 then (if tag.value.number == number then Some(tag.size) else None)
      else
        match SkipValue(tag.value.number, tag.value.kind, b[tag.size..], depth - 1)
        case None => None
        case Some(n) =>
          match SkipGroup(number, b[tag.size + n..], depth)
          case None => None
          case Some(m) => Some(tag.size + n + m)
  }

  function ConsumeFieldValue(tag: Tag, b: Data): (r: Option<nat>)
    ensures r.Some? ==> r.value <= |b|
  {
    SkipValue(tag.number, tag.kind, b, RECURSION_LIMIT)
  }

  function Sized(b: Data): (f: Data)
    ensures |f| > |b|
  {
    Varint(|b|) + b
  }

  /** A length-delimited field. */
  function Field(number: nat, b: Data): (f: Data)
    requires 1 <= number <= 3
    ensures |f| > |b|
  {
    [number * 8 + BYTES_TYPE] + Sized(b)
  }

  lemma SizedBack(b: Data, rest: Data)
    requires |b| < U64
    ensures ConsumeBytes(Sized(b) + rest) == Some(Read(b, |Sized(b)|))
  {
    VarintBack(|b|, b + rest);
    assert Sized(b) + rest == Varint(|b|) + (b + rest);
    var n := |Varint(|b|)|;
    assert (Sized(b) + rest)[n..n + |b|] == b;
  }

  /** A written field is read back, and reading goes on right after it. */
  lemma FieldBack(number: nat, b: Data, rest: Data)
    requires 1 <= number <= 3 && |b| < U64
    ensures var f := Field(number, b) + rest;
            && ConsumeTag(f) == Some(Read(Tag(number, BYTES_TYPE), 1))
            && ConsumeBytes(f[1..]) == Some(Read(b, |Sized(b)|))
            && f[1..][|Sized(b)|..] == rest
  {
    var f := Field(number, b) + rest;
    assert f[0] == number * 8 + BYTES_TYPE;
    assert f[1..] == Sized(b) + rest;
    SizedBack(b, rest);
  }

  // ---- UTF-8 ----

  predicate Tail(b: Byte) {
    0x80 <= b <= 0xBF
  }

  /** How many bytes the code point at the front takes, or 0 if none starts there. */
  function RuneLen(s: Data): (n: nat)
    ensures n <= |s|
  {
    if |s| >= 1 && s[0] < 0x80 then 1
    else if |s| >= 2 && 0xC2 <= s[0] <= 0xDF && Tail(s[1]) then 2
    else if |s| >= 3 && Tail(s[1]) && Tail(s[2])
            && (0xE0 <= s[0] <= 0xEF) && (s[0] == 0xE0 ==> s[1] >= 0xA0) && (s[0] == 0xED ==> s[1] <= 0x9F) then 3
    else if |s| >= 4 && Tail(s[1]) && Tail(s[2]) && Tail(s[3])
            && (0xF0 <= s[0] <= 0xF4) && (s[0] == 0xF0 ==> s[1] >= 0x90) && (s[0] == 0xF4 ==> s[1] <= 0x8F) then 4
    else 0
  }

  predicate ValidUtf8(s: Data) {
    s == [] || (RuneLen(s) > 0 && ValidUtf8(s[RuneLen(s)..]))
  }

  /** `ToValidUTF8` with an empty replacement: bytes that start no code point are dropped. */
  function ToValidUtf8(s: Data): Data {
    if s == [] then []
    else if RuneLen(s) == 0 then ToValidUtf8(s[1..])
    else s[..RuneLen(s)] + ToValidUtf8(s[RuneLen(s)..])
  }

  lemma RuneAlone(s: Data, rest: Data)
    requires RuneLen(s) > 0
    ensures RuneLen(s[..RuneLen(s)] + rest) == RuneLen(s)
  {
    var n := RuneLen(s);
    var t := s[..n] + rest;
    assert forall i :: 0 <= i < n ==> t[i] == s[i];
  }

  lemma {:induction false} RepairIsValid(s: Data)
    ensures ValidUtf8(ToValidUtf8(s))
  {
    if s != [] {
      var n := RuneLen(s);
      if n == 0 {
        RepairIsValid(s[1..]);
      } else {
        RepairIsValid(s[n..]);
        RuneAlone(s, ToValidUtf8(s[n..]));
        assert (s[..n] + ToValidUtf8(s[n..]))[n..] == ToValidUtf8(s[n..]);
      }
    }
  }

  lemma {:induction false} RepairKeepsValid(s: Data)
    requires ValidUtf8(s)
    ensures ToValidUtf8(s) == s
  {
    if s != [] {
      RepairKeepsValid(s[RuneLen(s)..]);
    }
  }

  lemma {:induction false} AsciiIsValid(s: Data)
    requires forall i :: 0 <= i < |s| ==> s[i] < 0x80
    ensures ValidUtf8(s)
  {
    if s != [] {
      AsciiIsValid(s[1..]);
    }
  }
}
