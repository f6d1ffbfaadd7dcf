/** EIP-712 encoding of receipts and vouchers, with the hash function as a parameter. */
module Eip712 {
  import opened Basics
  import opened Bytes

  type Word = s: seq<Byte> | |s| == 32 witness Zeros(32)

  type Account = s: seq<Byte> | |s| == 20 witness Zeros(20)

  type Keccak = seq<Byte> -> Word

  datatype Receipt = Receipt(
    collectionId: Word,
    payer: Account,
    dataService: Account,
    serviceProvider: Account,
    timestampNs: nat,
    nonce: nat,
    value: nat)

  datatype Voucher = Voucher(
    collectionId: Word,
    payer: Account,
    serviceProvider: Account,
    dataService: Account,
    timestampNs: nat,
    valueAggregate: nat,
    metadata: seq<Byte>)

  datatype Domain = Domain(name: seq<Byte>, version: seq<Byte>, chainId: nat, verifyingContract: Account)

  datatype Message = OfReceipt(receipt: Receipt) | OfVoucher(voucher: Voucher)

  predicate InRange(m: Message) {
    match m
    case OfReceipt(r) => r.timestampNs < U64 && r.nonce < U64 && r.value < U256
    case OfVoucher(v) => v.timestampNs < U64 && v.valueAggregate < U256
  }

  // ---- Encoders ----

  /** A longer input keeps its last `size` bytes. */
  function Padded(b: seq<Byte>, size: nat): (s: seq<Byte>)
    ensures |s| == size
  {
    if |b| >= size then b[|b| - size..] else Zeros(size - |b|) + b
  }

  function EncodeReceipt(r: Receipt): seq<Byte>
    requires InRange(OfReceipt(r))
  {
    r.collectionId + Padded(r.payer, 32) + Padded(r.dataService, 32) + Padded(r.serviceProvider, 32)
    + ToBytes(r.timestampNs, 32) + ToBytes(r.nonce, 32) + ToBytes(r.value, 32)
  }

  function EncodeVoucher(v: Voucher, keccak: Keccak): seq<Byte>
    requires InRange(OfVoucher(v))
  {
    v.collectionId + Padded(v.payer, 32) + Padded(v.serviceProvider, 32) + Padded(v.dataService, 32)
    + ToBytes(v.timestampNs, 32) + ToBytes(v.valueAggregate, 32) + keccak(v.metadata)
  }

  /** `padLeft`, filling a fresh buffer. */
  method PadLeft(b: seq<Byte>, size: nat) returns (s: seq<Byte>)
    ensures s == Padded(b, size)
  {
    if |b| >= size {
      return b[|b| - size..];
    }
    var result := new Byte[size](_ => 0);
    for i := 0 to |b|
      invariant forall k :: 0 <= k < size - |b| ==> result[k] == 0
      invariant forall k :: 0 <= k < i ==> result[size - |b| + k] == b[k]
    {
      result[size - |b| + i] := b[i];
    }
    ZerosAt(size - |b|);
    s := result[..];
  }

  /** `encodeUint64`: eight bytes at the end of a word. */
  method EncodeUint64(v: nat) returns (s: seq<Byte>)
    requires v < U64
    ensures s == ToBytes(v, 32)
  {
    Widen(v, 24, 8);
    s := Zeros(24) + ToBytes(v, 8);
  }

  /** `encodeUint128`: the number's bytes, right-aligned in a word. It takes any number that fits a word. */
  method EncodeNumber(v: nat) returns (s: seq<Byte>)
    requires v < U256
    ensures s == ToBytes(v, 32)
  {
    Width32();
    PadMinimal(v, 32);
    s := PadLeft(Minimal(v), 32);
  }

  method EncodeReceiptData(r: Receipt) returns (encoded: seq<Byte>)
    requires InRange(OfReceipt(r))
    ensures encoded == EncodeReceipt(r)
  {
    encoded := r.collectionId;
    var word := PadLeft(r.payer, 32);
    encoded := encoded + word;
    word := PadLeft(r.dataService, 32);
    encoded := encoded + word;
    word := PadLeft(r.serviceProvider, 32);
    encoded := encoded + word;
    word := EncodeUint64(r.timestampNs);
    encoded := encoded + word;
    word := EncodeUint64(r.nonce);
    encoded := encoded + word;
    word := EncodeNumber(r.value);
    encoded := encoded + word;
  }

  method EncodeVoucherData(v: Voucher, keccak: Keccak) returns (encoded: seq<Byte>)
    requires InRange(OfVoucher(v))
    ensures encoded == EncodeVoucher(v, keccak)
  {
    encoded := v.collectionId;
    var word := PadLeft(v.payer, 32);
    encoded := encoded + word;
    word := PadLeft(v.serviceProvider, 32);
    encoded := encoded + word;
    word := PadLeft(v.dataService, 32);
    encoded := encoded + word;
    word := EncodeUint64(v.timestampNs);
    encoded := encoded + word;
    word := EncodeNumber(v.valueAggregate);
    encoded := encoded + word;
    encoded := encoded + keccak(v.metadata);
  }

  // ---- Decoding ----

  function WordAt(s: seq<Byte>, k: nat): Word
    requires 32 * k + 32 <= |s|
  {
    s[32 * k..32 * k + 32]
  }

  lemma PaddedTail(a: Account)
    ensures Padded(a, 32)[12..] == a
  {
  }

  lemma NumberBack(v: nat)
    requires v < U256
    ensures FromBytes(ToBytes(v, 32)) == v
  {
    Width32();
    FromToBytes(v, 32);
  }

  function AccountAt(s: seq<Byte>, k: nat): Account
    requires 32 * k + 32 <= |s|
  {
    WordAt(s, k)[12..]
  }

  function NumberAt(s: seq<Byte>, k: nat): nat
    requires 32 * k + 32 <= |s|
  {
    FromBytes(WordAt(s, k))
  }

  lemma SevenWords(a: Word, b: Word, c: Word, d: Word, e: Word, f: Word, g: Word)
    ensures var s := a + b + c + d + e + f + g;
            && |s| == 224
            && WordAt(s, 0) == a && WordAt(s, 1) == b && WordAt(s, 2) == c && WordAt(s, 3) == d
            && WordAt(s, 4) == e && WordAt(s, 5) == f && WordAt(s, 6) == g
  {
  }

  function DecodeReceipt(s: seq<Byte>): Receipt
    requires |s| == 224
  {
    Receipt(WordAt(s, 0), AccountAt(s, 1), AccountAt(s, 2), AccountAt(s, 3), NumberAt(s, 4), NumberAt(s, 5),
            NumberAt(s, 6))
  }

  /** A receipt encodes to seven words from which every field is read back. */
  lemma ReceiptRoundTrip(r: Receipt)
    requires InRange(OfReceipt(r))
    ensures |EncodeReceipt(r)| == 224 && DecodeReceipt(EncodeReceipt(r)) == r
  {
    SevenWords(r.collectionId, Padded(r.payer, 32), Padded(r.dataService, 32), Padded(r.serviceProvider, 32),
               ToBytes(r.timestampNs, 32), ToBytes(r.nonce, 32), ToBytes(r.value, 32));
    PaddedTail(r.payer);
    PaddedTail(r.dataService);
    PaddedTail(r.serviceProvider);
    NumberBack(r.timestampNs);
    NumberBack(r.nonce);
    NumberBack(r.value);
  }

  function DecodeVoucher(s: seq<Byte>, metadata: seq<Byte>): Voucher
    requires |s| == 224
  {
    Voucher(WordAt(s, 0), AccountAt(s, 1), AccountAt(s, 2), AccountAt(s, 3), NumberAt(s, 4), NumberAt(s, 5), metadata)
  }

  /** A voucher encodes to seven words: every field is read back, and the metadata's hash. */
  lemma VoucherRoundTrip(v: Voucher, keccak: Keccak)
    requires InRange(OfVoucher(v))
    ensures var s := EncodeVoucher(v, keccak);
            |s| == 224 && DecodeVoucher(s, v.metadata) == v && WordAt(s, 6) == keccak(v.metadata)
  {
    SevenWords(v.collectionId, Padded(v.payer, 32), Padded(v.serviceProvider, 32), Padded(v.dataService, 32),
               ToBytes(v.timestampNs, 32), ToBytes(v.valueAggregate, 32), keccak(v.metadata));
    PaddedTail(v.payer);
    PaddedTail(v.serviceProvider);
    PaddedTail(v.dataService);
    NumberBack(v.timestampNs);
    NumberBack(v.valueAggregate);
  }

  /** Equal receipt encodings are of equal receipts. */
  lemma ReceiptInjective(a: Receipt, b: Receipt)
    requires InRange(OfReceipt(a)) && InRange(OfReceipt(b)) && EncodeReceipt(a) == EncodeReceipt(b)
    ensures a == b
  {
    ReceiptRoundTrip(a);
    ReceiptRoundTrip(b);
  }

  /** Equal voucher encodings are of vouchers that differ at most in metadata of equal hash. */
  lemma VoucherInjective(a: Voucher, b: Voucher, keccak: Keccak)
    requires InRange(OfVoucher(a)) && InRange(OfVoucher(b)) && EncodeVoucher(a, keccak) == EncodeVoucher(b, keccak)
    ensures a.(metadata := b.metadata) == b && keccak(a.metadata) == keccak(b.metadata)
  {
    VoucherRoundTrip(a, keccak);
    VoucherRoundTrip(b, keccak);
  }

  // ---- The signed digest ----

  /** The hashes of the type strings; `receiptType` and `voucherType` hash different strings. */
  datatype Types = Types(domainType: seq<Byte>, receiptType: seq<Byte>, voucherType: seq<Byte>)

  function Encode(m: Message, keccak: Keccak): seq<Byte>
    requires InRange(m)
  {
    match m
    case OfReceipt(r) => EncodeReceipt(r)
    case OfVoucher(v) => EncodeVoucher(v, keccak)
  }

  function TypeString(m: Message, types: Types): seq<Byte> {
    if m.OfReceipt? then types.receiptType else types.voucherType
  }

  function StructInput(m: Message, types: Types, keccak: Keccak): seq<Byte>
    requires InRange(m)
  {
    keccak(TypeString(m, types)) + Encode(m, keccak)
  }

  function SeparatorInput(d: Domain, types: Types, keccak: Keccak): seq<Byte>
    requires d.chainId < U256
  {
    keccak(types.domainType) + keccak(d.name) + keccak(d.version) + ToBytes(d.chainId, 32) +
      Padded(d.verifyingContract, 32)
  }

  function DigestInput(d: Domain, m: Message, types: Types, keccak: Keccak): seq<Byte>
    requires d.chainId < U256 && InRange(m)
  {
    Joined(keccak(SeparatorInput(d, types, keccak)), keccak(StructInput(m, types, keccak)))
  }

  function Joined(separator: Word, structHash: Word): seq<Byte> {
    [0x19, 0x01] + separator + structHash
  }

  predicate Collision(keccak: Keccak, x: seq<Byte>, y: seq<Byte>) {
    x != y && keccak(x) == keccak(y)
  }

  lemma Prefix32(a: Word, b: Word, s: seq<Byte>, t: seq<Byte>)
    requires a + s == b + t
    ensures a == b && s == t
  {
    assert (a + s)[..32] == a && (b + t)[..32] == b && (a + s)[32..] == s && (b + t)[32..] == t;
  }

  lemma JoinedInjective(a: Word, s: Word, b: Word, t: Word)
    requires Joined(a, s) == Joined(b, t)
    ensures a == b && s == t
  {
    assert Joined(a, s)[2..34] == a && Joined(b, t)[2..34] == b;
    assert Joined(a, s)[34..] == s && Joined(b, t)[34..] == t;
  }

  lemma FiveWords(a: Word, b: Word, c: Word, d: Word, e: Word)
    ensures var s := a + b + c + d + e;
            |s| == 160 && WordAt(s, 1) == b && WordAt(s, 2) == c && WordAt(s, 3) == d && WordAt(s, 4) == e
  {
  }

  lemma SeparatorParts(d: Domain, types: Types, keccak: Keccak)
    requires d.chainId < U256
    ensures var s := SeparatorInput(d, types, keccak);
            && |s| == 160 && WordAt(s, 1) == keccak(d.name) && WordAt(s, 2) == keccak(d.version)
            && NumberAt(s, 3) == d.chainId && AccountAt(s, 4) == d.verifyingContract
  {
    FiveWords(keccak(types.domainType), keccak(d.name), keccak(d.version), ToBytes(d.chainId, 32),
              Padded(d.verifyingContract, 32));
    NumberBack(d.chainId);
    PaddedTail(d.verifyingContract);
  }

  lemma DomainBound(d: Domain, e: Domain, types: Types, keccak: Keccak) returns (x: seq<Byte>, y: seq<Byte>)
    requires d.chainId < U256 && e.chainId < U256 &&
             SeparatorInput(d, types, keccak) == SeparatorInput(e, types, keccak)
    ensures d == e || Collision(keccak, x, y)
  {
    SeparatorParts(d, types, keccak);
    SeparatorParts(e, types, keccak);
    if d.name != e.name {
      x, y := d.name, e.name;
    } else {
      x, y := d.version, e.version;
    }
  }

  lemma MessageBound(m: Message, n: Message, types: Types, keccak: Keccak) returns (x: seq<Byte>, y: seq<Byte>)
    requires InRange(m) && InRange(n) && types.receiptType != types.voucherType
    requires StructInput(m, types, keccak) == StructInput(n, types, keccak)
    ensures m == n || Collision(keccak, x, y)
  {
    Prefix32(keccak(TypeString(m, types)), keccak(TypeString(n, types)), Encode(m, keccak), Encode(n, keccak));
    if m.OfReceipt? && n.OfReceipt? {
      ReceiptInjective(m.receipt, n.receipt);
      x, y := [], [];
    } else if m.OfVoucher? && n.OfVoucher? {
      VoucherInjective(m.voucher, n.voucher, keccak);
      x, y := m.voucher.metadata, n.voucher.metadata;
    } else {
      x, y := TypeString(m, types), TypeString(n, types);
    }
  }

  /** Two signing digests agree only for the same message under the same domain, unless the hash
      function itself has a collision: a receipt is never signed as a voucher, nor one domain's
      message for another's. */
  lemma DigestBinds(d: Domain, m: Message, e: Domain, n: Message, types: Types, keccak: Keccak)
    returns (x: seq<Byte>, y: seq<Byte>)
    requires d.chainId < U256 && e.chainId < U256 && InRange(m) && InRange(n)
    requires types.receiptType != types.voucherType
    requires keccak(DigestInput(d, m, types, keccak)) == keccak(DigestInput(e, n, types, keccak))
    ensures (d == e && m == n) || Collision(keccak, x, y)
  {
    var sep, sep' := SeparatorInput(d, types, keccak), SeparatorInput(e, types, keccak);
    var msg, msg' := StructInput(m, types, keccak), StructInput(n, types, keccak);
    if Joined(keccak(sep), keccak(msg)) != Joined(keccak(sep'), keccak(msg')) {
      return Joined(keccak(sep), keccak(msg)), Joined(keccak(sep'), keccak(msg'));
    }
    JoinedInjective(keccak(sep), keccak(msg), keccak(sep'), keccak(msg'));
    if sep != sep' {
      return sep, sep';
    }
    if msg != msg' {
      return msg, msg';
    }
    x, y := DomainBound(d, e, types, keccak);
    if d == e {
      x, y := MessageBound(m, n, types, keccak);
    }
  }
}
