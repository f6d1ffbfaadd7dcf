/** Sanitizing can grow a message: a legacy raw header value is rewritten as a values message. At the
    edge of the four-byte frame length the grown body no longer fits, and is refused when it comes
    back. */
module SanitizerGrowth {
  import opened Basics
  import opened Bytes
  import opened ProtoWire
  import opened Sanitizer

  /** The legacy shape of a header: key and raw value. */
  function LegacyEntry(key: Data, value: Data): Data {
    Field(1, key) + Field(2, value)
  }

  /** A request with one legacy header and a path. */
  function LegacyMessage(key: Data, value: Data, path: Data): Data {
    Field(1, LegacyEntry(key, value)) + Field(2, path)
  }

  /** A raw value that is text but no values message is kept, and counts as a change. */
  lemma LegacyEntryRead(lower: Lower, key: Data, value: Data)
    requires KeepsForwarded(lower) && key in FORWARDED && |key| < U64 && |value| < U64
    requires ValuesFrom(value, Values([], false)).Err? && ValidUtf8(value)
    ensures HeaderEntry(lower, LegacyEntry(key, value)) == Ok(Entry(key, [value], true))
  {
    TwoFieldsBack(lower, key, value);
  }

  lemma LegacyMessageRead(lower: Lower, key: Data, value: Data, path: Data)
    requires KeepsForwarded(lower) && key in FORWARDED && |LegacyEntry(key, value)| < U64 && |path| < U64
    requires ValuesFrom(value, Values([], false)).Err? && ValidUtf8(value) && ValidUtf8(path)
    ensures Message(lower, LegacyMessage(key, value, path)) ==
            Ok(Scan(Request(map[key := [value]], path, []), true))
  {
    var entry, second := LegacyEntry(key, value), Field(2, path);
    LegacyEntryRead(lower, key, value);
    ForwardedIsText(key);
    RepairKeepsValid(path);
    MessageField(lower, 1, entry, second, NO_SCAN);
    var s1 := AddField(lower, 1, NO_SCAN, entry).value;
    assert s1 == Scan(Request(map[key := [value]], [], []), true);
    MessageField(lower, 2, path, [], s1);
    assert second + [] == second;
  }

  /** The clean form of that request. */
  lemma LegacyMessageWritten(key: Data, value: Data, path: Data)
    requires path != []
    ensures var r := Request(map[key := [value]], path, []);
            && Orders([key], r.headers.Keys)
            && Marshal(r, [key]) == Field(1, EntryBytes(key, [value])) + Field(2, path)
  {
    var r := Request(map[key := [value]], path, []);
    assert HeaderBytes(r.headers, [key]) == Field(1, EntryBytes(key, [value])) + HeaderBytes(r.headers, [key][1..]);
    assert [key][1..] == [];
  }

  /** Sizes: the rewritten header is two bytes longer. */
  lemma Sizes(key: Data, value: Data, path: Data)
    requires |key| == 9 && |value| == 1
    ensures |Field(1, LegacyEntry(key, value))| == 16
    ensures |Field(1, EntryBytes(key, [value]))| == 18
    ensures 0x1000_0000 <= |path| < 0x8_0000_0000 ==> |Field(2, path)| == |path| + 6
  {
    assert |ValuesBytes([value])| == 3 by {
      assert [value][..0] == [];
    }
    if 0x1000_0000 <= |path| < 0x8_0000_0000 {
      FiveByteVarint(|path|);
    }
  }

  lemma FiveByteVarint(v: nat)
    requires 0x1000_0000 <= v < 0x8_0000_0000
    ensures |Varint(v)| == 5
  {
    var v1 := v / 128;
    var v2 := v1 / 128;
    var v3 := v2 / 128;
    var v4 := v3 / 128;
    assert 0x20_0000 <= v1 < 0x1000_0000;
    assert 0x4000 <= v2 < 0x20_0000;
    assert 0x80 <= v3 < 0x4000;
    assert 1 <= v4 < 0x80;
    assert |Varint(v4)| == 1;
    assert |Varint(v3)| == 2;
    assert |Varint(v2)| == 3;
    assert |Varint(v1)| == 4;
  }

  /** A gRPC body of 2^32-1 message bytes is accepted and rewritten to 2^32+1, which no longer fits the
      length field: sent through the sanitizer again, it is refused. */
  lemma GrownFrameRefused(lower: Lower, contentType: string, path: Data) returns (payload: Data, out: Data)
    requires KeepsForwarded(lower) && IsGrpc(contentType)
    requires |path| == 0x1_0000_0000 - 23 && forall i :: 0 <= i < |path| ==> path[i] < 0x80
    ensures Accepts(lower, contentType, payload, out, true)
    ensures |payload| == 0x1_0000_0000 + 4 && |out| == 0x1_0000_0000 + 6
    ensures forall out', changed' :: !Accepts(lower, contentType, out, out', changed')
  {
    var key, value := Ascii("x-sds-rav"), [97];
    var msg := LegacyMessage(key, value, path);
    var clean := Field(1, EntryBytes(key, [value])) + Field(2, path);
    Sizes(key, value, path);
    RawValueIsNoMessage();
    AsciiIsValid(value);
    AsciiIsValid(path);
    LegacyMessageRead(lower, key, value, path);
    LegacyMessageWritten(key, value, path);
    assert Sanitizes(lower, msg, clean, true);
    payload, out := Frame(msg), Frame(clean);
    FrameFits(msg);
    FrameBack(msg);
    FrameBack(clean);
    FrameLimit();
  }

  lemma RawValueIsNoMessage()
    ensures ValuesFrom([97], Values([], false)).Err?
  {
  }

  lemma FrameLimit()
    ensures Pow256(4) == 0x1_0000_0000
  {
  }

  lemma FrameFits(msg: Data)
    ensures |Frame(msg)| == |msg| + 5
  {
  }
}
