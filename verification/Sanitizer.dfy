/** The sanitizer in front of the auth service: it rewrites a request so that only forwarded headers
    and valid text remain, and leaves a request that is already clean byte for byte. */
module Sanitizer {
  import opened Basics
  import opened Bytes
  import opened ProtoWire

  /** Unicode lower-casing. */
  type Lower = Data -> Data

  function Ascii(s: string): Data {
    seq(|s|, i requires 0 <= i < |s| => if s[i] < '\U{80}' then s[i] as int else 63)
  }

  const FORWARDED: set<Data> := {Ascii("x-sds-rav"), Ascii("x-sds-session-id"), Ascii("x-trace-id")}

  /** The forwarded names are lower case. */
  predicate KeepsForwarded(lower: Lower) {
    forall k <- FORWARDED :: lower(k) == k
  }

  datatype AuthError = Malformed | UnexpectedWireType | NotHeaderValues | FrameTooShort | Compressed | FrameMismatch

  // ---- Header values ----

  datatype Values = Values(list: seq<Data>, changed: bool)

  function AddValue(v: Values, x: Data): Values {
    if ValidUtf8(x) then v.(list := v.list + [x]) else v.(changed := true)
  }

  function ValuesFrom(b: Data, v: Values): Result<Values, AuthError>
    decreases |b|
  {
    if b == [] then Ok(v)
    else match ConsumeTag(b)
      case None => Err(Malformed)
      case Some(tag) =>
        if tag.value != Tag(1, BYTES_TYPE) then Err(NotHeaderValues)
        else match ConsumeBytes(b[tag.size..])
          case None => Err(Malformed)
          case Some(x) => ValuesFrom(b[tag.size..][x.size..], AddValue(v, x.value))
  }

  /** Anything that is not a values message is taken as one raw value, or dropped if it is not text. */
  function HeaderValues(b: Data): Values {
    match ValuesFrom(b, Values([], false))
    case Ok(v) => v
    case Err(_) => Values(if ValidUtf8(b) then [b] else [], true)
  }

  method SanitizeHeaderValues(payload: Data) returns (v: Values)
    ensures v == HeaderValues(payload)
  {
    var rest := payload;
    v := Values([], false);
    while rest != []
      invariant ValuesFrom(rest, v) == ValuesFrom(payload, Values([], false))
      decreases |rest|
    {
      var tag := ConsumeTag(rest);
      if tag.None? || tag.value.value != Tag(1, BYTES_TYPE) {
        return Values(if ValidUtf8(payload) then [payload] else [], true);
      }
      rest := rest[tag.value.size..];
      var x := ConsumeBytes(rest);
      if x.None? {
        return Values(if ValidUtf8(payload) then [payload] else [], true);
      }
      rest := rest[x.value.size..];
      v := AddValue(v, x.value.value);
    }
  }

  // ---- Header entries ----

  datatype Entry = Entry(key: Data, values: seq<Data>, changed: bool)

  function SetKey(lower: Lower, e: Entry, x: Data): Entry {
    var key := lower(ToValidUtf8(x));
    e.(key := key, changed := e.changed || key != x)
  }

  function SetValues(e: Entry, x: Data): Entry {
    var v := HeaderValues(x);
    e.(values := v.list, changed := e.changed || v.changed)
  }

  function EntryFrom(lower: Lower, b: Data, e: Entry): Result<Entry, AuthError>
    decreases |b|
  {
    if b == [] then Ok(e)
    else match ConsumeTag(b)
      case None => Err(Malformed)
      case Some(tag) =>
        var rest := b[tag.size..];
        if tag.value.number == 1 || tag.value.number == 2 then
          if tag.value.kind != BYTES_TYPE then Err(UnexpectedWireType)
          else match ConsumeBytes(rest)
            case None => Err(Malformed)
            case Some(x) =>
              EntryFrom(lower, rest[x.size..], if tag.value.number == 1 then SetKey(lower, e, x.value)
                                               else SetValues(e, x.value))
        else match ConsumeFieldValue(tag.value, rest)
          case None => Err(Malformed)
          case Some(n) => EntryFrom(lower, rest[n..], e.(changed := true))
  }

  /** A header that is not forwarded is dropped. */
  function Sealed(e: Entry): Entry {
    if e.key == [] then Entry([], [], e.changed)
    else if e.key !in FORWARDED then Entry([], [], true)
    else e
  }

  const NO_ENTRY := Entry([], [], false)

  function HeaderEntry(lower: Lower, b: Data): Result<Entry, AuthError> {
    match EntryFrom(lower, b, NO_ENTRY)
    case Err(e) => Err(e)
    case Ok(e) => Ok(Sealed(e))
  }

  method SanitizeHeaderEntry(lower: Lower, payload: Data) returns (result: Result<Entry, AuthError>)
    ensures result == HeaderEntry(lower, payload)
  {
    var rest, e := payload, NO_ENTRY;
    while rest != []
      invariant EntryFrom(lower, rest, e) == EntryFrom(lower, payload, NO_ENTRY)
      decreases |rest|
    {
      var tag := ConsumeTag(rest);
      if tag.None? {
        return Err(Malformed);
      }
      rest := rest[tag.value.size..];
      var number := tag.value.value.number;
      if number == 1 || number == 2 {
        if tag.value.value.kind != BYTES_TYPE {
          return Err(UnexpectedWireType);
        }
        var x := ConsumeBytes(rest);
        if x.None? {
          return Err(Malformed);
        }
        if number == 1 {
          e := SetKey(lower, e, x.value.value);
        } else {
          var v := SanitizeHeaderValues(x.value.value);
          e := e.(values := v.list, changed := e.changed || v.changed);
        }
        rest := rest[x.value.size..];
      } else {
        var n := ConsumeFieldValue(tag.value.value, rest);
        if n.None? {
          return Err(Malformed);
        }
        e := e.(changed := true);
        rest := rest[n.value..];
      }
    }
    result := Ok(Sealed(e));
  }

  // ---- The request ----

  datatype Request = Request(headers: map<Data, seq<Data>>, path: Data, ip: Data)

  datatype Scan = Scan(request: Request, changed: bool)

  const NO_SCAN := Scan(Request(map[], [], []), false)

  function AddEntry(s: Scan, e: Entry): Scan {
    var headers := if e.key != [] && e.values != [] then s.request.headers[e.key := e.values] else s.request.headers;
    Scan(s.request.(headers := headers), s.changed || e.changed)
  }

  function SetPath(s: Scan, x: Data): Scan {
    Scan(s.request.(path := ToValidUtf8(x)), s.changed || ToValidUtf8(x) != x)
  }

  function SetIp(s: Scan, x: Data): Scan {
    Scan(s.request.(ip := ToValidUtf8(x)), s.changed || ToValidUtf8(x) != x)
  }

  function AddField(lower: Lower, number: nat, s: Scan, x: Data): Result<Scan, AuthError>
    requires 1 <= number <= 3
  {
    if number == 1 then
      match HeaderEntry(lower, x)
      case Err(e) => Err(e)
      case Ok(e) => Ok(AddEntry(s, e))
    else if number == 2 then Ok(SetPath(s, x))
    else Ok(SetIp(s, x))
  }

  function MessageFrom(lower: Lower, b: Data, s: Scan): Result<Scan, AuthError>
    decreases |b|
  {
    if b == [] then Ok(s)
    else match ConsumeTag(b)
      case None => Err(Malformed)
      case Some(tag) =>
        var rest := b[tag.size..];
        if tag.value.number <= 3 then
          if tag.value.kind != BYTES_TYPE then Err(UnexpectedWireType)
          else match ConsumeBytes(rest)
            case None => Err(Malformed)
            case Some(x) =>
              match AddField(lower, tag.value.number, s, x.value)
              case Err(e) => Err(e)
              case Ok(s') => MessageFrom(lower, rest[x.size..], s')
        else match ConsumeFieldValue(tag.value, rest)
          case None => Err(Malformed)
          case Some(n) => MessageFrom(lower, rest[n..], s.(changed := true))
  }

  function Message(lower: Lower, b: Data): Result<Scan, AuthError> {
    MessageFrom(lower, b, NO_SCAN)
  }

  // ---- Writing a request ----

  function ValuesBytes(vs: seq<Data>): Data {
    if vs == [] then [] else ValuesBytes(vs[..|vs| - 1]) + Field(1, vs[|vs| - 1])
  }

  function EntryBytes(key: Data, vs: seq<Data>): Data {
    Field(1, key) + Field(2, ValuesBytes(vs))
  }

  function HeaderBytes(headers: map<Data, seq<Data>>, order: seq<Data>): Data
    requires forall k <- order :: k in headers
  {
    if order == [] then []
    else Field(1, EntryBytes(order[0], headers[order[0]])) + HeaderBytes(headers, order[1..])
  }

  function TextBytes(number: nat, s: Data): Data
    requires 1 <= number <= 3
  {
    if s == [] then [] else Field(number, s)
  }

  /** Map entries are written in some order, each once. */
  predicate Orders(order: seq<Data>, keys: set<Data>) {
    && (forall k <- order :: k in keys)
    && (forall k <- keys :: k in order)
    && (forall i, j :: 0 <= i < j < |order| ==> order[i] != order[j])
  }

  function Marshal(r: Request, order: seq<Data>): Data
    requires Orders(order, r.headers.Keys)
  {
    HeaderBytes(r.headers, order) + TextBytes(2, r.path) + TextBytes(3, r.ip)
  }

  /** What sanitizing a message may return: itself if nothing changed, else its clean form. */
  ghost predicate Sanitizes(lower: Lower, payload: Data, out: Data, changed: bool) {
    && Message(lower, payload).Ok?
    && changed == Message(lower, payload).value.changed
    && var request := Message(lower, payload).value.request;
       if changed then exists order :: Orders(order, request.headers.Keys) && out == Marshal(request, order)
       else out == payload
  }

  method OrderKeys(keys: set<Data>) returns (order: seq<Data>)
    ensures Orders(order, keys)
  {
    order := [];
    var left := keys;
    while left != {}
      invariant left <= keys
      invariant forall k :: k in order <==> k in keys && k !in left
      invariant forall i, j :: 0 <= i < j < |order| ==> order[i] != order[j]
      decreases |left|
    {
      var k :| k in left;
      order := order + [k];
      left := left - {k};
    }
  }

  method SanitizeMessage(lower: Lower, payload: Data) returns (result: Result<(Data, bool), AuthError>)
    ensures result.Ok? <==> Message(lower, payload).Ok?
    ensures result.Err? ==> result.error == Message(lower, payload).error
    ensures result.Ok? ==> Sanitizes(lower, payload, result.value.0, result.value.1)
  {
    var rest, s := payload, NO_SCAN;
    while rest != []
      invariant MessageFrom(lower, rest, s) == Message(lower, payload)
      decreases |rest|
    {
      var tag := ConsumeTag(rest);
      if tag.None? {
        return Err(Malformed);
      }
      rest := rest[tag.value.size..];
      var number := tag.value.value.number;
      if number <= 3 {
        if tag.value.value.kind != BYTES_TYPE {
          return Err(UnexpectedWireType);
        }
        var x := ConsumeBytes(rest);
        if x.None? {
          return Err(Malformed);
        }
        if number == 1 {
          var e := SanitizeHeaderEntry(lower, x.value.value);
          if e.Err? {
            return Err(e.error);
          }
          s := AddEntry(s, e.value);
        } else if number == 2 {
          s := SetPath(s, x.value.value);
        } else {
          s := SetIp(s, x.value.value);
        }
        rest := rest[x.value.size..];
      } else {
        var n := ConsumeFieldValue(tag.value.value, rest);
        if n.None? {
          return Err(Malformed);
        }
        s := s.(changed := true);
        rest := rest[n.value..];
      }
    }
    if !s.changed {
      return Ok((payload, false));
    }
    var order := OrderKeys(s.request.headers.Keys);
    result := Ok((Marshal(s.request, order), true));
  }

  // ---- Bodies: raw, or one gRPC frame ----

  predicate IsGrpc(contentType: string) {
    "application/grpc" <= contentType
  }

  /** The length field keeps the low four bytes. */
  function Frame(msg: Data): Data {
    [0] + ToBytes(|msg|, 4) + msg
  }

  function FrameProblem(payload: Data): Option<AuthError> {
    if |payload| < 5 then Some(FrameTooShort)
    else if payload[0] != 0 then Some(Compressed)
    else if FromBytes(payload[1..5]) != |payload| - 5 then Some(FrameMismatch)
    else None
  }

  ghost predicate Accepts(lower: Lower, contentType: string, payload: Data, out: Data, changed: bool) {
    if payload == [] then out == [] && !changed
    else if IsGrpc(contentType) then
      && FrameProblem(payload).None?
      && exists msg :: Sanitizes(lower, payload[5..], msg, changed) && out == if changed then Frame(msg) else payload
    else Sanitizes(lower, payload, out, changed)
  }

  method SanitizePayload(lower: Lower, contentType: string, payload: Data)
    returns (result: Result<(Data, bool), AuthError>)
    ensures result.Ok? ==> Accepts(lower, contentType, payload, result.value.0, result.value.1)
    ensures result.Err? ==> forall out, changed :: !Accepts(lower, contentType, payload, out, changed)
    ensures payload != [] && IsGrpc(contentType) && FrameProblem(payload).Some? ==>
              result == Err(FrameProblem(payload).value)
  {
    if payload == [] {
      return Ok((payload, false));
    }
    if IsGrpc(contentType) {
      if |payload| < 5 {
        return Err(FrameTooShort);
      }
      if payload[0] != 0 {
        return Err(Compressed);
      }
      if FromBytes(payload[1..5]) != |payload| - 5 {
        return Err(FrameMismatch);
      }
      var clean := SanitizeMessage(lower, payload[5..]);
      if clean.Err? || !clean.value.1 {
        return if clean.Err? then clean else Ok((payload, false));
      }
      result := Ok((Frame(clean.value.0), true));
    } else {
      result := SanitizeMessage(lower, payload);
    }
  }

  // ---- A clean request is read back as it was written ----

  predicate AllValid(vs: seq<Data>) {
    vs == [] || (AllValid(vs[..|vs| - 1]) && ValidUtf8(vs[|vs| - 1]))
  }

  /** What the sanitizer keeps: forwarded headers with text values, and text. */
  predicate Clean(r: Request) {
    && (forall k <- r.headers :: k in FORWARDED && r.headers[k] != [] && AllValid(r.headers[k]))
    && ValidUtf8(r.path) && ValidUtf8(r.ip)
  }

  lemma AsciiText(s: string)
    ensures ValidUtf8(Ascii(s)) && ToValidUtf8(Ascii(s)) == Ascii(s)
  {
    AsciiIsValid(Ascii(s));
    RepairKeepsValid(Ascii(s));
  }

  lemma ForwardedIsText(k: Data)
    requires k in FORWARDED
    ensures k != [] && ToValidUtf8(k) == k
  {
    var s := if k == Ascii("x-sds-rav") then "x-sds-rav"
             else if k == Ascii("x-trace-id") then "x-trace-id" else "x-sds-session-id";
    AsciiText(s);
  }

  lemma ValuesField(x: Data, rest: Data, v: Values)
    requires |x| < U64 && ValidUtf8(x)
    ensures ValuesFrom(Field(1, x) + rest, v) == ValuesFrom(rest, v.(list := v.list + [x]))
  {
    FieldBack(1, x, rest);
  }

  lemma {:induction false} ValuesBack(vs: seq<Data>, rest: Data)
    requires AllValid(vs) && |ValuesBytes(vs)| < U64
    ensures ValuesFrom(ValuesBytes(vs) + rest, Values([], false)) == ValuesFrom(rest, Values(vs, false))
  {
    if vs == [] {
      assert ValuesBytes(vs) + rest == rest;
    } else {
      var front, x := vs[..|vs| - 1], vs[|vs| - 1];
      assert front + [x] == vs;
      var start := ValuesBytes(front);
      assert start + Field(1, x) + rest == start + (Field(1, x) + rest);
      ValuesBack(front, Field(1, x) + rest);
      ValuesField(x, rest, Values(front, false));
    }
  }

  /** Reading one written field of a header entry. */
  lemma EntryField(lower: Lower, number: nat, x: Data, rest: Data, e: Entry)
    requires 1 <= number <= 2 && |x| < U64
    ensures EntryFrom(lower, Field(number, x) + rest, e) ==
            EntryFrom(lower, rest, if number == 1 then SetKey(lower, e, x) else SetValues(e, x))
  {
    FieldBack(number, x, rest);
  }

  /** A key and a values field, in this order. */
  lemma TwoFieldsBack(lower: Lower, key: Data, x: Data)
    requires KeepsForwarded(lower) && key in FORWARDED && |key| < U64 && |x| < U64
    ensures HeaderEntry(lower, Field(1, key) + Field(2, x)) ==
              Ok(Entry(key, HeaderValues(x).list, HeaderValues(x).changed))
  {
    ForwardedIsText(key);
    EntryField(lower, 1, key, Field(2, x), NO_ENTRY);
    EntryField(lower, 2, x, [], SetKey(lower, NO_ENTRY, key));
    assert Field(2, x) + [] == Field(2, x);
  }

  lemma EntryBack(lower: Lower, key: Data, vs: seq<Data>)
    requires KeepsForwarded(lower) && key in FORWARDED && AllValid(vs) && |EntryBytes(key, vs)| < U64
    ensures HeaderEntry(lower, EntryBytes(key, vs)) == Ok(Entry(key, vs, false))
  {
    ValuesBack(vs, []);
    assert ValuesBytes(vs) + [] == ValuesBytes(vs);
    TwoFieldsBack(lower, key, ValuesBytes(vs));
  }

  /** Reading one written field of a message. */
  lemma MessageField(lower: Lower, number: nat, x: Data, rest: Data, s: Scan)
    requires 1 <= number <= 3 && |x| < U64 && AddField(lower, number, s, x).Ok?
    ensures MessageFrom(lower, Field(number, x) + rest, s) ==
              MessageFrom(lower, rest, AddField(lower, number, s, x).value)
  {
    FieldBack(number, x, rest);
  }

  function Taken(headers: map<Data, seq<Data>>, order: seq<Data>, into: map<Data, seq<Data>>): map<Data, seq<Data>>
    requires forall k <- order :: k in headers
  {
    if order == [] then into else Taken(headers, order[1..], into[order[0] := headers[order[0]]])
  }

  lemma {:induction false} TakenAll(headers: map<Data, seq<Data>>, order: seq<Data>, into: map<Data, seq<Data>>)
    requires forall k <- order :: k in headers
    requires forall k <- into :: k in headers && into[k] == headers[k]
    requires forall k <- headers :: k in into || k in order
    ensures Taken(headers, order, into) == headers
  {
    if order == [] {
      assert into == headers;
    } else {
      TakenAll(headers, order[1..], into[order[0] := headers[order[0]]]);
    }
  }

  lemma {:induction false} HeadersBack(lower: Lower, r: Request, order: seq<Data>, rest: Data,
                                       into: map<Data, seq<Data>>)
    requires KeepsForwarded(lower) && Clean(r) && (forall k <- order :: k in r.headers)
    requires |HeaderBytes(r.headers, order)| < U64
    ensures MessageFrom(lower, HeaderBytes(r.headers, order) + rest, Scan(Request(into, [], []), false)) ==
            MessageFrom(lower, rest, Scan(Request(Taken(r.headers, order, into), [], []), false))
    decreases |order|
  {
    var s := Scan(Request(into, [], []), false);
    if order == [] {
      assert [] + rest == rest;
    } else {
      var key, vs := order[0], r.headers[order[0]];
      var entry, more := EntryBytes(key, vs), HeaderBytes(r.headers, order[1..]);
      assert HeaderBytes(r.headers, order) + rest == Field(1, entry) + (more + rest);
      EntryBack(lower, key, vs);
      ForwardedIsText(key);
      MessageField(lower, 1, entry, more + rest, s);
      HeadersBack(lower, r, order[1..], rest, into[key := vs]);
    }
  }

  lemma TextsBack(lower: Lower, r: Request, s: Scan)
    requires Clean(r) && s == Scan(Request(r.headers, [], []), false)
    requires |r.path| < U64 && |r.ip| < U64
    ensures MessageFrom(lower, TextBytes(2, r.path) + TextBytes(3, r.ip), s) == Ok(Scan(r, false))
  {
    RepairKeepsValid(r.path);
    RepairKeepsValid(r.ip);
    var ip := TextBytes(3, r.ip);
    var s' := Scan(Request(r.headers, r.path, []), false);
    if r.path == [] {
      assert TextBytes(2, r.path) + ip == ip;
    } else {
      MessageField(lower, 2, r.path, ip, s);
    }
    assert MessageFrom(lower, TextBytes(2, r.path) + ip, s) == MessageFrom(lower, ip, s');
    if r.ip != [] {
      MessageField(lower, 3, r.ip, [], s');
      assert Field(3, r.ip) + [] == ip;
    }
  }

  lemma MarshalSizes(r: Request, order: seq<Data>)
    requires Orders(order, r.headers.Keys)
    ensures |HeaderBytes(r.headers, order)| <= |Marshal(r, order)|
    ensures |r.path| <= |Marshal(r, order)| && |r.ip| <= |Marshal(r, order)|
  {
  }

  lemma AllHeadersBack(lower: Lower, r: Request, order: seq<Data>, rest: Data)
    requires KeepsForwarded(lower) && Clean(r) && (forall k <- order :: k in r.headers) &&
             (forall k <- r.headers :: k in order)
    requires |HeaderBytes(r.headers, order)| < U64
    ensures MessageFrom(lower, HeaderBytes(r.headers, order) + rest, NO_SCAN) ==
            MessageFrom(lower, rest, Scan(Request(r.headers, [], []), false))
  {
    HeadersBack(lower, r, order, rest, map[]);
    TakenAll(r.headers, order, map[]);
  }

  /** A clean request, written in any order of its headers, is read back whole and unchanged. */
  lemma MarshalBack(lower: Lower, r: Request, order: seq<Data>)
    requires KeepsForwarded(lower) && Clean(r) && Orders(order, r.headers.Keys) && |Marshal(r, order)| < U64
    ensures Message(lower, Marshal(r, order)) == Ok(Scan(r, false))
  {
    var headers, texts := HeaderBytes(r.headers, order), TextBytes(2, r.path) + TextBytes(3, r.ip);
    assert Marshal(r, order) == headers + texts;
    MarshalSizes(r, order);
    AllHeadersBack(lower, r, order, texts);
    TextsBack(lower, r, Scan(Request(r.headers, [], []), false));
  }

  // ---- What the sanitizer reads is clean ----

  lemma {:induction false} ValuesAreText(b: Data, v: Values)
    requires AllValid(v.list) && ValuesFrom(b, v).Ok?
    ensures AllValid(ValuesFrom(b, v).value.list)
    decreases |b|
  {
    if b != [] {
      var tag := ConsumeTag(b).value;
      var x := ConsumeBytes(b[tag.size..]).value;
      ValuesAreText(b[tag.size..][x.size..], AddValue(v, x.value));
    }
  }

  lemma HeaderValuesAreText(b: Data)
    ensures AllValid(HeaderValues(b).list)
  {
    if ValuesFrom(b, Values([], false)).Ok? {
      ValuesAreText(b, Values([], false));
    }
  }

  lemma {:induction false} EntryValuesAreText(lower: Lower, b: Data, e: Entry)
    requires AllValid(e.values) && EntryFrom(lower, b, e).Ok?
    ensures AllValid(EntryFrom(lower, b, e).value.values)
    decreases |b|
  {
    if b != [] {
      var tag := ConsumeTag(b).value;
      var rest := b[tag.size..];
      if tag.value.number == 1 || tag.value.number == 2 {
        var x := ConsumeBytes(rest).value;
        HeaderValuesAreText(x.value);
        EntryValuesAreText(lower, rest[x.size..], if tag.value.number == 1 then SetKey(lower, e, x.value)
                                                  else SetValues(e, x.value));
      } else {
        EntryValuesAreText(lower, rest[ConsumeFieldValue(tag.value, rest).value..], e.(changed := true));
      }
    }
  }

  lemma FieldKeepsClean(lower: Lower, number: nat, s: Scan, x: Data)
    requires 1 <= number <= 3 && Clean(s.request) && AddField(lower, number, s, x).Ok?
    ensures Clean(AddField(lower, number, s, x).value.request)
  {
    RepairIsValid(x);
    if number == 1 {
      EntryValuesAreText(lower, x, NO_ENTRY);
    }
  }

  lemma {:induction false} MessageIsClean(lower: Lower, b: Data, s: Scan)
    requires Clean(s.request) && MessageFrom(lower, b, s).Ok?
    ensures Clean(MessageFrom(lower, b, s).value.request)
    decreases |b|
  {
    if b != [] {
      var tag := ConsumeTag(b).value;
      var rest := b[tag.size..];
      if tag.value.number <= 3 {
        var x := ConsumeBytes(rest).value;
        FieldKeepsClean(lower, tag.value.number, s, x.value);
        MessageIsClean(lower, rest[x.size..], AddField(lower, tag.value.number, s, x.value).value);
      } else {
        MessageIsClean(lower, rest[ConsumeFieldValue(tag.value, rest).value..], s.(changed := true));
      }
    }
  }

  // ---- Idempotence ----

  /** Sanitizing a sanitized message changes nothing, and it still means the same request. */
  lemma {:induction false} MessageIdempotent(lower: Lower, payload: Data, out: Data, changed: bool)
    requires KeepsForwarded(lower) && Sanitizes(lower, payload, out, changed) && |out| < U64
    ensures Message(lower, out) == Ok(Scan(Message(lower, payload).value.request, false))
    ensures forall out', changed' :: Sanitizes(lower, out, out', changed') <==> out' == out && !changed'
  {
    var request := Message(lower, payload).value.request;
    if changed {
      MessageIsClean(lower, payload, NO_SCAN);
      var order :| Orders(order, request.headers.Keys) && out == Marshal(request, order);
      MarshalBack(lower, request, order);
    }
  }

  lemma FrameBack(msg: Data)
    ensures FrameProblem(Frame(msg)).None? <==> |msg| < Pow256(4)
    ensures Frame(msg)[5..] == msg
  {
    var f := Frame(msg);
    assert f[1..5] == ToBytes(|msg|, 4) && f[5..] == msg;
    FromBytesBound(f[1..5]);
    if |msg| < Pow256(4) {
      FromToBytes(|msg|, 4);
    }
  }

  /** For raw bodies, sanitizing twice is sanitizing once. */
  lemma {:induction false} RawIdempotent(lower: Lower, contentType: string, payload: Data, out: Data, changed: bool)
    requires KeepsForwarded(lower) && !IsGrpc(contentType) && |out| < U64
    requires Accepts(lower, contentType, payload, out, changed)
    ensures forall out', changed' :: Accepts(lower, contentType, out, out', changed') <==> out' == out && !changed'
  {
    if payload != [] {
      MessageIdempotent(lower, payload, out, changed);
    }
  }

  /** For framed bodies too, exactly when the clean message fits the four-byte length. */
  lemma FramedIdempotent(lower: Lower, contentType: string, payload: Data, out: Data, changed: bool)
    requires KeepsForwarded(lower) && IsGrpc(contentType) && |out| < U64
    requires Accepts(lower, contentType, payload, out, changed)
    ensures (changed ==> |out| < Pow256(4) + 5) <==>
            forall out', changed' :: Accepts(lower, contentType, out, out', changed') <==> out' == out && !changed'
  {
    if payload != [] {
      var msg :| Sanitizes(lower, payload[5..], msg, changed) && out == if changed then Frame(msg) else payload;
      FrameBack(msg);
      MessageIdempotent(lower, payload[5..], msg, changed);
      if changed && |msg| >= Pow256(4) {
        assert !Accepts(lower, contentType, out, out, false);
      }
    }
  }

  // ---- Confinement ----

  /** The key a decoder finds in a header entry: the last one given. */
  function LastKey(b: Data, key: Data): Data
    decreases |b|
  {
    if b == [] || ConsumeTag(b).None? then key
    else
      var tag := ConsumeTag(b).value;
      var rest := b[tag.size..];
      if tag.value == Tag(1, BYTES_TYPE) && ConsumeBytes(rest).Some? then
        LastKey(rest[ConsumeBytes(rest).value.size..], ConsumeBytes(rest).value.value)
      else
        match ConsumeFieldValue(tag.value, rest)
        case None => key
        case Some(n) => LastKey(rest[n..], key)
  }

  /** The header keys a decoder finds in a message. */
  function DecodedKeys(b: Data): set<Data>
    decreases |b|
  {
    if b == [] || ConsumeTag(b).None? then {}
    else
      var tag := ConsumeTag(b).value;
      var rest := b[tag.size..];
      if tag.value == Tag(1, BYTES_TYPE) && ConsumeBytes(rest).Some? then
        {LastKey(ConsumeBytes(rest).value.value, [])} + DecodedKeys(rest[ConsumeBytes(rest).value.size..])
      else
        match ConsumeFieldValue(tag.value, rest)
        case None => {}
        case Some(n) => DecodedKeys(rest[n..])
  }

  lemma {:induction false} ChangedStays(lower: Lower, b: Data, e: Entry)
    requires EntryFrom(lower, b, e).Ok? && e.changed
    ensures EntryFrom(lower, b, e).value.changed
    decreases |b|
  {
    if b != [] {
      var tag := ConsumeTag(b).value;
      var rest := b[tag.size..];
      if tag.value.number == 1 || tag.value.number == 2 {
        var x := ConsumeBytes(rest).value;
        ChangedStays(lower, rest[x.size..], if tag.value.number == 1 then SetKey(lower, e, x.value)
                                            else SetValues(e, x.value));
      } else {
        ChangedStays(lower, rest[ConsumeFieldValue(tag.value, rest).value..], e.(changed := true));
      }
    }
  }

  /** An entry left unchanged has the key a decoder sees. */
  lemma {:induction false} UnchangedKey(lower: Lower, b: Data, e: Entry)
    requires EntryFrom(lower, b, e).Ok? && !EntryFrom(lower, b, e).value.changed
    ensures EntryFrom(lower, b, e).value.key == LastKey(b, e.key)
    decreases |b|
  {
    if b != [] {
      var tag := ConsumeTag(b).value;
      var rest := b[tag.size..];
      if tag.value.number == 1 || tag.value.number == 2 {
        var x := ConsumeBytes(rest).value;
        var e' := if tag.value.number == 1 then SetKey(lower, e, x.value) else SetValues(e, x.value);
        if e'.changed {
          ChangedStays(lower, rest[x.size..], e');
        }
        UnchangedKey(lower, rest[x.size..], e');
      } else {
        ChangedStays(lower, rest[ConsumeFieldValue(tag.value, rest).value..], e.(changed := true));
      }
    }
  }

  lemma {:induction false} ScanChangedStays(lower: Lower, b: Data, s: Scan)
    requires MessageFrom(lower, b, s).Ok? && s.changed
    ensures MessageFrom(lower, b, s).value.changed
    decreases |b|
  {
    if b != [] {
      var tag := ConsumeTag(b).value;
      var rest := b[tag.size..];
      if tag.value.number <= 3 {
        var x := ConsumeBytes(rest).value;
        ScanChangedStays(lower, rest[x.size..], AddField(lower, tag.value.number, s, x.value).value);
      } else {
        ScanChangedStays(lower, rest[ConsumeFieldValue(tag.value, rest).value..], s.(changed := true));
      }
    }
  }

  lemma {:induction false} UnchangedKeys(lower: Lower, b: Data, s: Scan)
    requires MessageFrom(lower, b, s).Ok? && !MessageFrom(lower, b, s).value.changed
    ensures forall k <- DecodedKeys(b) :: k == [] || k in FORWARDED
    decreases |b|
  {
    if b != [] {
      var tag := ConsumeTag(b).value;
      var rest := b[tag.size..];
      if tag.value.number <= 3 {
        var x := ConsumeBytes(rest).value;
        var s' := AddField(lower, tag.value.number, s, x.value).value;
        if s'.changed {
          ScanChangedStays(lower, rest[x.size..], s');
        }
        if tag.value.number == 1 {
          UnchangedKey(lower, x.value, NO_ENTRY);
        }
        UnchangedKeys(lower, rest[x.size..], s');
      } else {
        ScanChangedStays(lower, rest[ConsumeFieldValue(tag.value, rest).value..], s.(changed := true));
      }
    }
  }

  lemma {:induction false} MessageOnlyForwarded(lower: Lower, payload: Data, out: Data, changed: bool)
    requires KeepsForwarded(lower) && Sanitizes(lower, payload, out, changed) && |out| < U64
    ensures forall k <- DecodedKeys(out) :: k == [] || k in FORWARDED
  {
    MessageIdempotent(lower, payload, out, changed);
    UnchangedKeys(lower, out, NO_SCAN);
  }

  /** The message in a body: what follows the frame header, if there is one. */
  function MessageOf(contentType: string, body: Data): Data {
    if IsGrpc(contentType) && |body| >= 5 then body[5..] else body
  }

  /** Every non-empty header key that decodes from a sanitized body, raw or framed, is a forwarded name. */
  lemma {:induction false} OnlyForwarded(lower: Lower, contentType: string, payload: Data, out: Data, changed: bool)
    requires KeepsForwarded(lower) && Accepts(lower, contentType, payload, out, changed) && |out| < U64
    ensures forall k <- DecodedKeys(MessageOf(contentType, out)) :: k == [] || k in FORWARDED
  {
    if payload != [] {
      if IsGrpc(contentType) {
        var msg :| Sanitizes(lower, payload[5..], msg, changed) && out == if changed then Frame(msg) else payload;
        FrameBack(msg);
        MessageOnlyForwarded(lower, payload[5..], msg, changed);
      } else {
        MessageOnlyForwarded(lower, payload, out, changed);
      }
    }
  }
}
