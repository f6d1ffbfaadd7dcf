/** GRT amounts as text: decimals of 18 places with an optional unit, parsed to and printed from base
    units of 256 bits. */
module GrtAmounts {
  import opened Basics
  import opened Arithmetic

  const DECIMALS: nat := 18
  const BASE: nat := 1_000_000_000_000_000_000

  datatype ParseError = InvalidFormat | InvalidInteger | InvalidFraction | ValueOverflow

  // ---- Characters and digit strings ----

  /** White space as Unicode defines it. */
  predicate IsSpace(c: char) {
    || '\t' <= c <= '\r' || c == ' ' || c == '\U{85}' || c == '\U{A0}' || c == '\U{1680}'
    || '\U{2000}' <= c <= '\U{200A}' || c == '\U{2028}' || c == '\U{2029}' || c == '\U{202F}'
    || c == '\U{205F}' || c == '\U{3000}'
  }

  predicate IsDigit(c: char) {
    '0' <= c <= '9'
  }

  predicate AllDigits(s: string) {
    forall i :: 0 <= i < |s| ==> IsDigit(s[i])
  }

  function Digit(c: char): (d: nat)
    requires IsDigit(c)
    ensures d < 10
  {
    (c - '0') as int
  }

  function Value(s: string): nat
    requires AllDigits(s)
  {
    if s == [] then 0 else 10 * Value(s[..|s| - 1]) + Digit(s[|s| - 1])
  }

  function Pow10(n: nat): nat
    ensures Pow10(n) > 0
  {
    if n == 0 then 1 else 10 * Pow10(n - 1)
  }

  /** `big.Int.SetString` in base ten: an optional sign and at least one digit. */
  function ParseInteger(s: string): Option<int> {
    var signed := s != [] && (s[0] == '-' || s[0] == '+');
    var body := if signed then s[1..] else s;
    if body == [] || !AllDigits(body) then None
    else
      var magnitude: int := Value(body);
      Some(if signed && s[0] == '-' then -magnitude else magnitude)
  }

  function TrimLeft(s: string): string {
    if s != [] && IsSpace(s[0]) then TrimLeft(s[1..]) else s
  }

  function TrimRight(s: string): string {
    if s != [] && IsSpace(s[|s| - 1]) then TrimRight(s[..|s| - 1]) else s
  }

  function Trim(s: string): string {
    TrimRight(TrimLeft(s))
  }

  function Repeat(c: char, n: nat): (s: string)
    ensures |s| == n
  {
    if n == 0 then [] else Repeat(c, n - 1) + [c]
  }

  /** The place of the first decimal point, or the end. */
  function Point(s: string): (i: nat)
    ensures i <= |s| && '.' !in s[..i]
    ensures i < |s| ==> s[i] == '.'
  {
    if s == [] || s[0] == '.' then 0 else 1 + Point(s[1..])
  }

  // ---- Parsing ----

  function Fitted(fraction: string, width: nat): (s: string)
    ensures |s| == width
  {
    if |fraction| > width then fraction[..width] else fraction + Repeat('0', width - |fraction|)
  }

  function ToWidth(fraction: string): (s: string)
    ensures |s| == DECIMALS
  {
    Fitted(fraction, DECIMALS)
  }

  /** `uint256.FromBig`: the magnitude must fit, and a negative number becomes its complement. */
  function FromBig(raw: int): Result<Grt, ParseError> {
    if raw >= U256 || -raw >= U256 then Err(ValueOverflow) else Ok(raw % U256)
  }

  function Combined(intPart: string, fraction: Option<string>): Result<int, ParseError> {
    var intValue := ParseInteger(if intPart == [] then ['0'] else intPart);
    if intValue.None? then Err(InvalidInteger)
    else if fraction.None? then Ok(intValue.value * BASE)
    else
      var fracValue := ParseInteger(ToWidth(fraction.value));
      if fracValue.None? then Err(InvalidFraction) else Ok(intValue.value * BASE + fracValue.value)
  }

  /** The amount in base units that an unsigned decimal denotes. */
  function Unsigned(decimal: string): Result<int, ParseError> {
    var i := Point(decimal);
    if i == |decimal| then Combined(decimal, None)
    else if '.' in decimal[i + 1..] then Err(InvalidFormat)
    else Combined(decimal[..i], Some(decimal[i + 1..]))
  }

  function Decimal(s: string): Result<Grt, ParseError> {
    var decimal := Trim(s);
    if decimal == [] then Ok(0)
    else
      var negative := decimal[0] == '-';
      match Unsigned(if negative then decimal[1..] else decimal)
      case Err(e) => Err(e)
      case Ok(raw) => FromBig(if negative then -raw else raw)
  }

  predicate HasUnit(s: string) {
    && |s| >= 3
    && s[|s| - 3] in {'G', 'g'} && s[|s| - 2] in {'R', 'r'} && s[|s| - 1] in {'T', 't'}
  }

  function Parsed(s: string): Result<Grt, ParseError> {
    var t := Trim(s);
    if t == [] then Ok(0)
    else if HasUnit(t) then Decimal(Trim(t[..|t| - 3]))
    else Decimal(t)
  }

  /** The body of `parseDecimalToGRT` after the sign, step by step on its locals. */
  method ParseUnsigned(decimal: string) returns (result: Result<int, ParseError>)
    ensures result == Unsigned(decimal)
  {
    var i := Point(decimal);
    if i < |decimal| && '.' in decimal[i + 1..] {
      return Err(InvalidFormat);
    }
    var intPart := decimal[..i];
    assert i == |decimal| ==> intPart == decimal;
    if intPart == [] {
      intPart := ['0'];
    }
    var intValue := ParseInteger(intPart);
    if intValue.None? {
      return Err(InvalidInteger);
    }
    var raw := intValue.value * BASE;
    if i < |decimal| {
      var fracPart := decimal[i + 1..];
      if |fracPart| > DECIMALS {
        fracPart := fracPart[..DECIMALS];
      } else {
        fracPart := fracPart + Repeat('0', DECIMALS - |fracPart|);
      }
      var fracValue := ParseInteger(fracPart);
      if fracValue.None? {
        return Err(InvalidFraction);
      }
      raw := raw + fracValue.value;
    }
    result := Ok(raw);
  }

  method ParseDecimal(s: string) returns (result: Result<Grt, ParseError>)
    ensures result == Decimal(s)
  {
    var decimal := Trim(s);
    if decimal == [] {
      return Ok(0);
    }
    var negative := decimal[0] == '-';
    if negative {
      decimal := decimal[1..];
    }
    var raw := ParseUnsigned(decimal);
    if raw.Err? {
      return Err(raw.error);
    }
    result := FromBig(if negative then -raw.value else raw.value);
  }

  // ---- Printing ----

  function DigitChar(d: nat): (c: char)
    requires d < 10
    ensures IsDigit(c) && Digit(c) == d
  {
    '0' + d as char
  }

  function PrintedFrom(n: nat): (s: string)
    ensures AllDigits(s)
  {
    if n == 0 then [] else PrintedFrom(n / 10) + [DigitChar(n % 10)]
  }

  function Printed(n: nat): (s: string)
    ensures AllDigits(s) && s != []
  {
    if n == 0 then ['0'] else PrintedFrom(n)
  }

  function LeftPadded(digits: string, width: nat): string {
    if |digits| >= width then digits else Repeat('0', width - |digits|) + digits
  }

  function TrimZeros(s: string): string {
    if s != [] && s[|s| - 1] == '0' then TrimZeros(s[..|s| - 1]) else s
  }

  /** Whole and fractional digits, the latter without trailing zeros. */
  function Written(whole: nat, part: nat): string {
    if part == 0 then Printed(whole)
    else Printed(whole) + ['.'] + TrimZeros(LeftPadded(Printed(part), DECIMALS))
  }

  function ToDecimalString(v: Grt): string {
    if v == 0 then ['0'] else Written(v / BASE, v % BASE)
  }

  function ToText(v: Grt): string {
    ToDecimalString(v) + " GRT"
  }

  function ToJson(v: Grt): string {
    ['"'] + ToText(v) + ['"']
  }

  function FromJson(data: string): Result<Grt, ParseError> {
    if |data| >= 2 && data[0] == '"' && data[|data| - 1] == '"' then Parsed(data[1..|data| - 1]) else Parsed(data)
  }

  // ---- Digit strings ----

  lemma BaseIsPow10()
    ensures Pow10(DECIMALS) == BASE
  {
    assert Pow10(9) == 1_000_000_000;
  }

  lemma {:induction false} Pow10Sum(a: nat, b: nat)
    ensures Pow10(a + b) == Pow10(a) * Pow10(b)
  {
    if b > 0 {
      Pow10Sum(a, b - 1);
      assert Pow10(a + b) == 10 * (Pow10(a) * Pow10(b - 1));
    }
  }

  lemma {:induction false} ValueBound(s: string)
    requires AllDigits(s)
    ensures Value(s) < Pow10(|s|)
  {
    if s != [] {
      ValueBound(s[..|s| - 1]);
    }
  }

  lemma NextDigit(a: nat, p: nat, b: nat, d: nat)
    ensures 10 * (a * p + b) + d == a * (10 * p) + (10 * b + d)
  {
  }

  lemma {:induction false} ValueConcat(a: string, b: string)
    requires AllDigits(a) && AllDigits(b)
    ensures AllDigits(a + b) && Value(a + b) == Value(a) * Pow10(|b|) + Value(b)
  {
    if b == [] {
      assert a + b == a;
    } else {
      var front := b[..|b| - 1];
      ValueConcat(a, front);
      assert (a + b)[..|a + b| - 1] == a + front;
      NextDigit(Value(a), Pow10(|front|), Value(front), Digit(b[|b| - 1]));
    }
  }

  lemma {:induction false} ValueZeros(n: nat)
    ensures AllDigits(Repeat('0', n)) && Value(Repeat('0', n)) == 0
  {
    if n > 0 {
      ValueZeros(n - 1);
    }
  }

  lemma {:induction false} PrintedFromBack(n: nat)
    ensures Value(PrintedFrom(n)) == n
    ensures n > 0 ==> PrintedFrom(n) != []
  {
    if n > 0 {
      PrintedFromBack(n / 10);
    }
  }

  lemma PrintedBack(n: nat)
    ensures Value(Printed(n)) == n
  {
    PrintedFromBack(n);
  }

  lemma {:induction false} PrintedFits(n: nat, width: nat)
    requires n < Pow10(width)
    ensures |PrintedFrom(n)| <= width
  {
    if n > 0 {
      PrintedFits(n / 10, width - 1);
    }
  }

  lemma LeftPaddedValue(digits: string, width: nat)
    requires AllDigits(digits) && |digits| <= width
    ensures AllDigits(LeftPadded(digits, width)) && |LeftPadded(digits, width)| == width
    ensures Value(LeftPadded(digits, width)) == Value(digits)
  {
    if |digits| < width {
      ValueZeros(width - |digits|);
      ValueConcat(Repeat('0', width - |digits|), digits);
    }
  }

  /** Trailing zeros are what padding puts back. */
  lemma {:induction false} TrimZerosBack(s: string)
    requires AllDigits(s)
    ensures AllDigits(TrimZeros(s)) && |TrimZeros(s)| <= |s|
    ensures TrimZeros(s) + Repeat('0', |s| - |TrimZeros(s)|) == s
  {
    if s != [] && s[|s| - 1] == '0' {
      var front := s[..|s| - 1];
      TrimZerosBack(front);
      assert Repeat('0', |s| - |TrimZeros(s)|) == Repeat('0', |front| - |TrimZeros(front)|) + ['0'];
      assert s == front + ['0'];
    }
  }

  // ---- Plain decimals ----

  predicate Plain(s: string) {
    forall i :: 0 <= i < |s| ==> IsDigit(s[i]) || s[i] == '.'
  }

  lemma {:induction false} PointAt(digits: string, rest: string)
    requires AllDigits(digits) && (rest == [] || rest[0] == '.')
    ensures Point(digits + rest) == |digits|
  {
    var s := digits + rest;
    if digits == [] {
      assert s == rest;
    } else {
      assert s[1..] == digits[1..] + rest;
      PointAt(digits[1..], rest);
      assert IsDigit(digits[0]);
    }
  }

  lemma DigitsParse(s: string)
    requires AllDigits(s) && s != []
    ensures ParseInteger(s) == Some(Value(s) as int)
  {
    assert IsDigit(s[0]);
  }

  lemma FittedDigits(f: string, width: nat)
    requires AllDigits(f)
    ensures AllDigits(Fitted(f, width))
  {
    if |f| <= width {
      ValueZeros(width - |f|);
    }
  }

  lemma WholePart(i: string)
    requires AllDigits(i)
    ensures ParseInteger(if i == [] then ['0'] else i) == Some(Value(i) as int)
  {
    if i == [] {
      DigitsParse(['0']);
      assert Value(['0']) == 0;
    } else {
      DigitsParse(i);
    }
  }

  lemma FractionPart(f: string, width: nat)
    requires AllDigits(f) && width > 0
    ensures AllDigits(Fitted(f, width)) && ParseInteger(Fitted(f, width)) == Some(Value(Fitted(f, width)) as int)
  {
    FittedDigits(f, width);
    DigitsParse(Fitted(f, width));
  }

  lemma CombinedDigits(i: string, f: string)
    requires AllDigits(i) && AllDigits(f)
    ensures AllDigits(ToWidth(f))
    ensures Combined(i, None) == Ok(Value(i) * BASE)
    ensures Combined(i, Some(f)) == Ok(Value(i) * BASE + Value(ToWidth(f)))
  {
    WholePart(i);
    FractionPart(f, DECIMALS);
  }

  lemma UnsignedWhole(i: string)
    requires AllDigits(i)
    ensures Unsigned(i) == Ok(Value(i) * BASE)
  {
    PointAt(i, []);
    assert i + [] == i;
    CombinedDigits(i, []);
  }

  lemma UnsignedPoint(i: string, f: string)
    requires AllDigits(i) && AllDigits(f)
    ensures AllDigits(ToWidth(f)) && Unsigned(i + ['.'] + f) == Ok(Value(i) * BASE + Value(ToWidth(f)))
  {
    var s := i + ['.'] + f;
    assert s == i + (['.'] + f);
    PointAt(i, ['.'] + f);
    assert s[|i| + 1..] == f && s[..|i|] == i;
    CombinedDigits(i, f);
  }

  predicate SpaceFree(s: string) {
    s != [] && !IsSpace(s[0]) && !IsSpace(s[|s| - 1])
  }

  lemma TrimKeeps(s: string)
    requires SpaceFree(s)
    ensures Trim(s) == s
  {
  }

  /** What a plain decimal parses to, with or without its unit. */
  function Read(s: string): Result<Grt, ParseError> {
    match Unsigned(s)
    case Err(e) => Err(e)
    case Ok(raw) => FromBig(raw)
  }

  lemma PlainDecimal(s: string)
    requires Plain(s) && s != []
    ensures SpaceFree(s) && Decimal(s) == Read(s)
  {
    assert s[0] in s && s[|s| - 1] in s;
    TrimKeeps(s);
  }

  lemma ParsedPlain(s: string)
    requires Plain(s) && s != []
    ensures Parsed(s) == Read(s)
  {
    PlainDecimal(s);
    TrimKeeps(s);
    assert s[|s| - 1] in s;
  }

  lemma TrimOne(s: string)
    requires SpaceFree(s)
    ensures Trim(s + [' ']) == s
  {
    var t := s + [' '];
    assert t[0] == s[0] && t[..|t| - 1] == s;
    assert TrimLeft(t) == t;
    assert TrimRight(t) == TrimRight(s);
  }

  lemma UnitDropped(s: string, spaced: bool)
    requires SpaceFree(s)
    ensures var t := if spaced then s + " GRT" else s + "GRT";
            SpaceFree(t) && HasUnit(t) && Trim(t[..|t| - 3]) == s
  {
    var t := if spaced then s + " GRT" else s + "GRT";
    assert t[0] == s[0] && t[|t| - 1] == 'T' && t[|t| - 2] == 'R' && t[|t| - 3] == 'G';
    if spaced {
      assert t[..|t| - 3] == s + [' '];
      TrimOne(s);
    } else {
      assert t[..|t| - 3] == s;
      TrimKeeps(s);
    }
  }

  lemma ParsedUnit(s: string, spaced: bool)
    requires Plain(s) && s != []
    ensures Parsed(if spaced then s + " GRT" else s + "GRT") == Read(s)
  {
    PlainDecimal(s);
    UnitDropped(s, spaced);
    TrimKeeps(if spaced then s + " GRT" else s + "GRT");
  }

  // ---- The parser is the floor ----

  function Quotient(x: nat, m: nat): nat
    requires m > 0
  {
    x / m
  }

  /** A quotient is known from its remainder. */
  lemma FloorIs(x: nat, q: nat, r: nat, m: nat)
    requires m > 0 && x == q * m + r && r < m
    ensures Quotient(x, m) == q
  {
    DivModUnique(x, q, r, m);
    assert x == x / m * m + r;
    assert (x / m) * m == q * m;
    CancelRight(x / m, q, m);
  }

  lemma CancelRight(a: nat, b: nat, m: nat)
    requires m > 0 && a * m == b * m
    ensures a == b
  {
    if a < b {
      AtLeastOnce(b - a, m);
      Distribute(b - a, a, 0, m);
    } else if b < a {
      AtLeastOnce(a - b, m);
      Distribute(a - b, b, 0, m);
    }
  }

  /** The floor of the decimal's value in base units. */
  function Units(i: string, f: string): nat
    requires AllDigits(i) && AllDigits(f)
  {
    Quotient(Value(i + f) * BASE, Pow10(|f|))
  }

  lemma FittedShort(f: string, width: nat)
    requires AllDigits(f) && |f| <= width
    ensures AllDigits(Fitted(f, width)) && Value(Fitted(f, width)) == Value(f) * Pow10(width - |f|)
    ensures Pow10(|f|) * Pow10(width - |f|) == Pow10(width)
  {
    ValueZeros(width - |f|);
    ValueConcat(f, Repeat('0', width - |f|));
    Pow10Sum(|f|, width - |f|);
  }

  lemma FittedLong(f: string, width: nat)
    requires AllDigits(f) && |f| > width
    ensures AllDigits(Fitted(f, width))
    ensures var cut := f[width..];
            && Value(f) == Value(Fitted(f, width)) * Pow10(|cut|) + Value(cut)
            && Value(cut) < Pow10(|cut|)
            && Pow10(|f|) == Pow10(width) * Pow10(|cut|)
  {
    var kept, cut := f[..width], f[width..];
    assert f == kept + cut;
    ValueConcat(kept, cut);
    ValueBound(cut);
    Pow10Sum(width, |cut|);
  }

  lemma ShortUnits(i: string, f: string, width: nat)
    requires AllDigits(i) && AllDigits(f) && |f| <= width && Pow10(width) == BASE
    ensures AllDigits(Fitted(f, width)) && Units(i, f) == Value(i) * BASE + Value(Fitted(f, width))
  {
    FittedShort(f, width);
    ValueConcat(i, f);
    ShortQuotient(Value(i), Value(f), Pow10(|f|), Pow10(width - |f|));
  }

  lemma LongUnits(i: string, f: string, width: nat)
    requires AllDigits(i) && AllDigits(f) && |f| > width && Pow10(width) == BASE
    ensures AllDigits(Fitted(f, width)) && Units(i, f) == Value(i) * BASE + Value(Fitted(f, width))
  {
    var cut := f[width..];
    FittedLong(f, width);
    ValueConcat(i, f);
    LongQuotient(Value(i), Value(Fitted(f, width)), Value(cut), Pow10(|cut|));
  }

  lemma ShortQuotient(vi: nat, vf: nat, p: nat, q: nat)
    requires p > 0 && p * q == BASE
    ensures Quotient((vi * p + vf) * BASE, p) == vi * BASE + vf * q
  {
    assert (vi * p + vf) * BASE == (vi * BASE + vf * q) * p by {
      assert vf * BASE == vf * (p * q) == vf * q * p;
      assert vi * p * BASE == vi * BASE * p;
    }
    FloorIs((vi * p + vf) * BASE, vi * BASE + vf * q, 0, p);
  }

  lemma LongQuotient(vi: nat, vk: nat, vc: nat, q: nat)
    requires vc < q
    ensures BASE * q > 0 && Quotient((vi * (BASE * q) + (vk * q + vc)) * BASE, BASE * q) == vi * BASE + vk
  {
    assert (vi * (BASE * q) + (vk * q + vc)) * BASE == (vi * BASE + vk) * (BASE * q) + vc * BASE by {
      assert vi * (BASE * q) == vi * BASE * q;
      assert (vi * BASE + vk) * (BASE * q) == (vi * BASE + vk) * q * BASE;
      Distribute(vi * BASE, vk, 0, q);
    }
    FloorIs((vi * (BASE * q) + (vk * q + vc)) * BASE, vi * BASE + vk, vc * BASE, BASE * q);
  }

  function Rounded(n: nat): Result<Grt, ParseError> {
    if n < U256 then Ok(n) else Err(ValueOverflow)
  }

  lemma FromBigRounds(n: nat)
    ensures FromBig(n) == Rounded(n)
  {
  }

  lemma ReadsAs(s: string, raw: nat)
    requires Unsigned(s) == Ok(raw)
    ensures Read(s) == Rounded(raw)
  {
    FromBigRounds(raw);
  }

  lemma UnitsAre(i: string, f: string)
    requires AllDigits(i) && AllDigits(f)
    ensures AllDigits(ToWidth(f)) && Units(i, f) == Value(i) * BASE + Value(ToWidth(f))
  {
    BaseIsPow10();
    if |f| <= DECIMALS { ShortUnits(i, f, DECIMALS); } else { LongUnits(i, f, DECIMALS); }
  }

  lemma PointReads(i: string, f: string)
    requires AllDigits(i) && AllDigits(f)
    ensures Plain(i + ['.'] + f) && Read(i + ['.'] + f) == Rounded(Units(i, f))
  {
    UnsignedPoint(i, f);
    UnitsAre(i, f);
    ReadsAs(i + ['.'] + f, Units(i, f));
  }

  /** Every unsigned decimal, of any length and with or without the unit, parses to the floor of its
      value in base units, or is refused exactly when that does not fit 256 bits. */
  lemma ParseIsFloor(i: string, f: string)
    requires AllDigits(i) && AllDigits(f)
    ensures var s, amount := i + ['.'] + f, Rounded(Units(i, f));
            Parsed(s) == amount && Parsed(s + " GRT") == amount && Parsed(s + "GRT") == amount
  {
    var s := i + ['.'] + f;
    PointReads(i, f);
    ParsedPlain(s);
    ParsedUnit(s, true);
    ParsedUnit(s, false);
  }

  lemma {:induction false} ParseWhole(i: string)
    requires AllDigits(i) && i != []
    ensures var amount := Rounded(Value(i) * BASE);
            Parsed(i) == amount && Parsed(i + " GRT") == amount && Parsed(i + "GRT") == amount
  {
    UnsignedWhole(i);
    FromBigRounds(Value(i) * BASE);
    ParsedPlain(i);
    ParsedUnit(i, true);
    ParsedUnit(i, false);
  }

  /** What an amount becomes behind a minus sign. */
  function Negated(n: nat): Result<Grt, ParseError> {
    if n >= U256 then Err(ValueOverflow) else if n == 0 then Ok(0) else Ok(U256 - n)
  }

  lemma Complement(n: nat)
    ensures var raw: int := n;
            FromBig(-raw) == Negated(n)
  {
  }

  lemma SignedRead(s: string, raw: nat)
    requires Plain(s) && s != [] && Unsigned(s) == Ok(raw)
    ensures Parsed(['-'] + s) == Negated(raw)
  {
    var t := ['-'] + s;
    assert t[0] == '-' && t[|t| - 1] == s[|s| - 1] && t[1..] == s;
    TrimKeeps(t);
    Complement(raw);
  }

  lemma NegativePoint(i: string, f: string)
    requires AllDigits(i) && AllDigits(f)
    ensures Parsed(['-'] + (i + ['.'] + f)) == Negated(Units(i, f))
  {
    UnsignedPoint(i, f);
    UnitsAre(i, f);
    SignedRead(i + ['.'] + f, Units(i, f));
  }

  lemma NegativeWhole(i: string)
    requires AllDigits(i) && i != []
    ensures Parsed(['-'] + i) == Negated(Value(i) * BASE)
  {
    UnsignedWhole(i);
    SignedRead(i, Value(i) * BASE);
  }

  /** A minus sign is accepted: whole or fractional, the amount becomes its 256-bit complement, and only
      one that does not fit 256 bits is refused. */
  lemma NegativeWraps(i: string, f: string)
    requires AllDigits(i) && AllDigits(f)
    ensures i != [] ==> Parsed(['-'] + i) == Negated(Value(i) * BASE)
    ensures Parsed(['-'] + (i + ['.'] + f)) == Negated(Units(i, f))
  {
    if i != [] {
      NegativeWhole(i);
    }
    NegativePoint(i, f);
  }

  // ---- Round trips ----

  lemma WholeReads(whole: nat)
    ensures Read(Printed(whole)) == Rounded(whole * BASE)
  {
    PrintedBack(whole);
    UnsignedWhole(Printed(whole));
    ReadsAs(Printed(whole), whole * BASE);
  }

  lemma FractionParts(digits: string, width: nat)
    requires AllDigits(digits) && |digits| <= width
    ensures var t := TrimZeros(LeftPadded(digits, width));
            AllDigits(t) && AllDigits(Fitted(t, width)) && Value(Fitted(t, width)) == Value(digits)
  {
    var padded := LeftPadded(digits, width);
    LeftPaddedValue(digits, width);
    TrimZerosBack(padded);
    assert Fitted(TrimZeros(padded), width) == padded;
  }

  lemma DigitsRead(s: string, i: string, t: string, raw: nat)
    requires AllDigits(i) && AllDigits(t) && AllDigits(ToWidth(t)) && s == i + ['.'] + t
    requires raw == Value(i) * BASE + Value(ToWidth(t))
    ensures Plain(s) && s != [] && Read(s) == Rounded(raw)
  {
    UnsignedPoint(i, t);
    ReadsAs(s, raw);
  }

  lemma PrintedWidth(n: nat)
    requires 0 < n < BASE
    ensures |Printed(n)| <= DECIMALS
  {
    BaseIsPow10();
    PrintedFits(n, DECIMALS);
  }

  lemma WrittenParts(whole: nat, part: nat) returns (i: string, t: string)
    requires 0 < part < BASE
    ensures AllDigits(i) && AllDigits(t) && AllDigits(ToWidth(t))
    ensures Written(whole, part) == i + ['.'] + t
    ensures Value(i) == whole && Value(ToWidth(t)) == part
  {
    i, t := Printed(whole), TrimZeros(LeftPadded(Printed(part), DECIMALS));
    PrintedBack(whole);
    PrintedBack(part);
    PrintedWidth(part);
    FractionParts(Printed(part), DECIMALS);
  }

  lemma WrittenPartReads(whole: nat, part: nat)
    requires 0 < part < BASE
    ensures Plain(Written(whole, part)) && Written(whole, part) != []
    ensures Read(Written(whole, part)) == Rounded(whole * BASE + part)
  {
    var i, t := WrittenParts(whole, part);
    var s := Written(whole, part);
    DigitsRead(s, i, t, whole * BASE + part);
  }

  lemma WrittenReads(whole: nat, part: nat)
    requires part < BASE
    ensures Plain(Written(whole, part)) && Written(whole, part) != []
    ensures Read(Written(whole, part)) == Rounded(whole * BASE + part)
  {
    if part == 0 {
      WholeReads(whole);
    } else {
      WrittenPartReads(whole, part);
    }
  }

  lemma SplitReads(v: Grt, whole: nat, part: nat)
    requires part < BASE && v == whole * BASE + part
    ensures Plain(Written(whole, part)) && Written(whole, part) != [] && Read(Written(whole, part)) == Ok(v)
  {
    WrittenReads(whole, part);
  }

  lemma ZeroReads()
    ensures Plain(['0']) && Read(['0']) == Ok(0)
  {
    WholeReads(0);
  }

  lemma PrintedReads(v: Grt)
    ensures Plain(ToDecimalString(v)) && ToDecimalString(v) != [] && Read(ToDecimalString(v)) == Ok(v)
  {
    if v == 0 {
      ZeroReads();
    } else {
      SplitReads(v, v / BASE, v % BASE);
    }
  }

  /** Text, JSON and bare decimals read back as the amount that was printed. */
  lemma {:induction false} RoundTrip(v: Grt)
    ensures Parsed(ToDecimalString(v)) == Ok(v)
    ensures Parsed(ToText(v)) == Ok(v)
    ensures FromJson(ToJson(v)) == Ok(v)
  {
    PrintedReads(v);
    ParsedPlain(ToDecimalString(v));
    ParsedUnit(ToDecimalString(v), true);
    assert ToJson(v)[1..|ToJson(v)| - 1] == ToText(v);
  }
}
