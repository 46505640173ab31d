/** json_escape (include/kv/common.hpp:31-52) and, as its independent partner, a decoder of JSON
    string bodies (section 7 of RFC 8259). */
module Json {
  import opened Log
  import opened Hashing

  const QUOTE: bv8 := 0x22
  const BACKSLASH: bv8 := 0x5c
  const SLASH: bv8 := 0x2f
  const LETTER_B: bv8 := 0x62
  const LETTER_F: bv8 := 0x66
  const LETTER_N: bv8 := 0x6e
  const LETTER_R: bv8 := 0x72
  const LETTER_T: bv8 := 0x74
  const LETTER_U: bv8 := 0x75
  const ZERO: bv8 := 0x30

  function HexDigit(n: nat): bv8
    requires n < 16
  {
    [0x30, 0x31, 0x32, 0x33, 0x34, 0x35, 0x36, 0x37, 0x38, 0x39, 0x61, 0x62, 0x63, 0x64, 0x65, 0x66][n]
  }

  function EscapeByte(c: bv8): Bytes {
    if c == QUOTE then [BACKSLASH, QUOTE]
    else if c == BACKSLASH then [BACKSLASH, BACKSLASH]
    else if c == 0x08 then [BACKSLASH, LETTER_B]
    else if c == 0x0c then [BACKSLASH, LETTER_F]
    else if c == 0x0a then [BACKSLASH, LETTER_N]
    else if c == 0x0d then [BACKSLASH, LETTER_R]
    else if c == 0x09 then [BACKSLASH, LETTER_T]
    else if c < 0x20 then
      var n := c as int;
      [BACKSLASH, LETTER_U, ZERO, ZERO, HexDigit(n / 16), HexDigit(n % 16)]
    else [c]
  }

  /** f of every byte, one after the other. */
  function ConcatMap(f: bv8 -> Bytes, value: Bytes): Bytes {
    if value == [] then [] else f(value[0]) + ConcatMap(f, value[1..])
  }

  function Escape(value: Bytes): Bytes { ConcatMap(EscapeByte, value) }

  lemma Regroup(x: Bytes, y: Bytes, z: Bytes)
    ensures x + y + z == x + (y + z)
  {
  }

  lemma {:induction false} ConcatMapConcat(f: bv8 -> Bytes, a: Bytes, b: Bytes)
    ensures ConcatMap(f, a + b) == ConcatMap(f, a) + ConcatMap(f, b)
  {
    if a == [] {
      assert a + b == b;
    } else {
      ConcatMapConcat(f, a[1..], b);
      assert (a + b)[1..] == a[1..] + b && (a + b)[0] == a[0];
      Regroup(f(a[0]), ConcatMap(f, a[1..]), ConcatMap(f, b));
    }
  }

  lemma EscapeOne(c: bv8)
    ensures Escape([c]) == EscapeByte(c)
  {
    assert [c][1..] == [];
    assert Escape([]) == [];
  }

  method JsonEscape(value: Bytes) returns (out: Bytes)
    ensures out == Escape(value)
  {
    out := [];
    var i := 0;
    while i < |value|
      invariant i <= |value| && out == Escape(value[..i])
    {
      ConcatMapConcat(EscapeByte, value[..i], [value[i]]);
      EscapeOne(value[i]);
      assert value[..i + 1] == value[..i] + [value[i]];
      out := out + EscapeByte(value[i]);
      i := i + 1;
    }
    assert value[..i] == value;
  }

  // ---------------------------------------------------------------- decoding

  function HexValue(b: bv8): Option<nat> {
    var n := b as int;
    if 0x30 <= n <= 0x39 then Some(n - 0x30)
    else if 0x61 <= n <= 0x66 then Some(n - 0x61 + 10)
    else if 0x41 <= n <= 0x46 then Some(n - 0x41 + 10)
    else None
  }

  /** The code unit written by four hexadecimal digits. */
  function CodeUnit(s: Bytes): (u: Option<nat>)
    requires |s| >= 4
    ensures u.Some? ==> u.value < 0x10000
  {
    var (a, b, c, d) := (HexValue(s[0]), HexValue(s[1]), HexValue(s[2]), HexValue(s[3]));
    if a.Some? && b.Some? && c.Some? && d.Some? && a.value < 16 && b.value < 16 && c.value < 16 && d.value < 16
    then Some(a.value * 4096 + b.value * 256 + c.value * 16 + d.value) else None
  }

  function Utf8(code: nat): Bytes
    requires code < 0x110000
  {
    if code < 0x80 then [code as bv8]
    else if code < 0x800 then [(0xc0 + code / 64) as bv8, (0x80 + code % 64) as bv8]
    else if code < 0x10000 then [(0xe0 + code / 4096) as bv8, (0x80 + code / 64 % 64) as bv8, (0x80 + code % 64) as bv8]
    else [(0xf0 + code / 262144) as bv8, (0x80 + code / 4096 % 64) as bv8, (0x80 + code / 64 % 64) as bv8,
        (0x80 + code % 64) as bv8]
  }

  predicate IsHighSurrogate(u: nat) { 0xd800 <= u < 0xdc00 }
  predicate IsLowSurrogate(u: nat) { 0xdc00 <= u < 0xe000 }

  /** The character a two-character escape stands for. */
  function Simple(b: bv8): Option<bv8> {
    if b == QUOTE || b == BACKSLASH || b == SLASH then Some(b)
    else if b == LETTER_B then Some(0x08)
    else if b == LETTER_F then Some(0x0c)
    else if b == LETTER_N then Some(0x0a)
    else if b == LETTER_R then Some(0x0d)
    else if b == LETTER_T then Some(0x09)
    else None
  }

  /** The first character of a string body: its bytes and how much of the text it takes. */
  function First(s: Bytes): (r: Option<(Bytes, nat)>)
    requires s != []
    ensures r.Some? ==> 1 <= r.value.1 <= |s|
  {
    if s[0] < 0x20 || s[0] == QUOTE then None
    else if s[0] != BACKSLASH then Some(([s[0]], 1))
    else if |s| < 2 then None
    else if Simple(s[1]).Some? then Some(([Simple(s[1]).value], 2))
    else if s[1] != LETTER_U || |s| < 6 then None
    else
      var u := CodeUnit(s[2..6]);
      if u.None? || IsLowSurrogate(u.value) then None
      else if !IsHighSurrogate(u.value) then Some((Utf8(u.value), 6))
      else if |s| < 12 || s[6] != BACKSLASH || s[7] != LETTER_U then None
      else
        var v := CodeUnit(s[8..12]);
        if v.None? || !IsLowSurrogate(v.value) then None
        else Some((Utf8(0x10000 + (u.value - 0xd800) * 1024 + (v.value - 0xdc00)), 12))
  }

  /** The bytes a JSON string body stands for; None if it is not one. */
  function Decode(s: Bytes): Option<Bytes>
    decreases |s|
  {
    if s == [] then Some([])
    else
      var first := First(s);
      if first.None? then None
      else
        var rest := Decode(s[first.value.1..]);
        if rest.None? then None else Some(first.value.0 + rest.value)
  }

  // ---------------------------------------------------------------- round trip

  lemma HexRoundTrip(n: nat)
    requires n < 16
    ensures HexValue(HexDigit(n)) == Some(n)
  {
  }

  lemma ControlUnit(n: nat)
    requires n < 0x20
    ensures CodeUnit([ZERO, ZERO, HexDigit(n / 16), HexDigit(n % 16)]) == Some(n)
  {
    HexRoundTrip(0);
    HexRoundTrip(n / 16);
    HexRoundTrip(n % 16);
  }

  /** A backslash, u and four digits of a code unit below 0x80 stand for that byte. */
  lemma FirstUnit(s: Bytes, n: nat)
    requires |s| >= 6 && s[0] == BACKSLASH && s[1] == LETTER_U && CodeUnit(s[2..6]) == Some(n) && n < 0x80
    ensures First(s) == Some(([n as bv8], 6))
  {
  }

  lemma ControlDecodes(c: bv8, rest: Bytes)
    requires c < 0x20
    ensures var n := c as int;
            First([BACKSLASH, LETTER_U, ZERO, ZERO, HexDigit(n / 16), HexDigit(n % 16)] + rest) == Some(([c], 6))
  {
    var n := c as int;
    ByteRoundTrip(c);
    ControlIsSmall(c);
    var digits := [ZERO, ZERO, HexDigit(n / 16), HexDigit(n % 16)];
    var s := [BACKSLASH, LETTER_U] + digits + rest;
    assert s == [BACKSLASH, LETTER_U, ZERO, ZERO, HexDigit(n / 16), HexDigit(n % 16)] + rest;
    ControlUnit(n);
    assert s[2..6] == digits;
    FirstUnit(s, n);
  }

  lemma ControlIsSmall(c: bv8)
    requires c < 0x20
    ensures c as int < 0x20
  {
  }

  lemma EscapedDecodes(c: bv8, rest: Bytes)
    ensures First(EscapeByte(c) + rest) == Some(([c], |EscapeByte(c)|))
  {
    if c != 0x08 && c != 0x09 && c != 0x0a && c != 0x0c && c != 0x0d && c < 0x20 {
      ControlDecodes(c, rest);
    }
  }

  /** Decoding the escaped text restores every byte string. */
  lemma {:induction false} EscapeRoundTrip(value: Bytes)
    ensures Decode(Escape(value)) == Some(value)
  {
    if value != [] {
      var c, rest := value[0], Escape(value[1..]);
      EscapedDecodes(c, rest);
      EscapeRoundTrip(value[1..]);
      assert (EscapeByte(c) + rest)[|EscapeByte(c)|..] == rest;
      assert [c] + value[1..] == value;
    }
  }

  lemma HexIsPrintable(n: nat)
    requires n < 16
    ensures HexDigit(n) >= 0x30
  {
  }

  lemma EscapeByteIsPrintable(c: bv8)
    ensures forall i :: 0 <= i < |EscapeByte(c)| ==> EscapeByte(c)[i] >= 0x20
  {
    if c < 0x20 {
      ControlIsSmall(c);
      HexIsPrintable(c as int / 16);
      HexIsPrintable(c as int % 16);
    }
  }

  /** No control byte in the output, hence no raw line break. */
  lemma {:induction false} EscapeIsPrintable(value: Bytes)
    ensures forall i :: 0 <= i < |Escape(value)| ==> Escape(value)[i] >= 0x20
  {
    if value != [] {
      EscapeByteIsPrintable(value[0]);
      EscapeIsPrintable(value[1..]);
      assert Escape(value) == EscapeByte(value[0]) + Escape(value[1..]);
    }
  }

  /** Nothing beyond the closing quote is part of the body: with it, it is no string body at all. */
  lemma {:induction false} NoBareQuote(value: Bytes, rest: Bytes)
    ensures Decode(Escape(value) + [QUOTE] + rest) == None
  {
    if value == [] {
      assert Escape(value) + [QUOTE] + rest == [QUOTE] + rest;
    } else {
      var c, tail := value[0], Escape(value[1..]) + [QUOTE] + rest;
      EscapedDecodes(c, tail);
      NoBareQuote(value[1..], rest);
      assert Escape(value) + [QUOTE] + rest == EscapeByte(c) + tail;
      assert (EscapeByte(c) + tail)[|EscapeByte(c)|..] == tail;
    }
  }

  // ---------------------------------------------------------------- which bytes are escaped how

  /** The escapes in plain bytes: a backslash and ", \, b, f, n, r or t; any other control byte as
      \u00 and two small hexadecimal digits; every other byte as it is. */
  lemma EscapeTable(c: bv8)
    ensures EscapeByte(0x22) == [0x5c, 0x22] && EscapeByte(0x5c) == [0x5c, 0x5c]
    ensures EscapeByte(0x08) == [0x5c, 0x62] && EscapeByte(0x0c) == [0x5c, 0x66] && EscapeByte(0x0a) == [0x5c, 0x6e]
    ensures EscapeByte(0x0d) == [0x5c, 0x72] && EscapeByte(0x09) == [0x5c, 0x74]
    ensures c >= 0x20 && c != 0x22 && c != 0x5c ==> EscapeByte(c) == [c]
    ensures c < 0x20 && c !in [0x08, 0x0c, 0x0a, 0x0d, 0x09] ==>
              EscapeByte(c) == [0x5c, 0x75, 0x30, 0x30, if c < 0x10 then 0x30 else 0x31, SmallHex(c % 16)]
  {
    if c < 0x20 {
      ControlIsSmall(c);
      ControlDigits(c);
    }
  }

  /** The digit of a value below 16: 0 to 9, then a to f. */
  function SmallHex(d: bv8): bv8 { if d < 10 then 0x30 + d else 0x57 + d }

  lemma ControlDigits(c: bv8)
    requires c < 0x20 && c as int < 0x20
    ensures HexDigit(c as int / 16) == (if c < 0x10 then 0x30 else 0x31) && HexDigit(c as int % 16) == SmallHex(c % 16)
  {
  }

  // ---------------------------------------------------------------- where the string ends

  function Later(end: Option<nat>, n: nat): Option<nat> {
    match end
    case Some(k) => Some(k + n)
    case None => None
  }

  /** The first quote a scanner of JSON strings takes for the closing one: not after a backslash. */
  function StringEnd(s: Bytes): Option<nat>
    decreases |s|
  {
    if s == [] then None
    else if s[0] == QUOTE then Some(0)
    else if s[0] != BACKSLASH then Later(StringEnd(s[1..]), 1)
    else if |s| < 2 then None
    else Later(StringEnd(s[2..]), 2)
  }

  lemma ScanPlain(b: bv8, s: Bytes)
    requires b != QUOTE && b != BACKSLASH
    ensures StringEnd([b] + s) == Later(StringEnd(s), 1)
  {
    assert ([b] + s)[1..] == s;
  }

  lemma ScanPair(b: bv8, s: Bytes)
    ensures StringEnd([BACKSLASH, b] + s) == Later(StringEnd(s), 2)
  {
    assert ([BACKSLASH, b] + s)[2..] == s;
  }

  lemma HexIsPlain(n: nat)
    requires n < 16
    ensures HexDigit(n) != QUOTE && HexDigit(n) != BACKSLASH
  {
  }

  lemma {:induction false} ScanPlains(a: Bytes, s: Bytes)
    requires forall k :: 0 <= k < |a| ==> a[k] != QUOTE && a[k] != BACKSLASH
    ensures StringEnd(a + s) == Later(StringEnd(s), |a|)
  {
    if a == [] {
      assert a + s == s;
    } else {
      ScanPlains(a[1..], s);
      ScanPlain(a[0], a[1..] + s);
      assert a + s == [a[0]] + (a[1..] + s);
    }
  }

  lemma ScanControl(c: bv8, s: Bytes)
    requires c < 0x20
    ensures var n := c as int;
            StringEnd([BACKSLASH, LETTER_U, ZERO, ZERO, HexDigit(n / 16), HexDigit(n % 16)] + s)
                == Later(StringEnd(s), 6)
  {
    var n := c as int;
    ControlIsSmall(c);
    HexIsPlain(n / 16);
    HexIsPlain(n % 16);
    var digits := [ZERO, ZERO, HexDigit(n / 16), HexDigit(n % 16)];
    ScanPlains(digits, s);
    ScanPair(LETTER_U, digits + s);
    assert [BACKSLASH, LETTER_U, ZERO, ZERO, HexDigit(n / 16), HexDigit(n % 16)] + s
        == [BACKSLASH, LETTER_U] + (digits + s);
  }

  lemma ScanByte(c: bv8, s: Bytes)
    ensures StringEnd(EscapeByte(c) + s) == Later(StringEnd(s), |EscapeByte(c)|)
  {
    var e := EscapeByte(c);
    if |e| == 2 {
      ScanPair(e[1], s);
      assert e == [BACKSLASH, e[1]];
    } else if |e| == 1 {
      ScanPlain(c, s);
      assert e == [c];
    } else {
      ScanControl(c, s);
    }
  }

  /** Put between quotes, the escaped text ends at the closing quote and nowhere before. */
  lemma {:induction false} EndsAtItsQuote(value: Bytes, rest: Bytes)
    ensures StringEnd(Escape(value) + [QUOTE] + rest) == Some(|Escape(value)|)
  {
    if value == [] {
      assert Escape(value) + [QUOTE] + rest == [QUOTE] + rest;
    } else {
      var c, tail := value[0], Escape(value[1..]) + [QUOTE] + rest;
      ScanByte(c, tail);
      EndsAtItsQuote(value[1..], rest);
      assert Escape(value) + [QUOTE] + rest == EscapeByte(c) + tail;
    }
  }
}
