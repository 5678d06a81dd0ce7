/** Percent-encoding of UTF-8 text, as `encodeURIComponent` and the form encoding of
    URL queries use it (RFC 3629, RFC 3986 section 2.1). */
module PercentCoding {
  import opened Options

  // ---- UTF-8 ----

  type Byte = n: int | 0 <= n < 256

  function Utf8(c: char): seq<Byte> {
    var n := c as int;
    if n < 0x80 then [n]
    else if n < 0x800 then [0xC0 + n / 0x40, 0x80 + n % 0x40]
    else if n < 0x1_0000 then [0xE0 + n / 0x1000, 0x80 + n / 0x40 % 0x40, 0x80 + n % 0x40]
    else [0xF0 + n / 0x4_0000, 0x80 + n / 0x1000 % 0x40, 0x80 + n / 0x40 % 0x40, 0x80 + n % 0x40]
  }

  /** How many bytes a character takes whose first byte this is. */
  function Length(first: Byte): (k: nat)
    ensures 1 <= k <= 4
  {
    if first < 0x80 then 1 else if first < 0xE0 then 2 else if first < 0xF0 then 3 else 4
  }

  predicate Scalar(n: int) {
    0 <= n < 0xD800 || 0xE000 <= n < 0x11_0000
  }

  /** A byte without its marker bits. */
  function Tail(byte: int, marker: int): int {
    byte - marker
  }

  /** The character of its bytes. */
  function Assemble(b: seq<Byte>): Option<char>
    requires |b| > 0 && |b| == Length(b[0])
  {
    var n :=
      if |b| == 1 then Tail(b[0], 0)
      else if |b| == 2 then Tail(b[0], 0xC0) * 0x40 + Tail(b[1], 0x80)
      else if |b| == 3 then Tail(b[0], 0xE0) * 0x1000 + Tail(b[1], 0x80) * 0x40 + Tail(b[2], 0x80)
      else Tail(b[0], 0xF0) * 0x4_0000 + Tail(b[1], 0x80) * 0x1000 + Tail(b[2], 0x80) * 0x40 + Tail(b[3], 0x80);
    if Scalar(n) then Some(n as char) else None
  }

  lemma Utf8Assembles(c: char)
    ensures
      var b := Utf8(c);
      |b| > 0 && |b| == Length(b[0]) && Assemble(b) == Some(c)
  {
    Digits(c as int);
  }

  lemma Digits(n: int)
    requires 0 <= n < 0x11_0000
    ensures n == n / 0x40 * 0x40 + n % 0x40
    ensures n == n / 0x1000 * 0x1000 + n / 0x40 % 0x40 * 0x40 + n % 0x40
    ensures n == n / 0x4_0000 * 0x4_0000 + n / 0x1000 % 0x40 * 0x1000 + n / 0x40 % 0x40 * 0x40 + n % 0x40
  {
  }

  // ---- escapes ----

  function Hex(d: int): char
    requires 0 <= d < 16
  {
    if d < 10 then '0' + d as char else 'A' + (d - 10) as char
  }

  function HexValue(c: char): Option<int> {
    if '0' <= c <= '9' then Some(c as int - '0' as int)
    else if 'A' <= c <= 'F' then Some(c as int - 'A' as int + 10)
    else if 'a' <= c <= 'f' then Some(c as int - 'a' as int + 10)
    else None
  }

  function Escape(b: Byte): string {
    ['%', Hex(b / 16), Hex(b % 16)]
  }

  function Escapes(bytes: seq<Byte>): string {
    if bytes == [] then "" else Escape(bytes[0]) + Escapes(bytes[1..])
  }

  /** The first `k` escaped bytes of a text, and what follows them. */
  function ReadBytes(s: string, k: nat): Option<(seq<Byte>, string)> {
    if k == 0 then Some(([], s))
    else if |s| < 3 || s[0] != '%' || HexValue(s[1]).None? || HexValue(s[2]).None? then None
    else
      var byte: int := HexValue(s[1]).value * 16 + HexValue(s[2]).value;
      var rest := ReadBytes(s[3..], k - 1);
      if rest.None? || !(0 <= byte < 256) then None else Some(([byte] + rest.value.0, rest.value.1))
  }

  lemma HexRoundTrip(b: Byte)
    ensures HexValue(Hex(b / 16)) == Some(b / 16) && HexValue(Hex(b % 16)) == Some(b % 16)
  {
  }

  lemma {:induction false} ReadEscapes(bytes: seq<Byte>, rest: string)
    ensures ReadBytes(Escapes(bytes) + rest, |bytes|) == Some((bytes, rest))
  {
    if bytes == [] {
      assert "" + rest == rest;
    } else {
      var s := Escapes(bytes) + rest;
      HexRoundTrip(bytes[0]);
      assert s[3..] == Escapes(bytes[1..]) + rest;
      ReadEscapes(bytes[1..], rest);
      assert bytes == [bytes[0]] + bytes[1..];
    }
  }

  // ---- texts ----

  type Safe = char -> bool

  function Encode(s: string, safe: Safe): string {
    if s == "" then ""
    else (if safe(s[0]) then [s[0]] else Escapes(Utf8(s[0]))) + Encode(s[1..], safe)
  }

  /** `decodeURIComponent`: fails on escapes that are no UTF-8. */
  function Decode(s: string): Option<string>
    decreases |s|
  {
    if s == "" then Some("")
    else if s[0] != '%' then
      var rest := Decode(s[1..]);
      if rest.None? then None else Some([s[0]] + rest.value)
    else
      var first := ReadBytes(s, 1);
      if first.None? then None
      else
        var k := Length(first.value.0[0]);
        ReadShortens(s, k);
        var read := ReadBytes(s, k);
        if read.None? || Assemble(read.value.0).None? then None
        else
          var rest := Decode(read.value.1);
          if rest.None? then None else Some([Assemble(read.value.0).value] + rest.value)
  }

  lemma {:induction false} ReadShortens(s: string, k: nat)
    ensures ReadBytes(s, k).Some? ==>
              |ReadBytes(s, k).value.0| == k && |ReadBytes(s, k).value.1| + 3 * k == |s|
              && (k > 0 ==> ReadBytes(s, 1).Some? && ReadBytes(s, 1).value.0 == ReadBytes(s, k).value.0[..1])
  {
    if k > 0 && ReadBytes(s, k).Some? {
      ReadShortens(s[3..], k - 1);
    }
  }

  /** Decoding undoes every encoding that escapes the percent sign. */
  lemma {:induction false} DecodeEncode(s: string, safe: Safe)
    requires !safe('%')
    ensures Decode(Encode(s, safe)) == Some(s)
  {
    if s != "" {
      DecodeEncode(s[1..], safe);
      var rest := Encode(s[1..], safe);
      if safe(s[0]) {
        assert Encode(s, safe)[1..] == rest;
      } else {
        DecodeEscape(s[0], rest);
      }
      assert s == [s[0]] + s[1..];
    }
  }

  lemma DecodeEscape(c: char, rest: string)
    requires Decode(rest).Some?
    ensures Decode(Escapes(Utf8(c)) + rest) == Some([c] + Decode(rest).value)
  {
    var bytes := Utf8(c);
    var s := Escapes(bytes) + rest;
    Utf8Assembles(c);
    ReadEscapes(bytes, rest);
    ReadShortens(s, |bytes|);
    assert s[0] == '%';
  }

  /** An encoded text has only safe characters, percent signs and hex digits. */
  lemma {:induction false} EncodedChars(s: string, safe: Safe, c: char)
    requires c in Encode(s, safe)
    ensures safe(c) || c == '%' || '0' <= c <= '9' || 'A' <= c <= 'F'
  {
    if safe(s[0]) {
      if c != s[0] { EncodedChars(s[1..], safe, c); }
    } else if c in Escapes(Utf8(s[0])) {
      EscapedChars(Utf8(s[0]), c);
    } else {
      EncodedChars(s[1..], safe, c);
    }
  }

  lemma {:induction false} EscapedChars(bytes: seq<Byte>, c: char)
    requires c in Escapes(bytes)
    ensures c == '%' || '0' <= c <= '9' || 'A' <= c <= 'F'
  {
    if c !in Escape(bytes[0]) {
      EscapedChars(bytes[1..], c);
    }
  }
}
