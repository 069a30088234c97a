/** The base64 encoding of section 4 of RFC 4648 (standard alphabet, `=`
    padding), which Node's `Buffer.toString('base64')` produces, and a decoder
    for unpadded input that serves as its inverse. */
module Base64 {
  import opened JsValues

  type Byte = bv8

  /** A 6-bit group: an index into the 64-character alphabet. */
  type Sextet = x: bv8 | x < 64

  const Pad: char := '='

  /** Table 1 of RFC 4648: A-Z, a-z, 0-9, `+`, `/`. */
  function SextetChar(s: Sextet): char {
    var i := s as int;
    if i < 26 then ('A' as int + i) as char
    else if i < 52 then ('a' as int + (i - 26)) as char
    else if i < 62 then ('0' as int + (i - 52)) as char
    else if i == 62 then '+'
    else '/'
  }

  predicate IsAlphabetChar(c: char) {
    ('A' <= c <= 'Z') || ('a' <= c <= 'z') || ('0' <= c <= '9') || c == '+' || c == '/'
  }

  /** The reverse lookup of Table 1. */
  function CharSextet(c: char): Sextet
    requires IsAlphabetChar(c)
  {
    if 'A' <= c <= 'Z' then (c as int - 'A' as int) as bv8
    else if 'a' <= c <= 'z' then (c as int - 'a' as int + 26) as bv8
    else if '0' <= c <= '9' then (c as int - '0' as int + 52) as bv8
    else if c == '+' then 62
    else 63
  }

  lemma SextetCharRoundTrip(s: Sextet)
    ensures IsAlphabetChar(SextetChar(s))
    ensures CharSextet(SextetChar(s)) == s
  {
  }

  /** Three bytes become four sextets, most significant bits first. */
  function Quantum(a: Byte, b: Byte, c: Byte): string {
    [ SextetChar(a >> 2),
      SextetChar(((a & 3) << 4) | (b >> 4)),
      SextetChar(((b & 15) << 2) | (c >> 6)),
      SextetChar(c & 63) ]
  }

  /** Encodes `bytes`; a final group of one or two bytes is padded with `=`
      to four characters. */
  function Encode(bytes: seq<Byte>): (r: string)
    ensures |r| == 4 * ((|bytes| + 2) / 3)
    ensures forall i :: 0 <= i < |r| ==> IsAlphabetChar(r[i]) || r[i] == Pad
    ensures |bytes| % 3 == 0 ==> forall i :: 0 <= i < |r| ==> IsAlphabetChar(r[i])
    decreases |bytes|
  {
    if |bytes| == 0 then ""
    else if |bytes| == 1 then
      [SextetChar(bytes[0] >> 2), SextetChar((bytes[0] & 3) << 4), Pad, Pad]
    else if |bytes| == 2 then
      [ SextetChar(bytes[0] >> 2),
        SextetChar(((bytes[0] & 3) << 4) | (bytes[1] >> 4)),
        SextetChar((bytes[1] & 15) << 2), Pad ]
    else
      SextetCharRoundTrip(bytes[0] >> 2);
      SextetCharRoundTrip(((bytes[0] & 3) << 4) | (bytes[1] >> 4));
      SextetCharRoundTrip(((bytes[1] & 15) << 2) | (bytes[2] >> 6));
      SextetCharRoundTrip(bytes[2] & 63);
      Quantum(bytes[0], bytes[1], bytes[2]) + Encode(bytes[3..])
  }

  /** Four sextets become three bytes: the inverse of Quantum. */
  function Unquantum(w: Sextet, x: Sextet, y: Sextet, z: Sextet): seq<Byte> {
    [(w << 2) | (x >> 4), ((x & 15) << 4) | (y >> 2), ((y & 3) << 6) | z]
  }

  predicate IsQuantum(s: string)
    requires |s| >= 4
  {
    IsAlphabetChar(s[0]) && IsAlphabetChar(s[1]) && IsAlphabetChar(s[2]) && IsAlphabetChar(s[3])
  }

  /** Decodes unpadded base64: None unless the length is a multiple of four
      and every character is in the alphabet. */
  function Decode(s: string): (r: Option<seq<Byte>>)
    ensures r.Some? ==> |r.value| == 3 * (|s| / 4)
    decreases |s|
  {
    if s == [] then Some([])
    else if |s| < 4 || !IsQuantum(s) then None
    else
      var rest := Decode(s[4..]);
      if rest.None? then None
      else Some(Unquantum(CharSextet(s[0]), CharSextet(s[1]), CharSextet(s[2]), CharSextet(s[3])) + rest.value)
  }

  /** Regrouping three bytes into sextets and back loses no bit. */
  lemma RegroupBits(a: Byte, b: Byte, c: Byte)
    ensures Unquantum(a >> 2, ((a & 3) << 4) | (b >> 4), ((b & 15) << 2) | (c >> 6), c & 63) == [a, b, c]
  {
  }

  lemma QuantumRoundTrip(a: Byte, b: Byte, c: Byte, rest: string)
    ensures var s := Quantum(a, b, c) + rest;
      |s| >= 4 && IsQuantum(s) && s[4..] == rest
      && Unquantum(CharSextet(s[0]), CharSextet(s[1]), CharSextet(s[2]), CharSextet(s[3])) == [a, b, c]
  {
    var w: Sextet, x: Sextet, y: Sextet, z: Sextet := a >> 2, ((a & 3) << 4) | (b >> 4), ((b & 15) << 2) | (c >> 6), c & 63;
    SextetCharRoundTrip(w);
    SextetCharRoundTrip(x);
    SextetCharRoundTrip(y);
    SextetCharRoundTrip(z);
    RegroupBits(a, b, c);
    var s := Quantum(a, b, c) + rest;
    assert s[0] == SextetChar(w) && s[1] == SextetChar(x) && s[2] == SextetChar(y) && s[3] == SextetChar(z);
  }

  /** Decoding inverts encoding on whole groups of three bytes. */
  lemma {:induction false} DecodeEncode(bytes: seq<Byte>)
    requires |bytes| % 3 == 0
    ensures Decode(Encode(bytes)) == Some(bytes)
    decreases |bytes|
  {
    if |bytes| > 0 {
      var rest := Encode(bytes[3..]);
      var s := Encode(bytes);
      assert s == Quantum(bytes[0], bytes[1], bytes[2]) + rest;
      QuantumRoundTrip(bytes[0], bytes[1], bytes[2], rest);
      DecodeEncode(bytes[3..]);
      assert Decode(s) == Some([bytes[0], bytes[1], bytes[2]] + bytes[3..]);
      assert bytes == [bytes[0], bytes[1], bytes[2]] + bytes[3..];
    }
  }

  /** Two byte strings of whole groups with the same encoding are equal. */
  lemma EncodeInjective(a: seq<Byte>, b: seq<Byte>)
    requires |a| % 3 == 0 && |b| % 3 == 0
    requires Encode(a) == Encode(b)
    ensures a == b
  {
    DecodeEncode(a);
    DecodeEncode(b);
  }
}
