/** UTF-8 (section 3 of RFC 3629), the only encoding the server writes. */
module Utf8 {
  import opened Json

  type Byte = n: int | 0 <= n < 256 witness 0

  type Bytes = seq<Byte>

  function EncodeChar(c: char): (r: Bytes)
    ensures 1 <= |r| <= 4
  {
    var n := c as int;
    if n < 0x80 then [n]
    else if n < 0x800 then [0xC0 + n / 64, 0x80 + n % 64]
    else if n < 0x1_0000 then [0xE0 + n / 4096, 0x80 + n / 64 % 64, 0x80 + n % 64]
    else [0xF0 + n / 262144, 0x80 + n / 4096 % 64, 0x80 + n / 64 % 64, 0x80 + n % 64]
  }

  function Encode(s: string): Bytes {
    if s == "" then [] else EncodeChar(s[0]) + Encode(s[1..])
  }

  predicate IsContinuation(b: Byte) {
    0x80 <= b < 0xC0
  }

  predicate IsScalar(n: int) {
    0 <= n < 0xD800 || 0xE000 <= n < 0x11_0000
  }

  /** The payload of a lead or continuation byte whose marker bits are `mark`. */
  function Payload(b: Byte, mark: int): int {
    b - mark
  }

  function Two(b: Byte, c: Byte): int {
    Payload(b, 0xC0) * 64 + Payload(c, 0x80)
  }

  function Three(b: Byte, c: Byte, d: Byte): int {
    Payload(b, 0xE0) * 4096 + Payload(c, 0x80) * 64 + Payload(d, 0x80)
  }

  function Four(b: Byte, c: Byte, d: Byte, e: Byte): int {
    Payload(b, 0xF0) * 262144 + Payload(c, 0x80) * 4096 + Payload(d, 0x80) * 64 + Payload(e, 0x80)
  }

  /** The first character of a well-formed sequence and the number of bytes it takes. */
  function DecodeChar(b: Bytes): (r: Option<(char, nat)>)
    requires b != []
    ensures r.Some? ==> 1 <= r.value.1 <= |b|
  {
    if b[0] < 0x80 then Some((b[0] as char, 1))
    else if 0xC2 <= b[0] < 0xE0 && |b| >= 2 && IsContinuation(b[1]) then
      Some((Two(b[0], b[1]) as char, 2))
    else if 0xE0 <= b[0] < 0xF0 && |b| >= 3 && IsContinuation(b[1]) && IsContinuation(b[2]) then
      var n := Three(b[0], b[1], b[2]);
      if n >= 0x800 && IsScalar(n) then Some((n as char, 3)) else None
    else if 0xF0 <= b[0] < 0xF5 && |b| >= 4 && IsContinuation(b[1]) && IsContinuation(b[2]) && IsContinuation(b[3]) then
      var n := Four(b[0], b[1], b[2], b[3]);
      if n >= 0x1_0000 && IsScalar(n) then Some((n as char, 4)) else None
    else None
  }

  function Decode(b: Bytes): Option<string>
    decreases |b|
  {
    if b == [] then Some("") else
      match DecodeChar(b)
      case None => None
      case Some((c, n)) =>
        match Decode(b[n..])
        case None => None
        case Some(s) => Some([c] + s)
  }

  lemma Sextets(n: nat)
    ensures n == n / 64 * 64 + n % 64
    ensures n / 64 == n / 4096 * 64 + n / 64 % 64
    ensures n / 4096 == n / 262144 * 64 + n / 4096 % 64
  {
  }

  lemma DecodeEncodedChar(c: char, rest: Bytes)
    ensures DecodeChar(EncodeChar(c) + rest) == Some((c, |EncodeChar(c)|))
  {
    var n := c as int;
    Sextets(n);
    var e := EncodeChar(c);
    assert forall i :: 0 <= i < |e| ==> (e + rest)[i] == e[i];
  }

  lemma Regroup(p: int, q: int, r: int, s: int)
    requires 0 <= p && 0 <= q < 64 && 0 <= r < 64 && 0 <= s < 64
    ensures var n := p * 262144 + q * 4096 + r * 64 + s;
            n / 262144 == p && n / 4096 % 64 == q && n / 64 % 64 == r && n % 64 == s
  {
    var n := p * 262144 + q * 4096 + r * 64 + s;
    assert n / 64 == p * 4096 + q * 64 + r;
    assert n / 4096 == p * 64 + q;
  }

  lemma EncodeDecodedChar(b: Bytes)
    requires b != [] && DecodeChar(b).Some?
    ensures EncodeChar(DecodeChar(b).value.0) == b[..DecodeChar(b).value.1]
  {
    if 0xC2 <= b[0] < 0xE0 {
      Regroup(0, 0, b[0] - 0xC0, b[1] - 0x80);
    } else if 0xE0 <= b[0] < 0xF0 {
      Regroup(0, b[0] - 0xE0, b[1] - 0x80, b[2] - 0x80);
    } else if 0xF0 <= b[0] {
      Regroup(b[0] - 0xF0, b[1] - 0x80, b[2] - 0x80, b[3] - 0x80);
    }
  }

  /** Decoding an encoding gives the text back, so encoding is injective. */
  lemma {:induction false} DecodeEncoded(s: string)
    ensures Decode(Encode(s)) == Some(s)
  {
    if s != "" {
      DecodeEncodedChar(s[0], Encode(s[1..]));
      DecodeEncoded(s[1..]);
      assert Encode(s)[|EncodeChar(s[0])|..] == Encode(s[1..]);
      assert s == [s[0]] + s[1..];
    }
  }

  /** Every accepted byte string is the encoding of what it decodes to: no overlong or surrogate forms. */
  lemma {:induction false} EncodeDecoded(b: Bytes)
    requires Decode(b).Some?
    ensures Encode(Decode(b).value) == b
    decreases |b|
  {
    hide DecodeChar, EncodeChar;
    if b != [] {
      var (c, n) := DecodeChar(b).value;
      EncodeDecodedChar(b);
      EncodeDecoded(b[n..]);
      var s := Decode(b).value;
      assert s[0] == c && s[1..] == Decode(b[n..]).value;
      assert b == b[..n] + b[n..];
    }
  }

  lemma EncodeInjective(s: string, t: string)
    requires Encode(s) == Encode(t)
    ensures s == t
  {
    DecodeEncoded(s);
    DecodeEncoded(t);
  }
}
