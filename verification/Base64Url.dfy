/** Strict unpadded base64url (sections 4, 5 and 3.5 of RFC 4648). */
module Base64Url {
  import opened Json
  import opened Utf8

  type Sextet = n: int | 0 <= n < 64 witness 0

  function Symbol(n: Sextet): char {
    if n < 26 then 'A' + n as char
    else if n < 52 then 'a' + (n - 26) as char
    else if n < 62 then '0' + (n - 52) as char
    else if n == 62 then '-'
    else '_'
  }

  predicate IsSymbol(c: char) {
    'A' <= c <= 'Z' || 'a' <= c <= 'z' || '0' <= c <= '9' || c == '-' || c == '_'
  }

  function Value(c: char): Sextet
    requires IsSymbol(c)
  {
    if 'A' <= c <= 'Z' then (c - 'A') as int
    else if 'a' <= c <= 'z' then 26 + (c - 'a') as int
    else if '0' <= c <= '9' then 52 + (c - '0') as int
    else if c == '-' then 62
    else 63
  }

  lemma SymbolValue(n: Sextet)
    ensures IsSymbol(Symbol(n)) && Value(Symbol(n)) == n
  {
  }

  /** `urlsafe_b64encode(payload).rstrip(b"=")`: the last group is one or two bytes short of three. */
  function Encode(p: Bytes): string {
    if |p| == 0 then ""
    else if |p| == 1 then [Symbol(p[0] / 4), Symbol(p[0] % 4 * 16)]
    else if |p| == 2 then [Symbol(p[0] / 4), Symbol(p[0] % 4 * 16 + p[1] / 16), Symbol(p[1] % 16 * 4)]
    else
      [Symbol(p[0] / 4), Symbol(p[0] % 4 * 16 + p[1] / 16), Symbol(p[1] % 16 * 4 + p[2] / 64), Symbol(p[2] % 64)]
      + Encode(p[3..])
  }

  predicate AllSymbols(v: string) {
    forall i :: 0 <= i < |v| ==> IsSymbol(v[i])
  }

  function First(a: Sextet, b: Sextet): Byte {
    a * 4 + b / 16
  }

  function Second(b: Sextet, c: Sextet): Byte {
    b % 16 * 16 + c / 4
  }

  function Third(c: Sextet, d: Sextet): Byte {
    c % 4 * 64 + d
  }

  /** `b64decode` after padding: one symbol too many is an error, and surplus low bits are dropped. */
  function Lenient(v: string): Option<Bytes>
    requires AllSymbols(v)
  {
    if |v| == 0 then Some([])
    else if |v| == 1 then None
    else if |v| == 2 then Some([First(Value(v[0]), Value(v[1]))])
    else if |v| == 3 then Some([First(Value(v[0]), Value(v[1])), Second(Value(v[1]), Value(v[2]))])
    else
      match Lenient(v[4..])
      case None => None
      case Some(rest) =>
        Some([First(Value(v[0]), Value(v[1])), Second(Value(v[1]), Value(v[2])), Third(Value(v[2]), Value(v[3]))]
             + rest)
  }

  /** `_b64url_decode`. */
  function Decode(value: Json, size: nat): Outcome<Bytes> {
    if !(value.Str? && value.s != "") then Fail(Format) else
    :- Need(AllSymbols(value.s), Format);
    match Lenient(value.s)
    case None => Fail(Format)
    case Some(payload) =>
      if |payload| == size && Encode(payload) == value.s then Ok(payload) else Fail(Format)
  }

  lemma OneByte(a: Byte)
    ensures First(a / 4, a % 4 * 16) == a
  {
  }

  lemma TwoBytes(a: Byte, b: Byte)
    ensures First(a / 4, a % 4 * 16 + b / 16) == a
    ensures Second(a % 4 * 16 + b / 16, b % 16 * 4) == b
  {
  }

  lemma ThreeBytes(a: Byte, b: Byte, c: Byte)
    ensures First(a / 4, a % 4 * 16 + b / 16) == a
    ensures Second(a % 4 * 16 + b / 16, b % 16 * 4 + c / 64) == b
    ensures Third(b % 16 * 4 + c / 64, c % 64) == c
  {
  }

  lemma PairDecodes(w: Sextet, x: Sextet)
    ensures AllSymbols([Symbol(w), Symbol(x)]) && Lenient([Symbol(w), Symbol(x)]) == Some([First(w, x)])
  {
    hide Symbol, Value, IsSymbol, First;
    SymbolValue(w);
    SymbolValue(x);
  }

  lemma TripleDecodes(w: Sextet, x: Sextet, y: Sextet)
    ensures var v := [Symbol(w), Symbol(x), Symbol(y)];
            AllSymbols(v) && Lenient(v) == Some([First(w, x), Second(x, y)])
  {
    hide Symbol, Value, IsSymbol, First, Second;
    SymbolValue(w);
    SymbolValue(x);
    SymbolValue(y);
  }

  lemma GroupDecodes(w: Sextet, x: Sextet, y: Sextet, z: Sextet, rest: string)
    requires AllSymbols(rest) && Lenient(rest).Some?
    ensures var v := [Symbol(w), Symbol(x), Symbol(y), Symbol(z)] + rest;
            AllSymbols(v) && Lenient(v) == Some([First(w, x), Second(x, y), Third(y, z)] + Lenient(rest).value)
  {
    hide Symbol, Value, IsSymbol, First, Second, Third;
    SymbolValue(w);
    SymbolValue(x);
    SymbolValue(y);
    SymbolValue(z);
    var v := [Symbol(w), Symbol(x), Symbol(y), Symbol(z)] + rest;
    assert v[4..] == rest;
  }

  lemma {:induction false} LenientEncoded(p: Bytes)
    ensures AllSymbols(Encode(p)) && Lenient(Encode(p)) == Some(p)
    ensures p != [] ==> Encode(p) != ""
  {
    hide First, Second, Third, Symbol, AllSymbols, Lenient;
    if p == [] {
      EmptyDecodes();
    } else if |p| == 1 {
      OneByte(p[0]);
      PairDecodes(p[0] / 4, p[0] % 4 * 16);
      assert p == [p[0]];
    } else if |p| == 2 {
      TwoBytes(p[0], p[1]);
      TripleDecodes(p[0] / 4, p[0] % 4 * 16 + p[1] / 16, p[1] % 16 * 4);
      assert p == [p[0], p[1]];
    } else {
      ThreeBytes(p[0], p[1], p[2]);
      LenientEncoded(p[3..]);
      GroupDecodes(p[0] / 4, p[0] % 4 * 16 + p[1] / 16, p[1] % 16 * 4 + p[2] / 64, p[2] % 64, Encode(p[3..]));
      assert p == [p[0], p[1], p[2]] + p[3..];
    }
  }

  lemma EmptyDecodes()
    ensures AllSymbols("") && Lenient("") == Some([])
  {
  }

  /** For every size the codec is a bijection between the non-empty byte strings of that size and the accepted texts: a
      text decodes to a payload exactly when it is that payload's encoding, so padding, foreign symbols, a single
      left-over symbol and non-zero surplus bits are all refused, and nothing decodes to zero bytes. */
  lemma DecodeExactlyEncodings(value: Json, size: nat, p: Bytes)
    ensures Decode(value, size) == Ok(p) <==> size > 0 && |p| == size && value == Str(Encode(p))
  {
    hide Encode, Lenient;
    LenientEncoded(p);
    NothingEncoded();
  }

  lemma NothingEncoded()
    ensures Encode([]) == ""
  {
  }

  lemma EncodeInjective(p: Bytes, q: Bytes)
    requires Encode(p) == Encode(q)
    ensures p == q
  {
    LenientEncoded(p);
    LenientEncoded(q);
  }

  // ---------- The encoding by its bits ----------

  function ByteAt(p: Bytes, i: nat): Byte {
    if i < |p| then p[i] else 0
  }

  /** The `i`-th six bits of the text that three bytes at a time make, with zeros after the end. */
  function SextetAt(p: Bytes, i: nat): nat {
    var group := i / 4 * 3;
    var bits := ByteAt(p, group) * 65536 + ByteAt(p, group + 1) * 256 + ByteAt(p, group + 2);
    match i % 4
    case 0 => bits / 262144 % 64
    case 1 => bits / 4096 % 64
    case 2 => bits / 64 % 64
    case _ => bits % 64
  }

  lemma GroupBits(a: Byte, b: Byte, c: Byte)
    ensures var bits := a * 65536 + b * 256 + c;
            && bits / 262144 % 64 == a / 4 && bits / 4096 % 64 == a % 4 * 16 + b / 16
            && bits / 64 % 64 == b % 16 * 4 + c / 64 && bits % 64 == c % 64
  {
    var bits := a * 65536 + b * 256 + c;
    var w, x, y, z := a / 4, a % 4 * 16 + b / 16, b % 16 * 4 + c / 64, c % 64;
    assert bits == w * 262144 + x * 4096 + y * 64 + z;
    Regroup(w, x, y, z);
  }

  /** The four groups of six bits in the first three bytes. */
  lemma FirstSextets(p: Bytes)
    ensures var a, b, c := ByteAt(p, 0), ByteAt(p, 1), ByteAt(p, 2);
            && SextetAt(p, 0) == a / 4 && SextetAt(p, 1) == a % 4 * 16 + b / 16
            && SextetAt(p, 2) == b % 16 * 4 + c / 64 && SextetAt(p, 3) == c % 64
  {
    GroupBits(ByteAt(p, 0), ByteAt(p, 1), ByteAt(p, 2));
  }

  lemma LaterSextets(p: Bytes, i: nat)
    requires |p| >= 3 && i >= 4
    ensures SextetAt(p, i) == SextetAt(p[3..], i - 4)
  {
    var g := i / 4;
    assert (i - 4) / 4 == g - 1 && (i - 4) % 4 == i % 4;
    assert g * 3 == (g - 1) * 3 + 3;
    assert ByteAt(p, g * 3) == ByteAt(p[3..], (g - 1) * 3);
    assert ByteAt(p, g * 3 + 1) == ByteAt(p[3..], (g - 1) * 3 + 1);
    assert ByteAt(p, g * 3 + 2) == ByteAt(p[3..], (g - 1) * 3 + 2);
  }

  /** There is a symbol for each six bits, as many as it takes, and no padding. */
  lemma {:induction false} EncodesBits(p: Bytes, i: nat)
    ensures |Encode(p)| == (4 * |p| + 2) / 3
    ensures i < |Encode(p)| ==> SextetAt(p, i) < 64 && Encode(p)[i] == Symbol(SextetAt(p, i))
    decreases |p|
  {
    hide Symbol, SextetAt;
    FirstSextets(p);
    if |p| >= 3 {
      EncodesBits(p[3..], if i >= 4 then i - 4 else 0);
      if i >= 4 {
        LaterSextets(p, i);
      }
    }
  }
}
