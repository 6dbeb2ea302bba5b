/** `json.dumps` in canonical form and the parser of `json.loads` (sections 2 to 7 of RFC 8259, integers only). */
module JsonText {
  import opened Json
  import opened Text

  // ---------- Numbers ----------

  function Digit(n: nat): char
    requires n < 10
  {
    '0' + n as char
  }

  predicate IsDigit(c: char) {
    '0' <= c <= '9'
  }

  function DigitValue(c: char): nat
    requires IsDigit(c)
  {
    (c - '0') as nat
  }

  function DecimalNat(n: nat): (r: string)
    ensures r != ""
  {
    if n < 10 then [Digit(n)] else DecimalNat(n / 10) + [Digit(n % 10)]
  }

  function Decimal(n: int): string {
    if n < 0 then "-" + DecimalNat(-n) else DecimalNat(n)
  }

  predicate AllDigits(s: string) {
    forall i :: 0 <= i < |s| ==> IsDigit(s[i])
  }

  function NatOf(s: string): nat
    requires AllDigits(s)
  {
    if s == "" then 0 else 10 * NatOf(s[..|s| - 1]) + DigitValue(s[|s| - 1])
  }

  /** The longest prefix of digits. */
  function Digits(s: string): (r: string)
    ensures AllDigits(r) && r <= s
  {
    if s == "" || !IsDigit(s[0]) then "" else [s[0]] + Digits(s[1..])
  }

  // ---------- Printing ----------

  function HexDigit(n: nat): char
    requires n < 16
  {
    if n < 10 then '0' + n as char else 'a' + (n - 10) as char
  }

  /** `ensure_ascii=False` escapes only the quote, the backslash and the control characters. */
  function EscapeChar(c: char): (r: string)
    ensures r != ""
  {
    if c == '\"' then "\\\""
    else if c == '\\' then "\\\\"
    else if c == '\n' then "\\n"
    else if c == '\r' then "\\r"
    else if c == '\t' then "\\t"
    else if c == 8 as char then "\\b"
    else if c == 12 as char then "\\f"
    else if c < ' ' then "\\u00" + [HexDigit(c as nat / 16), HexDigit(c as nat % 16)]
    else [c]
  }

  function Escape(s: string): string {
    if s == "" then "" else EscapeChar(s[0]) + Escape(s[1..])
  }

  function Quote(s: string): string {
    "\"" + Escape(s) + "\""
  }

  /** `json.dumps(v, sort_keys=True, separators=(",", ":"), ensure_ascii=False)`. */
  function Dumps(v: Json): string
    decreases v, 1
  {
    match v
    case Null => "null"
    case Bool(b) => if b then "true" else "false"
    case Num(n) => Decimal(n)
    case Str(s) => Quote(s)
    case Arr(items) => if items == [] then "[]" else "[" + DumpItems(items) + "]"
    case Obj(fields) =>
      if fields.Keys == {} then "{}" else "{" + DumpMembers(v, Sorted(fields.Keys)) + "}"
  }

  function DumpItems(items: seq<Json>): string
    requires items != []
    decreases items, 0
  {
    if |items| == 1 then Dumps(items[0]) else Dumps(items[0]) + "," + DumpItems(items[1..])
  }

  function DumpMembers(v: Json, keys: seq<string>): string
    requires v.Obj? && keys != [] && Elements(keys) <= v.fields.Keys
    decreases v, 0, |keys|
  {
    assert keys[0] in Elements(keys);
    assert Elements(keys[1..]) <= Elements(keys);
    var head := Quote(keys[0]) + ":" + Dumps(v.fields[keys[0]]);
    if |keys| == 1 then head else head + "," + DumpMembers(v, keys[1..])
  }

  // ---------- Parsing ----------

  datatype Parsed<+T> = Bad | Done(value: T, rest: string)

  predicate IsSpace(c: char) {
    c == ' ' || c == '\t' || c == '\n' || c == '\r'
  }

  function Skip(s: string): (r: string)
    ensures |r| <= |s|
  {
    if s != "" && IsSpace(s[0]) then Skip(s[1..]) else s
  }

  predicate IsHex(c: char) {
    IsDigit(c) || 'a' <= c <= 'f' || 'A' <= c <= 'F'
  }

  function HexValue(c: char): (r: nat)
    requires IsHex(c)
    ensures r < 16
  {
    if IsDigit(c) then DigitValue(c)
    else if 'a' <= c <= 'f' then 10 + (c - 'a') as nat
    else 10 + (c - 'A') as nat
  }

  /** Four hexadecimal digits at the front of `s`. */
  function Hex4(s: string): (r: Option<nat>)
    ensures r.Some? ==> |s| >= 4 && r.value < 0x1_0000
  {
    if |s| >= 4 && IsHex(s[0]) && IsHex(s[1]) && IsHex(s[2]) && IsHex(s[3]) then
      Some(HexValue(s[0]) * 4096 + HexValue(s[1]) * 256 + HexValue(s[2]) * 16 + HexValue(s[3]))
    else None
  }

  /** The character after a backslash-u, joining a surrogate pair; a lone surrogate is refused. */
  function ParseUnicode(s: string): (r: Parsed<char>)
    ensures r.Done? ==> |r.rest| < |s|
  {
    match Hex4(s)
    case None => Bad
    case Some(n) =>
      if n < 0xD800 || 0xE000 <= n then Done(n as char, s[4..])
      else if n < 0xDC00 && |s| >= 6 && s[4] == '\\' && s[5] == 'u' then
        match Hex4(s[6..])
        case None => Bad
        case Some(m) =>
          if 0xDC00 <= m < 0xE000 then
            Done((0x1_0000 + (n - 0xD800) * 0x400 + (m - 0xDC00)) as char, s[10..])
          else Bad
      else Bad
  }

  /** What follows a backslash. */
  function ParseEscape(s: string): (r: Parsed<char>)
    ensures r.Done? ==> |r.rest| < |s|
  {
    if s == "" then Bad
    else if s[0] == '\"' || s[0] == '\\' || s[0] == '/' then Done(s[0], s[1..])
    else if s[0] == 'n' then Done('\n', s[1..])
    else if s[0] == 'r' then Done('\r', s[1..])
    else if s[0] == 't' then Done('\t', s[1..])
    else if s[0] == 'b' then Done(8 as char, s[1..])
    else if s[0] == 'f' then Done(12 as char, s[1..])
    else if s[0] == 'u' then ParseUnicode(s[1..])
    else Bad
  }

  /** The characters of a string up to its closing quote. */
  function ParseChars(s: string): (r: Parsed<string>)
    ensures r.Done? ==> |r.rest| < |s|
    decreases |s|
  {
    if s == "" || s[0] < ' ' then Bad
    else if s[0] == '\"' then Done("", s[1..])
    else if s[0] == '\\' then
      match ParseEscape(s[1..])
      case Bad => Bad
      case Done(c, rest) => Consed(c, ParseChars(rest))
    else Consed(s[0], ParseChars(s[1..]))
  }

  function Consed(c: char, r: Parsed<string>): Parsed<string> {
    match r
    case Bad => Bad
    case Done(t, rest) => Done([c] + t, rest)
  }

  /** A run of digits without superfluous leading zeros. */
  function ParseNat(t: string): (r: Parsed<nat>)
    ensures r.Done? ==> |r.rest| < |t|
  {
    var d := Digits(t);
    var used := if d != "" && d[0] == '0' then "0" else d;
    if used == "" then Bad else Done(NatOf(used), t[|used|..])
  }

  /** A fraction or an exponent after an integer would make it a float, which this model leaves out. */
  predicate Floats(rest: string) {
    rest != "" && (rest[0] == '.' || rest[0] == 'e' || rest[0] == 'E')
  }

  function ParseNumber(s: string): (r: Parsed<Json>)
    ensures r.Done? ==> |r.rest| < |s|
  {
    var negative := s != "" && s[0] == '-';
    match ParseNat(if negative then s[1..] else s)
    case Bad => Bad
    case Done(n, rest) =>
      var m: int := n;
      if Floats(rest) then Bad else Done(Num(if negative then -m else m), rest)
  }

  /** A parsed text, with the members of every object in the order in which the text lists them. */
  datatype Tree = Leaf(value: Json) | Items(items: seq<Tree>) | Members(members: seq<Member>)

  datatype Member = Member(key: string, tree: Tree)

  function Literal(s: string, word: string, v: Json): Parsed<Tree> {
    if word <= s then Done(Leaf(v), s[|word|..]) else Bad
  }

  function AsLeaf(r: Parsed<Json>): Parsed<Tree> {
    match r
    case Bad => Bad
    case Done(v, rest) => Done(Leaf(v), rest)
  }

  function ParseValue(s: string): (r: Parsed<Tree>)
    ensures r.Done? ==> |r.rest| < |s|
    decreases |s|, 1
  {
    if s == "" then Bad
    else if s[0] == '\"' then
      match ParseChars(s[1..])
      case Bad => Bad
      case Done(t, rest) => Done(Leaf(Str(t)), rest)
    else if s[0] == '[' then
      var t := Skip(s[1..]);
      if t != "" && t[0] == ']' then Done(Items([]), t[1..]) else
        match ParseItems(t)
        case Bad => Bad
        case Done(items, rest) => Done(Items(items), rest)
    else if s[0] == '{' then
      var t := Skip(s[1..]);
      if t != "" && t[0] == '}' then Done(Members([]), t[1..]) else
        match ParseMembers(t)
        case Bad => Bad
        case Done(members, rest) => Done(Members(members), rest)
    else if s[0] == 'n' then Literal(s, "null", Null)
    else if s[0] == 't' then Literal(s, "true", Bool(true))
    else if s[0] == 'f' then Literal(s, "false", Bool(false))
    else AsLeaf(ParseNumber(s))
  }

  function ParseItems(s: string): (r: Parsed<seq<Tree>>)
    ensures r.Done? ==> |r.rest| < |s|
    decreases |s|, 2
  {
    match ParseValue(s)
    case Bad => Bad
    case Done(v, rest) =>
      var t := Skip(rest);
      if t != "" && t[0] == ']' then Done([v], t[1..])
      else if t != "" && t[0] == ',' then
        match ParseItems(Skip(t[1..]))
        case Bad => Bad
        case Done(items, end) => Done([v] + items, end)
      else Bad
  }

  /** Members up to the closing brace. */
  function ParseMembers(s: string): (r: Parsed<seq<Member>>)
    ensures r.Done? ==> |r.rest| < |s|
    decreases |s|, 2
  {
    if s == "" || s[0] != '\"' then Bad else
      match ParseChars(s[1..])
      case Bad => Bad
      case Done(key, rest) =>
        var t := Skip(rest);
        if t == "" || t[0] != ':' then Bad else
          match ParseValue(Skip(t[1..]))
          case Bad => Bad
          case Done(v, after) => ParseMemberTail(Member(key, v), Skip(after))
  }

  function ParseMemberTail(member: Member, u: string): (r: Parsed<seq<Member>>)
    ensures r.Done? ==> |r.rest| < |u|
    decreases |u|, 3
  {
    if u != "" && u[0] == '}' then Done([member], u[1..])
    else if u != "" && u[0] == ',' then
      match ParseMembers(Skip(u[1..]))
      case Bad => Bad
      case Done(members, end) => Done([member] + members, end)
    else Bad
  }

  /** A whole text, with the order of its members. */
  function Read(s: string): Option<Tree> {
    match ParseValue(Skip(s))
    case Bad => None
    case Done(t, rest) => if Skip(rest) == "" then Some(t) else None
  }

  // ---------- Dicts ----------

  /** The value that Python builds, in which the order of members is lost. */
  function ValueOf(t: Tree): Json
    decreases t, 1
  {
    match t
    case Leaf(v) => v
    case Items(items) => Arr(ValuesOf(items))
    case Members(members) => Obj(FieldsOf(members))
  }

  function ValuesOf(items: seq<Tree>): seq<Json>
    decreases items, 0
  {
    if items == [] then [] else [ValueOf(items[0])] + ValuesOf(items[1..])
  }

  /** A later member with the same key wins. */
  function FieldsOf(members: seq<Member>): map<string, Json>
    decreases members, 0
  {
    if members == [] then map[] else map[members[0].key := ValueOf(members[0].tree)] + FieldsOf(members[1..])
  }

  /** `json.loads`. */
  function Loads(s: string): Option<Json> {
    match Read(s)
    case None => None
    case Some(t) => Some(ValueOf(t))
  }
}
