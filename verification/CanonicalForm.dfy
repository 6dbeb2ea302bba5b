/** What makes the printed form canonical: keys in order at every depth, no shorter text, lower-case escapes; and
    nothing else has all three. */
module CanonicalForm {
  import opened Json
  import opened Text
  import opened JsonText
  import opened Canonical
  import opened Utf8
  import Documents

  /** The keys of every object are strictly increasing in the order in which the text lists them, at every depth. */
  predicate KeysInOrder(text: string) {
    Read(text).Some? && InOrder(Read(text).value)
  }

  /** No escape of the text has an upper-case hexadecimal digit. */
  predicate LowerEscapes(s: string) {
    if s == "" then true
    else if s[0] != '\\' then LowerEscapes(s[1..])
    else |s| < 2 || ((s[1] == 'u' ==> forall i :: 2 <= i < 6 && i < |s| ==> !('A' <= s[i] <= 'F'))
                     && LowerEscapes(s[2..]))
  }

  /** No text of the same value is shorter. */
  ghost predicate Shortest(text: string) {
    Loads(text).Some? && forall other :: Loads(other) == Loads(text) ==> |text| <= |other|
  }

  // ---------- What parsing consumes ----------

  /** At least the length of `text` lies between `s` and `rest`, and exactly `text` if it is no more than that. */
  predicate Consumes(s: string, text: string, rest: string) {
    && |s| >= |text| + |rest|
    && (LowerEscapes(s) ==> LowerEscapes(rest))
    && (LowerEscapes(s) && |s| == |text| + |rest| ==> s == text + rest)
  }

  lemma Compose(s: string, a: string, middle: string, b: string, rest: string)
    requires Consumes(s, a, middle) && Consumes(middle, b, rest)
    ensures Consumes(s, a + b, rest)
  {
    if LowerEscapes(s) && |s| == |a + b| + |rest| {
      assert s == a + (b + rest);
    }
  }

  lemma ConsumesOne(s: string)
    requires s != "" && s[0] != '\\'
    ensures Consumes(s, [s[0]], s[1..])
  {
    assert s == [s[0]] + s[1..];
  }

  lemma {:induction false} ConsumesSpaces(s: string)
    ensures Consumes(s, "", Skip(s))
  {
    if s != "" && IsSpace(s[0]) {
      ConsumesSpaces(s[1..]);
    }
  }

  /** A stretch without backslashes. */
  lemma {:induction false} ConsumesPlain(text: string, rest: string)
    requires forall i :: 0 <= i < |text| ==> text[i] != '\\'
    ensures Consumes(text + rest, text, rest)
    ensures LowerEscapes(text + rest) <==> LowerEscapes(rest)
  {
    if text == "" {
      assert text + rest == rest;
    } else {
      ConsumesPlain(text[1..], rest);
      assert (text + rest)[1..] == text[1..] + rest;
    }
  }

  // ---------- Strings ----------

  /** The three forms of an escape: itself, a letter, or four digits. */
  lemma ConsumesEscape(s: string, c: char, rest: string)
    requires s != "" && s[0] == '\\' && ParseEscape(s[1..]) == Done(c, rest)
    ensures Consumes(s, EscapeChar(c), rest)
  {
    hide ParseUnicode;
    var e := s[1..];
    if e[0] == 'u' {
      ConsumesUnicode(s, c, rest);
    } else {
      assert rest == s[2..] && s == [s[0], s[1]] + rest;
    }
  }

  lemma ConsumesUnicode(s: string, c: char, rest: string)
    requires |s| >= 2 && s[0] == '\\' && s[1] == 'u' && ParseUnicode(s[2..]) == Done(c, rest)
    ensures Consumes(s, EscapeChar(c), rest)
  {
    hide EscapeChar;
    var u := s[2..];
    EscapeLength(c);
    HexHasNoBackslash(u);
    if |u| - |rest| == 4 {
      assert rest == s[6..] && u[..4] + rest == u;
      ConsumesPlain(u[..4], rest);
      if LowerEscapes(s) && |EscapeChar(c)| == 6 {
        LowerUnicode(u, c);
        assert s == "\\u" + u[..4] + rest;
      }
    } else {
      assert rest == s[12..] && u == u[..4] + u[4..] && u[4..][2..] == u[6..] && u[6..] == u[6..][..4] + rest;
      HexHasNoBackslash(u[6..]);
      ConsumesPlain(u[..4], u[4..]);
      ConsumesPlain(u[6..][..4], rest);
    }
  }

  lemma EscapeLength(c: char)
    ensures |EscapeChar(c)| in {1, 2, 6}
    ensures |EscapeChar(c)| == 6 ==> c as int < 32
                                     && EscapeChar(c) == "\\u00" + [HexDigit(c as nat / 16), HexDigit(c as nat % 16)]
  {
  }

  lemma HexHasNoBackslash(u: string)
    requires Hex4(u).Some?
    ensures |u| >= 4 && forall i :: 0 <= i < 4 ==> u[i] != '\\'
  {
  }

  lemma LowerHexDigit(d: char)
    requires IsHex(d) && !('A' <= d <= 'F')
    ensures HexDigit(HexValue(d)) == d
  {
  }

  /** Four lower-case digits of a control character. */
  lemma LowerUnicode(u: string, c: char)
    requires |u| >= 4 && Hex4(u) == Some(c as nat) && c as int < 32
    requires forall i :: 0 <= i < 4 ==> !('A' <= u[i] <= 'F')
    ensures u[..4] == "00" + [HexDigit(c as nat / 16), HexDigit(c as nat % 16)]
  {
    hide HexValue, HexDigit;
    var a, b, x, y := HexValue(u[0]), HexValue(u[1]), HexValue(u[2]), HexValue(u[3]);
    LowerHexDigit(u[0]);
    LowerHexDigit(u[1]);
    LowerHexDigit(u[2]);
    LowerHexDigit(u[3]);
    assert a == 0 && b == 0 && c as nat == x * 16 + y;
    ZeroDigit();
  }

  lemma ZeroDigit()
    ensures HexDigit(0) == '0'
  {
  }

  lemma {:induction false} ConsumesChars(s: string, t: string, rest: string)
    requires ParseChars(s) == Done(t, rest)
    ensures Consumes(s, Escape(t) + "\"", rest)
    decreases |s|
  {
    hide EscapeChar, ParseEscape, Consumes;
    if s[0] == '\"' {
      ConsumesOne(s);
      assert Escape("") + "\"" == [s[0]];
    } else {
      assert t != "" && t == [t[0]] + t[1..];
      var after := if s[0] == '\\' then ParseEscape(s[1..]).rest else s[1..];
      if s[0] == '\\' {
        ConsumesEscape(s, t[0], after);
      } else {
        PlainChar(s[0]);
        ConsumesOne(s);
      }
      ConsumesChars(after, t[1..], rest);
      Compose(s, EscapeChar(t[0]), after, Escape(t[1..]) + "\"", rest);
      assert Escape(t) + "\"" == EscapeChar(t[0]) + (Escape(t[1..]) + "\"");
    }
  }

  lemma PlainChar(c: char)
    requires c >= ' ' && c != '\"' && c != '\\'
    ensures EscapeChar(c) == [c]
  {
  }

  lemma ConsumesQuoted(s: string, t: string, rest: string)
    requires s != "" && s[0] == '\"' && ParseChars(s[1..]) == Done(t, rest)
    ensures Consumes(s, Quote(t), rest)
  {
    hide ParseChars, Consumes, Escape;
    ConsumesOne(s);
    ConsumesChars(s[1..], t, rest);
    Compose(s, "\"", s[1..], Escape(t) + "\"", rest);
    assert Quote(t) == "\"" + (Escape(t) + "\"");
  }

  // ---------- Numbers ----------

  /** Digits without a superfluous zero are the decimal form of their value. */
  lemma {:induction false} DecimalOfDigits(d: string)
    requires AllDigits(d) && d != "" && (d[0] == '0' ==> d == "0")
    ensures DecimalNat(NatOf(d)) == d
    ensures d != "0" ==> NatOf(d) > 0
    decreases |d|
  {
    var n := |d| - 1;
    if n == 0 {
      assert NatOf(d[..0]) == 0;
      assert d == [d[0]];
    } else {
      DecimalOfDigits(d[..n]);
      assert NatOf(d) / 10 == NatOf(d[..n]) && NatOf(d) % 10 == DigitValue(d[n]);
      assert d == d[..n] + [d[n]];
    }
  }

  lemma ConsumesNat(s: string, n: nat, rest: string)
    requires ParseNat(s) == Done(n, rest)
    ensures Consumes(s, DecimalNat(n), rest) && s == DecimalNat(n) + rest
  {
    var d := Digits(s);
    var used := if d != "" && d[0] == '0' then "0" else d;
    DecimalOfDigits(used);
    assert used <= s && s == used + rest;
    ConsumesPlain(used, rest);
  }

  lemma ConsumesNumber(s: string, v: Json, rest: string)
    requires ParseNumber(s) == Done(v, rest)
    ensures v.Num? && Consumes(s, Decimal(v.n), rest)
  {
    hide ParseNat, DecimalNat, Consumes;
    if s != "" && s[0] == '-' {
      var n := ParseNat(s[1..]).value;
      ConsumesNat(s[1..], n, rest);
      ConsumesOne(s);
      Compose(s, "-", s[1..], DecimalNat(n), rest);
      assert s == ("-" + DecimalNat(n)) + rest;
      if n == 0 {
        LongerIsEnough(s, "-" + DecimalNat(0), DecimalNat(0), rest);
      }
    } else {
      ConsumesNat(s, ParseNat(s).value, rest);
    }
  }

  lemma LongerIsEnough(s: string, longer: string, text: string, rest: string)
    requires Consumes(s, longer, rest) && |text| < |longer|
    ensures Consumes(s, text, rest)
  {
  }

  // ---------- Values ----------

  lemma ConsumesLiteral(s: string, word: string, rest: string)
    requires word <= s && rest == s[|word|..] && forall i :: 0 <= i < |word| ==> word[i] != '\\'
    ensures Consumes(s, word, rest)
  {
    assert s == word + rest;
    ConsumesPlain(word, rest);
  }

  lemma {:induction false} ConsumesValue(s: string, t: Tree, rest: string)
    requires ParseValue(s) == Done(t, rest)
    ensures Proper(t) && Consumes(s, Print(t), rest)
    decreases |s|, 1
  {
    hide Consumes, ParseChars, ParseItems, ParseMembers, ParseNumber, PrintItems, PrintMembers, Skip, Decimal, Quote;
    if s[0] == '\"' {
      ConsumesQuoted(s, t.value.s, rest);
    } else if s[0] == '[' {
      ConsumesList(s, t, rest);
    } else if s[0] == '{' {
      ConsumesObject(s, t, rest);
    } else if s[0] == 'n' {
      ConsumesLiteral(s, "null", rest);
    } else if s[0] == 't' {
      ConsumesLiteral(s, "true", rest);
    } else if s[0] == 'f' {
      ConsumesLiteral(s, "false", rest);
    } else {
      ConsumesNumber(s, t.value, rest);
    }
  }

  /** An opening bracket and the spaces after it. */
  lemma ConsumesOpening(s: string)
    requires s != "" && s[0] != '\\'
    ensures Consumes(s, [s[0]], Skip(s[1..]))
  {
    hide Consumes;
    ConsumesOne(s);
    ConsumesSpaces(s[1..]);
    Compose(s, [s[0]], s[1..], "", Skip(s[1..]));
    assert [s[0]] + "" == [s[0]];
  }

  lemma ConsumesClosing(s: string, a: string, t: string)
    requires Consumes(s, a, t) && t != "" && t[0] != '\\'
    ensures Consumes(s, a + [t[0]], t[1..])
  {
    hide Consumes;
    ConsumesOne(t);
    Compose(s, a, t, [t[0]], t[1..]);
  }

  lemma {:induction false} ConsumesList(s: string, t: Tree, rest: string)
    requires s != "" && s[0] == '[' && ParseValue(s) == Done(t, rest)
    ensures Proper(t) && Consumes(s, Print(t), rest)
    decreases |s|, 0
  {
    hide Consumes, ParseChars, ParseItems, ParseMembers, ParseNumber, PrintItems, PrintMembers, Skip;
    ConsumesOpening(s);
    var u := Skip(s[1..]);
    if u != "" && u[0] == ']' {
      ConsumesClosing(s, "[", u);
      assert "[" + [u[0]] == "[]";
    } else {
      ConsumesItems(u, t.items, rest);
      Compose(s, "[", u, PrintItems(t.items) + "]", rest);
      assert Print(t) == "[" + (PrintItems(t.items) + "]");
    }
  }

  lemma {:induction false} ConsumesItems(s: string, items: seq<Tree>, rest: string)
    requires ParseItems(s) == Done(items, rest)
    ensures items != [] && (forall i :: 0 <= i < |items| ==> Proper(items[i]))
    ensures Consumes(s, PrintItems(items) + "]", rest)
    decreases |s|, 2
  {
    hide Consumes, ParseValue, Print, Skip, Proper;
    var after := ParseValue(s).rest;
    var t := Skip(after);
    ConsumesValue(s, items[0], after);
    ConsumesSpaces(after);
    Compose(s, Print(items[0]), after, "", t);
    assert Print(items[0]) + "" == Print(items[0]);
    ConsumesClosing(s, Print(items[0]), t);
    if t[0] == ',' {
      var u := Skip(t[1..]);
      ConsumesSpaces(t[1..]);
      Compose(s, Print(items[0]) + ",", t[1..], "", u);
      assert Print(items[0]) + "," + "" == Print(items[0]) + ",";
      ConsumesItems(u, items[1..], rest);
      Compose(s, Print(items[0]) + ",", u, PrintItems(items[1..]) + "]", rest);
      assert PrintItems(items) + "]" == Print(items[0]) + "," + (PrintItems(items[1..]) + "]");
      assert forall i :: 0 < i < |items| ==> items[i] == items[1..][i - 1];
    }
  }

  lemma {:induction false} ConsumesObject(s: string, t: Tree, rest: string)
    requires s != "" && s[0] == '{' && ParseValue(s) == Done(t, rest)
    ensures Proper(t) && Consumes(s, Print(t), rest)
    decreases |s|, 0
  {
    hide Consumes, ParseChars, ParseItems, ParseMembers, ParseNumber, PrintItems, PrintMembers, Skip;
    ConsumesOpening(s);
    var u := Skip(s[1..]);
    if u != "" && u[0] == '}' {
      ConsumesClosing(s, "{", u);
      assert "{" + [u[0]] == "{}";
    } else {
      ConsumesMembers(u, t.members, rest);
      Compose(s, "{", u, PrintMembers(t.members) + "}", rest);
      assert Print(t) == "{" + (PrintMembers(t.members) + "}");
    }
  }

  lemma {:induction false} ConsumesMembers(s: string, members: seq<Member>, rest: string)
    requires ParseMembers(s) == Done(members, rest)
    ensures members != [] && (forall i :: 0 <= i < |members| ==> Proper(members[i].tree))
    ensures Consumes(s, PrintMembers(members) + "}", rest)
    decreases |s|, 2
  {
    hide Consumes, ParseValue, ParseChars, Print, PrintMember, Skip, Proper;
    var t := Skip(ParseChars(s[1..]).rest);
    var value := Skip(t[1..]);
    var after := ParseValue(value).rest;
    var m := Member(ParseChars(s[1..]).value, ParseValue(value).value);
    var u := Skip(after);
    ConsumesKey(s, m.key);
    ConsumesValue(value, m.tree, after);
    ConsumesSpaces(after);
    Compose(value, Print(m.tree), after, "", u);
    assert Print(m.tree) + "" == Print(m.tree);
    Compose(s, Quote(m.key) + ":", value, Print(m.tree), u);
    PrintMemberIs(m);
    ConsumesClosing(s, PrintMember(m), u);
    if u[0] == ',' {
      var more := Skip(u[1..]);
      ConsumesSpaces(u[1..]);
      Compose(s, PrintMember(m) + ",", u[1..], "", more);
      assert PrintMember(m) + "," + "" == PrintMember(m) + ",";
      ConsumesMembers(more, members[1..], rest);
      Compose(s, PrintMember(m) + ",", more, PrintMembers(members[1..]) + "}", rest);
      assert PrintMembers(members) + "}" == PrintMember(m) + "," + (PrintMembers(members[1..]) + "}");
      assert forall i :: 0 < i < |members| ==> members[i] == members[1..][i - 1];
    }
  }

  lemma PrintMemberIs(m: Member)
    ensures PrintMember(m) == Quote(m.key) + ":" + Print(m.tree)
  {
    hide Print, Quote;
  }

  /** A key and its colon. */
  lemma ConsumesKey(s: string, key: string)
    requires s != "" && s[0] == '\"' && ParseChars(s[1..]).Done? && ParseChars(s[1..]).value == key
    requires var t := Skip(ParseChars(s[1..]).rest); t != "" && t[0] == ':'
    ensures Consumes(s, Quote(key) + ":", Skip(Skip(ParseChars(s[1..]).rest)[1..]))
  {
    hide Consumes, ParseChars, Skip, Quote;
    var rest := ParseChars(s[1..]).rest;
    var t := Skip(rest);
    ConsumesQuoted(s, key, rest);
    ConsumesSpaces(rest);
    Compose(s, Quote(key), rest, "", t);
    assert Quote(key) + "" == Quote(key);
    ConsumesClosing(s, Quote(key), t);
    ConsumesSpaces(t[1..]);
    Compose(s, Quote(key) + ":", t[1..], "", Skip(t[1..]));
    assert Quote(key) + ":" + "" == Quote(key) + ":";
  }

  /** A whole text is at least as long as its tree printed compactly, and is that print if it is no longer and its
      escapes are in lower case. */
  lemma ConsumesText(text: string)
    requires Read(text).Some?
    ensures Proper(Read(text).value) && Consumes(text, Print(Read(text).value), "")
  {
    hide Consumes, ParseValue, Print, Skip;
    var t := Read(text).value;
    var s := Skip(text);
    var rest := ParseValue(s).rest;
    ConsumesSpaces(text);
    ConsumesValue(s, t, rest);
    Compose(text, "", s, Print(t), rest);
    assert "" + Print(t) == Print(t);
    ConsumesSpaces(rest);
    Compose(text, Print(t), rest, "", "");
    assert Print(t) + "" == Print(t);
  }

  // ---------- Repeated keys only lengthen a text ----------

  /** What a member takes, with its colon and a comma. */
  function Room(key: string, v: Json): nat {
    |Quote(key)| + |Dumps(v)| + 2
  }

  ghost function Length(fields: map<string, Json>): nat {
    if fields.Keys == {} then 0 else
      var k :| k in fields;
      Room(k, fields[k]) + Length(fields - {k})
  }

  lemma {:induction false} LengthWithout(fields: map<string, Json>, k: string)
    requires k in fields
    ensures Length(fields) == Room(k, fields[k]) + Length(fields - {k})
    decreases |fields|
  {
    hide Room;
    var c :| c in fields && Length(fields) == Room(c, fields[c]) + Length(fields - {c});
    if c != k {
      LengthWithout(fields - {c}, k);
      LengthWithout(fields - {k}, c);
      assert fields - {c} - {k} == fields - {k} - {c};
    }
  }

  lemma LengthAdded(fields: map<string, Json>, k: string, v: Json)
    requires k !in fields
    ensures Length(map[k := v] + fields) == Room(k, v) + Length(fields)
  {
    hide Room;
    var all := map[k := v] + fields;
    LengthWithout(all, k);
    assert all - {k} == fields;
  }

  lemma {:induction false} DumpLength(v: Json, keys: seq<string>)
    requires v.Obj? && keys != [] && Elements(keys) <= v.fields.Keys && Ascending(keys)
    ensures |DumpMembers(v, keys)| + 1 == Length(Selected(v, keys))
    decreases |keys|
  {
    hide Dumps, Quote, Length, Ascending;
    HeadIsLeast(keys);
    var more := keys[1..];
    assert keys[0] in Elements(keys);
    assert Selected(v, keys) == map[keys[0] := v.fields[keys[0]]] + Selected(v, more);
    LengthAdded(Selected(v, more), keys[0], v.fields[keys[0]]);
    if |keys| == 1 {
      NoLength(Selected(v, more));
    } else {
      DumpLength(v, more);
    }
  }

  lemma NoLength(fields: map<string, Json>)
    requires fields.Keys == {}
    ensures Length(fields) == 0
  {
  }

  lemma ObjectLength(fields: map<string, Json>)
    ensures fields.Keys != {} ==> |Dumps(Obj(fields))| == Length(fields) + 1
    ensures fields.Keys == {} ==> |Dumps(Obj(fields))| == 2
  {
    hide DumpMembers, Sorted, Length, Ascending;
    if fields.Keys != {} {
      var v := Obj(fields);
      var keys := Sorted(fields.Keys);
      NothingListed(keys);
      DumpLength(v, keys);
      assert Selected(v, keys) == fields;
    }
  }

  /** No tree of a value prints shorter than the value itself. */
  lemma {:induction false} PrintsNoShorter(t: Tree)
    requires Proper(t)
    ensures |Dumps(ValueOf(t))| <= |Print(t)|
    decreases t, 2
  {
    hide DumpItems, PrintItems, DumpMembers, PrintMembers, Sorted, Length;
    match t
    case Leaf(_) =>
    case Items(items) =>
      if items != [] {
        ItemsNoShorter(items);
      }
    case Members(members) =>
      ObjectLength(FieldsOf(members));
      if members != [] {
        MembersNoShorter(members);
        assert members[0].key in FieldsOf(members);
      }
  }

  lemma {:induction false} ItemsNoShorter(items: seq<Tree>)
    requires items != [] && forall i :: 0 <= i < |items| ==> Proper(items[i])
    ensures ValuesOf(items) != [] && |DumpItems(ValuesOf(items))| <= |PrintItems(items)|
    decreases items, 1
  {
    hide Print, Dumps, Proper, ValueOf;
    PrintsNoShorter(items[0]);
    assert ValuesOf(items)[1..] == ValuesOf(items[1..]);
    if |items| > 1 {
      ItemsNoShorter(items[1..]);
    }
  }

  lemma {:induction false} MembersNoShorter(members: seq<Member>)
    requires members != [] && forall i :: 0 <= i < |members| ==> Proper(members[i].tree)
    ensures Length(FieldsOf(members)) <= |PrintMembers(members)| + 1
    decreases members, 1
  {
    hide Print, Dumps, Proper, ValueOf, Quote, Length;
    var m := members[0];
    PrintsNoShorter(m.tree);
    var later := FieldsOf(members[1..]);
    assert FieldsOf(members) == map[m.key := ValueOf(m.tree)] + later;
    if m.key in later {
      assert FieldsOf(members) == later;
    } else {
      LengthAdded(later, m.key, ValueOf(m.tree));
    }
    if |members| > 1 {
      MembersNoShorter(members[1..]);
    } else {
      NoLength(later);
    }
  }

  lemma DumpsIsShortest(v: Json)
    ensures Shortest(Dumps(v))
  {
    hide Dumps, Print, Read, Consumes;
    LoadsDumps(v);
    forall other | Loads(other) == Some(v)
      ensures |Dumps(v)| <= |other|
    {
      ConsumesText(other);
      PrintsNoShorter(Read(other).value);
      AtLeast(other, Print(Read(other).value), "");
    }
  }

  lemma AtLeast(s: string, text: string, rest: string)
    requires Consumes(s, text, rest)
    ensures |s| >= |text|
    ensures LowerEscapes(s) && rest == "" && |s| == |text| ==> s == text
  {
  }

  // ---------- The printed form has only lower-case escapes ----------

  lemma LowerEscapedChar(c: char, rest: string)
    requires LowerEscapes(rest)
    ensures LowerEscapes(EscapeChar(c) + rest)
  {
    var s := EscapeChar(c) + rest;
    EscapeLength(c);
    if |EscapeChar(c)| == 6 {
      var hex := "00" + [HexDigit(c as nat / 16), HexDigit(c as nat % 16)];
      ConsumesPlain(hex, rest);
      assert s[2..] == hex + rest;
    } else if |EscapeChar(c)| == 2 {
      assert s[2..] == rest;
    } else {
      assert s[1..] == rest;
    }
  }

  lemma {:induction false} LowerEscaped(t: string, rest: string)
    requires LowerEscapes(rest)
    ensures LowerEscapes(Escape(t) + rest)
  {
    hide EscapeChar;
    if t == "" {
      assert Escape(t) + rest == rest;
    } else {
      LowerEscaped(t[1..], rest);
      LowerEscapedChar(t[0], Escape(t[1..]) + rest);
      assert Escape(t) + rest == EscapeChar(t[0]) + (Escape(t[1..]) + rest);
    }
  }

  lemma LowerQuoted(t: string, rest: string)
    requires LowerEscapes(rest)
    ensures LowerEscapes(Quote(t) + rest)
  {
    hide Escape;
    ConsumesPlain("\"", rest);
    LowerEscaped(t, "\"" + rest);
    ConsumesPlain("\"", Escape(t) + ("\"" + rest));
    assert Quote(t) + rest == "\"" + (Escape(t) + ("\"" + rest));
  }

  lemma {:induction false} LowerPrinted(t: Tree, rest: string)
    requires Proper(t) && LowerEscapes(rest)
    ensures LowerEscapes(Print(t) + rest)
    decreases t, 3
  {
    hide PrintItems, PrintMembers, LowerEscapes;
    match t
    case Leaf(v) => LowerLeaf(v, rest);
    case Items(items) =>
      ConsumesPlain("[]", rest);
      if items != [] {
        ConsumesPlain("]", rest);
        LowerItems(items, "]" + rest);
        ConsumesPlain("[", PrintItems(items) + ("]" + rest));
        assert Print(t) + rest == "[" + (PrintItems(items) + ("]" + rest));
      }
    case Members(members) =>
      ConsumesPlain("{}", rest);
      if members != [] {
        ConsumesPlain("}", rest);
        LowerMembers(members, "}" + rest);
        ConsumesPlain("{", PrintMembers(members) + ("}" + rest));
        assert Print(t) + rest == "{" + (PrintMembers(members) + ("}" + rest));
      }
  }

  lemma LowerLeaf(v: Json, rest: string)
    requires !v.Arr? && !v.Obj? && LowerEscapes(rest)
    ensures LowerEscapes(Dumps(v) + rest)
  {
    hide LowerEscapes, Escape, DecimalNat;
    match v
    case Str(t) => LowerQuoted(t, rest);
    case Num(n) =>
      DecimalValue(if n < 0 then -n else n);
      ConsumesPlain(Decimal(n), rest);
    case _ => ConsumesPlain(Dumps(v), rest);
  }

  lemma {:induction false} LowerItems(items: seq<Tree>, rest: string)
    requires items != [] && (forall i :: 0 <= i < |items| ==> Proper(items[i])) && LowerEscapes(rest)
    ensures LowerEscapes(PrintItems(items) + rest)
    decreases items, 1
  {
    hide Print, LowerEscapes, Proper;
    if |items| == 1 {
      LowerPrinted(items[0], rest);
    } else {
      LowerItems(items[1..], rest);
      ConsumesPlain(",", PrintItems(items[1..]) + rest);
      LowerPrinted(items[0], "," + (PrintItems(items[1..]) + rest));
      assert PrintItems(items) + rest == Print(items[0]) + ("," + (PrintItems(items[1..]) + rest));
    }
  }

  lemma {:induction false} LowerMember(m: Member, rest: string)
    requires Proper(m.tree) && LowerEscapes(rest)
    ensures LowerEscapes(PrintMember(m) + rest)
    decreases m, 4
  {
    hide Print, LowerEscapes, Proper, Quote;
    LowerPrinted(m.tree, rest);
    ConsumesPlain(":", Print(m.tree) + rest);
    LowerQuoted(m.key, ":" + (Print(m.tree) + rest));
    assert PrintMember(m) + rest == Quote(m.key) + (":" + (Print(m.tree) + rest));
  }

  lemma {:induction false} LowerMembers(members: seq<Member>, rest: string)
    requires members != [] && (forall i :: 0 <= i < |members| ==> Proper(members[i].tree)) && LowerEscapes(rest)
    ensures LowerEscapes(PrintMembers(members) + rest)
    decreases members, 1
  {
    hide PrintMember, LowerEscapes, Proper;
    if |members| == 1 {
      LowerMember(members[0], rest);
    } else {
      LowerMembers(members[1..], rest);
      ConsumesPlain(",", PrintMembers(members[1..]) + rest);
      LowerMember(members[0], "," + (PrintMembers(members[1..]) + rest));
      assert PrintMembers(members) + rest == PrintMember(members[0]) + ("," + (PrintMembers(members[1..]) + rest));
    }
  }

  // ---------- The canonical form ----------

  lemma DumpsIsOrdered(v: Json)
    ensures KeysInOrder(Dumps(v)) && LowerEscapes(Dumps(v))
  {
    hide Dumps, Print, TreeOf, ParseValue, LowerEscapes, InOrder;
    ReadsDumps(v, "");
    TreeIsTidy(v);
    assert Dumps(v) + "" == Dumps(v);
    NoEscapes();
    LowerPrinted(TreeOf(v), "");
  }

  lemma NoEscapes()
    ensures LowerEscapes("")
  {
  }

  /** The printed form of a value is the one text that loads to it, lists the keys of every object in strictly
      increasing order, writes its escapes in lower case and has no shorter equivalent. */
  lemma CanonicalText(text: string, v: Json)
    ensures text == Dumps(v) <==>
            Loads(text) == Some(v) && KeysInOrder(text) && LowerEscapes(text) && Shortest(text)
  {
    hide Dumps, Print, InOrder, LowerEscapes, Consumes, ParseValue;
    LoadsDumps(v);
    DumpsIsOrdered(v);
    DumpsIsShortest(v);
    if Loads(text) == Some(v) && KeysInOrder(text) && LowerEscapes(text) && Shortest(text) {
      var t := Read(text).value;
      ConsumesText(text);
      OrderedPrint(t);
      AtLeast(text, Print(t), "");
    }
  }

  /** So a content identifier is the digest of any bytes that are the UTF-8 form of such a text. */
  lemma ContentIdHashesCanonicalText(digest: Documents.Digest, bytes: Bytes, text: string, v: Json)
    requires Decode(bytes) == Some(text) && Loads(text) == Some(v)
    requires KeysInOrder(text) && LowerEscapes(text) && Shortest(text)
    ensures CanonicalJson(v) == bytes && Documents.ContentId(digest, v) == "sha256:" + digest(bytes)
  {
    hide Dumps, Loads, KeysInOrder, LowerEscapes, Shortest, Decode, Encode;
    CanonicalText(text, v);
    EncodeDecoded(bytes);
  }
}
