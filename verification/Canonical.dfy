/** The canonical bytes of a document, and the proof that parsing undoes printing. */
module Canonical {
  import opened Json
  import opened Text
  import opened JsonText
  import opened Utf8

  // ---------- Numbers ----------

  lemma {:induction false} DecimalValue(n: nat)
    ensures AllDigits(DecimalNat(n)) && NatOf(DecimalNat(n)) == n
    ensures DecimalNat(n)[0] == '0' <==> n == 0
    ensures n == 0 ==> DecimalNat(n) == "0"
  {
    if n >= 10 {
      DecimalValue(n / 10);
      var s := DecimalNat(n);
      assert s[..|s| - 1] == DecimalNat(n / 10);
    } else {
      assert NatOf(DecimalNat(n)[..0]) == 0;
    }
  }

  lemma {:induction false} DigitsOfPrefix(d: string, rest: string)
    requires AllDigits(d) && (rest == "" || !IsDigit(rest[0]))
    ensures Digits(d + rest) == d
  {
    if d == "" {
      assert d + rest == rest;
    } else {
      DigitsOfPrefix(d[1..], rest);
      assert (d + rest)[1..] == d[1..] + rest;
      assert d == [d[0]] + d[1..];
    }
  }

  /** No number continues into `rest`. */
  predicate Stops(rest: string) {
    rest == "" || (!IsDigit(rest[0]) && !Floats(rest))
  }

  lemma ParsePrintedNat(n: nat, rest: string)
    requires Stops(rest)
    ensures ParseNat(DecimalNat(n) + rest) == Done(n, rest)
    ensures IsDigit(DecimalNat(n)[0])
  {
    var d := DecimalNat(n);
    DecimalValue(n);
    DigitsOfPrefix(d, rest);
    assert (d + rest)[|d|..] == rest;
  }

  lemma ParsePrintedNumber(n: int, rest: string)
    requires Stops(rest)
    ensures ParseNumber(Decimal(n) + rest) == Done(Num(n), rest)
    ensures var c := Decimal(n)[0]; IsDigit(c) || c == '-'
  {
    hide ParseNat, DecimalNat;
    if n < 0 {
      ParsePrintedNat(-n, rest);
      assert (Decimal(n) + rest)[1..] == DecimalNat(-n) + rest;
    } else {
      ParsePrintedNat(n, rest);
    }
  }

  // ---------- Strings ----------

  lemma ParseControlChar(n: nat, t: string)
    requires n < 32
    ensures ParseUnicode("00" + [HexDigit(n / 16), HexDigit(n % 16)] + t) == Done(n as char, t)
  {
    var s := "00" + [HexDigit(n / 16), HexDigit(n % 16)] + t;
    assert s[0] == '0' && s[1] == '0' && s[2] == HexDigit(n / 16) && s[3] == HexDigit(n % 16);
    assert HexValue(s[2]) == n / 16 && HexValue(s[3]) == n % 16;
    assert s[4..] == t;
  }

  lemma ParseEscapedChar(c: char, t: string)
    requires EscapeChar(c)[0] == '\\'
    ensures ParseEscape(EscapeChar(c)[1..] + t) == Done(c, t)
  {
    hide ParseUnicode, HexDigit;
    var e := EscapeChar(c)[1..];
    if |e| == 1 {
      assert (e + t)[1..] == t;
    } else {
      var n := c as nat;
      ParseControlChar(n, t);
      assert (e + t)[1..] == "00" + [HexDigit(n / 16), HexDigit(n % 16)] + t;
    }
  }

  lemma EscapedOrPlain(c: char)
    ensures EscapeChar(c)[0] == '\\' || (EscapeChar(c) == [c] && c >= ' ' && c != '\"' && c != '\\')
  {
  }

  lemma {:induction false} ParseEscaped(s: string, rest: string)
    ensures ParseChars(Escape(s) + "\"" + rest) == Done(s, rest)
  {
    hide EscapeChar, ParseEscape;
    if s == "" {
      assert Escape(s) + "\"" + rest == "\"" + rest;
      assert ("\"" + rest)[1..] == rest;
    } else {
      ParseEscaped(s[1..], rest);
      var e := EscapeChar(s[0]);
      var t := Escape(s[1..]) + "\"" + rest;
      var whole := Escape(s) + "\"" + rest;
      assert whole == e + t;
      assert s == [s[0]] + s[1..];
      EscapedOrPlain(s[0]);
      if e[0] == '\\' {
        ParseEscapedChar(s[0], t);
        assert whole[1..] == e[1..] + t;
      } else {
        assert whole[1..] == t;
      }
    }
  }

  lemma ParseQuoted(s: string, rest: string)
    ensures var q := Quote(s) + rest;
            q[0] == '\"' && ParseChars(q[1..]) == Done(s, rest)
  {
    hide ParseChars, Escape;
    ParseEscaped(s, rest);
    assert (Quote(s) + rest)[1..] == Escape(s) + "\"" + rest;
  }

  // ---------- Printing in a given order ----------

  /** The compact text of a tree, with every member where the tree has it. */
  function Print(t: Tree): string
    decreases t, 1
  {
    match t
    case Leaf(v) => if v.Arr? || v.Obj? then "" else Dumps(v)
    case Items(items) => if items == [] then "[]" else "[" + PrintItems(items) + "]"
    case Members(members) => if members == [] then "{}" else "{" + PrintMembers(members) + "}"
  }

  function PrintItems(items: seq<Tree>): string
    requires items != []
    decreases items, 0
  {
    if |items| == 1 then Print(items[0]) else Print(items[0]) + "," + PrintItems(items[1..])
  }

  function PrintMember(m: Member): string
    decreases m, 2
  {
    Quote(m.key) + ":" + Print(m.tree)
  }

  function PrintMembers(members: seq<Member>): string
    requires members != []
    decreases members, 0
  {
    if |members| == 1 then PrintMember(members[0]) else PrintMember(members[0]) + "," + PrintMembers(members[1..])
  }

  /** Leaves are neither lists nor dicts. */
  predicate Proper(t: Tree)
    decreases t
  {
    match t
    case Leaf(v) => !v.Arr? && !v.Obj?
    case Items(items) => forall i :: 0 <= i < |items| ==> Proper(items[i])
    case Members(members) => forall i :: 0 <= i < |members| ==> Proper(members[i].tree)
  }

  function KeysOf(members: seq<Member>): (r: seq<string>)
    ensures |r| == |members|
  {
    seq(|members|, i requires 0 <= i < |members| => members[i].key)
  }

  /** In every object, at every depth, the keys as listed are strictly increasing. */
  predicate InOrder(t: Tree)
    decreases t
  {
    match t
    case Leaf(_) => true
    case Items(items) => forall i :: 0 <= i < |items| ==> InOrder(items[i])
    case Members(members) =>
      Ascending(KeysOf(members)) && forall i :: 0 <= i < |members| ==> InOrder(members[i].tree)
  }

  // ---------- Parsing undoes printing ----------

  lemma SkipNothing(s: string)
    requires s == "" || !IsSpace(s[0])
    ensures Skip(s) == s
  {
  }

  /** Every printed tree starts with a character that is neither space nor a closing bracket. */
  lemma FirstChar(t: Tree)
    requires Proper(t)
    ensures Print(t) != ""
    ensures var c := Print(t)[0]; !IsSpace(c) && c != ']' && c != '}'
  {
    if t.Leaf? && t.value.Num? {
      ParsePrintedNumber(t.value.n, "");
    }
  }

  lemma PrintStarts(t: Tree, rest: string)
    requires Proper(t)
    ensures var s := Print(t) + rest; s != "" && !IsSpace(s[0]) && s[0] != ']' && s[0] != '}'
  {
    hide Print, Proper;
    FirstChar(t);
  }

  lemma ItemsStart(items: seq<Tree>, rest: string)
    requires items != [] && Proper(items[0])
    ensures var s := PrintItems(items) + rest; s != "" && !IsSpace(s[0]) && s[0] != ']'
  {
    hide Print, Proper;
    PrintStarts(items[0], "");
    assert PrintItems(items)[0] == Print(items[0])[0];
  }

  lemma MembersStart(members: seq<Member>, rest: string)
    requires members != []
    ensures var s := PrintMembers(members) + rest; s != "" && s[0] == '\"'
  {
    hide Print, Escape;
  }

  lemma {:induction false} ParsePrinted(t: Tree, rest: string)
    requires Proper(t) && Stops(rest)
    ensures ParseValue(Print(t) + rest) == Done(t, rest)
    decreases t, 3
  {
    match t
    case Leaf(v) => ParsePrintedLeaf(v, rest);
    case Items(items) => ParsePrintedList(items, rest);
    case Members(members) => ParsePrintedObject(members, rest);
  }

  lemma ParsePrintedLeaf(v: Json, rest: string)
    requires !v.Arr? && !v.Obj? && Stops(rest)
    ensures ParseValue(Dumps(v) + rest) == Done(Leaf(v), rest)
  {
    hide ParseItems, ParseMembers, ParseChars, ParseNumber, Decimal, Escape;
    match v
    case Null => assert ("null" + rest)[4..] == rest;
    case Bool(b) =>
      if b {
        assert ("true" + rest)[4..] == rest;
      } else {
        assert ("false" + rest)[5..] == rest;
      }
    case Num(n) => ParsePrintedNumber(n, rest);
    case Str(t) => ParseQuoted(t, rest);
  }

  lemma {:induction false} ParsePrintedList(items: seq<Tree>, rest: string)
    requires forall i :: 0 <= i < |items| ==> Proper(items[i])
    ensures ParseValue(Print(Items(items)) + rest) == Done(Items(items), rest)
    decreases items, 2
  {
    hide ParseItems, PrintItems, ParseMembers, ParseChars, ParseNumber;
    var s := Print(Items(items)) + rest;
    if items == [] {
      SkipNothing("]" + rest);
      assert s[1..] == "]" + rest;
      assert ("]" + rest)[1..] == rest;
    } else {
      ParsePrintedItems(items, rest);
      var t := PrintItems(items) + "]" + rest;
      assert s[1..] == t;
      ItemsStart(items, "]" + rest);
      assert t == PrintItems(items) + ("]" + rest);
      SkipNothing(t);
    }
  }

  lemma {:induction false} ParsePrintedItems(items: seq<Tree>, rest: string)
    requires items != [] && forall i :: 0 <= i < |items| ==> Proper(items[i])
    ensures ParseItems(PrintItems(items) + "]" + rest) == Done(items, rest)
    decreases items, 1
  {
    hide ParseValue, Print, Skip, Proper;
    var s := PrintItems(items) + "]" + rest;
    if |items| == 1 {
      var after := "]" + rest;
      ParsePrinted(items[0], after);
      assert s == Print(items[0]) + after;
      SkipNothing(after);
      assert after[1..] == rest;
      assert items == [items[0]];
    } else {
      var more := PrintItems(items[1..]) + "]" + rest;
      var after := "," + more;
      ParsePrinted(items[0], after);
      assert s == Print(items[0]) + after;
      SkipNothing(after);
      assert after[1..] == more;
      ItemsStart(items[1..], "]" + rest);
      assert more == PrintItems(items[1..]) + ("]" + rest);
      SkipNothing(more);
      ParsePrintedItems(items[1..], rest);
      assert items == [items[0]] + items[1..];
    }
  }

  lemma {:induction false} ParsePrintedObject(members: seq<Member>, rest: string)
    requires forall i :: 0 <= i < |members| ==> Proper(members[i].tree)
    ensures ParseValue(Print(Members(members)) + rest) == Done(Members(members), rest)
    decreases members, 2
  {
    hide ParseMembers, PrintMembers, ParseNumber, ParseItems, ParseChars;
    var s := Print(Members(members)) + rest;
    if members == [] {
      SkipNothing("}" + rest);
      assert s[1..] == "}" + rest;
      assert ("}" + rest)[1..] == rest;
    } else {
      ParsePrintedMembers(members, rest);
      var t := PrintMembers(members) + "}" + rest;
      assert s[1..] == t;
      MembersStart(members, "}" + rest);
      assert t == PrintMembers(members) + ("}" + rest);
      SkipNothing(t);
    }
  }

  lemma MemberParses(s: string, key: string, value: string, tree: Tree, after: string)
    requires s != "" && s[0] == '\"' && ParseChars(s[1..]) == Done(key, ":" + value)
    requires value != "" && !IsSpace(value[0]) && ParseValue(value) == Done(tree, after)
    requires after != "" && !IsSpace(after[0])
    ensures ParseMembers(s) == ParseMemberTail(Member(key, tree), after)
  {
    hide ParseChars, ParseValue, ParseMemberTail, Skip;
    SkipNothing(":" + value);
    assert (":" + value)[1..] == value;
    SkipNothing(value);
    SkipNothing(after);
  }

  lemma ParsePrintedMember(m: Member, after: string)
    requires Proper(m.tree) && ParseValue(Print(m.tree) + after) == Done(m.tree, after)
    requires after != "" && !IsSpace(after[0])
    ensures ParseMembers(PrintMember(m) + after) == ParseMemberTail(m, after)
  {
    hide ParseChars, ParseValue, ParseMembers, ParseMemberTail, Print, Quote, Skip, IsSpace, Proper;
    var value := Print(m.tree) + after;
    var s := PrintMember(m) + after;
    assert s == Quote(m.key) + (":" + value);
    ParseQuoted(m.key, ":" + value);
    PrintStarts(m.tree, after);
    MemberParses(s, m.key, value, m.tree, after);
  }

  lemma {:induction false} ParsePrintedMembers(members: seq<Member>, rest: string)
    requires members != [] && forall i :: 0 <= i < |members| ==> Proper(members[i].tree)
    ensures ParseMembers(PrintMembers(members) + "}" + rest) == Done(members, rest)
    decreases members, 1
  {
    hide ParseMembers, ParseValue, Print, PrintMember, Skip, Proper;
    var m := members[0];
    if |members| == 1 {
      var after := "}" + rest;
      ParsePrinted(m.tree, after);
      ParsePrintedMember(m, after);
      assert PrintMembers(members) + "}" + rest == PrintMember(m) + after;
      assert after[1..] == rest;
      assert members == [m];
    } else {
      var more := PrintMembers(members[1..]) + "}" + rest;
      var after := "," + more;
      ParsePrinted(m.tree, after);
      ParsePrintedMember(m, after);
      assert PrintMembers(members) + "}" + rest == PrintMember(m) + after;
      assert after[1..] == more;
      MembersStart(members[1..], "}" + rest);
      assert more == PrintMembers(members[1..]) + ("}" + rest);
      SkipNothing(more);
      ParsePrintedMembers(members[1..], rest);
      assert members == [m] + members[1..];
    }
  }

  // ---------- The tree of a value ----------

  /** A value with its keys in order. */
  function TreeOf(v: Json): Tree
    decreases v, 1
  {
    match v
    case Arr(items) => Items(TreesOf(items))
    case Obj(fields) => Members(MembersOf(v, Sorted(fields.Keys)))
    case _ => Leaf(v)
  }

  function TreesOf(items: seq<Json>): seq<Tree>
    decreases items, 0
  {
    if items == [] then [] else [TreeOf(items[0])] + TreesOf(items[1..])
  }

  function MembersOf(v: Json, keys: seq<string>): (r: seq<Member>)
    requires v.Obj? && Elements(keys) <= v.fields.Keys
    ensures KeysOf(r) == keys
    decreases v, 0, |keys|
  {
    if keys == [] then [] else
      assert keys[0] in Elements(keys);
      assert Elements(keys[1..]) <= Elements(keys);
      [Member(keys[0], TreeOf(v.fields[keys[0]]))] + MembersOf(v, keys[1..])
  }

  /** The tree is in order and has the value. */
  lemma {:induction false} TreeIsTidy(v: Json)
    ensures Proper(TreeOf(v)) && InOrder(TreeOf(v)) && ValueOf(TreeOf(v)) == v
    decreases v, 1
  {
    match v
    case Arr(items) => TreesAreTidy(items);
    case Obj(fields) =>
      MembersAreTidy(v, Sorted(fields.Keys));
      assert Selected(v, Sorted(fields.Keys)) == fields;
    case _ =>
  }

  lemma {:induction false} TreesAreTidy(items: seq<Json>)
    ensures var trees := TreesOf(items);
            (forall i :: 0 <= i < |trees| ==> Proper(trees[i]) && InOrder(trees[i])) && ValuesOf(trees) == items
    decreases items, 0
  {
    hide TreeOf, ValueOf, Proper, InOrder;
    if items != [] {
      TreeIsTidy(items[0]);
      TreesAreTidy(items[1..]);
      var trees := TreesOf(items);
      assert trees[0] == TreeOf(items[0]) && trees[1..] == TreesOf(items[1..]);
      assert items == [items[0]] + items[1..];
    }
  }

  ghost function Selected(v: Json, keys: seq<string>): map<string, Json>
    requires v.Obj? && Elements(keys) <= v.fields.Keys
  {
    map k | k in Elements(keys) :: v.fields[k]
  }

  lemma SelectedMore(v: Json, keys: seq<string>)
    requires v.Obj? && keys != [] && Elements(keys) <= v.fields.Keys
    ensures keys[0] in v.fields && Elements(keys[1..]) <= v.fields.Keys
    ensures Selected(v, keys) == map[keys[0] := v.fields[keys[0]]] + Selected(v, keys[1..])
  {
    assert keys[0] in Elements(keys);
    assert Elements(keys) == {keys[0]} + Elements(keys[1..]);
  }

  lemma {:induction false} MembersAreTidy(v: Json, keys: seq<string>)
    requires v.Obj? && Elements(keys) <= v.fields.Keys
    ensures var members := MembersOf(v, keys);
            && (forall i :: 0 <= i < |members| ==> Proper(members[i].tree) && InOrder(members[i].tree))
            && FieldsOf(members) == Selected(v, keys)
    decreases v, 0, |keys|
  {
    hide TreeOf, ValueOf, Proper, InOrder, Elements;
    if keys == [] {
      NothingSelected(v);
    } else {
      hide Selected;
      SelectedMore(v, keys);
      TreeIsTidy(v.fields[keys[0]]);
      MembersAreTidy(v, keys[1..]);
      var members := MembersOf(v, keys);
      assert members[0] == Member(keys[0], TreeOf(v.fields[keys[0]])) && members[1..] == MembersOf(v, keys[1..]);
    }
  }

  lemma NothingSelected(v: Json)
    requires v.Obj?
    ensures Elements<string>([]) == {} && Selected(v, []) == map[]
  {
  }

  // ---------- A tree in order prints as its value ----------

  lemma {:induction false} OrderedPrint(t: Tree)
    requires Proper(t) && InOrder(t)
    ensures Print(t) == Dumps(ValueOf(t))
    decreases t, 2
  {
    hide PrintItems, PrintMembers, DumpItems, DumpMembers, Sorted, Ascending;
    match t
    case Leaf(_) =>
    case Items(items) =>
      if items != [] {
        OrderedItems(items);
      }
    case Members(members) =>
      OrderedFields(members);
      SortedUnique(KeysOf(members));
      if members != [] {
        OrderedMembers(Obj(FieldsOf(members)), members);
        assert members[0].key in FieldsOf(members);
      }
  }

  lemma {:induction false} OrderedItems(items: seq<Tree>)
    requires items != [] && forall i :: 0 <= i < |items| ==> Proper(items[i]) && InOrder(items[i])
    ensures ValuesOf(items) != [] && PrintItems(items) == DumpItems(ValuesOf(items))
    decreases items, 1
  {
    hide Print, Dumps, Proper, InOrder, ValueOf;
    OrderedPrint(items[0]);
    assert ValuesOf(items)[1..] == ValuesOf(items[1..]);
    if |items| > 1 {
      OrderedItems(items[1..]);
    }
  }

  /** Without repeated keys each member is the value of its key. */
  lemma {:induction false} OrderedFields(members: seq<Member>)
    requires Ascending(KeysOf(members))
    ensures FieldsOf(members).Keys == Elements(KeysOf(members))
    ensures forall i :: 0 <= i < |members| ==>
              members[i].key in FieldsOf(members) && FieldsOf(members)[members[i].key] == ValueOf(members[i].tree)
    decreases |members|
  {
    hide ValueOf, Ascending;
    if members != [] {
      var more := members[1..];
      assert KeysOf(members)[1..] == KeysOf(more) && KeysOf(members)[0] == members[0].key;
      HeadIsLeast(KeysOf(members));
      OrderedFields(more);
      assert Elements(KeysOf(members)) == {members[0].key} + Elements(KeysOf(more));
      forall i | 0 <= i < |members|
        ensures members[i].key in FieldsOf(members)
        ensures FieldsOf(members)[members[i].key] == ValueOf(members[i].tree)
      {
        if i > 0 {
          assert members[i] == more[i - 1];
        }
      }
    }
  }

  lemma {:induction false} OrderedMembers(v: Json, members: seq<Member>)
    requires v.Obj? && members != []
    requires forall i :: 0 <= i < |members| ==> Proper(members[i].tree) && InOrder(members[i].tree)
    requires forall i :: 0 <= i < |members| ==>
               members[i].key in v.fields && v.fields[members[i].key] == ValueOf(members[i].tree)
    ensures Elements(KeysOf(members)) <= v.fields.Keys
    ensures PrintMembers(members) == DumpMembers(v, KeysOf(members))
    decreases members, 1
  {
    hide Print, Dumps, Proper, InOrder, ValueOf, Quote;
    OrderedPrint(members[0].tree);
    assert KeysOf(members)[1..] == KeysOf(members[1..]);
    if |members| > 1 {
      OrderedMembers(v, members[1..]);
    }
  }

  /** The printed form of a value reads as its tree. */
  lemma ReadsDumps(v: Json, rest: string)
    requires Stops(rest)
    ensures Dumps(v) == Print(TreeOf(v)) && ParseValue(Dumps(v) + rest) == Done(TreeOf(v), rest)
    ensures Skip(Dumps(v) + rest) == Dumps(v) + rest
  {
    TreeIsTidy(v);
    OrderedPrint(TreeOf(v));
    ParsePrinted(TreeOf(v), rest);
    PrintStarts(TreeOf(v), rest);
    SkipNothing(Dumps(v) + rest);
  }

  /** `json.loads(json.dumps(v)) == v`. */
  lemma LoadsDumps(v: Json)
    ensures Loads(Dumps(v)) == Some(v)
  {
    hide Dumps, ParseValue, TreeOf, Print;
    ReadsDumps(v, "");
    TreeIsTidy(v);
    assert Dumps(v) + "" == Dumps(v);
  }

  // ---------- Canonical bytes ----------

  /** `canonical_json`. */
  function CanonicalJson(v: Json): Bytes {
    Encode(Dumps(v))
  }

  /** Reading back canonical bytes, also with the newline that a backup inventory ends with. */
  lemma ReadCanonical(v: Json)
    ensures Decode(CanonicalJson(v)) == Some(Dumps(v))
    ensures Loads(Dumps(v)) == Some(v)
    ensures Decode(CanonicalJson(v) + [10]) == Some(Dumps(v) + "\n")
    ensures Loads(Dumps(v) + "\n") == Some(v)
  {
    DecodeEncoded(Dumps(v));
    LoadsDumps(v);
    EncodeAppend(Dumps(v), "\n");
    DecodeEncoded(Dumps(v) + "\n");
    assert Encode("\n") == [10];
    ReadsDumps(v, "\n");
    TreeIsTidy(v);
  }

  lemma {:induction false} EncodeAppend(s: string, t: string)
    ensures Encode(s + t) == Encode(s) + Encode(t)
  {
    hide EncodeChar;
    if s == "" {
      assert s + t == t;
    } else {
      EncodeAppend(s[1..], t);
      assert (s + t)[1..] == s[1..] + t;
    }
  }

  /** Two documents with the same canonical bytes are equal, whatever order their keys were written in. */
  lemma CanonicalInjective(v: Json, w: Json)
    ensures CanonicalJson(v) == CanonicalJson(w) <==> v == w
  {
    if CanonicalJson(v) == CanonicalJson(w) {
      EncodeInjective(Dumps(v), Dumps(w));
      LoadsDumps(v);
      LoadsDumps(w);
    }
  }
}
