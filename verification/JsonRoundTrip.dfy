/** What was printed is what is read, in either layout. */
module JsonRoundTrip {
  import opened Wrappers
  import opened Json

  lemma DigitValue(d: nat)
    requires d < 10
    ensures IsDigit(Digit(d)) && Digit(d) as int - '0' as int == d && (Digit(d) == '0' <==> d == 0)
  {
  }

  lemma DigitStep(acc: nat, d: nat, t: string)
    requires d < 10
    ensures ParseDigits(acc, [Digit(d)] + t) == ParseDigits(10 * acc + d, t)
  {
    DigitValue(d);
    hide Digit;
    assert ([Digit(d)] + t)[1..] == t;
  }

  lemma {:induction false} DigitsRoundTrip(n: nat, t: string)
    ensures Decimal(n) != "" && IsDigit(Decimal(n)[0])
    ensures Decimal(n)[0] == '0' <==> n == 0
    ensures n == 0 ==> Decimal(n) == "0"
    ensures ParseDigits(0, Decimal(n) + t) == ParseDigits(n, t)
  {
    hide Digit, ParseDigits;
    DigitValue(n % 10);
    DigitStep(n / 10, n % 10, t);
    if n < 10 {
    } else {
      var d := [Digit(n % 10)];
      DigitsRoundTrip(n / 10, d + t);
      assert Decimal(n) + t == Decimal(n / 10) + (d + t);
    }
  }

  lemma NaturalRoundTrip(n: nat, t: string)
    requires NumberEnds(t)
    ensures ParseNatural(Decimal(n) + t) == Good(n, t)
  {
    DigitsRoundTrip(n, t);
    if n == 0 {
      assert ("0" + t)[1..] == t;
    }
  }

  lemma IntRoundTrip(n: int, t: string)
    requires NumberEnds(t)
    ensures ParseInt(PrintInt(n) + t) == Good(n, t)
  {
    if n < 0 {
      NaturalRoundTrip(-n, t);
      assert ("-" + Decimal(-n) + t)[1..] == Decimal(-n) + t;
    } else {
      NaturalRoundTrip(n, t);
      DigitsRoundTrip(n, t);
    }
  }

  lemma HexDigits(d: nat)
    requires d < 16
    ensures HexValue(HEX[d]) == Some(d)
  {
  }

  /** A control character in its six-character form, after the backslash. */
  lemma UnicodeRoundTrip(c: char, t: string)
    requires c < 32 as char
    ensures ParseUnicode("00" + [HEX[c as int / 16], HEX[c as int % 16]] + t) == Good([c], t)
  {
    var hi, lo := c as int / 16, c as int % 16;
    HexDigits(0);
    HexDigits(hi);
    HexDigits(lo);
    assert HEX[0] == '0';
    hide HexValue, HEX;
    var s := "00" + [HEX[hi], HEX[lo]] + t;
    assert s[0] == '0' && s[1] == '0' && s[2] == HEX[hi] && s[3] == HEX[lo] && s[4..] == t;
    assert 16 * hi + lo == c as int;
  }

  lemma AfterU(x: string, t: string)
    ensures ParseEscape(("\\u00" + x)[1..] + t) == ParseUnicode("00" + x + t)
  {
    hide ParseUnicode;
    var e := ("\\u00" + x)[1..] + t;
    assert e[0] == 'u' && e[1..] == "00" + x + t;
  }

  lemma EscapeRoundTrip(c: char, t: string)
    requires EscapeChar(c) != [c]
    ensures EscapeChar(c)[0] == '\\'
    ensures ParseEscape(EscapeChar(c)[1..] + t) == Good([c], t)
  {
    assert |HEX| == 16;
    hide ParseUnicode, HEX;
    if |EscapeChar(c)| == 2 {
      assert (EscapeChar(c)[1..] + t)[1..] == t;
    } else {
      var x := [HEX[c as int / 16], HEX[c as int % 16]];
      assert EscapeChar(c) == "\\u00" + x;
      hide ParseEscape, EscapeChar;
      UnicodeRoundTrip(c, t);
      AfterU(x, t);
    }
  }

  lemma EscapeShape(c: char)
    ensures EscapeChar(c) != ""
    ensures EscapeChar(c) == [c] ==> c != '\\' && c != '\"' && c >= 32 as char
  {
  }

  /** One escaped character in front of a string that reads as `x`. */
  lemma EscapeStep(c: char, tail: string, x: string, t: string)
    requires ParseText(tail) == Good(x, t)
    ensures ParseText(EscapeChar(c) + tail) == Good([c] + x, t)
  {
    hide EscapeChar, HEX, ParseEscape;
    EscapeShape(c);
    var all := EscapeChar(c) + tail;
    if EscapeChar(c) == [c] {
      assert all[1..] == tail;
    } else {
      EscapeRoundTrip(c, tail);
      assert all[1..] == EscapeChar(c)[1..] + tail;
    }
  }

  lemma TextEnds(t: string)
    ensures ParseText("\"" + t) == Good("", t)
  {
    assert ("\"" + t)[1..] == t;
  }

  lemma {:induction false} TextRoundTrip(s: string, t: string)
    ensures ParseText(EscapeText(s) + ("\"" + t)) == Good(s, t)
  {
    hide EscapeChar, ParseText;
    if s == "" {
      assert EscapeText(s) + ("\"" + t) == "\"" + t;
      TextEnds(t);
    } else {
      var tail := EscapeText(s[1..]) + ("\"" + t);
      TextRoundTrip(s[1..], t);
      EscapeStep(s[0], tail, s[1..], t);
      assert EscapeText(s) + ("\"" + t) == EscapeChar(s[0]) + tail;
      assert [s[0]] + s[1..] == s;
    }
  }

  lemma NoSpace(s: string)
    requires s != "" && !IsSpace(s[0])
    ensures SkipSpace(s) == s
  {
  }

  lemma {:induction false} SkipSpaces(n: nat, t: string)
    ensures SkipSpace(Spaces(n) + t) == SkipSpace(t)
  {
    if n == 0 {
      assert Spaces(0) + t == t;
    } else {
      SkipSpaces(n - 1, t);
      assert (Spaces(n) + t)[1..] == Spaces(n - 1) + t;
    }
  }

  lemma SkipBreak(l: Layout, t: string)
    ensures SkipSpace(Break(l) + t) == SkipSpace(t)
  {
    if l.Compact? {
      assert "" + t == t;
    } else {
      SkipSpaces(2 * l.depth, t);
      assert (Break(l) + t)[1..] == Spaces(2 * l.depth) + t;
    }
  }

  /** Concatenation of five pieces, regrouped to the right. */
  lemma Regroup(a: string, b: string, c: string, d: string, e: string)
    ensures a + b + c + d + e == a + (b + (c + (d + e)))
  {
  }

  lemma FourPieces(a: string, b: string, c: string, d: string)
    ensures a + b + c + d == a + (b + (c + d))
    ensures b != "" ==> (b + (c + d))[0] == b[0]
  {
  }

  lemma KeyStep(s: string, u: string, key: string, a: string, t: string)
    requires SkipSpace(s) == "\"" + u && ParseText(u) == Good(key, a) && SkipSpace(a) == ":" + t
    ensures ParseKey(s) == Good(key, t)
  {
    hide ParseText, SkipSpace;
    assert ("\"" + u)[1..] == u;
    assert (":" + t)[1..] == t;
  }

  lemma KeyRoundTrip(key: string, l: Layout, t: string)
    ensures ParseKey(Break(l) + (PrintText(key) + (Colon(l) + t)))
         == Good(key, if l.Compact? then t else " " + t)
  {
    var u := EscapeText(key) + ("\"" + (Colon(l) + t));
    var after := if l.Compact? then t else " " + t;
    TextRoundTrip(key, Colon(l) + t);
    hide EscapeText, ParseText, Break, ParseKey;
    assert PrintText(key) + (Colon(l) + t) == "\"" + u;
    SkipBreak(l, "\"" + u);
    assert SkipSpace("\"" + u) == "\"" + u;
    assert Colon(l) + t == ":" + after;
    assert SkipSpace(":" + after) == ":" + after;
    KeyStep(Break(l) + ("\"" + u), u, key, Colon(l) + t, after);
  }

  lemma ParseValueSkips(a: string, b: string)
    requires SkipSpace(a) == SkipSpace(b)
    ensures ParseValue(a) == ParseValue(b)
  {
  }

  /** No printed value begins with white space or a closing bracket. */
  lemma PrintStarts(v: Json, l: Layout)
    ensures Print(v, l) != "" && !IsSpace(Print(v, l)[0]) && Print(v, l)[0] !in "]},"
    ensures v.Number? ==> IsDigit(Print(v, l)[0]) || Print(v, l)[0] == '-'
  {
    if v.Number? {
      DigitsRoundTrip(if v.n < 0 then -v.n else v.n, "");
    }
  }

  /** A printed value behind white space of its own. */
  lemma SpacedValue(space: string, v: Json, l: Layout, t: string)
    requires space == "" || space == " " || space == Break(l)
    requires ParseValue(Print(v, l) + t) == Good(v, t)
    ensures ParseValue(space + (Print(v, l) + t)) == Good(v, t)
  {
    hide Print, ParseItems, ParseMembers, ParseText, ParseInt, ParseWord;
    var s := Print(v, l) + t;
    if space == Break(l) {
      SkipBreak(l, s);
    } else if space == " " {
      assert (" " + s)[1..] == s;
    } else {
      assert "" + s == s;
    }
    ParseValueSkips(space + s, s);
  }

  // ------------------------------------------- one step of each list reader

  lemma LastItem(s: string, v: Json, b: string, t: string)
    requires ParseValue(s) == Good(v, b) && SkipSpace(b) == "]" + t
    ensures ParseItems(s) == Good([v], t)
  {
    hide ParseValue;
    assert ("]" + t)[1..] == t;
  }

  lemma NextItem(s: string, v: Json, c: string, more: seq<Json>, t: string)
    requires ParseValue(s) == Good(v, "," + c) && ParseItems(c) == Good(more, t)
    ensures ParseItems(s) == Good([v] + more, t)
  {
    hide ParseValue;
    assert SkipSpace("," + c) == "," + c;
    assert ("," + c)[1..] == c;
  }

  lemma LastMember(s: string, key: string, a: string, v: Json, b: string, t: string)
    requires ParseKey(s) == Good(key, a) && ParseValue(a) == Good(v, b) && SkipSpace(b) == "}" + t
    ensures ParseMembers(s) == Good([Member(key, v)], t)
  {
    hide ParseValue, ParseKey;
    assert ("}" + t)[1..] == t;
  }

  lemma NextMember(s: string, key: string, a: string, v: Json, c: string, more: seq<Member>, t: string)
    requires ParseKey(s) == Good(key, a) && ParseValue(a) == Good(v, "," + c) && ParseMembers(c) == Good(more, t)
    ensures ParseMembers(s) == Good([Member(key, v)] + more, t)
  {
    hide ParseValue, ParseKey;
    assert SkipSpace("," + c) == "," + c;
    assert ("," + c)[1..] == c;
  }

  lemma ClosesAfterBreak(l: Layout, bracket: string, t: string)
    requires bracket == "]" || bracket == "}"
    ensures SkipSpace(Break(l) + (bracket + t)) == bracket + t
    ensures NumberEnds(Break(l) + (bracket + t))
  {
    SkipBreak(l, bracket + t);
  }

  // ------------------------------------------- the round trip itself

  lemma {:induction false} ItemsRoundTrip(items: seq<Json>, outer: Layout, t: string)
    requires items != []
    ensures ParseItems(PrintItems(items, Deeper(outer)) + (Break(outer) + ("]" + t))) == Good(items, t)
    decreases items, 0
  {
    hide ParseValue, ParseItems, Print, Break, SkipSpace;
    var l := Deeper(outer);
    var v := items[0];
    var end := Break(outer) + ("]" + t);
    ClosesAfterBreak(outer, "]", t);
    if |items| == 1 {
      assert PrintItems(items, l) + end == Break(l) + (Print(v, l) + end);
      ValueRoundTrip(v, l, end);
      SpacedValue(Break(l), v, l, end);
      LastItem(Break(l) + (Print(v, l) + end), v, end, t);
      assert items == [v];
    } else {
      var c := PrintItems(items[1..], l) + end;
      assert PrintItems(items, l) + end == Break(l) + (Print(v, l) + ("," + c));
      ValueRoundTrip(v, l, "," + c);
      SpacedValue(Break(l), v, l, "," + c);
      ItemsRoundTrip(items[1..], outer, t);
      NextItem(Break(l) + (Print(v, l) + ("," + c)), v, c, items[1..], t);
      assert items == [v] + items[1..];
    }
  }

  lemma {:induction false} MembersRoundTrip(members: seq<Member>, outer: Layout, t: string)
    requires members != []
    ensures ParseMembers(PrintMembers(members, Deeper(outer)) + (Break(outer) + ("}" + t))) == Good(members, t)
    decreases members, 0
  {
    hide ParseValue, ParseKey, ParseMembers, Print, PrintText, Break, SkipSpace, Colon;
    var l := Deeper(outer);
    var m := members[0];
    var v := m.value;
    var end := Break(outer) + ("}" + t);
    var space := if l.Compact? then "" else " ";
    ClosesAfterBreak(outer, "}", t);
    if |members| == 1 {
      Regroup(Break(l), PrintText(m.key), Colon(l), Print(v, l), end);
      assert PrintMembers(members, l) + end == Break(l) + PrintText(m.key) + Colon(l) + Print(v, l) + end;
      KeyRoundTrip(m.key, l, Print(v, l) + end);
      ValueRoundTrip(v, l, end);
      SpacedValue(space, v, l, end);
      assert "" + (Print(v, l) + end) == Print(v, l) + end;
      LastMember(PrintMembers(members, l) + end, m.key, space + (Print(v, l) + end), v, end, t);
      assert members == [m];
    } else {
      var c := PrintMembers(members[1..], l) + end;
      Regroup(Break(l), PrintText(m.key), Colon(l), Print(v, l), "," + c);
      assert PrintMembers(members, l) + end == Break(l) + PrintText(m.key) + Colon(l) + Print(v, l) + ("," + c);
      KeyRoundTrip(m.key, l, Print(v, l) + ("," + c));
      ValueRoundTrip(v, l, "," + c);
      SpacedValue(space, v, l, "," + c);
      assert "" + (Print(v, l) + ("," + c)) == Print(v, l) + ("," + c);
      MembersRoundTrip(members[1..], outer, t);
      NextMember(PrintMembers(members, l) + end, m.key, space + (Print(v, l) + ("," + c)), v, c, members[1..], t);
      assert members == [m] + members[1..];
    }
  }

  /** The reader does not mistake a printed list for an empty one. */
  lemma ItemsStart(items: seq<Json>, l: Layout, t: string)
    requires items != []
    ensures var u := SkipSpace(PrintItems(items, l) + t); u != "" && u[0] != ']'
  {
    hide Print, Break, SkipSpace, IsSpace, IsDigit;
    PrintStarts(items[0], l);
    var first, more := Print(items[0], l), if |items| == 1 then "" else "," + PrintItems(items[1..], l);
    assert PrintItems(items, l) + t == Break(l) + first + more + t;
    hide PrintItems;
    FourPieces(Break(l), first, more, t);
    SkipBreak(l, first + (more + t));
    NoSpace(first + (more + t));
  }

  lemma MembersStart(members: seq<Member>, l: Layout, t: string)
    requires members != []
    ensures var u := SkipSpace(PrintMembers(members, l) + t); u != "" && u[0] != '}'
  {
    hide Print, Break, EscapeText, SkipSpace;
    var m := members[0];
    var more := if |members| == 1 then "" else "," + PrintMembers(members[1..], l);
    var s := PrintText(m.key) + (Colon(l) + (Print(m.value, l) + (more + t)));
    SkipBreak(l, s);
    Regroup(Break(l), PrintText(m.key), Colon(l), Print(m.value, l), more + t);
    assert PrintMembers(members, l) + t
        == Break(l) + PrintText(m.key) + Colon(l) + Print(m.value, l) + (more + t);
    assert s[0] == '\"';
    NoSpace(s);
  }

  lemma ParsesArray(items: seq<Json>, u: string, t: string)
    requires ParseItems(u) == Good(items, t)
    requires SkipSpace(u) != "" && SkipSpace(u)[0] != ']'
    ensures ParseValue("[" + u) == Good(Array(items), t)
  {
    hide ParseItems;
    assert SkipSpace("[" + u) == "[" + u;
    assert ("[" + u)[1..] == u;
  }

  lemma ParsesObject(members: seq<Member>, u: string, t: string)
    requires ParseMembers(u) == Good(members, t)
    requires SkipSpace(u) != "" && SkipSpace(u)[0] != '}'
    ensures ParseValue("{" + u) == Good(Object(members), t)
  {
    hide ParseMembers;
    assert SkipSpace("{" + u) == "{" + u;
    assert ("{" + u)[1..] == u;
  }

  lemma ScalarRoundTrip(v: Json, l: Layout, t: string)
    requires !v.Array? && !v.Object?
    requires v.Number? ==> NumberEnds(t)
    ensures ParseValue(Print(v, l) + t) == Good(v, t)
  {
    PrintStarts(v, l);
    hide ParseInt, ParseText, EscapeText, PrintInt, Decimal, IsDigit;
    var s := Print(v, l) + t;
    assert SkipSpace(s) == s;
    match v
    case Null => assert s[4..] == t && "null" <= s;
    case Bool(b) =>
      if b { assert s[4..] == t && "true" <= s; } else { assert s[5..] == t && "false" <= s; }
    case Number(n) => IntRoundTrip(n, t); NumberStart(s[0]);
    case String(x) =>
      TextRoundTrip(x, t);
      assert s[1..] == EscapeText(x) + ("\"" + t);
  }

  lemma NumberStart(c: char)
    requires IsDigit(c) || c == '-'
    ensures c !in "ntf\"[{"
  {
  }

  lemma {:induction false} ValueRoundTrip(v: Json, l: Layout, t: string)
    requires v.Number? ==> NumberEnds(t)
    ensures ParseValue(Print(v, l) + t) == Good(v, t)
    decreases v, 1
  {
    hide ParseValue, ParseItems, ParseMembers, PrintItems, PrintMembers, Break, Deeper, SkipSpace;
    if v.Array? && v.items != [] {
      var u := PrintItems(v.items, Deeper(l)) + (Break(l) + ("]" + t));
      ItemsRoundTrip(v.items, l, t);
      ItemsStart(v.items, Deeper(l), Break(l) + ("]" + t));
      ParsesArray(v.items, u, t);
      assert Print(v, l) + t == "[" + u;
    } else if v.Object? && v.members != [] {
      var u := PrintMembers(v.members, Deeper(l)) + (Break(l) + ("}" + t));
      MembersRoundTrip(v.members, l, t);
      MembersStart(v.members, Deeper(l), Break(l) + ("}" + t));
      ParsesObject(v.members, u, t);
      assert Print(v, l) + t == "{" + u;
    } else if v.Array? || v.Object? {
      EmptyRoundTrip(v, l, t);
    } else {
      ScalarRoundTrip(v, l, t);
    }
  }

  lemma EmptyRoundTrip(v: Json, l: Layout, t: string)
    requires v == Array([]) || v == Object([])
    ensures ParseValue(Print(v, l) + t) == Good(v, t)
  {
    hide ParseItems, ParseMembers;
    var s := Print(v, l) + t;
    assert SkipSpace(s) == s;
    assert SkipSpace(s[1..]) == s[1..];
    assert s[1..][1..] == t;
  }

  /** Reading what was printed gives the document back, in both layouts and with a final newline or without. */
  lemma DocumentRoundTrip(v: Json, l: Layout)
    ensures ParseDocument(Print(v, l)) == Some(v)
    ensures ParseDocument(Print(v, l) + "\n") == Some(v)
  {
    ValueRoundTrip(v, l, "");
    assert Print(v, l) + "" == Print(v, l);
    ValueRoundTrip(v, l, "\n");
    assert "\n"[1..] == "";
  }

  /** Two documents with the same bytes are the same document. */
  lemma PrintInjective(v: Json, w: Json, l: Layout)
    requires Print(v, l) == Print(w, l)
    ensures v == w
  {
    DocumentRoundTrip(v, l);
    DocumentRoundTrip(w, l);
  }
}
