/** The UTF-8 check behind `read_to_string` (section 4 of RFC 3629), and that printing passes it. */
module Utf8 {
  import opened Json

  predicate Between(s: string, i: nat, lo: int, hi: int) {
    i < |s| && lo <= s[i] as int <= hi
  }

  predicate Tail(s: string, i: nat) {
    Between(s, i, 0x80, 0xBF)
  }

  /** The second byte that may follow the first byte of a three- or four-byte scalar value. */
  predicate SecondByte(s: string) {
    if Between(s, 0, 0xE0, 0xE0) then Between(s, 1, 0xA0, 0xBF)
    else if Between(s, 0, 0xED, 0xED) then Between(s, 1, 0x80, 0x9F)
    else if Between(s, 0, 0xF0, 0xF0) then Between(s, 1, 0x90, 0xBF)
    else if Between(s, 0, 0xF4, 0xF4) then Between(s, 1, 0x80, 0x8F)
    else Tail(s, 1)
  }

  /** The number of bytes of the scalar value at the front, or zero if there is none. */
  function ScalarLength(s: string): (n: nat)
    ensures n <= |s|
  {
    if Between(s, 0, 0, 0x7F) then 1
    else if Between(s, 0, 0xC2, 0xDF) && Tail(s, 1) then 2
    else if Between(s, 0, 0xE0, 0xEF) && SecondByte(s) && Tail(s, 2) then 3
    else if Between(s, 0, 0xF0, 0xF4) && SecondByte(s) && Tail(s, 2) && Tail(s, 3) then 4
    else 0
  }

  predicate Utf8Valid(s: string) {
    s == "" || (ScalarLength(s) > 0 && Utf8Valid(s[ScalarLength(s)..]))
  }

  lemma ScalarExtend(a: string, b: string)
    requires ScalarLength(a) > 0
    ensures ScalarLength(a + b) == ScalarLength(a)
  {
  }

  lemma {:induction false} ConcatValid(a: string, b: string)
    requires Utf8Valid(a) && Utf8Valid(b)
    ensures Utf8Valid(a + b)
  {
    hide ScalarLength;
    if a == "" {
      assert a + b == b;
    } else {
      var n := ScalarLength(a);
      ScalarExtend(a, b);
      ConcatValid(a[n..], b);
      assert (a + b)[n..] == a[n..] + b;
    }
  }

  predicate Ascii(s: string) {
    forall i | 0 <= i < |s| :: s[i] < 128 as char
  }

  lemma {:induction false} AsciiValid(s: string)
    requires Ascii(s)
    ensures Utf8Valid(s)
  {
    if s != "" {
      AsciiValid(s[1..]);
    }
  }

  lemma EscapeAscii(c: char)
    requires c < 128 as char
    ensures Ascii(EscapeChar(c))
  {
  }

  lemma EscapeHigh(c: char)
    requires c >= 128 as char
    ensures EscapeChar(c) == [c]
  {
  }

  lemma {:induction false} EscapeHighRun(s: string, n: nat)
    requires n <= |s| && forall i | 0 <= i < n :: s[i] >= 128 as char
    ensures EscapeText(s) == s[..n] + EscapeText(s[n..])
  {
    hide EscapeChar;
    if n == 0 {
      assert s[..0] + EscapeText(s[0..]) == EscapeText(s);
    } else {
      EscapeHigh(s[0]);
      EscapeHighRun(s[1..], n - 1);
      assert s[1..][n - 1..] == s[n..];
      assert [s[0]] + s[1..][..n - 1] == s[..n];
    }
  }

  /** The bytes of a scalar value longer than one byte, on their own. */
  lemma WideScalar(s: string)
    requires ScalarLength(s) > 1
    ensures forall i | 0 <= i < ScalarLength(s) :: s[i] >= 128 as char
    ensures Utf8Valid(s[..ScalarLength(s)])
  {
    var t := s[..ScalarLength(s)];
    assert ScalarLength(t) == ScalarLength(s);
    assert t[|t|..] == "";
  }

  lemma NarrowScalar(s: string)
    requires ScalarLength(s) == 1
    ensures s[0] < 128 as char
  {
  }

  lemma {:induction false} EscapeValid(s: string)
    requires Utf8Valid(s)
    ensures Utf8Valid(EscapeText(s))
    decreases |s|
  {
    hide ScalarLength, EscapeChar;
    var n := ScalarLength(s);
    if s == "" {
    } else if n == 1 {
      NarrowScalar(s);
      EscapeAscii(s[0]);
      AsciiValid(EscapeChar(s[0]));
      EscapeValid(s[1..]);
      ConcatValid(EscapeChar(s[0]), EscapeText(s[1..]));
    } else {
      WideScalar(s);
      EscapeHighRun(s, n);
      EscapeValid(s[n..]);
      ConcatValid(s[..n], EscapeText(s[n..]));
    }
  }

  /** Every text inside a document is valid UTF-8, as a Rust `String` always is. */
  predicate TextsValid(v: Json)
    decreases v, 1
  {
    match v
    case String(s) => Utf8Valid(s)
    case Array(items) => ItemsValid(items)
    case Object(members) => MembersValid(members)
    case _ => true
  }

  predicate ItemsValid(items: seq<Json>)
    decreases items, 0
  {
    items == [] || (TextsValid(items[0]) && ItemsValid(items[1..]))
  }

  predicate MembersValid(members: seq<Member>)
    decreases members, 0
  {
    members == []
    || (Utf8Valid(members[0].key) && TextsValid(members[0].value) && MembersValid(members[1..]))
  }

  lemma QuotedValid(s: string)
    requires Utf8Valid(s)
    ensures Utf8Valid(PrintText(s))
  {
    hide EscapeText;
    EscapeValid(s);
    AsciiValid("\"");
    ConcatValid("\"", EscapeText(s));
    ConcatValid("\"" + EscapeText(s), "\"");
  }

  lemma {:induction false} DecimalAscii(n: nat)
    ensures Ascii(Decimal(n))
  {
    if n >= 10 {
      DecimalAscii(n / 10);
    }
  }

  lemma LayoutAscii(l: Layout)
    ensures Utf8Valid(Break(l)) && Utf8Valid(Colon(l))
  {
    AsciiValid(Break(l));
    AsciiValid(Colon(l));
  }

  lemma WrapValid(open: string, body: string, close: string)
    requires Ascii(open) && Utf8Valid(body) && Ascii(close)
    ensures Utf8Valid(open + body + close)
  {
    AsciiValid(open);
    AsciiValid(close);
    ConcatValid(open, body);
    ConcatValid(open + body, close);
  }

  lemma BreakAscii(l: Layout)
    ensures Ascii(Break(l))
  {
  }

  lemma {:induction false} PrintValid(v: Json, l: Layout)
    requires TextsValid(v)
    ensures Utf8Valid(Print(v, l))
    decreases v, 1
  {
    hide Utf8Valid, PrintText, Decimal, PrintItems, PrintMembers, Break;
    match v
    case Null => AsciiValid("null");
    case Bool(_) =>
      AsciiValid("true");
      AsciiValid("false");
    case Number(n) =>
      DecimalAscii(if n < 0 then -n else n);
      AsciiValid(PrintInt(n));
    case String(s) => QuotedValid(s);
    case Array(items) =>
      AsciiValid("[]");
      if items != [] {
        ItemsPrintValid(items, Deeper(l));
        BreakAscii(l);
        WrapValid("[", PrintItems(items, Deeper(l)), Break(l) + "]");
        assert Print(v, l) == "[" + PrintItems(items, Deeper(l)) + (Break(l) + "]");
      }
    case Object(members) =>
      AsciiValid("{}");
      if members != [] {
        MembersPrintValid(members, Deeper(l));
        BreakAscii(l);
        WrapValid("{", PrintMembers(members, Deeper(l)), Break(l) + "}");
        assert Print(v, l) == "{" + PrintMembers(members, Deeper(l)) + (Break(l) + "}");
      }
  }

  lemma {:induction false} ItemsPrintValid(items: seq<Json>, l: Layout)
    requires items != [] && ItemsValid(items)
    ensures Utf8Valid(PrintItems(items, l))
    decreases items, 0
  {
    hide Utf8Valid, Print, Break;
    PrintValid(items[0], l);
    LayoutAscii(l);
    ConcatValid(Break(l), Print(items[0], l));
    AsciiValid("");
    AsciiValid(",");
    if |items| > 1 {
      ItemsPrintValid(items[1..], l);
      ConcatValid(",", PrintItems(items[1..], l));
    }
    ConcatValid(Break(l) + Print(items[0], l), if |items| == 1 then "" else "," + PrintItems(items[1..], l));
  }

  lemma {:induction false} MembersPrintValid(members: seq<Member>, l: Layout)
    requires members != [] && MembersValid(members)
    ensures Utf8Valid(PrintMembers(members, l))
    decreases members, 0
  {
    hide Utf8Valid, Print, PrintText, Break, Colon;
    var m := members[0];
    PrintValid(m.value, l);
    QuotedValid(m.key);
    LayoutAscii(l);
    ConcatValid(Break(l), PrintText(m.key));
    ConcatValid(Break(l) + PrintText(m.key), Colon(l));
    ConcatValid(Break(l) + PrintText(m.key) + Colon(l), Print(m.value, l));
    AsciiValid("");
    AsciiValid(",");
    if |members| > 1 {
      MembersPrintValid(members[1..], l);
      ConcatValid(",", PrintMembers(members[1..], l));
    }
    ConcatValid(Break(l) + PrintText(m.key) + Colon(l) + Print(m.value, l),
                if |members| == 1 then "" else "," + PrintMembers(members[1..], l));
  }
}
