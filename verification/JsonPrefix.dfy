/**
 A torn document is never mistaken for another one.

 The reader looks at no more text than it consumes: appending text to an accepted input leaves what was
 read unchanged (a number may grow, so it needs something after it).  With the round trip this gives
 that a proper prefix of a printed object or array is not a document.
 */
module JsonPrefix {
  import opened Wrappers
  import opened Json
  import opened JsonRoundTrip

  lemma {:induction false} SkipSpaceExtend(s: string, x: string)
    ensures SkipSpace(s) != "" ==> SkipSpace(s + x) == SkipSpace(s) + x
    ensures SkipSpace(s) == "" ==> SkipSpace(s + x) == SkipSpace(x)
  {
    if s == "" {
      assert s + x == x;
    } else if IsSpace(s[0]) {
      SkipSpaceExtend(s[1..], x);
      assert (s + x)[1..] == s[1..] + x;
    }
  }

  lemma {:induction false} SkipSpaceTwice(s: string)
    ensures SkipSpace(SkipSpace(s)) == SkipSpace(s)
  {
    if s != "" && IsSpace(s[0]) {
      SkipSpaceTwice(s[1..]);
    }
  }

  lemma Hex4Extend(s: string, x: string)
    requires ParseHex4(s).Good?
    ensures ParseHex4(s + x) == Good(ParseHex4(s).value, ParseHex4(s).rest + x)
  {
    assert (s + x)[4..] == s[4..] + x;
  }

  lemma UnicodeExtend(s: string, x: string)
    requires ParseUnicode(s).Good?
    ensures ParseUnicode(s + x) == Good(ParseUnicode(s).value, ParseUnicode(s).rest + x)
  {
    hide ParseHex4, Utf8Bytes;
    Hex4Extend(s, x);
    var unit, rest := ParseHex4(s).value, ParseHex4(s).rest;
    if 0xD800 <= unit <= 0xDBFF {
      Hex4Extend(rest[2..], x);
      assert (rest + x)[2..] == rest[2..] + x;
    }
  }

  lemma EscapeExtend(s: string, x: string)
    requires ParseEscape(s).Good?
    ensures ParseEscape(s + x) == Good(ParseEscape(s).value, ParseEscape(s).rest + x)
  {
    hide ParseUnicode;
    assert (s + x)[1..] == s[1..] + x;
    if s[0] == 'u' {
      UnicodeExtend(s[1..], x);
    }
  }

  lemma {:induction false} TextExtend(s: string, x: string)
    requires ParseText(s).Good?
    ensures ParseText(s + x) == Good(ParseText(s).value, ParseText(s).rest + x)
    decreases |s|
  {
    hide ParseEscape;
    assert (s + x)[1..] == s[1..] + x;
    if s[0] == '\"' {
    } else if s[0] == '\\' {
      EscapeExtend(s[1..], x);
      TextExtend(ParseEscape(s[1..]).rest, x);
    } else {
      TextExtend(s[1..], x);
    }
  }

  lemma {:induction false} DigitsExtend(acc: nat, s: string, x: string)
    requires ParseDigits(acc, s).rest != ""
    ensures ParseDigits(acc, s + x) == Good(ParseDigits(acc, s).value, ParseDigits(acc, s).rest + x)
    decreases |s|
  {
    if IsDigit(s[0]) {
      assert (s + x)[1..] == s[1..] + x;
      DigitsExtend(10 * acc + (s[0] as int - '0' as int), s[1..], x);
    }
  }

  lemma NaturalExtend(s: string, x: string)
    requires ParseNatural(s).Good? && ParseNatural(s).rest != ""
    ensures ParseNatural(s + x) == Good(ParseNatural(s).value, ParseNatural(s).rest + x)
  {
    assert (s + x)[1..] == s[1..] + x;
    if s[0] != '0' {
      DigitsExtend(0, s, x);
    }
  }

  lemma IntExtend(s: string, x: string)
    requires ParseInt(s).Good? && ParseInt(s).rest != ""
    ensures ParseInt(s + x) == Good(ParseInt(s).value, ParseInt(s).rest + x)
  {
    hide ParseNatural;
    assert (s + x)[1..] == s[1..] + x;
    if s[0] == '-' {
      NaturalExtend(s[1..], x);
    } else {
      NaturalExtend(s, x);
    }
  }

  lemma WordExtend(s: string, word: string, v: Json, x: string)
    requires word != "" && ParseWord(s, word, v).Good?
    ensures ParseWord(s, word, v).value == v
    ensures ParseWord(s + x, word, v) == Good(v, ParseWord(s, word, v).rest + x)
  {
    assert word <= s + x;
    assert (s + x)[|word|..] == s[|word|..] + x;
  }

  lemma {:induction false} ValueExtend(s: string, x: string)
    requires ParseValue(s).Good?
    requires ParseValue(s).value.Number? ==> ParseValue(s).rest != ""
    ensures ParseValue(s + x) == Good(ParseValue(s).value, ParseValue(s).rest + x)
    decreases |s|, 1
  {
    hide ParseText, ParseInt, ParseWord, ParseItems, ParseMembers, SkipSpace;
    SkipSpaceExtend(s, x);
    SkipSpaceTwice(s);
    SkipSpaceTwice(s + x);
    var t := SkipSpace(s);
    assert (t + x)[1..] == t[1..] + x;
    if t[0] == 'n' {
      WordExtend(t, "null", Null, x);
    } else if t[0] == 't' {
      WordExtend(t, "true", Bool(true), x);
    } else if t[0] == 'f' {
      WordExtend(t, "false", Bool(false), x);
    } else if t[0] == '\"' {
      TextExtend(t[1..], x);
    } else if t[0] == '[' {
      ArrayExtend(t, x);
    } else if t[0] == '{' {
      ObjectExtend(t, x);
    } else {
      IntExtend(t, x);
    }
  }

  lemma {:induction false} ArrayExtend(t: string, x: string)
    requires t != "" && t[0] == '[' && SkipSpace(t) == t && ParseValue(t).Good?
    ensures SkipSpace(t + x) == t + x
    ensures ParseValue(t + x) == Good(ParseValue(t).value, ParseValue(t).rest + x)
    decreases |t|, 0
  {
    hide ParseItems, SkipSpace;
    NoSpace(t + x);
    var a := t[1..];
    assert (t + x)[1..] == a + x;
    SkipSpaceExtend(a, x);
    var u := SkipSpace(a);
    if u != "" && u[0] == ']' {
      assert (u + x)[1..] == u[1..] + x;
    } else {
      ItemsExtend(a, x);
      ItemsNonblank(a);
    }
  }

  lemma {:induction false} ObjectExtend(t: string, x: string)
    requires t != "" && t[0] == '{' && SkipSpace(t) == t && ParseValue(t).Good?
    ensures SkipSpace(t + x) == t + x
    ensures ParseValue(t + x) == Good(ParseValue(t).value, ParseValue(t).rest + x)
    decreases |t|, 0
  {
    hide ParseMembers, SkipSpace;
    NoSpace(t + x);
    var a := t[1..];
    assert (t + x)[1..] == a + x;
    SkipSpaceExtend(a, x);
    var u := SkipSpace(a);
    if u != "" && u[0] == '}' {
      assert (u + x)[1..] == u[1..] + x;
    } else {
      MembersExtend(a, x);
      MembersNonblank(a);
    }
  }

  lemma ItemsNonblank(s: string)
    requires ParseItems(s).Good?
    ensures SkipSpace(s) != ""
  {
    hide ParseText, ParseInt, ParseWord, SkipSpace, ParseMembers;
  }

  lemma MembersNonblank(s: string)
    requires ParseMembers(s).Good?
    ensures SkipSpace(s) != ""
  {
    hide ParseText, ParseValue, SkipSpace;
  }

  lemma {:induction false} ItemsExtend(s: string, x: string)
    requires ParseItems(s).Good?
    ensures ParseItems(s + x) == Good(ParseItems(s).value, ParseItems(s).rest + x)
    decreases |s|, 2
  {
    hide ParseValue, SkipSpace;
    var a := ParseValue(s).rest;
    var b := SkipSpace(a);
    BlankIsEmpty(a);
    ValueExtend(s, x);
    SkipSpaceExtend(a, x);
    assert (b + x)[1..] == b[1..] + x;
    if b[0] == ',' {
      ItemsExtend(b[1..], x);
    }
  }

  lemma BlankIsEmpty(s: string)
    ensures SkipSpace(s) != "" ==> s != ""
  {
  }

  lemma KeyExtend(s: string, x: string)
    requires ParseKey(s).Good?
    ensures ParseKey(s + x) == Good(ParseKey(s).value, ParseKey(s).rest + x)
  {
    hide ParseText, SkipSpace;
    var t := SkipSpace(s);
    SkipSpaceExtend(s, x);
    TextExtend(t[1..], x);
    assert (t + x)[1..] == t[1..] + x;
    var a := ParseText(t[1..]).rest;
    SkipSpaceExtend(a, x);
    assert (SkipSpace(a) + x)[1..] == SkipSpace(a)[1..] + x;
  }

  lemma {:induction false} MembersExtend(s: string, x: string)
    requires ParseMembers(s).Good?
    ensures ParseMembers(s + x) == Good(ParseMembers(s).value, ParseMembers(s).rest + x)
    decreases |s|, 2
  {
    hide ParseValue, ParseKey, SkipSpace;
    KeyExtend(s, x);
    var a := ParseKey(s).rest;
    var b := ParseValue(a).rest;
    var c := SkipSpace(b);
    BlankIsEmpty(b);
    ValueExtend(a, x);
    SkipSpaceExtend(b, x);
    assert (c + x)[1..] == c[1..] + x;
    if c[0] == ',' {
      MembersExtend(c[1..], x);
    }
  }

  // ------------------------------------------- consequences for documents

  predicate Container(v: Json) {
    v.Array? || v.Object?
  }

  /** If a document and a prefix of it both read, they read alike. */
  lemma PrefixReadsAlike(d: string, p: string)
    requires p <= d
    requires ParseDocument(d).Some? && ParseDocument(p).Some?
    requires Container(ParseDocument(p).value)
    ensures ParseDocument(p) == ParseDocument(d)
  {
    hide ParseValue;
    ValueExtend(p, d[|p|..]);
    assert p + d[|p|..] == d;
  }

  /** No proper prefix of a printed object or array is a document at all. */
  lemma TornIsNoDocument(v: Json, l: Layout, p: string)
    requires Container(v) && p <= Print(v, l) && p != Print(v, l)
    ensures ParseDocument(p).None?
  {
    hide ParseValue, Print;
    if ParseDocument(p).Some? {
      var x := Print(v, l)[|p|..];
      assert p + x == Print(v, l);
      assert Print(v, l) + "" == Print(v, l);
      ContainerStart(v, l);
      ContainerRead(p);
      ValueExtend(p, x);
      assert ParseValue(Print(v, l)).rest != "";
      ValueRoundTrip(v, l, "");
    }
  }

  lemma ContainerStart(v: Json, l: Layout)
    requires Container(v)
    ensures Print(v, l) != "" && (Print(v, l)[0] == '{' || Print(v, l)[0] == '[')
  {
  }

  lemma ContainerRead(s: string)
    requires s != "" ==> s[0] == '{' || s[0] == '['
    requires ParseDocument(s).Some?
    ensures Container(ParseDocument(s).value)
  {
    hide ParseItems, ParseMembers, ParseInt, ParseText, ParseWord;
    if s != "" {
      NoSpace(s);
    }
  }

  /** No control character, so in particular no line feed. */
  predicate Printable(s: string) {
    forall i | 0 <= i < |s| :: ' ' <= s[i]
  }

  lemma EscapePrintable(c: char)
    ensures Printable(EscapeChar(c))
  {
  }

  lemma {:induction false} TextPrintable(s: string)
    ensures Printable(EscapeText(s))
  {
    hide EscapeChar;
    if s != "" {
      EscapePrintable(s[0]);
    }
    if s != "" {
      TextPrintable(s[1..]);
    }
  }

  lemma {:induction false} DecimalPrintable(n: nat)
    ensures Printable(Decimal(n))
  {
    if n >= 10 {
      DecimalPrintable(n / 10);
    }
  }

  /** A compact document is one line. */
  lemma {:induction false} CompactPrintable(v: Json)
    ensures Printable(Print(v, Compact))
    decreases v, 1
  {
    hide Decimal, EscapeText, PrintItems, PrintMembers;
    match v
    case Null =>
    case Bool(_) =>
    case Number(n) => DecimalPrintable(if n < 0 then -n else n);
    case String(s) => TextPrintable(s);
    case Array(items) => if items != [] { ItemsPrintable(items); }
    case Object(members) => if members != [] { MembersPrintable(members); }
  }

  lemma {:induction false} ItemsPrintable(items: seq<Json>)
    requires items != []
    ensures Printable(PrintItems(items, Compact))
    decreases items, 0
  {
    hide Print;
    CompactPrintable(items[0]);
    if |items| > 1 {
      ItemsPrintable(items[1..]);
    }
  }

  lemma {:induction false} MembersPrintable(members: seq<Member>)
    requires members != []
    ensures Printable(PrintMembers(members, Compact))
    decreases members, 0
  {
    hide Print, EscapeText;
    TextPrintable(members[0].key);
    CompactPrintable(members[0].value);
    if |members| > 1 {
      MembersPrintable(members[1..]);
    }
  }
}
