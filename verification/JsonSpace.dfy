/** White space after a document is never read: it neither makes nor breaks what stands before it. */
module JsonSpace {
  import opened Wrappers
  import opened Json
  import opened JsonRoundTrip
  import opened JsonPrefix

  predicate AllSpace(s: string) {
    forall i | 0 <= i < |s| :: IsSpace(s[i])
  }

  /** A reader's answer with more text left over. */
  function Then<T>(r: Parsed<T>, x: string): Parsed<T> {
    match r
    case Bad => Bad
    case Good(v, rest) => Good(v, rest + x)
  }

  lemma {:induction false} SkippedAll(s: string)
    ensures SkipSpace(s) == "" <==> AllSpace(s)
  {
    if s != "" && IsSpace(s[0]) {
      SkippedAll(s[1..]);
      assert s == [s[0]] + s[1..];
    }
  }

  lemma SkipSpaceAfter(s: string, x: string)
    requires AllSpace(x)
    ensures SkipSpace(s + x) == if SkipSpace(s) == "" then "" else SkipSpace(s) + x
  {
    SkipSpaceExtend(s, x);
    SkippedAll(x);
  }

  lemma Hex4After(s: string, x: string)
    requires AllSpace(x)
    ensures ParseHex4(s + x) == Then(ParseHex4(s), x)
  {
    if |s| >= 4 {
      assert (s + x)[4..] == s[4..] + x;
    } else if |s + x| >= 4 {
      assert (s + x)[|s|] == x[0];
      assert HexValue(x[0]).None?;
    }
  }

  lemma UnicodeAfter(s: string, x: string)
    requires AllSpace(x)
    ensures ParseUnicode(s + x) == Then(ParseUnicode(s), x)
  {
    hide ParseHex4, Utf8Bytes;
    Hex4After(s, x);
    if ParseHex4(s).Good? {
      var rest := ParseHex4(s).rest;
      if |rest| >= 2 {
        Hex4After(rest[2..], x);
        assert (rest + x)[2..] == rest[2..] + x;
      } else {
        assert |rest| == 1 && x != "" ==> (rest + x)[1] == x[0];
        assert rest == "" && x != "" ==> (rest + x)[0] == x[0];
      }
    }
  }

  lemma EscapeAfter(s: string, x: string)
    requires AllSpace(x)
    ensures ParseEscape(s + x) == Then(ParseEscape(s), x)
  {
    hide ParseUnicode;
    if s == "" {
      assert s + x == x;
    } else {
      assert (s + x)[1..] == s[1..] + x;
      UnicodeAfter(s[1..], x);
    }
  }

  lemma {:induction false} TextOfSpaces(x: string)
    requires AllSpace(x)
    ensures ParseText(x).Bad?
    decreases |x|
  {
    if x != "" {
      TextOfSpaces(x[1..]);
    }
  }

  lemma {:induction false} TextAfter(s: string, x: string)
    requires AllSpace(x)
    ensures ParseText(s + x) == Then(ParseText(s), x)
    decreases |s|
  {
    if s == "" {
      assert s + x == x;
      TextOfSpaces(x);
    } else {
      hide ParseEscape;
      assert (s + x)[1..] == s[1..] + x;
      if s[0] == '\\' {
        EscapeAfter(s[1..], x);
        if ParseEscape(s[1..]).Good? {
          TextAfter(ParseEscape(s[1..]).rest, x);
        }
      } else {
        TextAfter(s[1..], x);
      }
    }
  }

  lemma {:induction false} DigitsAfter(acc: nat, s: string, x: string)
    requires AllSpace(x)
    ensures ParseDigits(acc, s + x) == Then(ParseDigits(acc, s), x)
    decreases |s|
  {
    if s == "" {
      assert s + x == x;
    } else if IsDigit(s[0]) {
      assert (s + x)[1..] == s[1..] + x;
      DigitsAfter(10 * acc + (s[0] as int - '0' as int), s[1..], x);
    }
  }

  lemma NaturalAfter(s: string, x: string)
    requires AllSpace(x)
    ensures ParseNatural(s + x) == Then(ParseNatural(s), x)
  {
    if s == "" {
      assert s + x == x;
    } else {
      assert (s + x)[1..] == s[1..] + x;
      DigitsAfter(0, s, x);
      hide ParseDigits;
      NumberEndsAfter(s[1..], x);
      NumberEndsAfter(ParseDigits(0, s).rest, x);
    }
  }

  lemma NumberEndsAfter(s: string, x: string)
    requires AllSpace(x)
    ensures NumberEnds(s + x) <==> NumberEnds(s)
  {
    if s == "" {
      assert s + x == x;
    }
  }

  lemma IntAfter(s: string, x: string)
    requires AllSpace(x)
    ensures ParseInt(s + x) == Then(ParseInt(s), x)
  {
    hide ParseNatural;
    NaturalAfter(s, x);
    if s != "" {
      assert (s + x)[1..] == s[1..] + x;
      NaturalAfter(s[1..], x);
    } else {
      assert s + x == x;
    }
  }

  lemma WordAfter(s: string, word: string, v: Json, x: string)
    requires AllSpace(x) && word != "" && !IsSpace(word[|word| - 1])
    ensures ParseWord(s + x, word, v) == Then(ParseWord(s, word, v), x)
  {
    if |word| <= |s| {
      assert (s + x)[..|word|] == s[..|word|];
      assert (s + x)[|word|..] == s[|word|..] + x;
      assert word <= s + x <==> word <= s;
    } else {
      assert |s + x| >= |word| ==> (s + x)[|word| - 1] == x[|word| - 1 - |s|];
    }
  }

  lemma {:induction false} ValueAfter(s: string, x: string)
    requires AllSpace(x)
    ensures ParseValue(s + x) == Then(ParseValue(s), x)
    decreases |s|, 1
  {
    hide ParseText, ParseInt, ParseWord, ParseItems, ParseMembers, SkipSpace, AllSpace;
    SkipSpaceAfter(s, x);
    var t := SkipSpace(s);
    if t != "" {
      assert (t + x)[1..] == t[1..] + x;
      if t[0] == 'n' {
        WordAfter(t, "null", Null, x);
      } else if t[0] == 't' {
        WordAfter(t, "true", Bool(true), x);
      } else if t[0] == 'f' {
        WordAfter(t, "false", Bool(false), x);
      } else if t[0] == '\"' {
        TextAfter(t[1..], x);
      } else if t[0] == '[' {
        ArrayAfter(s, x);
      } else if t[0] == '{' {
        ObjectAfter(s, x);
      } else {
        IntAfter(t, x);
      }
    }
  }

  lemma {:induction false} ArrayAfter(s: string, x: string)
    requires AllSpace(x) && SkipSpace(s) != "" && SkipSpace(s)[0] == '['
    ensures ParseValue(s + x) == Then(ParseValue(s), x)
    decreases |s|, 0
  {
    hide ParseItems, SkipSpace, AllSpace, ParseMembers, ParseInt, ParseWord, ParseText;
    SkipSpaceAfter(s, x);
    var t := SkipSpace(s);
    var a := t[1..];
    assert (t + x)[1..] == a + x;
    SkipSpaceAfter(a, x);
    ItemsAfter(a, x);
    var u := SkipSpace(a);
    if u != "" {
      assert (u + x)[1..] == u[1..] + x;
    }
  }

  lemma {:induction false} ObjectAfter(s: string, x: string)
    requires AllSpace(x) && SkipSpace(s) != "" && SkipSpace(s)[0] == '{'
    ensures ParseValue(s + x) == Then(ParseValue(s), x)
    decreases |s|, 0
  {
    hide ParseItems, SkipSpace, AllSpace, ParseMembers, ParseInt, ParseWord, ParseText;
    SkipSpaceAfter(s, x);
    var t := SkipSpace(s);
    var a := t[1..];
    assert (t + x)[1..] == a + x;
    SkipSpaceAfter(a, x);
    MembersAfter(a, x);
    var u := SkipSpace(a);
    if u != "" {
      assert (u + x)[1..] == u[1..] + x;
    }
  }

  lemma {:induction false} ItemsAfter(s: string, x: string)
    requires AllSpace(x)
    ensures ParseItems(s + x) == Then(ParseItems(s), x)
    decreases |s|, 2
  {
    hide ParseValue, SkipSpace, AllSpace;
    ValueAfter(s, x);
    if ParseValue(s).Good? {
      var a := ParseValue(s).rest;
      SkipSpaceAfter(a, x);
      var b := SkipSpace(a);
      if b != "" {
        assert (b + x)[1..] == b[1..] + x;
        ItemsAfter(b[1..], x);
      }
    }
  }

  lemma KeyAfter(s: string, x: string)
    requires AllSpace(x)
    ensures ParseKey(s + x) == Then(ParseKey(s), x)
  {
    hide ParseText, SkipSpace, AllSpace;
    SkipSpaceAfter(s, x);
    var t := SkipSpace(s);
    if t != "" {
      assert (t + x)[1..] == t[1..] + x;
      TextAfter(t[1..], x);
      if ParseText(t[1..]).Good? {
        var a := ParseText(t[1..]).rest;
        SkipSpaceAfter(a, x);
        if SkipSpace(a) != "" {
          assert (SkipSpace(a) + x)[1..] == SkipSpace(a)[1..] + x;
        }
      }
    }
  }

  lemma {:induction false} MembersAfter(s: string, x: string)
    requires AllSpace(x)
    ensures ParseMembers(s + x) == Then(ParseMembers(s), x)
    decreases |s|, 2
  {
    hide ParseValue, ParseKey, SkipSpace, AllSpace;
    KeyAfter(s, x);
    if ParseKey(s).Good? {
      var a := ParseKey(s).rest;
      ValueAfter(a, x);
      if ParseValue(a).Good? {
        var b := ParseValue(a).rest;
        SkipSpaceAfter(b, x);
        var c := SkipSpace(b);
        if c != "" {
          assert (c + x)[1..] == c[1..] + x;
          MembersAfter(c[1..], x);
        }
      }
    }
  }

  /** A document with white space after it is the same document. */
  lemma DocumentAfter(s: string, x: string)
    requires AllSpace(x)
    ensures ParseDocument(s + x) == ParseDocument(s)
  {
    hide ParseValue, AllSpace;
    ValueAfter(s, x);
    if ParseValue(s).Good? {
      SkipSpaceAfter(ParseValue(s).rest, x);
    }
  }

  /** An object or array that is a document already in a prefix has only white space after that prefix. */
  lemma OnlySpaceAfter(p: string, x: string)
    requires ParseDocument(p).Some? && Container(ParseDocument(p).value) && ParseDocument(p + x).Some?
    ensures AllSpace(x)
  {
    hide ParseValue;
    ValueExtend(p, x);
    var rest := ParseValue(p).rest;
    SkipSpaceExtend(rest, x);
    SkippedAll(x);
  }

  lemma {:induction false} BlankIsNoDocument(s: string)
    requires AllSpace(s)
    ensures ParseDocument(s).None?
  {
    SkippedAll(s);
  }
}
