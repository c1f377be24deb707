/**
 How texts are read: UTF-8 as the encodings of scalar values, white space and lines as the standard library of
 Rust has them, and what a JSON reader must refuse.
 */
module TextReading {
  import opened Wrappers
  import opened Json
  import opened Utf8
  import opened Receipt
  import opened ReceiptProofs

  // ---------------------------------------------------------------- UTF-8

  /** A Unicode scalar value: any code point but the surrogates. */
  type Scalar = c: int | 0 <= c < 0xD800 || 0xE000 <= c < 0x110000

  function Encoded(cs: seq<Scalar>): string {
    if cs == [] then "" else Utf8Bytes(cs[0]) + Encoded(cs[1..])
  }

  lemma TwoBytes(c: Scalar, t: string)
    requires 0x80 <= c < 0x800
    ensures ScalarLength(Utf8Bytes(c) + t) == |Utf8Bytes(c)| == 2
  {
  }

  lemma ThreeBytes(c: Scalar, t: string)
    requires 0x800 <= c < 0x10000
    ensures ScalarLength(Utf8Bytes(c) + t) == |Utf8Bytes(c)| == 3
  {
    var a, b := c / 4096, c / 64 % 64;
    assert c == 4096 * a + 64 * b + c % 64;
  }

  lemma FourBytes(c: Scalar, t: string)
    requires 0x10000 <= c < 0x110000
    ensures ScalarLength(Utf8Bytes(c) + t) == |Utf8Bytes(c)| == 4
  {
    var a, b := c / 262144, c / 4096 % 64;
    assert c == 262144 * a + 4096 * b + c % 4096;
  }

  /** The encoding of a scalar value is taken as one. */
  lemma EncodingAccepted(c: Scalar, t: string)
    ensures ScalarLength(Utf8Bytes(c) + t) == |Utf8Bytes(c)| > 0
  {
    if c < 0x80 {
    } else if c < 0x800 {
      TwoBytes(c, t);
    } else if c < 0x10000 {
      ThreeBytes(c, t);
    } else {
      FourBytes(c, t);
    }
  }

  lemma Three(a: nat, b: nat, d: nat)
    requires b < 64 && d < 64
    ensures var c := 4096 * a + 64 * b + d; c / 4096 == a && c / 64 % 64 == b && c % 64 == d
  {
    var c := 4096 * a + 64 * b + d;
    assert c / 64 == 64 * a + b;
  }

  lemma Four(a: nat, b: nat, d: nat, e: nat)
    requires b < 64 && d < 64 && e < 64
    ensures var c := 262144 * a + 4096 * b + 64 * d + e;
      c / 262144 == a && c / 4096 % 64 == b && c / 64 % 64 == d && c % 64 == e
  {
    var c := 262144 * a + 4096 * b + 64 * d + e;
    assert c / 64 == 4096 * a + 64 * b + d;
    assert c / 4096 == 64 * a + b;
  }

  /** Whatever is taken as a scalar value is the encoding of one. */
  lemma AcceptedIsEncoding(s: string) returns (c: Scalar)
    requires ScalarLength(s) > 0
    ensures s[..ScalarLength(s)] == Utf8Bytes(c)
  {
    var n := ScalarLength(s);
    if n == 1 {
      c := s[0] as int;
    } else if n == 2 {
      c := 64 * (s[0] as int - 0xC0) + (s[1] as int - 0x80);
    } else if n == 3 {
      c := ThreeDecoded(s);
    } else {
      c := FourDecoded(s);
    }
  }

  lemma ThreeDecoded(s: string) returns (c: Scalar)
    requires ScalarLength(s) == 3
    ensures s[..3] == Utf8Bytes(c)
  {
    var a, b, d := s[0] as int - 0xE0, s[1] as int - 0x80, s[2] as int - 0x80;
    Three(a, b, d);
    c := 4096 * a + 64 * b + d;
  }

  lemma FourDecoded(s: string) returns (c: Scalar)
    requires ScalarLength(s) == 4
    ensures s[..4] == Utf8Bytes(c)
  {
    var a, b, d, e := s[0] as int - 0xF0, s[1] as int - 0x80, s[2] as int - 0x80, s[3] as int - 0x80;
    Four(a, b, d, e);
    c := 262144 * a + 4096 * b + 64 * d + e;
  }

  /** A text passes the UTF-8 check exactly when it is the encoding of scalar values. */
  lemma {:induction false} Utf8Exactly(s: string)
    ensures Utf8Valid(s) <==>
            exists cs: seq<Scalar> :: Encoded(cs) == s
    decreases |s|
  {
    hide ScalarLength, Utf8Bytes;
    if Utf8Valid(s) {
      var cs := ValidIsEncoded(s);
    }
    if cs: seq<Scalar> :| Encoded(cs) == s {
      EncodedIsValid(cs);
    }
  }

  lemma {:induction false} ValidIsEncoded(s: string) returns (cs: seq<Scalar>)
    requires Utf8Valid(s)
    ensures Encoded(cs) == s
    decreases |s|
  {
    hide ScalarLength, Utf8Bytes;
    if s == "" {
      cs := [];
    } else {
      var n := ScalarLength(s);
      var c := AcceptedIsEncoding(s);
      var rest := ValidIsEncoded(s[n..]);
      cs := [c] + rest;
      assert cs[1..] == rest;
      assert s == s[..n] + s[n..];
    }
  }

  lemma {:induction false} EncodedIsValid(cs: seq<Scalar>)
    ensures Utf8Valid(Encoded(cs))
  {
    hide ScalarLength, Utf8Bytes;
    if cs != [] {
      var t := Encoded(cs[1..]);
      EncodingAccepted(cs[0], t);
      EncodedIsValid(cs[1..]);
      assert (Utf8Bytes(cs[0]) + t)[|Utf8Bytes(cs[0])|..] == t;
    }
  }

  // ---------------------------------------------------------------- white space and lines

  /** The characters with the Unicode property White_Space. */
  predicate WhiteSpace(c: int) {
    || 9 <= c <= 13 || c == 0x20 || c == 0x85 || c == 0xA0 || c == 0x1680 || 0x2000 <= c <= 0x200A
    || c == 0x2028 || c == 0x2029 || c == 0x202F || c == 0x205F || c == 0x3000
  }

  predicate WideSpace(a: nat, b: nat, d: nat) {
    || (a == 1 && b == 26 && d == 0)
    || (a == 2 && b == 0 && (d <= 10 || d == 40 || d == 41 || d == 47))
    || (a == 2 && b == 1 && d == 31)
    || (a == 3 && b == 0 && d == 0)
  }

  lemma WideSpaceBytes(a: nat, b: nat, d: nat, t: string)
    requires a < 16 && b < 64 && d < 64
    ensures var s := [(0xE0 + a) as char, (0x80 + b) as char, (0x80 + d) as char] + t;
      WhiteLength(s) == if WideSpace(a, b, d) then 3 else 0
  {
  }

  lemma WideSpaceCode(a: nat, b: nat, d: nat)
    requires a < 16 && b < 64 && d < 64
    requires 4096 * a + 64 * b + d >= 0x800
    ensures WhiteSpace(4096 * a + 64 * b + d) <==> WideSpace(a, b, d)
  {
  }

  lemma WideWhite(c: Scalar, t: string)
    requires 0x800 <= c < 0x10000
    ensures WhiteLength(Utf8Bytes(c) + t) == if WhiteSpace(c) then 3 else 0
  {
    hide WhiteLength, WhiteSpace, WideSpace;
    var a, b, d := c / 4096, c / 64 % 64, c % 64;
    assert c == 4096 * a + 64 * b + d;
    WideSpaceBytes(a, b, d, t);
    WideSpaceCode(a, b, d);
  }

  /** A character in front of a text is skipped as white space exactly when it is white space. */
  lemma WhiteExactly(c: Scalar, t: string)
    ensures WhiteLength(Utf8Bytes(c) + t) == if WhiteSpace(c) then |Utf8Bytes(c)| else 0
  {
    if c < 0x80 {
    } else if c < 0x800 {
      assert c == 64 * (c / 64) + c % 64;
    } else if c < 0x10000 {
      WideWhite(c, t);
    } else {
      assert 0xF0 <= 0xF0 + c / 262144;
    }
  }

  lemma ReturnDropped(l: string, rest: string)
    requires OneLine(l)
    ensures OneLine(l + "\r") && l + "\r" + "\n" + rest == l + "\r\n" + rest
    ensures DropReturn(l + "\r") == l
    ensures l == "" || l[|l| - 1] != '\r' ==> DropReturn(l) == l
  {
  }

  /**
   Lines end with a line feed or with a carriage return and a line feed, neither of which belongs to the line;
   the last one may have no end, and then keeps its carriage return.
   */
  lemma LinesExactly(l: string, rest: string)
    requires OneLine(l)
    ensures l == "" || l[|l| - 1] != '\r' ==> Lines(l + "\n" + rest) == [l] + Lines(rest)
    ensures Lines(l + "\r\n" + rest) == [l] + Lines(rest)
    ensures l != "" ==> Lines(l) == [l]
    ensures Lines("") == []
  {
    ReturnDropped(l, rest);
    hide Lines, LineEnd, DropReturn;
    LinesCons(l, rest);
    LinesCons(l + "\r", rest);
    if l != "" {
      LinesSingle(l);
    }
    NoLines();
  }

  // ---------------------------------------------------------------- JSON

  /** What a reader of JSON must refuse, in front of anything. */
  lemma ReaderIsStrict(c: char, t: string)
    ensures IsDigit(c) ==> ParseNatural("0" + [c] + t).Bad?
    ensures c < 32 as char ==> ParseText([c] + t).Bad?
    ensures ParseText("\\" + [c] + t).Good? ==> c in "\"\\/bfnrtu"
    ensures ParseInt("-" + [c] + t).Good? ==> '1' <= c <= '9'
    ensures ParseInt("+" + t).Bad?
    ensures IsSpace(c) <==> c in " \t\n\r"
  {
    hide ParseDigits, ParseUnicode;
    assert ("0" + [c] + t)[1..] == [c] + t;
    assert ("\\" + [c] + t)[1..] == [c] + t;
    assert ("-" + [c] + t)[1..] == [c] + t;
    assert ([c] + t)[0] == c;
  }
}
