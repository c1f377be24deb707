/**
 The digest interface (src/integrity.rs).

 SHA-256 is an arbitrary total function from byte strings to 32-byte digests, given as a parameter.  A
 theorem that relies on digests concludes its property or exhibits two distinct inputs with one digest.
 */
module Integrity {
  import opened Json
  import opened Utf8

  type Digest = d: string | |d| == 32 && forall i | 0 <= i < |d| :: d[i] < 256 as char
    witness seq(32, _ => '0')

  type Hasher = string -> Digest

  ghost predicate Collision(hash: Hasher, a: string, b: string) {
    a != b && hash(a) == hash(b)
  }

  /** Two lower-case hexadecimal digits for each byte. */
  function HexEncode(d: string): string
    requires forall i | 0 <= i < |d| :: d[i] < 256 as char
  {
    if d == "" then "" else [HEX[d[0] as int / 16], HEX[d[0] as int % 16]] + HexEncode(d[1..])
  }

  function Sha256(hash: Hasher, bytes: string): string {
    HexEncode(hash(bytes))
  }

  function Sha256Json(hash: Hasher, v: Json): string {
    Sha256(hash, Print(v, Compact))
  }

  lemma {:induction false} HexEncodeSnoc(d: string, c: char)
    requires forall i | 0 <= i < |d| :: d[i] < 256 as char
    requires c < 256 as char
    ensures HexEncode(d + [c]) == HexEncode(d) + [HEX[c as int / 16], HEX[c as int % 16]]
  {
    if d == "" {
      assert d + [c] == [c];
      assert [c][1..] == "";
    } else {
      HexEncodeSnoc(d[1..], c);
      assert (d + [c])[1..] == d[1..] + [c];
    }
  }

  /** The character is the lower-case hexadecimal digit of this value. */
  predicate LowerHex(c: char, v: int) {
    if 0 <= v <= 9 then c as int == 48 + v else 10 <= v <= 15 && c as int == 97 + (v - 10)
  }

  lemma HexDigit(v: nat)
    requires v < 16
    ensures |HEX| == 16 && LowerHex(HEX[v], v)
  {
    assert HEX == "0123456789abcdef";
  }

  lemma {:induction false} HexEncodeAt(d: string, k: nat)
    requires forall i | 0 <= i < |d| :: d[i] < 256 as char
    requires k < |d|
    ensures |HexEncode(d)| == 2 * |d|
    ensures LowerHex(HexEncode(d)[2 * k], d[k] as int / 16) && LowerHex(HexEncode(d)[2 * k + 1], d[k] as int % 16)
  {
    hide LowerHex, HEX, Ascii;
    HexEncodeAscii(d);
    HexDigit(d[0] as int / 16);
    HexDigit(d[0] as int % 16);
    var rest := HexEncode(d[1..]);
    assert HexEncode(d) == [HEX[d[0] as int / 16], HEX[d[0] as int % 16]] + rest;
    if k > 0 {
      HexEncodeAt(d[1..], k - 1);
      assert HexEncode(d)[2 * k] == rest[2 * k - 2] && HexEncode(d)[2 * k + 1] == rest[2 * k - 1];
    }
  }

  /** A published digest: two lower-case digits for each of the 32 bytes, the high half first. */
  lemma Sha256Digits(hash: Hasher, bytes: string, k: nat)
    requires k < 32
    ensures |Sha256(hash, bytes)| == 64
    ensures LowerHex(Sha256(hash, bytes)[2 * k], hash(bytes)[k] as int / 16)
    ensures LowerHex(Sha256(hash, bytes)[2 * k + 1], hash(bytes)[k] as int % 16)
    ensures forall c | c in Sha256(hash, bytes) :: '0' <= c <= '9' || 'a' <= c <= 'f'
  {
    var d, s := hash(bytes), Sha256(hash, bytes);
    HexEncodeAt(d, k);
    forall i | 0 <= i < |s| ensures '0' <= s[i] <= '9' || 'a' <= s[i] <= 'f' {
      HexEncodeAt(d, i / 2);
      assert i == 2 * (i / 2) || i == 2 * (i / 2) + 1;
    }
  }

  method Sha256Bytes(hash: Hasher, bytes: string) returns (encoded: string)
    ensures encoded == Sha256(hash, bytes)
    ensures |encoded| == 64
    ensures forall k | 0 <= k < 32 ::
              && LowerHex(encoded[2 * k], hash(bytes)[k] as int / 16)
              && LowerHex(encoded[2 * k + 1], hash(bytes)[k] as int % 16)
  {
    var digest := hash(bytes);
    encoded := "";
    for i := 0 to |digest|
      invariant encoded == HexEncode(digest[..i])
    {
      HexEncodeSnoc(digest[..i], digest[i]);
      assert digest[..i + 1] == digest[..i] + [digest[i]];
      encoded := encoded + [HEX[digest[i] as int / 16]];
      encoded := encoded + [HEX[digest[i] as int % 16]];
    }
    assert digest[..|digest|] == digest;
    forall k | 0 <= k < 32
      ensures |encoded| == 64
      ensures LowerHex(encoded[2 * k], digest[k] as int / 16) && LowerHex(encoded[2 * k + 1], digest[k] as int % 16)
    {
      Sha256Digits(hash, bytes, k);
    }
    Sha256Digits(hash, bytes, 0);
  }

  lemma HexPair(a: char, b: char)
    requires a < 256 as char && b < 256 as char
    requires HEX[a as int / 16] == HEX[b as int / 16] && HEX[a as int % 16] == HEX[b as int % 16]
    ensures a == b
  {
    HexDistinct(a as int / 16, b as int / 16);
    HexDistinct(a as int % 16, b as int % 16);
  }

  lemma HexDistinct(i: nat, j: nat)
    requires i < 16 && j < 16 && HEX[i] == HEX[j]
    ensures i == j
  {
    assert HexValue(HEX[i]).value == i;
    assert HexValue(HEX[j]).value == j;
  }

  lemma {:induction false} HexEncodeInjective(a: string, b: string)
    requires forall i | 0 <= i < |a| :: a[i] < 256 as char
    requires forall i | 0 <= i < |b| :: b[i] < 256 as char
    requires HexEncode(a) == HexEncode(b)
    ensures a == b
  {
    if a == "" || b == "" {
    } else {
      var s := HexEncode(a);
      assert s[0] == HEX[a[0] as int / 16] == HEX[b[0] as int / 16];
      assert s[1] == HEX[a[0] as int % 16] == HEX[b[0] as int % 16];
      HexPair(a[0], b[0]);
      assert s[2..] == HexEncode(a[1..]) == HexEncode(b[1..]);
      HexEncodeInjective(a[1..], b[1..]);
      assert a == [a[0]] + a[1..] && b == [b[0]] + b[1..];
    }
  }

  lemma {:induction false} HexEncodeAscii(d: string)
    requires forall i | 0 <= i < |d| :: d[i] < 256 as char
    ensures Ascii(HexEncode(d)) && |HexEncode(d)| == 2 * |d|
  {
    if d != "" {
      HexEncodeAscii(d[1..]);
      HexDigit(d[0] as int / 16);
      HexDigit(d[0] as int % 16);
      hide HEX;
    }
  }

  /** A published digest is 64 characters of text. */
  lemma Sha256Text(hash: Hasher, bytes: string)
    ensures Utf8Valid(Sha256(hash, bytes)) && |Sha256(hash, bytes)| == 64
  {
    HexEncodeAscii(hash(bytes));
    AsciiValid(Sha256(hash, bytes));
  }

  /** A digest binds its input, up to an exhibited collision. */
  lemma DigestBinds(hash: Hasher, a: string, b: string)
    requires Sha256(hash, a) == Sha256(hash, b)
    ensures a == b || Collision(hash, a, b)
  {
    HexEncodeInjective(hash(a), hash(b));
  }
}
