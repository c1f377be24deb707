/** The target-set fingerprint (src/engine.rs:520-568). */
module Fingerprint {
  import opened Wrappers
  import opened Integrity

  const MAX_TARGET_EVIDENCE_BYTES := 67_108_864
  const U64_MAX := 0xFFFF_FFFF_FFFF_FFFF

  /** The longest text a Rust `String` can hold. */
  const MAX_TEXT := 0x7FFF_FFFF_FFFF_FFFF

  function SaturatingAdd(a: nat, b: nat): nat {
    if a + b <= U64_MAX then a + b else U64_MAX
  }

  function Pow256(k: nat): nat {
    if k == 0 then 1 else 256 * Pow256(k - 1)
  }

  /** `k` bytes, most significant first. */
  function BigEndian(n: nat, k: nat): (s: string)
    ensures |s| == k
  {
    if k == 0 then "" else BigEndian(n / 256, k - 1) + [(n % 256) as char]
  }

  function ReadBigEndian(s: string): nat {
    if s == "" then 0 else 256 * ReadBigEndian(s[..|s| - 1]) + s[|s| - 1] as int
  }

  lemma {:induction false} BigEndianRoundTrip(n: nat, k: nat)
    requires n < Pow256(k)
    ensures ReadBigEndian(BigEndian(n, k)) == n
  {
    if k > 0 {
      BigEndianRoundTrip(n / 256, k - 1);
      assert BigEndian(n, k)[..k - 1] == BigEndian(n / 256, k - 1);
    }
  }

  lemma Pow256Of8()
    ensures Pow256(8) == U64_MAX + 1
  {
    assert Pow256(2) == 0x1_0000;
    assert Pow256(4) == 0x1_0000_0000;
    assert Pow256(6) == 0x1_0000_0000_0000;
  }

  /** One row's evidence: its length in eight bytes, then its text. */
  function Frame(text: string): string {
    BigEndian(|text|, 8) + text
  }

  function Buffer(texts: seq<string>): string {
    if texts == [] then "" else Frame(texts[0]) + Buffer(texts[1..])
  }

  function FramedSize(texts: seq<string>): nat {
    if texts == [] then 0 else 8 + |texts[0]| + FramedSize(texts[1..])
  }

  /** Recovers the texts from a buffer. */
  function Unframe(s: string): Option<seq<string>>
    decreases |s|
  {
    if s == "" then Some([])
    else if |s| < 8 then None
    else
      var n := ReadBigEndian(s[..8]);
      if 8 + n > |s| then None
      else
        var rest :- Unframe(s[8 + n..]);
        Some([s[8..8 + n]] + rest)
  }

  predicate TextsFit(texts: seq<string>) {
    forall i | 0 <= i < |texts| :: |texts[i]| <= MAX_TEXT
  }

  /** The buffer loses nothing: the row texts, their number and their order can be read back from it. */
  lemma {:induction false} BufferRoundTrip(texts: seq<string>)
    requires TextsFit(texts)
    ensures Unframe(Buffer(texts)) == Some(texts)
  {
    if texts != [] {
      var t, rest := texts[0], Buffer(texts[1..]);
      Pow256Of8();
      BigEndianRoundTrip(|t|, 8);
      BufferRoundTrip(texts[1..]);
      var s := Buffer(texts);
      assert s[..8] == BigEndian(|t|, 8);
      assert s[8..8 + |t|] == t;
      assert s[8 + |t|..] == rest;
      assert [t] + texts[1..] == texts;
    }
  }

  /** Equal fingerprints mean equal row texts in equal order, or a collision is exhibited. */
  lemma FingerprintBinds(hash: Hasher, a: seq<string>, b: seq<string>)
    requires TextsFit(a) && TextsFit(b)
    requires Sha256(hash, Buffer(a)) == Sha256(hash, Buffer(b))
    ensures a == b || Collision(hash, Buffer(a), Buffer(b))
  {
    DigestBinds(hash, Buffer(a), Buffer(b));
    BufferRoundTrip(a);
    BufferRoundTrip(b);
  }

  lemma {:induction false} BufferSnoc(texts: seq<string>, t: string)
    ensures Buffer(texts + [t]) == Buffer(texts) + Frame(t)
    ensures FramedSize(texts + [t]) == FramedSize(texts) + 8 + |t|
    ensures |Buffer(texts)| == FramedSize(texts)
  {
    if texts == [] {
      assert [] + [t] == [t] && [t][1..] == [];
      assert Buffer([t]) == Frame(t) + "";
    } else {
      BufferSnoc(texts[1..], t);
      assert (texts + [t])[1..] == texts[1..] + [t];
    }
  }

  lemma {:induction false} FramedSizeGrows(texts: seq<string>, k: nat)
    requires k <= |texts|
    ensures FramedSize(texts[..k]) <= FramedSize(texts)
    ensures 8 * |texts| <= FramedSize(texts)
  {
    if texts != [] {
      FramedSizeGrows(texts[1..], if k == 0 then 0 else k - 1);
      if k > 0 {
        assert texts[..k][1..] == texts[1..][..k - 1];
      }
    }
  }

  lemma BufferEmpty(texts: seq<string>)
    ensures Buffer(texts[..0]) == "" && FramedSize(texts[..0]) == 0
  {
  }

  /** One turn of the loop. */
  lemma NextFrame(texts: seq<string>, k: nat)
    requires k < |texts|
    ensures Buffer(texts[..k + 1]) == Buffer(texts[..k]) + BigEndian(|texts[k]|, 8) + texts[k]
    ensures FramedSize(texts[..k + 1]) == FramedSize(texts[..k]) + 8 + |texts[k]|
    ensures 8 * k <= FramedSize(texts[..k]) && FramedSize(texts[..k + 1]) <= FramedSize(texts)
  {
    hide Buffer, FramedSize, BigEndian;
    assert texts[..k] + [texts[k]] == texts[..k + 1];
    BufferSnoc(texts[..k], texts[k]);
    FramedSizeGrows(texts, k + 1);
    FramedSizeGrows(texts[..k], k);
  }

  /** What the row stream yields: the texts up to the end, or up to a query error. */
  datatype Stream = Stream(texts: seq<string>, broken: bool)

  function EvidenceError(code: string, cls: ErrorClass): Result<string> {
    Err(AppError(cls, code))
  }

  /** The outcome for a stream of rows, in closed form. */
  function StreamOutcome(hash: Hasher, s: Stream, expected: nat): Result<string> {
    if FramedSize(s.texts) > MAX_TARGET_EVIDENCE_BYTES then
      EvidenceError("target_evidence_bytes_exceeded", Budget)
    else if s.broken then EvidenceError("target_evidence_query_failed", Io)
    else if |s.texts| != expected then EvidenceError("target_evidence_count_mismatch", Contract)
    else Ok(Sha256(hash, Buffer(s.texts)))
  }

  /** The fingerprint of a statement: of its own text for an INSERT, of its row stream otherwise. */
  function TargetSetOutcome(hash: Hasher, normalized: string, rows: Option<Stream>, expected: nat): Result<string> {
    if rows.None? then Ok(Sha256(hash, normalized)) else StreamOutcome(hash, rows.value, expected)
  }

  /**
   The loop reads at most as many rows as fit, never saturates a counter within the limit, and ends with the
   closed form: it succeeds exactly when no query error occurs, the framed rows take at most 64 MiB and their
   number is the expected one.
   */
  method TargetSetSha256(hash: Hasher, normalized: string, rows: Option<Stream>, expected: nat)
    returns (r: Result<string>)
    requires rows.Some? ==> TextsFit(rows.value.texts)
    ensures r == TargetSetOutcome(hash, normalized, rows, expected)
    ensures rows.Some? ==>
              (r.Ok? <==> !rows.value.broken && FramedSize(rows.value.texts) <= 67_108_864
                          && |rows.value.texts| == expected)
    ensures rows.None? ==> r.Ok?
    ensures r.Ok? ==> r.value == Sha256(hash, if rows.None? then normalized else Buffer(rows.value.texts))
  {
    if rows.None? {
      var own := Sha256Bytes(hash, normalized);
      return Ok(own);
    }
    hide Buffer, FramedSize, BigEndian, Sha256;
    var texts := rows.value.texts;
    BufferEmpty(texts);
    var evidence := "";
    var observed := 0;
    var next := 0;
    while next < |texts|
      invariant 0 <= next <= |texts|
      invariant evidence == Buffer(texts[..next]) && |evidence| == FramedSize(texts[..next])
      invariant FramedSize(texts[..next]) <= MAX_TARGET_EVIDENCE_BYTES
      invariant observed == next
    {
      var value := texts[next];
      NextFrame(texts, next);
      var required := SaturatingAdd(SaturatingAdd(|evidence|, 8), |value|);
      if required > MAX_TARGET_EVIDENCE_BYTES {
        return EvidenceError("target_evidence_bytes_exceeded", Budget);
      }
      evidence := evidence + BigEndian(|value|, 8);
      evidence := evidence + value;
      observed := SaturatingAdd(observed, 1);
      next := next + 1;
    }
    assert texts[..|texts|] == texts;
    if rows.value.broken {
      return EvidenceError("target_evidence_query_failed", Io);
    }
    if observed != expected {
      return EvidenceError("target_evidence_count_mismatch", Contract);
    }
    var digest := Sha256Bytes(hash, evidence);
    r := Ok(digest);
  }
}
