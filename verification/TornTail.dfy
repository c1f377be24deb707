/** Exactly how much of an accepted receipt may be missing before its verdict changes. */
module TornTail {
  import opened Wrappers
  import opened Json
  import opened JsonPrefix
  import opened JsonSpace
  import opened Utf8
  import opened Integrity
  import opened Model
  import opened Codec
  import opened Receipt
  import opened ReceiptProofs

  // ---------------------------------------------------------------- texts

  lemma ScalarCut(s: string, x: string)
    requires s != "" && AllSpace(x) && ScalarLength(s + x) > 0
    ensures ScalarLength(s) == ScalarLength(s + x)
  {
    var t := s + x;
    assert forall i | 0 <= i < |s| :: t[i] == s[i];
    assert forall i | |s| <= i < |t| :: IsSpace(t[i]);
  }

  lemma {:induction false} ValidBeforeSpace(s: string, x: string)
    requires AllSpace(x) && Utf8Valid(s + x)
    ensures Utf8Valid(s)
    decreases |s|
  {
    if s != "" {
      ScalarCut(s, x);
      var n := ScalarLength(s);
      hide ScalarLength;
      assert (s + x)[n..] == s[n..] + x;
      ValidBeforeSpace(s[n..], x);
    }
  }

  /** One of two texts is the other with white space after it. */
  predicate SpaceApart(u: string, v: string) {
    (u <= v && AllSpace(v[|u|..])) || (v <= u && AllSpace(u[|v|..]))
  }

  lemma ApartReadsAlike(u: string, v: string)
    requires SpaceApart(u, v)
    ensures ReadEvent(u) == ReadEvent(v)
  {
    hide ParseDocument, DecodeEvent, AllSpace;
    if u <= v && AllSpace(v[|u|..]) {
      assert u + v[|u|..] == v;
      DocumentAfter(u, v[|u|..]);
    } else {
      assert v + u[|v|..] == u;
      DocumentAfter(v, u[|v|..]);
    }
  }

  lemma BothEventsApart(u: string, v: string)
    requires u <= v && ReadEvent(u).Some? && ReadEvent(v).Some?
    ensures SpaceApart(u, v)
  {
    hide ParseDocument, DecodeEvent;
    DecodedIsContainer(ParseDocument(u).value);
    assert u + v[|u|..] == v;
    OnlySpaceAfter(u, v[|u|..]);
  }

  lemma ReturnIsSpace(v: string)
    ensures SpaceApart(v + "\r", v)
  {
    assert (v + "\r")[|v|..] == "\r";
  }

  // ---------------------------------------------------------------- lines

  /** How a cut of a line relates to the line without its carriage return. */
  lemma CutBeforeBreak(m: string, cut: string)
    requires cut <= m
    ensures cut <= DropReturn(m) || cut == DropReturn(m) + "\r"
    ensures AllSpace(m[|cut|..]) <==> SpaceApart(cut, DropReturn(m))
  {
    var d := DropReturn(m);
    if d != m {
      assert m == d + "\r";
      if |cut| <= |d| {
        assert m[|cut|..] == d[|cut|..] + "\r";
        SpaceAndMore(d[|cut|..], "\r");
      } else {
        assert cut == m;
        ReturnIsSpace(d);
      }
    }
  }

  lemma CutIsOneLine(m: string, cut: string)
    requires OneLine(m) && cut <= m
    ensures OneLine(cut)
  {
  }

  lemma LineWithFeed(m: string)
    requires OneLine(m)
    ensures Lines(m + "\n") == [DropReturn(m)]
  {
    hide DropReturn, OneLine, Lines;
    LinesCons(m, "");
    NoLines();
    assert m + "\n" + "" == m + "\n";
    assert [DropReturn(m)] + [] == [DropReturn(m)];
  }

  lemma SpaceBeforeFeed(m: string, k: nat)
    requires k <= |m|
    ensures AllSpace((m + "\n")[k..]) <==> AllSpace(m[k..])
  {
    hide AllSpace;
    assert (m + "\n")[k..] == m[k..] + "\n";
    LineFeedIsSpace();
    SpaceAndMore(m[k..], "\n");
  }

  /** A line with its line feed, and a cut before the line feed. */
  lemma CutOfLine(m: string, cut: string)
    requires OneLine(m) && cut <= m && cut != ""
    ensures Lines(m + "\n") == [DropReturn(m)] && Lines(cut) == [cut]
    ensures cut <= DropReturn(m) || cut == DropReturn(m) + "\r"
    ensures AllSpace((m + "\n")[|cut|..]) <==> SpaceApart(cut, DropReturn(m))
  {
    hide Lines, SpaceApart, DropReturn, AllSpace, OneLine;
    CutIsOneLine(m, cut);
    LinesSingle(cut);
    LineWithFeed(m);
    CutBeforeBreak(m, cut);
    SpaceBeforeFeed(m, |cut|);
  }

  /** The shape of a text of one line. */
  lemma OneLineShape(q: string)
    requires |Lines(q)| == 1
    ensures OneLine(q) || (q != "" && q == q[..|q| - 1] + "\n" && OneLine(q[..|q| - 1]))
  {
    var n := LineEnd(q);
    if n < |q| {
      assert q == q[..n] + "\n" + q[n + 1..];
      LinesCons(q[..n], q[n + 1..]);
      LinesOfSome(q[n + 1..]);
    }
  }

  lemma CutApart(q: string, cut: string)
    requires cut <= q
    ensures SpaceApart(cut, q) <==> AllSpace(q[|cut|..])
    ensures cut == q ==> SpaceApart(cut, q)
  {
    if q <= cut {
      assert cut == q && q[|cut|..] == "";
    }
  }

  /** A text of one line: its line, and the one of a nonempty cut of it. */
  lemma LastLine(q: string, cut: string)
    requires cut <= q && cut != "" && |Lines(q)| == 1
    ensures |Lines(cut)| == 1
    ensures Lines(cut)[0] <= Lines(q)[0] || Lines(cut)[0] == Lines(q)[0] + "\r"
    ensures AllSpace(q[|cut|..]) <==> SpaceApart(Lines(cut)[0], Lines(q)[0])
  {
    hide Lines, DropReturn, SpaceApart, AllSpace, OneLine;
    OneLineShape(q);
    if cut == q {
      CutApart(q, q);
      CutApart(Lines(q)[0], Lines(q)[0]);
    } else if OneLine(q) {
      CutIsOneLine(q, cut);
      LinesSingle(cut);
      LinesSingle(q);
      CutApart(q, cut);
    } else {
      CutOfLine(q[..|q| - 1], cut);
    }
  }

  lemma LineFeedIsSpace()
    ensures AllSpace("\n")
  {
  }

  lemma LinesOfSome(s: string)
    ensures s != "" ==> Lines(s) != []
  {
  }

  lemma SpaceAndMore(s: string, x: string)
    requires AllSpace(x)
    ensures AllSpace(s + x) <==> AllSpace(s)
  {
    assert forall i | 0 <= i < |s| :: (s + x)[i] == s[i];
  }

  lemma TwoLines(c: string)
    requires |Lines(c)| == 2
    ensures var n := LineEnd(c);
      n < |c| && OneLine(c[..n]) && Lines(c) == [DropReturn(c[..n])] + Lines(c[n + 1..]) && |Lines(c[n + 1..])| == 1
  {
  }

  lemma CutAfterFirst(l: string, q: string, cut: string)
    requires OneLine(l) && |Lines(q)| == 1 && cut <= q && cut != ""
    ensures var x, y := Lines(l + "\n" + q), Lines(l + "\n" + cut);
      && |x| == |y| == 2 && x[0] == y[0] && (y[1] <= x[1] || y[1] == x[1] + "\r")
      && (AllSpace(q[|cut|..]) <==> SpaceApart(y[1], x[1]))
  {
    LinesCons(l, q);
    LinesCons(l, cut);
    LastLine(q, cut);
    hide Lines, AllSpace, SpaceApart, DropReturn, OneLine;
  }

  lemma Pieces(c: string, p: string, n: nat)
    requires p <= c && n + 1 < |p| && c[n] == '\n'
    ensures c == c[..n] + "\n" + c[n + 1..] && p == c[..n] + "\n" + p[n + 1..]
    ensures p[n + 1..] <= c[n + 1..] && p[n + 1..] != "" && c[|p|..] == c[n + 1..][|p[n + 1..]|..]
  {
  }

  /** The lines of an accepted complete file and of a prefix that reaches into the second line. */
  lemma CutLines(c: string, p: string)
    requires |Lines(c)| == 2 && p <= c && |p| > LineEnd(c) + 1
    ensures |Lines(p)| == 2 && Lines(p)[0] == Lines(c)[0]
    ensures Lines(p)[1] <= Lines(c)[1] || Lines(p)[1] == Lines(c)[1] + "\r"
    ensures AllSpace(c[|p|..]) <==> SpaceApart(Lines(p)[1], Lines(c)[1])
  {
    TwoLines(c);
    hide Lines, AllSpace, SpaceApart, OneLine;
    var n := LineEnd(c);
    Pieces(c, p, n);
    CutAfterFirst(c[..n], c[n + 1..], p[n + 1..]);
  }

  /** A prefix with two lines reaches into the second line. */
  lemma TwoLinesReach(c: string, p: string)
    requires |Lines(c)| == 2 && p <= c && |Lines(p)| == 2
    ensures |p| > LineEnd(c) + 1
  {
    TwoLines(c);
    TwoLines(p);
    var n, k := LineEnd(c), LineEnd(p);
    assert k == n;
    assert p[k + 1..] != "" by {
      NoLines();
    }
  }

  lemma LaterSuffix(c: string, k: nat, n: nat)
    requires k <= n <= |c| && AllSpace(c[k..])
    ensures AllSpace(c[n..])
  {
    assert forall i | 0 <= i < |c[n..]| :: c[n..][i] == c[k..][n - k + i];
  }

  /** A suffix of white space does not reach back into the last event. */
  lemma SpaceStopsAtEvent(c: string, p: string)
    requires |Lines(c)| == 2 && p <= c && AllSpace(c[|p|..]) && ReadEvent(Lines(c)[1]).Some?
    ensures |p| > LineEnd(c) + 1
  {
    TwoLines(c);
    var n := LineEnd(c);
    hide Lines, ParseDocument, DecodeEvent, AllSpace, OneLine, DropReturn;
    if |p| <= n + 1 {
      LaterSuffix(c, |p|, n + 1);
      SpaceLine(c[n + 1..]);
      BlankIsNoDocument(Lines(c[n + 1..])[0]);
    }
  }

  lemma SpaceLine(q: string)
    requires AllSpace(q) && |Lines(q)| == 1
    ensures AllSpace(Lines(q)[0])
  {
    var n := LineEnd(q);
    if n < |q| {
      assert q == q[..n] + "\n" + q[n + 1..];
      LinesCons(q[..n], q[n + 1..]);
    }
  }

  // ---------------------------------------------------------------- verdicts

  lemma CompleteLines(hash: Hasher, c: string)
    requires VerifyReceipt(hash, c).Ok?
    ensures VerifyReceipt(hash, c).value.complete <==> |Lines(c)| == 2
    ensures forall i | 0 <= i < |Lines(c)| :: ReadEvent(Lines(c)[i]).Some?
    ensures VerifyLines(hash, Lines(c)) == VerifyReceipt(hash, c)
  {
    hide ReadEvent, Utf8Valid, Lines, Blank, EventError;
  }

  /** The line of an event holds a character that no white space contains. */
  lemma EventStart(u: string)
    requires ReadEvent(u).Some?
    ensures !Blank(u)
  {
    hide DecodeEvent;
    DecodedIsContainer(ParseDocument(u).value);
    ContainerAfterSpace(u);
    BracketNotBlank(u);
  }

  lemma ContainerAfterSpace(u: string)
    requires ParseDocument(u).Some? && Container(ParseDocument(u).value)
    ensures SkipSpace(u) != "" && (SkipSpace(u)[0] == '{' || SkipSpace(u)[0] == '[')
  {
    hide ParseText, ParseItems, ParseMembers;
  }

  lemma {:induction false} BracketNotBlank(u: string)
    requires SkipSpace(u) != "" && (SkipSpace(u)[0] == '{' || SkipSpace(u)[0] == '[')
    ensures !Blank(u)
    decreases |u|
  {
    if IsSpace(u[0]) {
      assert WhiteLength(u) == 1;
      BracketNotBlank(u[1..]);
    }
  }

  lemma SameEventsSameVerdict(hash: Hasher, x: seq<string>, y: seq<string>)
    requires |x| == |y| == 2 && ReadEvent(x[0]) == ReadEvent(y[0]) && ReadEvent(x[1]) == ReadEvent(y[1])
    requires ReadEvent(x[0]).Some? && ReadEvent(x[1]).Some?
    requires forall i | 0 <= i < 2 :: !Blank(x[i]) && !Blank(y[i])
    ensures VerifyLines(hash, y) == VerifyLines(hash, x)
  {
    hide ReadEvent, Blank, VerifyEvents;
    var a, b := ReadEvents(x).value, ReadEvents(y).value;
    assert a[0] == b[0] && a[1] == b[1];
    assert a == b;
  }

  lemma SameLinesVerdict(hash: Hasher, x: seq<string>, y: seq<string>)
    requires |x| == |y| == 2 && x[0] == y[0] && ReadEvent(x[1]) == ReadEvent(y[1])
    requires ReadEvent(x[0]).Some? && ReadEvent(x[1]).Some?
    ensures VerifyLines(hash, y) == VerifyLines(hash, x)
  {
    hide ReadEvent, Blank, VerifyLines;
    EventStart(x[0]);
    EventStart(x[1]);
    EventStart(y[1]);
    SameEventsSameVerdict(hash, x, y);
  }

  /**
   The torn tail, exactly.  For every prefix of an accepted two-event receipt: it gets the verdict of the whole
   file exactly when nothing but white space is missing.  Otherwise the verifier fails or reports the run as
   prepared and incomplete (`TornTail` in `ReceiptProofs`).
   */
  lemma TornTailExactly(hash: Hasher, c: string, p: string)
    requires VerifyReceipt(hash, c).Ok? && VerifyReceipt(hash, c).value.complete && p <= c
    ensures VerifyReceipt(hash, p) == VerifyReceipt(hash, c) <==> AllSpace(c[|p|..])
  {
    CompleteLines(hash, c);
    if VerifyReceipt(hash, p) == VerifyReceipt(hash, c) {
      CompleteLines(hash, p);
      TwoLinesReach(c, p);
      CutLines(c, p);
      hide VerifyReceipt, Lines, ReadEvent, VerifyLines, SpaceApart, AllSpace;
      if Lines(p)[1] <= Lines(c)[1] {
        BothEventsApart(Lines(p)[1], Lines(c)[1]);
      } else {
        ReturnIsSpace(Lines(c)[1]);
      }
    }
    if AllSpace(c[|p|..]) {
      SpaceStopsAtEvent(c, p);
      CutLines(c, p);
      assert p + c[|p|..] == c;
      ValidBeforeSpace(p, c[|p|..]);
      hide Lines, ReadEvent, VerifyLines, SpaceApart, AllSpace, Utf8Valid;
      ApartReadsAlike(Lines(p)[1], Lines(c)[1]);
      SameLinesVerdict(hash, Lines(c), Lines(p));
    }
  }

  lemma TextEndsInBrace(e: ReceiptEvent)
    ensures EventText(e) != "" && EventText(e)[|EventText(e)| - 1] == '}'
  {
    hide PrintMembers;
    assert EventJson(e).Object? && EventJson(e).members != [];
  }

  /** For a file as the journal writes it, that is: when at most the final line feed is missing. */
  lemma WrittenTailExactly(hash: Hasher, e: ReceiptEvent, f: ReceiptEvent, p: string)
    requires var c := EventLine(e) + EventLine(f);
      VerifyReceipt(hash, c).Ok? && VerifyReceipt(hash, c).value.complete && p <= c
    ensures var c := EventLine(e) + EventLine(f);
      VerifyReceipt(hash, p) == VerifyReceipt(hash, c) <==> |p| >= |c| - 1
  {
    hide *;
    TornTailExactly(hash, EventLine(e) + EventLine(f), p);
    TextEndsInBrace(f);
    LineIsText(f);
    SpaceAfterBrace(EventLine(e), EventText(f), |p|);
  }

  lemma LineIsText(e: ReceiptEvent)
    ensures EventLine(e) == EventText(e) + "\n"
  {
  }

  lemma SpaceAfterBrace(first: string, text: string, n: nat)
    requires text != "" && text[|text| - 1] == '}'
    requires n <= |first + (text + "\n")|
    ensures var c := first + (text + "\n"); AllSpace(c[n..]) <==> n >= |c| - 1
  {
    var c := first + (text + "\n");
    assert c[|c| - 2] == '}' && c[|c| - 1] == '\n';
    if n < |c| - 1 {
      assert c[n..][|c| - 2 - n] == '}';
    }
  }

  lemma SpacedLines(e: ReceiptEvent, f: ReceiptEvent)
    ensures Lines(EventLine(e) + EventText(f) + " \n") == [EventText(e), EventText(f) + " "]
  {
    EventTextReads(e);
    EventTextReads(f);
    hide EventText, ReadEvent, Blank, Lines;
    var a, b := EventText(e), EventText(f) + " ";
    assert EventLine(e) + EventText(f) + " \n" == a + "\n" + (b + "\n" + "");
    LinesCons(a, b + "\n" + "");
    LinesCons(b, "");
    NoLines();
  }

  /**
   Why the general condition speaks of white space: put a space before the last line feed of a written
   receipt, and the file has the same verdict with and without its last two bytes.
   */
  lemma MoreThanTheLineFeed(hash: Hasher, e: ReceiptEvent, f: ReceiptEvent)
    requires var c := EventLine(e) + EventLine(f);
      VerifyReceipt(hash, c).Ok? && VerifyReceipt(hash, c).value.complete && |c| < MAX_RECEIPT_BYTES
    ensures var p, verdict := EventLine(e) + EventText(f), VerifyReceipt(hash, EventLine(e) + EventLine(f));
      VerifyReceipt(hash, p) == verdict && VerifyReceipt(hash, p + " \n") == verdict
  {
    var p, c := EventLine(e) + EventText(f), EventLine(e) + EventLine(f);
    hide Lines, ReadEvent, VerifyReceipt, EventText, Utf8Valid;
    assert c == p + "\n";
    WrittenTailExactly(hash, e, f, p);
    SpaceAdded(hash, e, f);
  }

  lemma SpacedEvent(f: ReceiptEvent)
    ensures ReadEvent(EventText(f) + " ") == ReadEvent(EventText(f)) == Some(f)
  {
    EventTextReads(f);
    hide ReadEvent, EventText, SpaceApart;
    assert SpaceApart(EventText(f), EventText(f) + " ") by { SpaceApartOne(EventText(f)); }
    ApartReadsAlike(EventText(f), EventText(f) + " ");
  }

  lemma SpaceApartOne(u: string)
    ensures SpaceApart(u, u + " ")
  {
    assert (u + " ")[|u|..] == " ";
  }

  lemma SpaceAdded(hash: Hasher, e: ReceiptEvent, f: ReceiptEvent)
    requires var c := EventLine(e) + EventLine(f);
      VerifyReceipt(hash, c).Ok? && VerifyReceipt(hash, c).value.complete && |c| < MAX_RECEIPT_BYTES
    requires VerifyReceipt(hash, EventLine(e) + EventText(f)).Ok?
    ensures VerifyReceipt(hash, EventLine(e) + EventText(f) + " \n") == VerifyReceipt(hash, EventLine(e) + EventLine(f))
  {
    var p, c := EventLine(e) + EventText(f), EventLine(e) + EventLine(f);
    hide Lines, ReadEvent, VerifyLines, EventText, Utf8Valid, Blank;
    CompleteLines(hash, c);
    ConcatWithFeed(p);
    SpacedLines(e, f);
    WrittenLines(e, f);
    SpacedEvent(f);
    SameLinesVerdict(hash, Lines(c), Lines(p + " \n"));
  }

  lemma ConcatWithFeed(p: string)
    ensures Utf8Valid(p) ==> Utf8Valid(p + " \n")
  {
    AsciiValid(" \n");
    hide Utf8Valid;
    if Utf8Valid(p) {
      ConcatValid(p, " \n");
    }
  }
}
