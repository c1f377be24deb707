/** What seals, chains and torn files can and cannot say. */
module ReceiptProofs {
  import opened Wrappers
  import opened Json
  import opened JsonRoundTrip
  import opened JsonPrefix
  import opened Utf8
  import opened Integrity
  import opened Model
  import opened Codec
  import opened Receipt

  // ---------------------------------------------------------------- seals

  lemma PlanContentBinds(p: Plan, q: Plan)
    requires PlanContent(p) == PlanContent(q)
    ensures p.(planSha256 := None) == q.(planSha256 := None)
  {
    hide PlanJson, Print, DecodePlan;
    PrintInjective(PlanJson(p.(planSha256 := None)), PlanJson(q.(planSha256 := None)), Compact);
    PlanRoundTrip(p.(planSha256 := None));
    PlanRoundTrip(q.(planSha256 := None));
  }

  /** A verified hash stands for exactly one plan, in every field, or a collision is exhibited. */
  lemma SealBinding(hash: Hasher, p: Plan, q: Plan)
    requires VerifiedPlanSha256(hash, p).Ok?
    requires VerifiedPlanSha256(hash, p) == VerifiedPlanSha256(hash, q)
    ensures p == q || Collision(hash, PlanContent(p), PlanContent(q))
  {
    hide PlanContent;
    DigestBinds(hash, PlanContent(p), PlanContent(q));
    if PlanContent(p) == PlanContent(q) {
      PlanContentBinds(p, q);
    }
  }

  predicate PlanTextsValid(plan: Plan) {
    TextsValid(PlanJson(plan))
  }

  /** A verified plan of at most 1 MiB is read back from the file it was written to, and no larger one is. */
  lemma PlanFileRoundTrip(hash: Hasher, plan: Plan)
    requires VerifiedPlanSha256(hash, plan).Ok? && PlanTextsValid(plan)
    ensures ReadPlan(hash, PlanFile(plan)) == Ok(plan) <==> |PlanFile(plan)| <= 1_048_576
  {
    hide PlanJson, Print, DecodePlan, ParseDocument, VerifiedPlanSha256, Utf8Valid, TextsValid;
    DocumentRoundTrip(PlanJson(plan), Pretty(0));
    PlanRoundTrip(plan);
    PrintValid(PlanJson(plan), Pretty(0));
    AsciiValid("\n");
    ConcatValid(Print(PlanJson(plan), Pretty(0)), "\n");
  }

  // ---------------------------------------------------------------- chains

  lemma EventContentBinds(e: ReceiptEvent, f: ReceiptEvent)
    requires EventContent(e) == EventContent(f)
    ensures e.(eventSha256 := None) == f.(eventSha256 := None)
  {
    hide EventJson, Print, DecodeEvent;
    PrintInjective(EventJson(e.(eventSha256 := None)), EventJson(f.(eventSha256 := None)), Compact);
    EventRoundTrip(e.(eventSha256 := None));
    EventRoundTrip(f.(eventSha256 := None));
  }

  /** The hash of a valid event stands for that event alone, or a collision is exhibited. */
  lemma EventBinding(hash: Hasher, e: ReceiptEvent, f: ReceiptEvent)
    requires EventError(hash, e).None? && EventError(hash, f).None?
    requires e.eventSha256 == f.eventSha256
    ensures e == f || Collision(hash, EventContent(e), EventContent(f))
  {
    hide EventContent;
    DigestBinds(hash, EventContent(e), EventContent(f));
    if EventContent(e) == EventContent(f) {
      EventContentBinds(e, f);
    }
  }

  /** What acceptance of a list of events means. */
  lemma AcceptedEvents(hash: Hasher, events: seq<ReceiptEvent>)
    requires 1 <= |events| <= 2 && VerifyEvents(hash, events).Ok?
    ensures forall i | 0 <= i < |events| :: EventError(hash, events[i]).None?
    ensures events[0].state == Prepared
    ensures |events| == 2 ==> events[1].state != Prepared && events[1].previousEventSha256 == events[0].eventSha256
    ensures events[|events| - 1].eventSha256 == Some(VerifyEvents(hash, events).value.finalEventSha256)
  {
    hide EventError;
  }

  /** What acceptance of a file means for its events. */
  predicate WellFormed(hash: Hasher, events: seq<ReceiptEvent>) {
    && 1 <= |events| <= 2
    && (forall i | 0 <= i < |events| ::
          && KnownVersion(events[i].schemaVersion, events[i].toolVersion, "dmlpact.receipt-event.v1")
          && events[i].eventSha256 == Some(EventSha256(hash, events[i]))
          && events[i].sequence == i + 1
          && events[i].receiptId == events[0].receiptId
          && events[i].planSha256 == events[0].planSha256
          && events[i].sqlFileSha256 == events[0].sqlFileSha256
          && events[i].previousEventSha256 == (if i == 0 then None else events[0].eventSha256)
          && events[i].timestampUnixMs >= events[0].timestampUnixMs
          && (events[i].state == Prepared <==> i == 0) && (events[i].result.Some? <==> i == 1))
  }

  /** The events of a file are accepted exactly when each is sealed and both tell one story in order. */
  lemma AcceptedExactly(hash: Hasher, events: seq<ReceiptEvent>)
    requires 1 <= |events| <= 2
    ensures VerifyEvents(hash, events).Ok? <==> WellFormed(hash, events)
    ensures VerifyEvents(hash, events).Ok? ==>
              VerifyEvents(hash, events).value
              == ReceiptVerification(events[0].receiptId, |events| == 2, |events|, events[|events| - 1].state,
                                     events[0].planSha256, events[|events| - 1].eventSha256.value)
  {
    hide EventSha256;
    if VerifyEvents(hash, events).Ok? && |events| == 2 {
      assert Continues(events[1], events[0]);
    }
    if WellFormed(hash, events) {
      assert events[0].sequence == 0 + 1;
      if |events| == 2 {
        assert events[1].sequence == 1 + 1;
      }
    }
  }

  lemma SameItems<T>(x: seq<T>, y: seq<T>)
    requires 1 <= |x| <= 2 && |y| == |x| && x[0] == y[0] && x[|x| - 1] == y[|x| - 1]
    ensures x == y
  {
  }

  lemma ChainBindingEvents(hash: Hasher, x: seq<ReceiptEvent>, y: seq<ReceiptEvent>)
    requires 1 <= |x| <= 2 && 1 <= |y| <= 2
    requires VerifyEvents(hash, x).Ok? && VerifyEvents(hash, y).Ok?
    requires VerifyEvents(hash, x).value.finalEventSha256 == VerifyEvents(hash, y).value.finalEventSha256
    ensures || x == y
            || Collision(hash, EventContent(x[|x| - 1]), EventContent(y[|y| - 1]))
            || Collision(hash, EventContent(x[0]), EventContent(y[0]))
  {
    AcceptedEvents(hash, x);
    AcceptedEvents(hash, y);
    hide EventContent, EventError, VerifyEvents, Collision;
    EventBinding(hash, x[|x| - 1], y[|y| - 1]);
    if !Collision(hash, EventContent(x[|x| - 1]), EventContent(y[|y| - 1])) {
      assert |x| == |y|;
      EventBinding(hash, x[0], y[0]);
      if x[0] == y[0] {
        SameItems(x, y);
      }
    }
  }

  /**
   The final hash of an accepted receipt determines every event in it: it fixes the last event, whose link
   fixes the one before.
   */
  lemma ChainBinding(hash: Hasher, a: string, b: string)
    requires VerifyReceipt(hash, a).Ok? && VerifyReceipt(hash, b).Ok?
    requires VerifyReceipt(hash, a).value.finalEventSha256 == VerifyReceipt(hash, b).value.finalEventSha256
    ensures var x, y := Events(hash, a), Events(hash, b);
      || x == y
      || Collision(hash, EventContent(x[|x| - 1]), EventContent(y[|y| - 1]))
      || Collision(hash, EventContent(x[0]), EventContent(y[0]))
  {
    hide VerifyReceipt, EventContent, VerifyEvents, Collision, Events;
    ChainBindingEvents(hash, Events(hash, a), Events(hash, b));
  }

  // ---------------------------------------------------------------- lines of a file

  predicate OneLine(s: string) {
    forall i | 0 <= i < |s| :: s[i] != '\n'
  }

  lemma {:induction false} LineEndOf(l: string, rest: string)
    requires OneLine(l)
    ensures LineEnd(l + "\n" + rest) == |l|
  {
    var s := l + "\n" + rest;
    assert s[|l|] == '\n';
    assert forall i | 0 <= i < |l| :: s[i] == l[i];
  }

  lemma LinesCons(l: string, rest: string)
    requires OneLine(l)
    ensures Lines(l + "\n" + rest) == [DropReturn(l)] + Lines(rest)
  {
    var s := l + "\n" + rest;
    LineEndOf(l, rest);
    assert s[..|l|] == l && s[|l| + 1..] == rest;
  }

  lemma LinesSingle(s: string)
    requires OneLine(s) && s != ""
    ensures Lines(s) == [s]
  {
  }

  lemma BraceNotBlank(s: string)
    requires s != "" && (s[0] == '{' || s[0] == '[')
    ensures !Blank(s)
  {
  }

  lemma PrintableIsOneLine(s: string)
    requires Printable(s)
    ensures OneLine(s) && DropReturn(s) == s
  {
  }

  lemma EventTextRead(e: ReceiptEvent)
    ensures ReadEvent(EventText(e)) == Some(e)
  {
    hide EventJson, DecodeEvent, ParseDocument;
    DocumentRoundTrip(EventJson(e), Compact);
    EventRoundTrip(e);
  }

  lemma EventTextTorn(e: ReceiptEvent, p: string)
    requires p <= EventText(e) && p != EventText(e)
    ensures ReadEvent(p).None?
  {
    assert Container(EventJson(e));
    hide EventJson, DecodeEvent, ParseDocument, Print;
    TornIsNoDocument(EventJson(e), Compact, p);
  }

  /** The text of an event: one line, not blank, read back as the event, and no part of it is an event. */
  lemma EventTextReads(e: ReceiptEvent)
    ensures var t := EventText(e); t != "" && OneLine(t) && DropReturn(t) == t && !Blank(t)
    ensures ReadEvent(EventText(e)) == Some(e)
    ensures forall p | p <= EventText(e) && p != EventText(e) :: ReadEvent(p).None?
  {
    assert Container(EventJson(e));
    hide EventJson, ReadEvent, Print, Blank, Container, OneLine, DropReturn;
    CompactPrintable(EventJson(e));
    PrintableIsOneLine(EventText(e));
    ContainerStart(EventJson(e), Compact);
    BraceNotBlank(EventText(e));
    EventTextRead(e);
    forall p | p <= EventText(e) && p != EventText(e) ensures ReadEvent(p).None? {
      EventTextTorn(e, p);
    }
  }

  // ---------------------------------------------------------------- torn files

  /** Where a prefix of a file ends: in a line of the file, or just before its line feed. */
  predicate LineCut(cut: string, line: string) {
    cut <= line || cut == line + "\r"
  }

  lemma {:induction false} PrefixLines(c: string, p: string)
    requires p <= c && p != ""
    ensures 1 <= |Lines(p)| <= |Lines(c)|
    ensures var k := |Lines(p)| - 1; Lines(p)[..k] == Lines(c)[..k] && LineCut(Lines(p)[k], Lines(c)[k])
    decreases |c|
  {
    hide Lines, LineCut, DropReturn, OneLine;
    var n := LineEnd(c);
    FirstLine(c, n);
    if n == |c| {
      PartOfLine(c, p);
      LinesSingle(c);
      LinesSingle(p);
      CutInFirst(c, p);
    } else {
      var l, rest := c[..n], c[n + 1..];
      assert c == l + "\n" + rest;
      LinesCons(l, rest);
      if |p| <= n {
        assert p <= l;
        PartOfLine(l, p);
        LinesSingle(p);
        CutInFirst(l, p);
      } else {
        var more := p[n + 1..];
        assert p == l + "\n" + more && more <= rest;
        LinesCons(l, more);
        if more == "" {
          NoLines();
          CutInFirst(DropReturn(l), DropReturn(l));
        } else {
          PrefixLines(rest, more);
          LinesShift(DropReturn(l), Lines(rest), Lines(more));
        }
      }
    }
  }

  lemma FirstLine(c: string, n: nat)
    requires n == LineEnd(c)
    ensures OneLine(c[..n])
    ensures n == |c| ==> OneLine(c)
  {
  }

  lemma PartOfLine(l: string, p: string)
    requires OneLine(l) && p <= l
    ensures OneLine(p)
  {
  }

  lemma CutInFirst(l: string, p: string)
    requires p <= l
    ensures LineCut(p, DropReturn(l)) && LineCut(p, l)
  {
    if p == l && DropReturn(l) != l {
      assert l == DropReturn(l) + "\r";
    }
  }

  lemma LinesShift(l: string, x: seq<string>, y: seq<string>)
    requires 1 <= |y| <= |x| && y[..|y| - 1] == x[..|y| - 1] && LineCut(y[|y| - 1], x[|y| - 1])
    ensures var k := |y|; ([l] + y)[..k] == ([l] + x)[..k] && LineCut(([l] + y)[k], ([l] + x)[k])
  {
    assert ([l] + y)[..|y|] == [l] + y[..|y| - 1];
    assert ([l] + x)[..|y|] == [l] + x[..|y| - 1];
  }

  lemma DecodedIsContainer(v: Json)
    requires DecodeEvent(v).Some?
    ensures Container(v)
  {
    assert View(v, EVENT_FIELDS).Some?;
  }

  /** A cut of an event's line that still reads as an event reads as that event. */
  lemma CutReadsAlike(line: string, cut: string)
    requires LineCut(cut, line) && ReadEvent(line).Some? && ReadEvent(cut).Some?
    ensures ReadEvent(cut) == ReadEvent(line)
  {
    hide ParseDocument, DecodeEvent;
    DecodedIsContainer(ParseDocument(cut).value);
    DecodedIsContainer(ParseDocument(line).value);
    if cut <= line {
      PrefixReadsAlike(line, cut);
    } else {
      PrefixReadsAlike(cut, line);
    }
  }

  lemma EventsOfLines(hash: Hasher, c: string)
    requires VerifyReceipt(hash, c).Ok?
    ensures c != "" && |Events(hash, c)| == |Lines(c)|
    ensures forall i | 0 <= i < |Lines(c)| :: ReadEvent(Lines(c)[i]) == Some(Events(hash, c)[i])
  {
    hide ReadEvent, VerifyEvents, Utf8Valid, Blank;
    NoLines();
  }

  lemma TornEvents(hash: Hasher, c: string, p: string)
    requires VerifyReceipt(hash, c).Ok? && VerifyReceipt(hash, p).Ok? && p <= c
    ensures var x, y := Events(hash, c), Events(hash, p);
      |y| <= |x| && forall i | 0 <= i < |y| :: y[i] == x[i]
  {
    hide ReadEvent, VerifyReceipt, Lines, LineCut, Events;
    EventsOfLines(hash, c);
    EventsOfLines(hash, p);
    PrefixLines(c, p);
    var x, y, k := Events(hash, c), Events(hash, p), |Lines(p)| - 1;
    forall i | 0 <= i < |y| ensures y[i] == x[i] {
      if i < k {
        assert Lines(p)[i] == Lines(p)[..k][i] == Lines(c)[..k][i];
      } else {
        CutReadsAlike(Lines(c)[i], Lines(p)[i]);
      }
    }
  }

  lemma TornVerdict(hash: Hasher, x: seq<ReceiptEvent>, y: seq<ReceiptEvent>)
    requires 1 <= |y| <= |x| <= 2 && forall i | 0 <= i < |y| :: y[i] == x[i]
    requires VerifyEvents(hash, x).Ok? && VerifyEvents(hash, y).Ok?
    ensures var whole, part := VerifyEvents(hash, x).value, VerifyEvents(hash, y).value;
      || part == whole
      || (whole.complete && !part.complete && part.finalState == Prepared && part.eventCount == 1
          && part.receiptId == whole.receiptId && part.planSha256 == whole.planSha256)
  {
    hide EventError;
    if |y| == |x| {
      assert y == x;
    }
  }

  /**
   However a crash shortens an accepted file, the verifier fails, reports the file's own verdict, or reports
   the same run as prepared and incomplete.
   */
  lemma TornTail(hash: Hasher, c: string, p: string)
    requires VerifyReceipt(hash, c).Ok? && p <= c
    ensures var whole := VerifyReceipt(hash, c).value; match VerifyReceipt(hash, p)
      case Err(_) => true
      case Ok(part) =>
        || part == whole
        || (whole.complete && !part.complete && part.finalState == Prepared && part.eventCount == 1
            && part.receiptId == whole.receiptId && part.planSha256 == whole.planSha256)
  {
    if VerifyReceipt(hash, p).Ok? {
      TornEvents(hash, c, p);
      var x, y := Events(hash, c), Events(hash, p);
      hide VerifyReceipt, VerifyEvents, Events;
      TornVerdict(hash, x, y);
    }
  }

  /** The verdict on the lines of two events is the verdict on the events. */
  lemma VerifyTwoLines(hash: Hasher, e: ReceiptEvent, f: ReceiptEvent)
    ensures VerifyLines(hash, [EventText(e)]) == VerifyEvents(hash, [e])
    ensures VerifyLines(hash, [EventText(e), EventText(f)]) == VerifyEvents(hash, [e, f])
  {
    EventTextReads(e);
    EventTextReads(f);
    hide EventText, ReadEvent, Blank, VerifyEvents;
    var one, two := [EventText(e)], [EventText(e), EventText(f)];
    assert ReadEvents(one).value == [e];
    assert ReadEvents(two).value == [e, f];
  }

  lemma TornLineUnread(hash: Hasher, e: ReceiptEvent, lines: seq<string>, p: string)
    requires p <= EventText(e) && p != EventText(e)
    ensures VerifyLines(hash, lines + [p]).Err?
  {
    EventTextReads(e);
    hide EventText, ReadEvent, Blank;
    var all := lines + [p];
    assert all[|lines|] == p;
  }

  /**
   A written receipt shortened to any length: unless nothing or only the final line feed is missing, the
   verifier cannot report the run as complete.  This does not suppose that the whole file is accepted.
   */
  lemma WrittenTorn(hash: Hasher, e: ReceiptEvent, f: ReceiptEvent, p: string)
    requires p <= EventLine(e) + EventLine(f)
    requires VerifyReceipt(hash, p).Ok?
    ensures var v := VerifyReceipt(hash, p);
      if v.value.complete
      then |p| >= |EventLine(e)| + |EventText(f)| && v == VerifyEvents(hash, [e, f])
      else |EventText(e)| <= |p| <= |EventLine(e)| && v == VerifyEvents(hash, [e])
  {
    EventTextReads(e);
    EventTextReads(f);
    VerifyTwoLines(hash, e, f);
    hide EventText, ReadEvent, Blank, VerifyEvents, VerifyLines, Utf8Valid, Lines;
    var a, b := EventText(e), EventText(f);
    var whole := EventLine(e) + EventLine(f);
    assert whole == a + "\n" + (b + "\n");
    assert Lines("") == [] by { NoLines(); }
    if |p| <= |a| {
      assert p == whole[..|p|] == a[..|p|];
      if p == "" {
        NoVerdict(hash);
      } else {
        LinesSingle(p);
        if p != a {
          assert [] + [p] == [p];
          TornLineUnread(hash, e, [], p);
        }
        OneVerdict(hash, e);
      }
    } else {
      var q := p[|a| + 1..];
      assert q <= b + "\n";
      assert p == a + "\n" + q;
      LinesCons(a, q);
      if q == "" {
        assert Lines(p) == [a];
        OneVerdict(hash, e);
      } else if |q| < |b| {
        assert q == b[..|q|];
        LinesSingle(q);
        TornLineUnread(hash, f, [a], q);
      } else {
        TwoVerdict(hash, e, f);
        if |q| == |b| {
          assert q == b;
          LinesSingle(q);
        } else {
          assert q == b + "\n" + "";
          LinesCons(b, "");
        }
        assert Lines(p) == [a, b];
      }
    }
  }

  lemma NoLines()
    ensures Lines("") == []
  {
  }

  lemma NoVerdict(hash: Hasher)
    ensures VerifyLines(hash, []).Err?
  {
  }

  lemma OneVerdict(hash: Hasher, e: ReceiptEvent)
    ensures VerifyEvents(hash, [e]).Ok? ==> !VerifyEvents(hash, [e]).value.complete
  {
    hide EventError;
  }

  lemma TwoVerdict(hash: Hasher, e: ReceiptEvent, f: ReceiptEvent)
    ensures VerifyEvents(hash, [e, f]).Ok? ==>
              VerifyEvents(hash, [e, f]).value.complete && VerifyEvents(hash, [e, f]).value.finalState == f.state
  {
    hide EventError;
  }

  // ---------------------------------------------------------------- the receipt round trip

  predicate EventTextsValid(e: ReceiptEvent) {
    TextsValid(EventJson(e))
  }

  lemma EventLineValid(e: ReceiptEvent)
    requires EventTextsValid(e)
    ensures Utf8Valid(EventLine(e))
  {
    hide EventJson, Print, Utf8Valid, TextsValid;
    PrintValid(EventJson(e), Compact);
    AsciiValid("\n");
    ConcatValid(EventText(e), "\n");
  }

  lemma SealedHasNoError(hash: Hasher, e: ReceiptEvent)
    requires e.schemaVersion == RECEIPT_SCHEMA_VERSION && e.toolVersion == TOOL_VERSION
    ensures EventError(hash, Sealed(hash, e)).None?
  {
    hide EventContent;
    assert EventContent(Sealed(hash, e)) == EventContent(e) by { SealIgnoresHash(e, Some(EventSha256(hash, e))); }
  }

  lemma SealIgnoresHash(e: ReceiptEvent, h: Option<string>)
    ensures EventContent(e.(eventSha256 := h)) == EventContent(e)
  {
    assert e.(eventSha256 := h).(eventSha256 := None) == e.(eventSha256 := None);
  }

  /** The two events of one journal verify exactly when the clock did not go backwards. */
  lemma PairVerdict(hash: Hasher, planSha256: string, sqlSha256: string, id: string, t1: U64,
                    state: ReceiptState, result: ReceiptResult, t2: U64)
    requires state.IsFinal()
    ensures var e := PreparedEvent(hash, planSha256, sqlSha256, id, t1);
      var f := FinalEvent(hash, e, state, result, t2);
      && (VerifyEvents(hash, [e, f]).Ok? <==> t2 >= t1)
      && (VerifyEvents(hash, [e, f]).Ok? ==>
            VerifyEvents(hash, [e, f]).value
            == ReceiptVerification(id, true, 2, state, planSha256, f.eventSha256.value))
  {
    hide EventError, EventSha256;
    var e := PreparedEvent(hash, planSha256, sqlSha256, id, t1);
    var f := FinalEvent(hash, e, state, result, t2);
    SealedHasNoError(hash, e.(eventSha256 := None));
    SealedHasNoError(hash, f.(eventSha256 := None));
  }

  /** The bytes of two events have the verdict of the events, if they are not too many. */
  lemma PairBytes(hash: Hasher, e: ReceiptEvent, f: ReceiptEvent)
    requires EventTextsValid(e) && EventTextsValid(f)
    ensures var bytes := EventLine(e) + EventLine(f);
      VerifyReceipt(hash, bytes)
      == if |bytes| > MAX_RECEIPT_BYTES then ContractError("receipt_file_invalid") else VerifyEvents(hash, [e, f])
  {
    hide EventTextsValid, VerifyLines, Utf8Valid, EventText, Lines, VerifyEvents;
    EventLineValid(e);
    EventLineValid(f);
    ConcatValid(EventLine(e), EventLine(f));
    WrittenLines(e, f);
    VerifyTwoLines(hash, e, f);
  }

  /**
   A created and finalized receipt is accepted as complete, with its own state, plan and identity, exactly
   when the clock did not go backwards and the file is at most 2 MiB.
   */
  lemma ReceiptRoundTrip(hash: Hasher, planSha256: string, sqlSha256: string, id: string, t1: U64,
                         state: ReceiptState, result: ReceiptResult, t2: U64)
    requires state.IsFinal()
    requires EventTextsValid(PreparedEvent(hash, planSha256, sqlSha256, id, t1))
    requires EventTextsValid(FinalEvent(hash, PreparedEvent(hash, planSha256, sqlSha256, id, t1), state, result, t2))
    ensures var e := PreparedEvent(hash, planSha256, sqlSha256, id, t1);
      var f := FinalEvent(hash, e, state, result, t2);
      var bytes := EventLine(e) + EventLine(f);
      && (VerifyReceipt(hash, bytes).Ok? <==> t2 >= t1 && |bytes| <= 2_097_152)
      && (VerifyReceipt(hash, bytes).Ok? ==>
            VerifyReceipt(hash, bytes).value
            == ReceiptVerification(id, true, 2, state, planSha256, f.eventSha256.value))
  {
    var e := PreparedEvent(hash, planSha256, sqlSha256, id, t1);
    var f := FinalEvent(hash, e, state, result, t2);
    PairVerdict(hash, planSha256, sqlSha256, id, t1, state, result, t2);
    hide VerifyReceipt, VerifyEvents, EventTextsValid, EventText, EventSha256;
    PairBytes(hash, e, f);
  }

  lemma WrittenLines(e: ReceiptEvent, f: ReceiptEvent)
    ensures Lines(EventLine(e) + EventLine(f)) == [EventText(e), EventText(f)]
    ensures Lines(EventLine(e)) == [EventText(e)]
  {
    EventTextReads(e);
    EventTextReads(f);
    hide EventText, ReadEvent, Blank, Lines;
    var a, b := EventText(e), EventText(f);
    assert EventLine(e) + EventLine(f) == a + "\n" + (b + "\n" + "");
    assert EventLine(e) == a + "\n" + "";
    LinesCons(a, b + "\n" + "");
    LinesCons(a, "");
    LinesCons(b, "");
    NoLines();
  }
}
