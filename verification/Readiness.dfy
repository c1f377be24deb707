/**
 The release-readiness evaluator (scripts/verify_v1_evidence.py).

 Dates are day numbers.  Names are compared after `strip().casefold()`, which is the parameter `fold`, and
 `major` gives the major number of a text that the SemVer pattern matches.
 */
module Readiness {
  import opened Wrappers

  type Day = int

  type Fold = string -> string

  type Versions = string -> Option<nat>

  datatype Gate = Gate(satisfied: bool, criteria: seq<string>)

  datatype Window = Window(start: Option<Day>, end: Option<Day>, requiredDays: nat, tracks: map<string, seq<Day>>)

  datatype Continuity = Continuity(satisfied: bool, mode: Option<string>, evidence: seq<string>)

  datatype Adopter = Adopter(name: string, firstUse: Day)

  datatype Repeat = Repeat(adopter: string, repeatUse: Day)

  datatype Manifest = Manifest(
    targetVersion: string,
    asOf: Day,
    product: Gate,
    correctness: Gate,
    review: Option<Day>,
    openCritical: nat,
    openHigh: nat,
    areas: seq<string>,
    performance: Gate,
    delivery: Gate,
    window: Window,
    continuity: Continuity,
    adoptionSatisfied: bool,
    adopters: seq<Adopter>,
    repeats: seq<Repeat>,
    integration: bool,
    contribution: bool)

  const PRODUCT_CRITERIA := {
    "contract-compatibility", "golden-artifacts", "plan-assumption-sealing", "fail-closed-unsupported-input"}
  const CORRECTNESS_CRITERIA := {
    "sql-corpus", "postgresql-stress", "artifact-adversarial-corpus", "tls-fixtures", "vulnerability-audit"}
  const PERFORMANCE_CRITERIA := {
    "plan-generation", "apply-overhead", "bounded-fixture-memory", "configured-bounds", "benchmark-reproducibility"}
  const DELIVERY_CRITERIA := {"release-supply-chain", "security-response-slo"}
  const REVIEW_AREAS := {
    "sql-parsing", "identifier-handling", "transaction-isolation", "locking", "toctou-races", "triggers", "rls", "tls",
    "credentials", "artifacts", "receipt-publication", "diagnostic-disclosure"}
  const CI_TRACKS := ["linux", "live-postgresql", "macos", "windows"]
  const CONTINUITY_MODES := {"two-maintainer-drill"}

  // ---------------------------------------------------------------- structure

  function Members<T>(s: seq<T>): set<T> {
    set x | x in s
  }

  predicate Distinct<T(==)>(s: seq<T>) {
    forall i, j | 0 <= i < j < |s| :: s[i] != s[j]
  }

  predicate GateStructure(g: Gate, criteria: set<string>) {
    Distinct(g.criteria) && Members(g.criteria) <= criteria
  }

  /** What `validate_structure` guarantees about the fields that the readiness rules read. */
  predicate StructureValid(m: Manifest, major: Versions) {
    && major(m.targetVersion).Some?
    && GateStructure(m.product, PRODUCT_CRITERIA)
    && GateStructure(m.correctness, CORRECTNESS_CRITERIA)
    && GateStructure(m.performance, PERFORMANCE_CRITERIA)
    && GateStructure(m.delivery, DELIVERY_CRITERIA)
    && Distinct(m.areas) && Members(m.areas) <= REVIEW_AREAS
    && m.window.requiredDays == 30
    && m.window.tracks.Keys == Members(CI_TRACKS)
    && (forall t | t in m.window.tracks :: Distinct(m.window.tracks[t]))
    && (m.continuity.mode.Some? ==> m.continuity.mode.value in CONTINUITY_MODES)
  }

  // ---------------------------------------------------------------- the declarative gate

  predicate VersionReady(m: Manifest, release: Option<string>, major: Versions) {
    && major(m.targetVersion).Some? && major(m.targetVersion).value >= 1
    && (release.Some? ==> major(release.value).Some? && release.value == m.targetVersion)
  }

  predicate GatesReady(m: Manifest) {
    && m.product.satisfied && m.correctness.satisfied && m.performance.satisfied && m.delivery.satisfied
    && m.adoptionSatisfied
    && Members(m.product.criteria)
       == {"contract-compatibility", "golden-artifacts", "plan-assumption-sealing", "fail-closed-unsupported-input"}
    && Members(m.correctness.criteria)
       == {"sql-corpus", "postgresql-stress", "artifact-adversarial-corpus", "tls-fixtures", "vulnerability-audit"}
    && Members(m.performance.criteria)
       == {"plan-generation", "apply-overhead", "bounded-fixture-memory", "configured-bounds",
           "benchmark-reproducibility"}
    && Members(m.delivery.criteria) == {"release-supply-chain", "security-response-slo"}
  }

  predicate SecurityReady(m: Manifest) {
    && m.review.Some? && m.openCritical == 0 && m.openHigh == 0
    && Members(m.areas)
       == {"sql-parsing", "identifier-handling", "transaction-isolation", "locking", "toctou-races", "triggers", "rls",
           "tls", "credentials", "artifacts", "receipt-publication", "diagnostic-disclosure"}
  }

  /** Each track has exactly one run on every day of a window of at least 30 days up to `asOf`, and no other. */
  ghost predicate WindowReady(m: Manifest) {
    && m.window.tracks.Keys == {"linux", "live-postgresql", "macos", "windows"}
    && m.window.start.Some? && m.window.end == Some(m.asOf)
    && m.asOf - m.window.start.value >= 29
    && forall t, day | t in m.window.tracks ::
         multiset(m.window.tracks[t])[day] == if m.window.start.value <= day <= m.asOf then 1 else 0
  }

  predicate ContinuityReady(m: Manifest) {
    m.continuity.satisfied && m.continuity.mode == Some("two-maintainer-drill") && m.continuity.evidence != []
  }

  /** The repeat use is at least 30 days after the first use of an adopter of that name. */
  predicate Follows(r: Repeat, adopters: seq<Adopter>, fold: Fold) {
    exists i | 0 <= i < |adopters| :: fold(adopters[i].name) == fold(r.adopter) && r.repeatUse - adopters[i].firstUse >= 30
  }

  predicate AdoptionReady(m: Manifest, fold: Fold) {
    && |m.adopters| >= 3
    && (forall i, j | 0 <= i < j < |m.adopters| :: fold(m.adopters[i].name) != fold(m.adopters[j].name))
    && |m.repeats| >= 2
    && (forall i, j | 0 <= i < j < |m.repeats| :: fold(m.repeats[i].adopter) != fold(m.repeats[j].adopter))
    && (forall i | 0 <= i < |m.repeats| :: Follows(m.repeats[i], m.adopters, fold))
    && m.integration && m.contribution
  }

  predicate NothingLater(m: Manifest) {
    && (m.review.Some? ==> m.review.value <= m.asOf)
    && (forall i | 0 <= i < |m.adopters| :: m.adopters[i].firstUse <= m.asOf)
    && (forall i | 0 <= i < |m.repeats| :: m.repeats[i].repeatUse <= m.asOf)
  }

  ghost predicate Ready(m: Manifest, release: Option<string>, major: Versions, fold: Fold) {
    && VersionReady(m, release, major) && GatesReady(m) && SecurityReady(m) && WindowReady(m) && ContinuityReady(m)
    && AdoptionReady(m, fold) && NothingLater(m)
  }

  // ---------------------------------------------------------------- what is reported

  datatype Code =
    | TargetVersion | ReleaseVersionFormat | ReleaseVersion
    | GateStatus | GateEvidence
    | SecurityReview | SecurityScope | SecurityFindings
    | CiWindow | CiFreshness | CiPlatform
    | ContinuityStatus | ContinuityMode | ContinuityEvidence
    | Adopters | AdopterDuplicates | RepeatDuplicates | RepeatAdopter | RepeatWindow | RepeatAdopters
    | PublicIntegration | ExternalContribution
    | AsOf

  /** The days of the window; none when it is incomplete or backwards. */
  function ExpectedDays(w: Window): set<Day> {
    if w.start.Some? && w.end.Some? && w.end.value >= w.start.value then
      Members(seq(w.end.value - w.start.value + 1, offset => w.start.value + offset))
    else {}
  }

  predicate Covered(w: Window, track: string) {
    track in w.tracks && Members(w.tracks[track]) == ExpectedDays(w)
  }

  /** `{adopter name: first use}`: of adopters with one name, the last one counts. */
  function FirstUse(adopters: seq<Adopter>, name: string, fold: Fold): Option<Day> {
    if adopters == [] then None
    else
      var last := adopters[|adopters| - 1];
      if fold(last.name) == name then Some(last.firstUse) else FirstUse(adopters[..|adopters| - 1], name, fold)
  }

  function AdopterNames(adopters: seq<Adopter>, fold: Fold): (names: seq<string>)
    ensures |names| == |adopters| && forall i | 0 <= i < |names| :: names[i] == fold(adopters[i].name)
  {
    seq(|adopters|, i requires 0 <= i < |adopters| => fold(adopters[i].name))
  }

  function RepeatNames(repeats: seq<Repeat>, fold: Fold): (names: seq<string>)
    ensures |names| == |repeats| && forall i | 0 <= i < |names| :: names[i] == fold(repeats[i].adopter)
  {
    seq(|repeats|, i requires 0 <= i < |repeats| => fold(repeats[i].adopter))
  }

  lemma Extended<T>(s: seq<T>, x: T)
    ensures Distinct(s + [x]) <==> Distinct(s) && x !in s
    ensures Members(s + [x]) == Members(s) + {x}
  {
    var t := s + [x];
    assert t[|s|] == x;
    assert forall i | 0 <= i < |s| :: t[i] == s[i];
    assert forall i | 0 <= i < |s| :: t[i] == t[|s|] ==> !Distinct(t);
  }

  lemma {:induction false} MembersSize<T>(s: seq<T>)
    ensures |Members(s)| <= |s|
    ensures |Members(s)| == |s| <==> Distinct(s)
  {
    if s != [] {
      var rest, last := s[..|s| - 1], s[|s| - 1];
      MembersSize(rest);
      assert s == rest + [last];
      Extended(rest, last);
      assert last in rest ==> Members(rest) + {last} == Members(rest);
    }
  }

  lemma {:induction false} FirstUseIsSome(adopters: seq<Adopter>, name: string, fold: Fold)
    ensures FirstUse(adopters, name, fold).Some? ==>
              exists i | 0 <= i < |adopters| ::
                fold(adopters[i].name) == name && Some(adopters[i].firstUse) == FirstUse(adopters, name, fold)
    ensures FirstUse(adopters, name, fold).None? ==> forall i | 0 <= i < |adopters| :: fold(adopters[i].name) != name
  {
    if adopters != [] {
      var rest := adopters[..|adopters| - 1];
      FirstUseIsSome(rest, name, fold);
      if fold(adopters[|adopters| - 1].name) != name && FirstUse(rest, name, fold).Some? {
        var i :| 0 <= i < |rest| && fold(rest[i].name) == name && Some(rest[i].firstUse) == FirstUse(rest, name, fold);
        assert adopters[i] == rest[i];
      }
    }
  }

  predicate Unplaced(r: Repeat, adopters: seq<Adopter>, fold: Fold) {
    FirstUse(adopters, fold(r.adopter), fold).None?
  }

  predicate TooSoon(r: Repeat, adopters: seq<Adopter>, fold: Fold) {
    var first := FirstUse(adopters, fold(r.adopter), fold);
    first.Some? && r.repeatUse - first.value < 30
  }

  /** A date that is read for the freshness check lies after `asOf`. */
  ghost predicate LaterDate(m: Manifest, fold: Fold) {
    || (m.window.end.Some? && m.window.end.value > m.asOf)
    || (m.review.Some? && m.review.value > m.asOf)
    || (exists n :: FirstUse(m.adopters, n, fold).Some? && FirstUse(m.adopters, n, fold).value > m.asOf)
    || (exists i | 0 <= i < |m.repeats| :: m.repeats[i].repeatUse > m.asOf)
  }

  /** When each code is reported, section by section. */
  predicate VersionReports(m: Manifest, release: Option<string>, major: Versions, code: Code) {
    match code
    case TargetVersion => major(m.targetVersion).None? || major(m.targetVersion).value < 1
    case ReleaseVersionFormat => release.Some? && major(release.value).None?
    case ReleaseVersion => release.Some? && major(release.value).Some? && release.value != m.targetVersion
    case _ => false
  }

  predicate GateReports(m: Manifest, code: Code) {
    match code
    case GateStatus =>
      || !m.adoptionSatisfied || !m.correctness.satisfied || !m.delivery.satisfied || !m.performance.satisfied
      || !m.product.satisfied
    case GateEvidence =>
      || Incomplete((m.correctness, CORRECTNESS_CRITERIA)) || Incomplete((m.delivery, DELIVERY_CRITERIA))
      || Incomplete((m.performance, PERFORMANCE_CRITERIA)) || Incomplete((m.product, PRODUCT_CRITERIA))
    case _ => false
  }

  predicate Incomplete(pair: (Gate, set<string>)) {
    !(pair.1 <= Members(pair.0.criteria))
  }

  predicate SecurityReports(m: Manifest, code: Code) {
    match code
    case SecurityReview => m.review.None?
    case SecurityScope => Members(m.areas) != REVIEW_AREAS
    case SecurityFindings => m.openCritical != 0 || m.openHigh != 0
    case _ => false
  }

  predicate WindowReports(m: Manifest, code: Code) {
    var w := m.window;
    match code
    case CiWindow =>
      || w.start.None? || w.end.None? || w.end.value - w.start.value + 1 < w.requiredDays
      || w.end.value < w.start.value
    case CiFreshness => w.end.Some? && w.end.value != m.asOf
    case CiPlatform => exists k | 0 <= k < |CI_TRACKS| :: !Covered(w, CI_TRACKS[k])
    case _ => false
  }

  predicate ContinuityReports(m: Manifest, code: Code) {
    match code
    case ContinuityStatus => !m.continuity.satisfied
    case ContinuityMode => m.continuity.mode.None? || m.continuity.mode.value !in CONTINUITY_MODES
    case ContinuityEvidence => m.continuity.evidence == []
    case _ => false
  }

  predicate RepeatReports(repeats: seq<Repeat>, adopters: seq<Adopter>, fold: Fold, code: Code) {
    match code
    case RepeatDuplicates => !Distinct(RepeatNames(repeats, fold))
    case RepeatAdopter => exists i | 0 <= i < |repeats| :: Unplaced(repeats[i], adopters, fold)
    case RepeatWindow => exists i | 0 <= i < |repeats| :: TooSoon(repeats[i], adopters, fold)
    case _ => false
  }

  predicate AdoptionReports(m: Manifest, fold: Fold, code: Code) {
    var names := AdopterNames(m.adopters, fold);
    match code
    case Adopters => |m.adopters| < 3 || |Members(names)| < 3
    case AdopterDuplicates => !Distinct(names)
    case RepeatAdopters => |Members(RepeatNames(m.repeats, fold)) * Members(names)| < 2
    case PublicIntegration => !m.integration
    case ExternalContribution => !m.contribution
    case _ => RepeatReports(m.repeats, m.adopters, fold, code)
  }

  ghost predicate Reported(m: Manifest, release: Option<string>, major: Versions, fold: Fold, code: Code) {
    || VersionReports(m, release, major, code) || GateReports(m, code) || SecurityReports(m, code)
    || WindowReports(m, code) || ContinuityReports(m, code) || AdoptionReports(m, fold, code)
    || (code.AsOf? && LaterDate(m, fold))
  }

  // ---------------------------------------------------------------- the program

  method VersionErrors(m: Manifest, release: Option<string>, major: Versions) returns (errors: seq<Code>)
    ensures forall code :: code in errors <==> VersionReports(m, release, major, code)
  {
    errors := [];
    if major(m.targetVersion).None? || major(m.targetVersion).value < 1 {
      errors := errors + [TargetVersion];
    }
    if release.Some? {
      if major(release.value).None? {
        errors := errors + [ReleaseVersionFormat];
      } else if m.targetVersion != release.value {
        errors := errors + [ReleaseVersion];
      }
    }
  }

  method GateErrors(m: Manifest) returns (errors: seq<Code>)
    ensures forall code :: code in errors <==> GateReports(m, code)
  {
    errors := [];
    var statuses := [m.adoptionSatisfied, m.correctness.satisfied, m.delivery.satisfied, m.performance.satisfied,
                     m.product.satisfied];
    for i := 0 to |statuses|
      invariant forall code :: code in errors <==> code.GateStatus? && exists k | 0 <= k < i :: !statuses[k]
    {
      if !statuses[i] {
        errors := errors + [GateStatus];
      }
    }
    assert (exists k | 0 <= k < |statuses| :: !statuses[k])
      <==> !statuses[0] || !statuses[1] || !statuses[2] || !statuses[3] || !statuses[4];
    ghost var statusErrors := errors;
    var pairs := [(m.correctness, CORRECTNESS_CRITERIA), (m.delivery, DELIVERY_CRITERIA),
                  (m.performance, PERFORMANCE_CRITERIA), (m.product, PRODUCT_CRITERIA)];
    for i := 0 to |pairs|
      invariant forall code :: code in errors <==>
        code in statusErrors || (code.GateEvidence? && exists k | 0 <= k < i :: Incomplete(pairs[k]))
    {
      var missing := pairs[i].1 - Members(pairs[i].0.criteria);
      NothingMissing(pairs[i].1, Members(pairs[i].0.criteria));
      if missing != {} {
        errors := errors + [GateEvidence];
      }
    }
    assert (exists k | 0 <= k < |pairs| :: Incomplete(pairs[k]))
      <==> Incomplete(pairs[0]) || Incomplete(pairs[1]) || Incomplete(pairs[2]) || Incomplete(pairs[3]);
  }

  method SecurityErrors(m: Manifest) returns (errors: seq<Code>)
    ensures forall code :: code in errors <==> SecurityReports(m, code)
  {
    errors := [];
    if m.review.None? {
      errors := errors + [SecurityReview];
    }
    if Members(m.areas) != REVIEW_AREAS {
      errors := errors + [SecurityScope];
    }
    if m.openCritical != 0 || m.openHigh != 0 {
      errors := errors + [SecurityFindings];
    }
  }

  method WindowErrors(m: Manifest) returns (errors: seq<Code>)
    requires m.window.tracks.Keys == Members(CI_TRACKS)
    ensures forall code :: code in errors <==> WindowReports(m, code)
  {
    errors := [];
    var w := m.window;
    if w.start.None? || w.end.None? {
      errors := errors + [CiWindow];
    } else if w.end.value < w.start.value {
      errors := errors + [CiWindow];
    } else if w.end.value - w.start.value + 1 < w.requiredDays {
      errors := errors + [CiWindow];
    }
    if w.end.Some? && w.end.value != m.asOf {
      errors := errors + [CiFreshness];
    }
    ghost var before := errors;
    for i := 0 to |CI_TRACKS|
      invariant forall code :: code in errors <==>
        code in before || (code.CiPlatform? && exists k | 0 <= k < i :: !Covered(w, CI_TRACKS[k]))
    {
      assert CI_TRACKS[i] in Members(CI_TRACKS);
      var actual := Members(w.tracks[CI_TRACKS[i]]);
      assert Covered(w, CI_TRACKS[i]) <==> ExpectedDays(w) - actual == {} && actual - ExpectedDays(w) == {} by {
        SetsEqual(ExpectedDays(w), actual);
      }
      if ExpectedDays(w) - actual != {} {
        errors := errors + [CiPlatform];
      }
      if actual - ExpectedDays(w) != {} {
        errors := errors + [CiPlatform];
      }
    }
  }

  lemma NothingMissing<T>(a: set<T>, b: set<T>)
    ensures a - b == {} <==> a <= b
  {
    if a - b == {} {
      assert forall x | x in a :: x in b || x in a - b;
    }
  }

  lemma SetsEqual<T>(a: set<T>, b: set<T>)
    ensures a == b <==> a - b == {} && b - a == {}
  {
    NothingMissing(a, b);
    NothingMissing(b, a);
  }

  method ContinuityErrors(m: Manifest) returns (errors: seq<Code>)
    ensures forall code :: code in errors <==> ContinuityReports(m, code)
  {
    errors := [];
    if !m.continuity.satisfied {
      errors := errors + [ContinuityStatus];
    }
    if m.continuity.mode.None? || m.continuity.mode.value !in CONTINUITY_MODES {
      errors := errors + [ContinuityMode];
    }
    if m.continuity.evidence == [] {
      errors := errors + [ContinuityEvidence];
    }
  }

  /** What the dictionary of first uses holds. */
  ghost predicate Records(byName: map<string, Day>, adopters: seq<Adopter>, fold: Fold) {
    forall n :: FirstUse(adopters, n, fold) == if n in byName then Some(byName[n]) else None
  }

  method RecordFirstUses(adopters: seq<Adopter>, fold: Fold) returns (byName: map<string, Day>)
    ensures Records(byName, adopters, fold)
  {
    byName := map[];
    for i := 0 to |adopters|
      invariant Records(byName, adopters[..i], fold)
    {
      assert adopters[..i + 1][..i] == adopters[..i];
      byName := byName[fold(adopters[i].name) := adopters[i].firstUse];
    }
    assert adopters[..|adopters|] == adopters;
  }

  method RepeatErrors(repeats: seq<Repeat>, byName: map<string, Day>, adopters: seq<Adopter>, fold: Fold)
    returns (errors: seq<Code>, repeated: set<string>)
    requires Records(byName, adopters, fold)
    ensures forall code :: code in errors <==> RepeatReports(repeats, adopters, fold, code)
    ensures repeated == Members(RepeatNames(repeats, fold))
  {
    hide FirstUse, Distinct, Members, RepeatNames;
    errors, repeated := [], {};
    Nobody(repeats, fold);
    for i := 0 to |repeats|
      invariant repeated == Members(RepeatNames(repeats[..i], fold))
      invariant RepeatDuplicates in errors <==> !Distinct(RepeatNames(repeats[..i], fold))
      invariant RepeatAdopter in errors <==> exists k | 0 <= k < i :: Unplaced(repeats[k], adopters, fold)
      invariant RepeatWindow in errors <==> exists k | 0 <= k < i :: TooSoon(repeats[k], adopters, fold)
      invariant forall code | code in errors :: code.RepeatDuplicates? || code.RepeatAdopter? || code.RepeatWindow?
    {
      var name := fold(repeats[i].adopter);
      ghost var before := RepeatNames(repeats[..i], fold);
      assert RepeatNames(repeats[..i + 1], fold) == before + [name];
      Extended(before, name);
      assert name in repeated <==> name in before by { InMembers(before, name); }
      if name in repeated {
        errors := errors + [RepeatDuplicates];
      }
      repeated := repeated + {name};
      if name !in byName {
        errors := errors + [RepeatAdopter];
      } else if repeats[i].repeatUse - byName[name] < 30 {
        errors := errors + [RepeatWindow];
      }
    }
    assert repeats[..|repeats|] == repeats;
  }

  lemma Nobody(repeats: seq<Repeat>, fold: Fold)
    ensures Distinct(RepeatNames(repeats[..0], fold)) && Members(RepeatNames(repeats[..0], fold)) == {}
  {
  }

  lemma InMembers<T>(s: seq<T>, x: T)
    ensures x in Members(s) <==> x in s
  {
  }

  method AdoptionErrors(m: Manifest, fold: Fold) returns (errors: seq<Code>, byName: map<string, Day>)
    ensures forall code :: code in errors <==> AdoptionReports(m, fold, code)
    ensures Records(byName, m.adopters, fold)
  {
    hide Distinct, Members, Records, RepeatReports;
    errors := [];
    var names := AdopterNames(m.adopters, fold);
    var unique := Members(names);
    MembersSize(names);
    if |m.adopters| < 3 || |unique| < 3 {
      errors := errors + [Adopters];
    }
    if |unique| != |names| {
      errors := errors + [AdopterDuplicates];
    }
    byName := RecordFirstUses(m.adopters, fold);
    var repeatErrors, repeated := RepeatErrors(m.repeats, byName, m.adopters, fold);
    errors := errors + repeatErrors;
    if |repeated * unique| < 2 {
      errors := errors + [RepeatAdopters];
    }
    if !m.integration {
      errors := errors + [PublicIntegration];
    }
    if !m.contribution {
      errors := errors + [ExternalContribution];
    }
    forall code ensures RepeatReports(m.repeats, m.adopters, fold, code) ==>
      code.RepeatDuplicates? || code.RepeatAdopter? || code.RepeatWindow?
    {
      OnlyRepeatCodes(m.repeats, m.adopters, fold, code);
    }
  }

  method AsOfErrors(m: Manifest, byName: map<string, Day>, fold: Fold) returns (errors: seq<Code>)
    requires Records(byName, m.adopters, fold)
    ensures forall code :: code in errors <==> code.AsOf? && LaterDate(m, fold)
  {
    errors := [];
    var dated: set<Day> := {};
    if m.window.end.Some? {
      dated := dated + {m.window.end.value};
    }
    if m.review.Some? {
      dated := dated + {m.review.value};
    }
    dated := dated + byName.Values;
    ghost var before := dated;
    for i := 0 to |m.repeats|
      invariant forall d :: d in dated <==> d in before || exists k | 0 <= k < i :: m.repeats[k].repeatUse == d
    {
      dated := dated + {m.repeats[i].repeatUse};
    }
    if exists d | d in dated :: d > m.asOf {
      errors := errors + [AsOf];
    }
    LaterMeaning(m, byName, before, dated, fold);
  }

  lemma LaterMeaning(m: Manifest, byName: map<string, Day>, before: set<Day>, dated: set<Day>, fold: Fold)
    requires Records(byName, m.adopters, fold)
    requires before == (if m.window.end.Some? then {m.window.end.value} else {})
                       + (if m.review.Some? then {m.review.value} else {}) + byName.Values
    requires forall d :: d in dated <==> d in before || exists k | 0 <= k < |m.repeats| :: m.repeats[k].repeatUse == d
    ensures (exists d | d in dated :: d > m.asOf) <==> LaterDate(m, fold)
  {
    hide FirstUse;
    if LaterDate(m, fold) {
      if n :| FirstUse(m.adopters, n, fold).Some? && FirstUse(m.adopters, n, fold).value > m.asOf {
        assert byName[n] in before && byName[n] in dated;
      } else if i :| 0 <= i < |m.repeats| && m.repeats[i].repeatUse > m.asOf {
        assert m.repeats[i].repeatUse in dated;
      } else if m.window.end.Some? && m.window.end.value > m.asOf {
        assert m.window.end.value in dated;
      } else {
        assert m.review.value in dated;
      }
    } else {
      forall d | d in dated ensures d <= m.asOf {
        if d in byName.Values {
          var n :| n in byName && byName[n] == d;
          assert FirstUse(m.adopters, n, fold) == Some(d);
        }
      }
    }
  }

  /**
   Every code is reported exactly under its condition; and for a structurally valid manifest nothing is
   reported exactly when the declarative gate holds.
   */
  method ReadinessErrors(m: Manifest, release: Option<string>, major: Versions, fold: Fold) returns (errors: seq<Code>)
    requires StructureValid(m, major)
    ensures forall code :: code in errors <==> Reported(m, release, major, fold, code)
    ensures errors == [] <==> Ready(m, release, major, fold)
  {
    hide Records, VersionReports, GateReports, SecurityReports, WindowReports, ContinuityReports, AdoptionReports, LaterDate;
    hide Ready;
    errors := VersionErrors(m, release, major);
    var more := GateErrors(m);
    errors := errors + more;
    more := SecurityErrors(m);
    errors := errors + more;
    more := WindowErrors(m);
    errors := errors + more;
    more := ContinuityErrors(m);
    errors := errors + more;
    var byName;
    more, byName := AdoptionErrors(m, fold);
    errors := errors + more;
    more := AsOfErrors(m, byName, fold);
    errors := errors + more;
    ReadyMeansNothingReported(m, release, major, fold);
    hide Reported;
    assert errors != [] ==> errors[0] in errors;
  }

  // ---------------------------------------------------------------- the gate and the codes

  lemma {:induction false} DistinctCount<T>(s: seq<T>, x: T)
    requires Distinct(s)
    ensures multiset(s)[x] == if x in s then 1 else 0
  {
    if s != [] {
      DistinctCount(s[1..], x);
      assert s == [s[0]] + s[1..];
      assert multiset(s) == multiset{s[0]} + multiset(s[1..]);
    }
  }

  lemma TrackMeaning(w: Window, t: string, last: Day)
    requires t in w.tracks && Distinct(w.tracks[t]) && w.start.Some? && w.end == Some(last) && w.start.value <= last
    ensures Covered(w, t) <==>
            forall day :: multiset(w.tracks[t])[day] == if w.start.value <= day <= last then 1 else 0
  {
    var runs := w.tracks[t];
    forall day ensures multiset(runs)[day] == if day in Members(runs) then 1 else 0 {
      DistinctCount(runs, day);
    }
    var days := seq(last - w.start.value + 1, offset => w.start.value + offset);
    forall day ensures day in ExpectedDays(w) <==> w.start.value <= day <= last {
      if w.start.value <= day <= last {
        assert days[day - w.start.value] == day;
      }
    }
    if forall day :: multiset(runs)[day] == if w.start.value <= day <= last then 1 else 0 {
      forall day ensures day in Members(runs) <==> day in ExpectedDays(w) {
        assert multiset(runs)[day] == if day in Members(runs) then 1 else 0;
      }
    }
  }

  lemma WindowMeaning(m: Manifest, major: Versions)
    requires StructureValid(m, major)
    ensures WindowReady(m) <==> !WindowReports(m, CiWindow) && !WindowReports(m, CiFreshness) && !WindowReports(m, CiPlatform)
  {
    hide ExpectedDays, Covered;
    FourTracks();
    var w := m.window;
    if w.start.Some? && w.end == Some(m.asOf) && m.asOf - w.start.value >= 29 {
      forall t | t in w.tracks
        ensures Covered(w, t) <==>
                forall day :: multiset(w.tracks[t])[day] == if w.start.value <= day <= m.asOf then 1 else 0
      {
        TrackMeaning(w, t, m.asOf);
      }
      forall k | 0 <= k < |CI_TRACKS| ensures CI_TRACKS[k] in w.tracks {
        assert CI_TRACKS[k] in Members(CI_TRACKS);
      }
      forall t | t in w.tracks ensures exists k :: 0 <= k < |CI_TRACKS| && CI_TRACKS[k] == t {
        assert t in Members(CI_TRACKS);
      }
    }
  }

  lemma DistinctAdopters(adopters: seq<Adopter>, fold: Fold)
    ensures Distinct(AdopterNames(adopters, fold))
       <==> forall i, j | 0 <= i < j < |adopters| :: fold(adopters[i].name) != fold(adopters[j].name)
  {
    var names := AdopterNames(adopters, fold);
    assert Distinct(names) ==> forall i, j | 0 <= i < j < |adopters| :: names[i] != names[j];
  }

  lemma DistinctRepeats(repeats: seq<Repeat>, fold: Fold)
    ensures Distinct(RepeatNames(repeats, fold))
       <==> forall i, j | 0 <= i < j < |repeats| :: fold(repeats[i].adopter) != fold(repeats[j].adopter)
  {
    var names := RepeatNames(repeats, fold);
    assert Distinct(names) ==> forall i, j | 0 <= i < j < |repeats| :: names[i] != names[j];
  }

  /** Every repeat follows some adopter's first use. */
  predicate AllFollow(m: Manifest, fold: Fold) {
    forall i | 0 <= i < |m.repeats| :: Follows(m.repeats[i], m.adopters, fold)
  }

  /** Names of repeats that follow an adopter's use are adopters' names. */
  lemma RepeatsAreAdopters(m: Manifest, fold: Fold)
    requires AllFollow(m, fold)
    ensures Members(RepeatNames(m.repeats, fold)) <= Members(AdopterNames(m.adopters, fold))
  {
    var names, again := AdopterNames(m.adopters, fold), RepeatNames(m.repeats, fold);
    forall n | n in again ensures n in names {
      var i :| 0 <= i < |again| && again[i] == n;
      var k :| 0 <= k < |m.adopters| && fold(m.adopters[k].name) == fold(m.repeats[i].adopter);
      assert names[k] == n;
    }
  }

  /** With distinct names, an adopter's first use is the recorded one. */
  lemma OwnFirstUse(adopters: seq<Adopter>, i: nat, fold: Fold)
    requires i < |adopters| && Distinct(AdopterNames(adopters, fold))
    ensures FirstUse(adopters, fold(adopters[i].name), fold) == Some(adopters[i].firstUse)
  {
    var names := AdopterNames(adopters, fold);
    FirstUseIsSome(adopters, names[i], fold);
    var k :| 0 <= k < |adopters| && fold(adopters[k].name) == names[i]
             && Some(adopters[k].firstUse) == FirstUse(adopters, names[i], fold);
    assert names[k] == names[i];
  }

  /** With distinct names, a repeat is placed and late enough exactly when it follows an adopter's first use. */
  lemma FitMeans(r: Repeat, adopters: seq<Adopter>, fold: Fold)
    requires Distinct(AdopterNames(adopters, fold))
    ensures !Unplaced(r, adopters, fold) && !TooSoon(r, adopters, fold) <==> Follows(r, adopters, fold)
  {
    FirstUseIsSome(adopters, fold(r.adopter), fold);
    forall i | 0 <= i < |adopters| ensures FirstUse(adopters, fold(adopters[i].name), fold) == Some(adopters[i].firstUse) {
      OwnFirstUse(adopters, i, fold);
    }
    hide FirstUse;
  }

  lemma RepeatsMeaning(m: Manifest, fold: Fold)
    requires Distinct(AdopterNames(m.adopters, fold))
    ensures AllFollow(m, fold)
       <==> !RepeatReports(m.repeats, m.adopters, fold, RepeatAdopter) && !RepeatReports(m.repeats, m.adopters, fold, RepeatWindow)
  {
    forall i | 0 <= i < |m.repeats|
      ensures !Unplaced(m.repeats[i], m.adopters, fold) && !TooSoon(m.repeats[i], m.adopters, fold)
         <==> Follows(m.repeats[i], m.adopters, fold)
    {
      FitMeans(m.repeats[i], m.adopters, fold);
    }
    hide Unplaced, TooSoon, Follows;
  }

  /** The repeats count as two or more names among the adopters exactly when there are two or more of them. */
  lemma RepeatCount(m: Manifest, fold: Fold)
    requires Distinct(RepeatNames(m.repeats, fold))
    requires AllFollow(m, fold)
    ensures |Members(RepeatNames(m.repeats, fold)) * Members(AdopterNames(m.adopters, fold))| == |m.repeats|
  {
    var names, again := AdopterNames(m.adopters, fold), RepeatNames(m.repeats, fold);
    MembersSize(again);
    RepeatsAreAdopters(m, fold);
    assert Members(again) * Members(names) == Members(again);
  }

  lemma ReadyByNames(m: Manifest, fold: Fold)
    ensures AdoptionReady(m, fold) <==>
      && |m.adopters| >= 3 && Distinct(AdopterNames(m.adopters, fold)) && |m.repeats| >= 2
      && Distinct(RepeatNames(m.repeats, fold)) && AllFollow(m, fold) && m.integration && m.contribution
  {
    hide Follows, Distinct, AdopterNames, RepeatNames;
    DistinctAdopters(m.adopters, fold);
    DistinctRepeats(m.repeats, fold);
  }

  lemma AdoptionMeaning(m: Manifest, fold: Fold)
    ensures AdoptionReady(m, fold) <==>
      && !AdoptionReports(m, fold, Adopters) && !AdoptionReports(m, fold, AdopterDuplicates)
      && !AdoptionReports(m, fold, RepeatDuplicates) && !AdoptionReports(m, fold, RepeatAdopter)
      && !AdoptionReports(m, fold, RepeatWindow) && !AdoptionReports(m, fold, RepeatAdopters)
      && !AdoptionReports(m, fold, PublicIntegration) && !AdoptionReports(m, fold, ExternalContribution)
  {
    ReadyByNames(m, fold);
    hide Distinct, Members, AdopterNames, RepeatNames, AdoptionReady, AllFollow, RepeatReports;
    MembersSize(AdopterNames(m.adopters, fold));
    DuplicatesMeaning(m.repeats, m.adopters, fold);
    if Distinct(AdopterNames(m.adopters, fold)) {
      RepeatsMeaning(m, fold);
      if Distinct(RepeatNames(m.repeats, fold)) && AllFollow(m, fold) {
        RepeatCount(m, fold);
      }
    }
  }

  lemma DuplicatesMeaning(repeats: seq<Repeat>, adopters: seq<Adopter>, fold: Fold)
    ensures RepeatReports(repeats, adopters, fold, RepeatDuplicates) <==> !Distinct(RepeatNames(repeats, fold))
  {
  }

  lemma AdoptionSection(m: Manifest, fold: Fold)
    ensures AdoptionReady(m, fold) <==> forall code :: !AdoptionReports(m, fold, code)
  {
    AdoptionMeaning(m, fold);
    forall code ensures AdoptionReports(m, fold, code) ==>
      || code.Adopters? || code.AdopterDuplicates? || code.RepeatDuplicates? || code.RepeatAdopter? || code.RepeatWindow?
      || code.RepeatAdopters? || code.PublicIntegration? || code.ExternalContribution?
    {
      OnlyRepeatCodes(m.repeats, m.adopters, fold, code);
    }
    hide AdoptionReady, AdoptionReports;
  }

  lemma OnlyRepeatCodes(repeats: seq<Repeat>, adopters: seq<Adopter>, fold: Fold, code: Code)
    ensures RepeatReports(repeats, adopters, fold, code) ==> code.RepeatDuplicates? || code.RepeatAdopter? || code.RepeatWindow?
  {
  }

  /** For a window up to `asOf` and distinct adopters, no date is later at all. */
  lemma DatesMeaning(m: Manifest, fold: Fold)
    requires Distinct(AdopterNames(m.adopters, fold)) && m.window.end == Some(m.asOf)
    ensures !LaterDate(m, fold) <==> NothingLater(m)
  {
    forall i | 0 <= i < |m.adopters| ensures FirstUse(m.adopters, fold(m.adopters[i].name), fold) == Some(m.adopters[i].firstUse) {
      OwnFirstUse(m.adopters, i, fold);
    }
    forall n | FirstUse(m.adopters, n, fold).Some?
      ensures exists i | 0 <= i < |m.adopters| :: Some(m.adopters[i].firstUse) == FirstUse(m.adopters, n, fold)
    {
      FirstUseIsSome(m.adopters, n, fold);
    }
    hide FirstUse;
  }

  lemma SmallSections(m: Manifest, release: Option<string>, major: Versions)
    requires StructureValid(m, major)
    ensures VersionReady(m, release, major) <==> forall code :: !VersionReports(m, release, major, code)
    ensures SecurityReady(m) <==> forall code :: !SecurityReports(m, code)
    ensures ContinuityReady(m) <==> forall code :: !ContinuityReports(m, code)
  {
    assert VersionReady(m, release, major) <==>
      && !VersionReports(m, release, major, TargetVersion) && !VersionReports(m, release, major, ReleaseVersionFormat)
      && !VersionReports(m, release, major, ReleaseVersion);
    assert SecurityReady(m) <==>
      !SecurityReports(m, SecurityReview) && !SecurityReports(m, SecurityScope) && !SecurityReports(m, SecurityFindings);
    assert ContinuityReady(m) <==>
      && !ContinuityReports(m, ContinuityStatus) && !ContinuityReports(m, ContinuityMode)
      && !ContinuityReports(m, ContinuityEvidence);
  }

  lemma LargeSections(m: Manifest, major: Versions)
    requires StructureValid(m, major)
    ensures GatesReady(m) <==> forall code :: !GateReports(m, code)
    ensures WindowReady(m) <==> forall code :: !WindowReports(m, code)
  {
    WindowMeaning(m, major);
    assert GatesReady(m) <==> !GateReports(m, GateStatus) && !GateReports(m, GateEvidence);
    hide WindowReady, GatesReady, Covered, Members;
  }

  /** The declarative gate holds exactly when no code is reported. */
  lemma ReadyMeansNothingReported(m: Manifest, release: Option<string>, major: Versions, fold: Fold)
    requires StructureValid(m, major)
    ensures Ready(m, release, major, fold) <==> forall code :: !Reported(m, release, major, fold, code)
  {
    SmallSections(m, release, major);
    LargeSections(m, major);
    AdoptionSection(m, fold);
    if WindowReady(m) && AdoptionReady(m, fold) {
      DistinctAdopters(m.adopters, fold);
      DatesMeaning(m, fold);
    }
    hide WindowReady, AdoptionReady, GatesReady, LaterDate, NothingLater, SecurityReady, ContinuityReady, VersionReady;
    hide VersionReports, GateReports, SecurityReports, WindowReports, ContinuityReports, AdoptionReports, StructureValid;
    if forall code :: !Reported(m, release, major, fold, code) {
      forall code
        ensures !VersionReports(m, release, major, code) && !GateReports(m, code) && !SecurityReports(m, code)
        ensures !WindowReports(m, code) && !ContinuityReports(m, code) && !AdoptionReports(m, fold, code)
      {
        assert !Reported(m, release, major, fold, code);
      }
      assert !Reported(m, release, major, fold, AsOf);
    }
  }

  // ---------------------------------------------------------------- the codes one by one

  /** The codes of versions, gates, security and continuity. */
  lemma SmallCodesMean(m: Manifest, release: Option<string>, major: Versions)
    requires StructureValid(m, major)
    ensures !VersionReports(m, release, major, TargetVersion) <==> major(m.targetVersion).Some? && major(m.targetVersion).value >= 1
    ensures VersionReports(m, release, major, ReleaseVersionFormat) <==> release.Some? && major(release.value) == None
    ensures VersionReports(m, release, major, ReleaseVersion) <==>
            release.Some? && major(release.value) != None && m.targetVersion != release.value
    ensures GateReports(m, GateStatus) <==>
            !(m.product.satisfied && m.correctness.satisfied && m.performance.satisfied && m.delivery.satisfied
              && m.adoptionSatisfied)
    ensures SecurityReports(m, SecurityReview) <==> m.review == None
    ensures SecurityReports(m, SecurityFindings) <==> m.openCritical > 0 || m.openHigh > 0
    ensures ContinuityReports(m, ContinuityStatus) <==> !m.continuity.satisfied
    ensures ContinuityReports(m, ContinuityMode) <==> m.continuity.mode != Some("two-maintainer-drill")
    ensures ContinuityReports(m, ContinuityEvidence) <==> |m.continuity.evidence| == 0
  {
    hide Members;
  }

  /** The code of missing gate evidence: one of these criteria is not there. */
  lemma GateCodeMeans(m: Manifest)
    ensures GateReports(m, GateEvidence) <==>
            || "contract-compatibility" !in m.product.criteria || "golden-artifacts" !in m.product.criteria
            || "plan-assumption-sealing" !in m.product.criteria || "fail-closed-unsupported-input" !in m.product.criteria
            || "sql-corpus" !in m.correctness.criteria || "postgresql-stress" !in m.correctness.criteria
            || "artifact-adversarial-corpus" !in m.correctness.criteria || "tls-fixtures" !in m.correctness.criteria
            || "vulnerability-audit" !in m.correctness.criteria
            || "plan-generation" !in m.performance.criteria || "apply-overhead" !in m.performance.criteria
            || "bounded-fixture-memory" !in m.performance.criteria || "configured-bounds" !in m.performance.criteria
            || "benchmark-reproducibility" !in m.performance.criteria
            || "release-supply-chain" !in m.delivery.criteria || "security-response-slo" !in m.delivery.criteria
  {
    forall c: string, s: seq<string> ensures c in Members(s) <==> c in s {
    }
    hide Members;
  }

  /** The days of a track. */
  predicate RunsOn(w: Window, track: string, day: Day) {
    track in w.tracks && day in w.tracks[track]
  }

  predicate InWindow(w: Window, day: Day) {
    w.start.Some? && w.end.Some? && w.start.value <= day <= w.end.value
  }

  lemma WindowDay(w: Window, day: Day)
    ensures day in ExpectedDays(w) <==> InWindow(w, day)
  {
    if InWindow(w, day) {
      var days := seq(w.end.value - w.start.value + 1, offset => w.start.value + offset);
      assert days[day - w.start.value] == day;
    }
  }

  /** A track without gaps and without runs out of the window. */
  predicate Continuous(w: Window, track: string) {
    && track in w.tracks
    && (forall day | day in w.tracks[track] :: InWindow(w, day))
    && (w.start.Some? && w.end.Some? ==>
          forall day | w.start.value <= day <= w.end.value :: RunsOn(w, track, day))
  }

  lemma TrackCovered(w: Window, track: string)
    requires track in w.tracks
    ensures Covered(w, track) <==> Continuous(w, track)
  {
    hide ExpectedDays;
    forall day: Day ensures day in ExpectedDays(w) <==> InWindow(w, day) {
      WindowDay(w, day);
    }
    var days := w.tracks[track];
    assert forall day: Day :: day in Members(days) <==> day in days;
    if Continuous(w, track) {
      forall day: Day ensures day in Members(days) <==> day in ExpectedDays(w) {
        assert InWindow(w, day) ==> RunsOn(w, track, day);
      }
    }
    if Covered(w, track) {
      assert forall day: Day :: day in days <==> InWindow(w, day);
    }
  }

  lemma FourTracks()
    ensures |CI_TRACKS| == 4 && CI_TRACKS[0] == "linux" && CI_TRACKS[1] == "live-postgresql"
    ensures CI_TRACKS[2] == "macos" && CI_TRACKS[3] == "windows"
    ensures Members(CI_TRACKS) == {"linux", "live-postgresql", "macos", "windows"}
  {
    var s := CI_TRACKS;
    assert s[0] in Members(s) && s[1] in Members(s) && s[2] in Members(s) && s[3] in Members(s);
  }

  /** The codes of the window: in particular a track is reported for a day without a run and for a run out of the window. */
  lemma WindowCodesMean(m: Manifest, major: Versions)
    requires StructureValid(m, major)
    ensures !WindowReports(m, CiWindow) <==>
            m.window.start.Some? && m.window.end.Some? && m.window.end.value >= m.window.start.value + 29
    ensures WindowReports(m, CiFreshness) <==> m.window.end.Some? && m.window.end != Some(m.asOf)
    ensures !WindowReports(m, CiPlatform) <==>
            && Continuous(m.window, "linux") && Continuous(m.window, "live-postgresql")
            && Continuous(m.window, "macos") && Continuous(m.window, "windows")
  {
    hide Covered, Continuous, Members;
    FourTracks();
    TrackCovered(m.window, "linux");
    TrackCovered(m.window, "live-postgresql");
    TrackCovered(m.window, "macos");
    TrackCovered(m.window, "windows");
    hide CI_TRACKS;
    assert WindowReports(m, CiPlatform) <==>
      !Covered(m.window, CI_TRACKS[0]) || !Covered(m.window, CI_TRACKS[1]) || !Covered(m.window, CI_TRACKS[2])
      || !Covered(m.window, CI_TRACKS[3]);
  }

  /** The last adopter of a name counts for it. */
  predicate LastNamed(adopters: seq<Adopter>, i: nat, name: string, fold: Fold) {
    i < |adopters| && fold(adopters[i].name) == name && forall j | i < j < |adopters| :: fold(adopters[j].name) != name
  }

  lemma {:induction false} FirstUseIsLast(adopters: seq<Adopter>, name: string, fold: Fold, i: nat)
    requires LastNamed(adopters, i, name, fold)
    ensures FirstUse(adopters, name, fold) == Some(adopters[i].firstUse)
  {
    if i < |adopters| - 1 {
      FirstUseIsLast(adopters[..|adopters| - 1], name, fold, i);
    }
  }

  lemma {:induction false} SomeoneIsLast(adopters: seq<Adopter>, name: string, fold: Fold) returns (i: nat)
    requires exists k | 0 <= k < |adopters| :: fold(adopters[k].name) == name
    ensures LastNamed(adopters, i, name, fold)
  {
    i := |adopters| - 1;
    while fold(adopters[i].name) != name
      invariant 0 <= i < |adopters|
      invariant forall j | i < j < |adopters| :: fold(adopters[j].name) != name
      decreases i
    {
      i := i - 1;
    }
  }

  /** Too soon after the first use of the last adopter of the name. */
  predicate SoonAfter(r: Repeat, adopters: seq<Adopter>, fold: Fold) {
    exists k | 0 <= k < |adopters| ::
      LastNamed(adopters, k, fold(r.adopter), fold) && r.repeatUse < adopters[k].firstUse + 30
  }

  predicate Stranger(r: Repeat, adopters: seq<Adopter>, fold: Fold) {
    forall j | 0 <= j < |adopters| :: fold(adopters[j].name) != fold(r.adopter)
  }

  lemma OneRepeatMeans(r: Repeat, adopters: seq<Adopter>, fold: Fold)
    ensures Unplaced(r, adopters, fold) <==> Stranger(r, adopters, fold)
    ensures TooSoon(r, adopters, fold) <==> SoonAfter(r, adopters, fold)
  {
    hide FirstUse, LastNamed;
    FirstUseIsSome(adopters, fold(r.adopter), fold);
    if FirstUse(adopters, fold(r.adopter), fold).Some? {
      var k := SomeoneIsLast(adopters, fold(r.adopter), fold);
      FirstUseIsLast(adopters, fold(r.adopter), fold, k);
      assert k < |adopters| by { IsNamed(adopters, k, fold(r.adopter), fold); }
    }
    forall k | 0 <= k < |adopters| && LastNamed(adopters, k, fold(r.adopter), fold)
      ensures FirstUse(adopters, fold(r.adopter), fold) == Some(adopters[k].firstUse)
    {
      FirstUseIsLast(adopters, fold(r.adopter), fold, k);
    }
  }

  lemma IsNamed(adopters: seq<Adopter>, k: nat, name: string, fold: Fold)
    requires LastNamed(adopters, k, name, fold)
    ensures k < |adopters|
  {
  }

  /** The codes of the repeats: a stranger, and less than thirty days after the first use of the last adopter of the name. */
  lemma RepeatCodesMean(repeats: seq<Repeat>, adopters: seq<Adopter>, fold: Fold)
    ensures RepeatReports(repeats, adopters, fold, RepeatDuplicates) <==>
            exists i, j | 0 <= i < j < |repeats| :: fold(repeats[i].adopter) == fold(repeats[j].adopter)
    ensures RepeatReports(repeats, adopters, fold, RepeatAdopter) <==>
            exists i | 0 <= i < |repeats| :: Stranger(repeats[i], adopters, fold)
    ensures RepeatReports(repeats, adopters, fold, RepeatWindow) <==>
            exists i | 0 <= i < |repeats| :: SoonAfter(repeats[i], adopters, fold)
  {
    DistinctRepeats(repeats, fold);
    hide Distinct, RepeatNames, Unplaced, TooSoon, Stranger, SoonAfter;
    forall i | 0 <= i < |repeats|
      ensures Unplaced(repeats[i], adopters, fold) <==> Stranger(repeats[i], adopters, fold)
      ensures TooSoon(repeats[i], adopters, fold) <==> SoonAfter(repeats[i], adopters, fold)
    {
      OneRepeatMeans(repeats[i], adopters, fold);
    }
  }

  /** The names of the adopters, after folding. */
  function Named(adopters: seq<Adopter>, fold: Fold): set<string> {
    set i | 0 <= i < |adopters| :: fold(adopters[i].name)
  }

  /** Those of them that a repeat names. */
  function Repeated(adopters: seq<Adopter>, repeats: seq<Repeat>, fold: Fold): set<string> {
    set j | 0 <= j < |repeats| && fold(repeats[j].adopter) in Named(adopters, fold) :: fold(repeats[j].adopter)
  }

  lemma NamesAreNamed(adopters: seq<Adopter>, fold: Fold)
    ensures Members(AdopterNames(adopters, fold)) == Named(adopters, fold)
  {
    var names := AdopterNames(adopters, fold);
    forall n ensures n in Members(names) <==> n in Named(adopters, fold) {
      if n in names {
        var i :| 0 <= i < |names| && names[i] == n;
      }
      if n in Named(adopters, fold) {
        var i :| 0 <= i < |adopters| && fold(adopters[i].name) == n;
        assert names[i] == n;
      }
    }
  }

  lemma RepeatsAreRepeated(adopters: seq<Adopter>, repeats: seq<Repeat>, fold: Fold)
    ensures Members(RepeatNames(repeats, fold)) * Members(AdopterNames(adopters, fold)) == Repeated(adopters, repeats, fold)
  {
    NamesAreNamed(adopters, fold);
    hide AdopterNames, Named;
    var again := RepeatNames(repeats, fold);
    forall n ensures n in Members(again) * Named(adopters, fold) <==> n in Repeated(adopters, repeats, fold) {
      if n in again {
        var j :| 0 <= j < |again| && again[j] == n;
      }
      if n in Repeated(adopters, repeats, fold) {
        var j :| 0 <= j < |repeats| && fold(repeats[j].adopter) == n;
        assert again[j] == n;
      }
    }
  }

  /** The codes of the adoption: three distinct names, and two of them with a repeat. */
  lemma AdoptionCodesMean(m: Manifest, fold: Fold)
    ensures AdoptionReports(m, fold, Adopters) <==> |m.adopters| < 3 || |Named(m.adopters, fold)| < 3
    ensures AdoptionReports(m, fold, AdopterDuplicates) <==>
            exists i, j | 0 <= i < j < |m.adopters| :: fold(m.adopters[i].name) == fold(m.adopters[j].name)
    ensures AdoptionReports(m, fold, RepeatAdopters) <==> |Repeated(m.adopters, m.repeats, fold)| < 2
    ensures AdoptionReports(m, fold, PublicIntegration) <==> !m.integration
    ensures AdoptionReports(m, fold, ExternalContribution) <==> !m.contribution
  {
    hide Named, Repeated, Members, AdopterNames, RepeatNames, Distinct, RepeatReports;
    DistinctAdopters(m.adopters, fold);
    NamesAreNamed(m.adopters, fold);
    RepeatsAreRepeated(m.adopters, m.repeats, fold);
  }
}
