# DMLPact: a verified model of plan, apply and receipt

DMLPact plans one SQL data change, seals the plan, and later applies it under a table lock with a write-ahead
receipt. This project models that protocol in Dafny and proves what it promises: for every interleaving of any
number of applies with any number of foreign sessions that do not rename schemas, with failures and crashes at
every step.

`dafny verify dfyconfig.toml` checks the whole project.

## How it is built

- `Json`, `JsonRoundTrip`, `JsonPrefix`, `JsonSpace`, `Utf8`: a concrete JSON printer and reader (section 7 of
  RFC 8259 for the escapes), with proofs that printing is injective, that a torn object is no document and that
  white space after a document is never read.
- `Integrity`, `Model`, `Codec`, `Receipt`, `ReceiptProofs`, `TornTail`, `Journal`: digests, sealed plans, the
  two-event hash chain, its bytes, and the offline verifier. `Journal` writes files step by step.
- `Sql`, `SqlMeaning`, `Evidence`, `Fingerprint`, `Db`: the SQL policy and the derived queries, a three-valued
  meaning for both, the ordered row texts, the length-prefixed fingerprint, table names and the table policy.
- `Wire`, `TextReading`: the bytes that are hashed and written, field by field, and what a reader must take and
  refuse: independent of the printer and the decoder, and proved to agree with them.
- `PlanCreation`: making a plan, when one is made and which check speaks first.
- `Engine`, `Outcome`, `Apply`: one run. `Engine.Advance` is the decision on each answer of the database; the
  methods drive a session call by call and are proved to make exactly the calls and end exactly as `Advance` says.
  `Outcome` states how a run ends in terms of the answers alone.
- `Protocol`, `ProtocolInvariant`, `ProtocolSteps`: any number of runs and foreign sessions. A run moves by the
  same `Advance`. A foreign session locks the tables it writes, publishes arbitrary changes to them and may abort;
  it creates tables under any free name, in any schema. Tables have an identity apart from their name, and every
  query and the statement look their name up anew, in the search path if it is unqualified. A
  snapshot is taken by the first query after the lock, as PostgreSQL does at REPEATABLE READ (sections 13.2.2
  and 13.3.1 of its documentation); the invariant needs this order.
- `CrashSafety`, `Planning`, `ApplyTheorems`, `Replay`, `Completeness`: the main theorems.
- `Capture`: when another table can take over the name of the locked one, and that nothing else can.
- `Reachability`, `Example`: histories that do commit, so that the theorems' hypotheses can be met.
- `Readiness`, `Benchmark`: the release-readiness rules and the benchmark statistics.
- `Wrappers`, `Multisets`, `Sorting`: helpers.

Files and texts are sequences of bytes, written as Dafny strings. SHA-256 is an arbitrary function from byte
strings to 32 bytes, given as a parameter. A theorem that depends on digests concludes its property or exhibits two
named, different inputs with one digest (`Collision`).

## Hypotheses

- No schema is renamed, and no search path changes its schemas, while a run is between its first and last call
  (`Protocol.History`). `ALTER SCHEMA RENAME` locks no table, and `Capture.RenamesCapture` shows that with it every
  unacknowledged plan can miss its table, however it is named.
- `ProtocolInvariant.Uncapturable`: the statement names its schema, or the table's schema is the first of the
  search path. This can be read off the plan and the SQL file. The theorems about the changed table and its
  rows need it, and `Capture.CoveredExactlyWhen` shows that they need no less: `src/engine.rs:285` looks the name
  up when it inspects the table, `src/engine.rs:357` executes the statement with the same, possibly unqualified
  name, and a table that is created under it in an earlier schema in between takes the change, unlocked.
- `Evidence.Faithful`: rendering a row with `to_jsonb(..)::text` loses nothing, and no column has the name by which
  the rows go in the statement, unless it is the only column. Otherwise the expression of `src/sql.rs:375-389`
  denotes that column and not the row, so "exact target-row fingerprint" (`docs/safety-model.md:46`) is not what the
  code computes; `Evidence.EvidenceIsTheRowExactlyWhen` says exactly when it is.
- `Protocol.Trusted`: casts and operators are functions of their operands during the protocol, as
  `docs/safety-model.md:72-75` restricts itself; `SqlMeaning.CastsAreTrusted` shows that the policy does not imply it.
- `Sorting.TotalOrder`: only equal texts tie in `ORDER BY`. Used for completeness and reachability only.
- `ApplyTheorems.Conforms`: a table's rows have the columns of its definition.

A plan or run is *unacknowledged* when the plan acknowledges neither triggers nor row security, and *guarded* when
it is unacknowledged and its table name cannot be captured.

## Model

| member | source | states |
|---|---|---|
| JsonRoundTrip.DocumentRoundTrip | src/integrity.rs:19-28 | every JSON value is read back from its own text, compact or pretty |
| JsonRoundTrip.PrintInjective | src/integrity.rs:19-28 | two values with one text are one value, over all strings, escapes included |
| JsonPrefix.TornIsNoDocument | src/receipt.rs:352-369 | no proper prefix of a printed object or array is a document |
| JsonPrefix.CompactPrintable | src/receipt.rs:352-369 | compact text holds no control character, so no raw line feed |
| JsonSpace.DocumentAfter | src/receipt.rs:246-263 | white space after a text neither makes nor breaks a document |
| Utf8.PrintValid | src/receipt.rs:246-263 | texts of valid UTF-8 print as valid UTF-8 |
| Codec.SettingsRoundTrip | src/model.rs:44-55 | the sorted settings map survives writing and strict reading |
| Codec.SettingsAreTheLast | src/model.rs:44-55 | a settings object is read as a map: of members with one name the last one counts |
| Codec.PlanRoundTrip | src/model.rs:107-128 | every plan survives writing and strict reading, in every nested field |
| Codec.EventRoundTrip | src/model.rs:181-196 | every receipt event survives writing and strict reading |
| Codec.PlanAsArray | src/model.rs:107-128 | a plan written as the array of its values is read as the same plan |
| Integrity.Sha256Bytes | src/integrity.rs:8-17 | the loop produces 64 lower-case hexadecimal digits: the value of character 2k is the high half of byte k of the digest and that of character 2k + 1 the low half |
| Integrity.HexEncodeInjective | src/integrity.rs:8-17 | different digests have different published texts |
| Integrity.DigestBinds | src/integrity.rs:8-17 | equal published digests mean equal inputs or a collision |
| Integrity.Sha256Text | src/integrity.rs:8-17 | a published digest is 64 bytes of valid text |
| Wire.HashedBytes | src/receipt.rs:178-212 | the seal of a plan, the hash of an event and the hash of a table are digests of these bytes: a compact object with these names and values in this order, and null in the place of the digest itself |
| Wire.ReceiptBytes | src/receipt.rs:27-95 | the two lines of a receipt byte by byte, from the versions and the receipt id to the digest of the line itself and the line feed |
| Wire.PlanFileBytes | src/receipt.rs:146-176 | the bytes of a plan file: one field a line, two spaces deep, and a line feed at the end |
| Wire.PlanIsStrict | src/model.rs:106-128 | a plan object is read only with exactly the names that are written, each at most once, and only a null missing |
| Wire.EventIsStrict | src/model.rs:180-196 | so is an event |
| TextReading.Utf8Exactly | src/receipt.rs:231-240 | a text passes the UTF-8 check exactly when it is the encoding of scalar values |
| TextReading.LinesExactly | src/receipt.rs:246 | lines end with a line feed or a carriage return and a line feed, and the last one needs no end |
| Journal.WriteEvent | src/receipt.rs:352-369 | success means the whole line is durable; failure leaves a prefix of the line and syncs nothing |
| Journal.ReceiptJournal.Create | src/receipt.rs:27-65 | succeeds exactly for a verified plan, a readable clock, a new file and a durable append, and otherwise fails with the error of the first that is missing; on success the file is the prepared line and nothing else, after a failed append it holds the part of the line that was written, and any other failure changes nothing |
| Journal.ReceiptJournal.Finalize | src/receipt.rs:67-95 | succeeds exactly for a terminal state, a readable clock and a durable append, and appends the event that continues the prepared one; a failed append leaves the part of the line that was written |
| Journal.PlanDocument.Seal | src/receipt.rs:178-182 | sealing in place changes nothing but the seal |
| ReceiptProofs.SealBinding | src/receipt.rs:178-212 | two plans that verify with one hash are equal in every field, or a collision |
| ReceiptProofs.PlanFileRoundTrip | src/receipt.rs:106-176 | a verified plan is read back from its file exactly when the file is at most 1 MiB; writing does not check this |
| Receipt.ReadExactly | src/receipt.rs:106-212 | a plan file is read exactly when it is at most 1 MiB of a strict plan of a known version with the digest of its own contents; otherwise the error is that of the first check that fails |
| ReceiptProofs.EventTextReads | src/receipt.rs:352-369 | an event is one nonblank line that reads back as the event, and no proper prefix of it reads at all |
| ReceiptProofs.EventBinding | src/receipt.rs:316-350 | one event hash belongs to one valid event, or a collision |
| Receipt.ReceiptErrorExactly | src/receipt.rs:214-350 | a receipt is refused with an error exactly when it is the error of the first check that fails, size, encoding, lines, both events, and the chain, in this order |
| ReceiptProofs.ChainBinding | src/receipt.rs:264-313 | the final hash of an accepted receipt determines every event in it, or a collision |
| ReceiptProofs.ReceiptRoundTrip | src/receipt.rs:27-95 | created and finalized bytes are accepted, with their own state, plan and id, exactly when the clock did not go backwards and the file is at most 2 MiB |
| ReceiptProofs.TornTail | src/receipt.rs:246-314 | any prefix of any accepted receipt fails, has the verdict of the whole, or is the same run prepared and incomplete |
| ReceiptProofs.WrittenTorn | src/receipt.rs:214-314 | a prefix of two written lines, accepted as a whole or not, is complete only if it reaches the end of the second event, and prepared only if it ends with the first |
| TornTail.TornTailExactly | src/receipt.rs:246-314 | a prefix of an accepted two-event receipt keeps the verdict exactly when nothing but white space is missing |
| TornTail.WrittenTailExactly | src/receipt.rs:352-369 | for bytes as the journal writes them: exactly when at most the final line feed is missing |
| TornTail.MoreThanTheLineFeed | src/receipt.rs:246-263 | the general condition cannot be the line feed alone: with a space before it, two bytes may go |
| Fingerprint.TargetSetSha256 | src/engine.rs:520-568 | the loop succeeds exactly when no query error occurs, the framed rows take at most 67,108,864 bytes and their number is the expected one; the digest is that of all frames, or of the statement itself for an INSERT, and no counter saturates |
| Fingerprint.BigEndianRoundTrip | src/engine.rs:556-557 | the eight length bytes determine the length |
| Fingerprint.BufferRoundTrip | src/engine.rs:531-557 | a decoder recovers number, order and contents of the rows from the buffer |
| Fingerprint.FingerprintBinds | src/engine.rs:531-567 | equal fingerprints mean equal row texts in equal order, or the two buffers collide |
| Db.CanonicalRoundTrip | src/db.rs:278-284 | the quoted name is read back as its schema and table, whatever quotes and dots they contain |
| Db.CanonicalInjective | src/db.rs:455-457 | two tables with one quoted name are one table |
| Db.SchemaBinding | src/db.rs:274-276 | equal schema hashes mean equal catalog evidence in every field, or a collision |
| Db.PolicyErrorExactly | src/db.rs:286-350 | a table is refused with an error exactly when it is the error of the first of the seven conditions that it fails |
| Sql.VisitorIsExact | src/sql.rs:408-432 | the visitor reports exactly the first unsafe node in source order, at any depth, and none exactly when there is none |
| Sql.AcceptsExactly | src/sql.rs:81-343 | a statement is accepted exactly when it is one plain UPDATE or DELETE with WHERE, or one rectangular INSERT of listed rows, with no unsafe node at any depth |
| Sql.AnalysisErrorExactly | src/sql.rs:81-406 | a file is refused with an error exactly when it is the error of the first check that it fails, from its size to the width of its rows |
| Sql.AnalysisRecords | src/sql.rs:107-142 | what an accepted file records: the digests of its bytes, its normalized statement and its two queries, whose texts select from its own table as written, by the name that this exposes, under its own WHERE clause |
| SqlMeaning.EnvironmentIndependence | src/sql.rs:408-432 | an accepted expression evaluates alike under any other tables, parameters, functions and defaults: it denotes a function of the row |
| SqlMeaning.CountAgrees | src/sql.rs:273-281 | the count query counts the rows that the WHERE clause selects, and fails exactly when selection fails |
| SqlMeaning.UpdateAgrees | src/sql.rs:273-289 | an UPDATE affects as many rows as the derived queries see, exchanges exactly those for their assigned images and keeps every other row |
| SqlMeaning.DeleteAgrees | src/sql.rs:331-343 | a DELETE affects as many rows as the derived queries see and removes exactly those |
| SqlMeaning.SelectedPermutes | src/sql.rs:273-281 | which rows are selected does not depend on the scan order |
| ProtocolInvariant.DerivedFromStatement | src/sql.rs:253-397 | both derived queries read the statement's own table under its own WHERE clause, the name their rows go by is the one that the table exposes, its alias if it has one, and clause and assignments are free of unsafe nodes |
| Evidence.EvidenceBindsRows | src/sql.rs:375-389 | equal row evidence means equal row multisets whenever a row's text determines the row, which is exactly when no column hides the rows or the hiding column is the only one |
| Evidence.EvidencePermutes | src/sql.rs:375-389 | the evidence does not depend on the order in which the rows are found |
| Evidence.EvidenceIsTheRowExactlyWhen | src/sql.rs:375-389 | evidence determines the row exactly when no column has the row's name, or that column is the only one |
| Evidence.ReselectionMeansNoChange | src/engine.rs:342-355 | a change after which the WHERE clause selects the same rows again changed nothing |
| Engine.OpenLocked | src/engine.rs:226-278 | connect, begin, bound and lock, in this order, as the automaton does, with the same calls and the same end |
| Engine.Revalidate | src/engine.rs:280-314 | identity, definition and policy are compared after the lock, as the automaton does |
| Engine.Recount | src/engine.rs:315-355 | count and fingerprint are compared, as the automaton does |
| Engine.ExecuteAndCommit | src/engine.rs:357-411 | execution, comparison and commit or rollback, as the automaton does |
| Apply.Finish | src/engine.rs:452-497 | a result with the fields of the run is returned exactly when the terminal line is durable after what was there; otherwise the error is the one that the state of the commit demands |
| Apply.ApplyAfterReceipt | src/engine.rs:220-411 | for any answers, the result and the calls are those of the automaton, and the file only grows |
| Apply.ApplyPlan | src/engine.rs:203-218 | nothing is written or asked unless the plan is readable, sealed, in range, for this SQL file and not expired; a failure before the first call gives its own error; the database is asked nothing until the prepared line is durable; and the result says committed exactly when the commit was confirmed, and uncertain exactly when it was attempted and not confirmed |
| Apply.ContextExactly | src/engine.rs:203-214 | an apply goes on exactly when its plan is at most 1 MiB, sealed and of a known version, within the limits, bound to the accepted SQL file field by field, within its budget and not yet expired |
| Apply.StartErrorExactly | src/engine.rs:203-216 | an apply that does not get to its first call ends with the error of the first check that fails, up to the receipt path |
| PlanCreation.CreatePlan | src/engine.rs:95-201 | call by call: a plan is made exactly when everything that a plan presupposes holds, and is then the sealed plan of the observed state; otherwise the error is that of the first check that fails |
| PlanCreation.PlanExactly | src/engine.rs:95-155 | a plan is made exactly when limits, lifetime, statement, calls, server version, table policy, count and budget, evidence size and number, clock and expiry are all in order, each stated without the order of the checks |
| PlanCreation.PlanErrorExactly | src/engine.rs:95-155 | no plan is made with an error exactly when it is the error of the first check that finds something, those of the file, the calls, the table and the rows included |
| PlanCreation.MadePlanIsUsable | src/engine.rs:95-201 | a plan that is made verifies, keeps the limits, matches its own SQL and expires after its lifetime |
| PlanCreation.MadePlanRecords | src/engine.rs:148-199 | what a made plan records in each of its fields, its id, the numbers of triggers and rules, and the fingerprint included |
| Planning.PlanIsMade | src/engine.rs:95-201 | for every accepted statement on an admitted table a plan is made when no call fails and the budgets are kept; in particular its queries can be asked |
| Outcome.AttemptDecidesState | src/engine.rs:389-410 | a run ends committed or uncertain exactly when it attempted a commit |
| Outcome.OutcomeClassification | src/engine.rs:216-218 | after the receipt, a commit was attempted exactly when the result is committed, uncertain or one of the two reconciliation errors |
| Outcome.ResultIsTruthful | src/engine.rs:389-482 | the result says committed exactly when the commit was confirmed, and uncertain exactly when it was attempted and not confirmed, whether or not the receipt could be finished |
| Outcome.EndExactly | src/engine.rs:220-411 | for any answers, a run ends with the state, reason and details of the first answer that is not the planned one, and committed without one |
| Apply.EarlyErrors | src/engine.rs:203-216 | no error before the receipt is durable can be mistaken for one of the two reconciliation errors |
| Outcome.AttemptExactlyWhenAllPasses | src/engine.rs:220-388 | a run attempts its commit exactly when transport, identity, definition, policy, count, budget, fingerprint and affected rows are all those of the plan: no check is skipped and none added |
| Outcome.CommittedWithinBudget | src/engine.rs:326-388 | whatever the database answers, a committed run affected the planned number of rows, within the budget and one million |
| Planning.StartedIsArriving | src/engine.rs:203-218 | the runs of the protocol are those of the program: whatever plan, file, clock and path get an apply to its first call, that run is one that may arrive |
| ProtocolInvariant.NameStays | src/engine.rs:285-357 | a qualified name, or one whose schema is the first of the search path, goes on meaning an undisturbed table whatever else changes in the catalog |
| ProtocolSteps.EvidenceIsLocked | src/engine.rs:270-306 | an accepted inspection means that the statement resolves to the locked table |
| ProtocolSteps.ExecutionMatches | src/engine.rs:357-388 | the execution of a guarded run is one on the locked table: it exchanges there the planned rows for their images and affects the counted number of rows |
| ProtocolSteps.CommitKeeps | src/engine.rs:389-410 | a commit, confirmed or not, keeps the invariant of all other runs and of the log |
| ProtocolSteps.ForeignKeeps | src/engine.rs:270-278 | no foreign commit, new tables of any name included, disturbs what a run has locked and seen, or what an uncapturable name means |
| ProtocolSteps.StepKeeps | src/engine.rs:220-411 | every step of every participant keeps the invariant of the whole system |
| ProtocolSteps.HistoryInv | src/engine.rs:220-411 | every reachable world satisfies it |
| CrashSafety.StepKeepsFiles | src/receipt.rs:47-95 | every step, torn appends and crashes included, keeps every receipt file in order |
| CrashSafety.CrashSafety | src/engine.rs:216-410 | at every moment, a table effect finds the prepared line durable; and a file that verifies as complete is committed only if the change was published, refused or rolled back only if not |
| Planning.PlanFingerprint | src/engine.rs:95-201 | an unacknowledged plan fingerprints the rows that the statement selected in the planning snapshot, and counts them |
| ApplyTheorems.EffectWithinBudget | src/engine.rs:326-388 | in every history, a published change of a guarded plan takes or adds exactly the planned number of rows, within the budget and one million |
| ApplyTheorems.EvidenceMismatchUnreachable | src/engine.rs:560-566 | the count mismatch of the evidence query cannot occur under a guarded plan |
| ApplyTheorems.AffectedMismatchUnreachable | src/engine.rs:375-388 | nor can the mismatch of the affected rows |
| ApplyTheorems.EffectTable | src/engine.rs:270-306 | if the name cannot be captured, a published change went to the table that the statement meant at plan time, with the same definition, or the definitions collide |
| ApplyTheorems.AppliedAsPlanned | src/engine.rs:257-410 | in every history, a published change of a guarded UPDATE or DELETE takes out exactly the rows selected at plan time, puts in their images and leaves every other row, or a collision of files, definitions or evidence is exhibited |
| Capture.CaptureIsReachable | src/engine.rs:285-357 | for every unacknowledged plan whose name can be captured there is a history in which the change goes to another table: a foreign session gives the name to it between fingerprint and execution |
| Capture.CoveredExactlyWhen | src/engine.rs:270-357 | lock coverage, exactly: every change of an unacknowledged plan that can be applied goes to a table with the planned name and definition, in all histories, if and only if the name is qualified or its schema is the first of the search path |
| Capture.RenamesCapture | src/engine.rs:285-357 | with schema renames no name is safe: two of them put another table in the place of the locked one |
| Replay.OneFileForOnePlan | src/engine.rs:570-592 | two runs of one plan had one SQL file, or the files collide |
| Replay.SecondChangesNothing | src/engine.rs:342-355 | of two commits of one guarded plan in a row, both left the table's row multiset as it was, or their evidence of rows or definitions collides |
| Replay.ReplaySafety | src/engine.rs:315-355 | without foreign changes in between, any number of further commits of one guarded UPDATE or DELETE plan, sequential or racing, leave the table as the first one did, or two commits' evidence of rows or definitions collides |
| Completeness.PassesChecks | src/engine.rs:203-215 | a made plan, written and read back in time, passes every check before the receipt |
| Completeness.UnchangedCommits | src/engine.rs:220-411 | without failures and changes, the calls of an apply lead to the commit and to no refusal |
| Completeness.Complete | src/engine.rs:95-218 | a plan applied in time to the same rows in any order passes the checks, gets its receipt, ends committed with the planned count and says so |
| Reachability.CommitIsReachable | src/engine.rs:203-411 | for every made plan there is a history of the whole system in which the run that applies it publishes its change in the planned table |
| Example.HypothesesCanBeMet | src/engine.rs:95-218 | for any digest function and any server that renders rows faithfully there are a concrete DELETE plan, run, history and commit that meet every hypothesis of the protocol and replay theorems |
| Example.TheNameIsCaptured | src/engine.rs:285-357 | the same plan made with a search path that begins with another schema: a concrete history in which the change goes to a table created there |
| Readiness.ReadinessErrors | scripts/verify_v1_evidence.py:404-568 | every code is reported exactly under its condition, and nothing is reported exactly when the declarative gate holds |
| Readiness.ReadyMeansNothingReported | scripts/verify_v1_evidence.py:404-568 | the gate: one run per day and track over at least 30 days up to the date of the manifest and none outside, three adopters with distinct folded names, two repeats each 30 days after its adopter's first use, nothing dated later, all criteria and statuses |
| Readiness.WindowCodesMean | scripts/verify_v1_evidence.py:451-487 | a platform is reported exactly when one of the four tracks misses a day of the window or has a run out of it |
| Readiness.RepeatCodesMean | scripts/verify_v1_evidence.py:499-529 | a repeat is reported as a stranger's exactly when no adopter has its name, and as too early exactly when it is less than 30 days after the first use of the last adopter of the name |
| Readiness.WindowErrors | scripts/verify_v1_evidence.py:451-487 | the window codes appear exactly for an incomplete, backwards, short or stale window or a track with missing or extra days |
| Readiness.RepeatErrors | scripts/verify_v1_evidence.py:512-529 | duplicates, strangers and early repeats are each reported exactly when there is one |
| Readiness.AdoptionErrors | scripts/verify_v1_evidence.py:497-535 | each adoption code appears exactly under its condition |
| Readiness.AsOfErrors | scripts/verify_v1_evidence.py:537-566 | the freshness code appears exactly when a date that is read lies after the manifest's |
| Benchmark.NearestRankIsTheOrderStatistic | benchmarks/evaluate.py:62-69 | the result is the one number with at least the given share of the samples at most it and less than that share below it, and it is a sample |
| Benchmark.NearestRankPermutes | benchmarks/evaluate.py:62-69 | the order of the samples does not matter |
| Benchmark.MaximumIsLastRank | benchmarks/evaluate.py:237-242 | the maximum is the nearest rank of the whole |
| Benchmark.JudgedExactly | benchmarks/evaluate.py:222-267 | a metric is judged exactly when everything it needs is there; it passes exactly when its statistic keeps the maximum and, with a baseline, the ratio or the tolerance |
| Benchmark.Evaluate | benchmarks/evaluate.py:222-300 | the loop succeeds exactly when identifiers are unique and every metric can be judged, and passes exactly when every metric keeps its limits |
| Benchmark.PassingBoundsTheTail | benchmarks/evaluate.py:239-267 | a metric passes exactly when at most n - rank samples lie above the maximum and, with a baseline, above the grown or the tolerated old value |
| Benchmark.ReevaluationPasses | benchmarks/evaluate.py:239-267 | the samples of a passing evaluation pass again against their own result, exactly when a regression policy can be applied |

## Left out

- Connections, TLS, environment variables, endpoint hashing and the text of catalog queries (`src/db.rs:26-272`): identity and catalog evidence are values that other sessions may change.
- The SQL library's parser and printer (the parameter `Grammar`) and PostgreSQL's parser: that the printed statement and queries mean what the syntax tree says is assumed. The UTF-8 check of the SQL file belongs to reading it.
- The flag lists of INSERT, UPDATE and DELETE (`src/sql.rs:147-343`) are one flag each. Expressions inside of clauses that are refused anyway are not modelled, so which of two refusals such a statement gets may differ.
- ApplyTheorems.AppliedAsPlanned: INSERT has no place in it, nor in the replay theorems, because its fingerprint is only the statement's own text; its budget and its row number are proved.
- Tables with acknowledged triggers or row security: rows, counts and effects are then arbitrary; the invariant, crash safety and the outcome results still cover such runs.
- Protocol.Resolve: the search path is a list of schema names for each session; `pg_catalog` and the session's own temporary schema, which are searched without being listed, hold none of the tables, and the privileges on schemas do not change.
- Protocol.CanLock: the commit and the release of a lock are one step. A commit that reaches the server after the client has gone on is ordered before the client's next steps, which only touch its own file; a refused run keeps its lock until its receipt is written, and here releases it earlier, which allows more.
- A failed evaluation of AND and OR: an erroneous operand makes the result fail unless the left operand decides; PostgreSQL may evaluate in another order. Selection, counting and execution fail together here.
- SqlMeaning.EnvironmentIndependence: a qualifier in front of a column is taken to be the name that the statement's table exposes; another one is an error of the server, which is a failed call.
- Values are null, booleans, integers and texts; other types and comparisons occur through casts and operators, which are parameters.
- SqlMeaning.UpdateAgrees: the images are the assigned values; coercion to the column type and the recomputation of generated columns, which the policy allows for UPDATE, are not modelled. A violated constraint is a failed call.
- SHA-256 itself, the system clock's source, and file metadata, permissions and directory entries. A crash keeps the synced bytes and any prefix of the others.
- EXPLAIN and its digest (`src/engine.rs:139-147`): recorded in the plan and never compared. It is a parameter of `PlanCreation.CreatePlan`, and writing the plan file is left to `ReceiptProofs.PlanFileRoundTrip`.
- A database reply of another kind than its call asks for cannot occur in the program; the automaton treats it as a failed call.
- JSON numbers with fraction or exponent are refused where integers are expected, as strict decoding does; nesting limits of the JSON library are not modelled.
- Lint, inspect, schemas, the command line, printing and exit codes (`src/main.rs`).
- Structural validation of manifests beyond the fields that the readiness rules read, URL and host name checks, and messages; case folding and the SemVer pattern are the parameters `fold` and `major`.
- Benchmark.NearestRankIsTheOrderStatistic: real numbers stand for floating point, so rounding of the percentile product is not modelled. Sample identity, runner and schema checks (`benchmarks/evaluate.py:104-221`) are left out.
