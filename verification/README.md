# A verified model of delivery, tenancy and roles

This project models, in Dafny, the parts of the platform whose correctness rests on several pieces fitting
together: Axon's at-least-once delivery of platform mail, the migration that splits role assignments under forced
row-level security, the chain of tenant policies and the data migrations that work through it, the triggers that
guard the role tables, and the byte and text formats that tie them together. `dafny verify dfyconfig.toml` checks
all of it.

## How it is laid out

| files | what they model |
|---|---|
| `Texts`, `Sets`, `Arithmetic`, `Utf8`, `Uuids`, `UuidV7` | Python strings as code points, facts about sets and division, UTF-8, uuid text, `uuidv7()` |
| `JsonText`, `JsonNumber`, `Json`, `JsonRoundTrip`, `JsonCanon`, `JsonClean`, `JsonForm`, `JsonReading` | `json.dumps` and `json.loads` without floats: writing, reading, canonical form, what is refused |
| `Envelope`, `EnvelopeReading`, `Digests` | the `axon.send.requested` message; the section digests of a pack |
| `Ledger` | one message through `send_platform` and the consumer, imperatively, against specification functions |
| `AtLeastOnce`, `DeliverySafety`, `DeliveryProgress`, `DeliverySteps`, `DeliverySmooth` | the queue as a transition system, and what holds on every run |
| `LedgerReads` | the operator's list and counts over both ledgers |
| `Rls`, `PolicyChain`, `TenantFrame` | SQL's three-valued policies, the migrations that rewrite them, what a pinned session can change and learn |
| `SplitModel`, `SplitMigration` | the split of `user_role_assignments`, up and down |
| `SplitWriters`, `SplitOneWriter` | other sessions that write the table while the split runs |
| `Roos`, `EmailPreflight`, `Rbac` | the ROOS removal, the email pre-flight, the role tables and their triggers |
| `ObjectNames` | document object keys and their URIs |

Sessions, clocks, the provider's answers and the database's faults are arguments or events. A migration is a class
whose methods change the tables and the session variables in the order of the source; a failure restores the state
from before, as the enclosing transaction does. A statement that touches several rows is a loop over them in any
order.

## What the proofs found

- **The provider is called again after a row exists.** The prose at `axon/src/axon/send.py:35-38` names one resend
  window, a crash before the ledger commit. Nothing reads the ledger before the call, so a redelivery after the
  commit (a lost ack, an expired deadline) sends again too and returns `duplicate=True`:
  `DeliveryProgress.RecordedMessagesAreResent`, from a state that `CrashAfterCommitRequeues` reaches.
- **`send_platform` can raise.** Its documentation says it raises nothing. It raises exactly when the adapter raises
  something that is not a `ChannelSendError`, or the ledger write ends in something that is not a `DBAPIError`: the
  session helper's posture guard, a pool timeout, or a string with a lone surrogate, which the driver cannot encode.
  `Ledger.PlatformLedger.SendPlatform` states the condition. The last case arrives over the wire
  (`Ledger.LoneSurrogateIsFatal`), and such a message is never acked, in no run and however often the provider is
  called for it (`DeliverySafety.UnwritableIsNeverAcked`). In `poll_once` the exception loses the acks of the
  messages already processed in the batch, although their rows stay.
- **The documentation of the consumer says its nack does not use a zero deadline; the code passes
  `ack_deadline_seconds: 0`** (`axon/services/axon-sender/src/axon_sender/subscriber.py:14-18` and `234-245`). The
  model's nack returns the message to the queue either way.
- **The split's count check cannot notice a tenant that the loop skipped**, because both sides of the comparison skip
  it: `SplitModel.CountCheckIsBlind`. That no row is lost follows from the foreign key to `tenants`, the CHECKs and
  the PLATFORM session that makes every tenant visible to the cursor.
- **The split fails on more than 2^31 - 1 rows**, since its counters and their sum are INT. This is the third part of
  `SplitModel.Splittable`, next to the two that a data fix can reach. The pre-flight XOR block that the docstring
  describes is not in `upgrade()`; XOR comes from the old table's CHECK.
- **What is committed beside the copy can be lost without notice.** Each statement of the copy block takes its own
  snapshot. The first statement of the migration (`ALTER TABLE tenant_users`) keeps new tenant-side assignments
  waiting, but platform-side grants and, on both sides, revocations and deletions can commit in between. Such a change
  is lost if and only if it comes after the statement that copies its row, and the count check notices it if and only
  if it alters a count between a `COUNT(*)` and its copy: `SplitOneWriter.FateOfAChange` for one change at any
  moment, `SplitWriters.CountsMatchIff` and `NothingLostIff` for any number of them. A platform grant is carried over,
  stops the migration, or is lost (`PlatformGrant`); a revocation is never noticed (`RevocationBesideTheCopy`).
- **The override grant is pinned against DELETE only.** `UPDATE role_permissions` moves it away, after which nothing
  protects it (`Rbac.GrantEscapesThroughUpdate`), and TRUNCATE, which the seed reset issues on all five role tables,
  fires no row trigger: it takes the grant and the SUPER_ADMIN role (`Rbac.SeedResetLosesBoth`).
  `OverrideLostExactly`, `SuperAdminLostExactly` and `CoherenceBreaksExactly` say exactly which of the modelled
  statements get past the triggers.
- **Without the PLATFORM setting the ROOS removal would delete no access row and pass its own verification**, as its
  docstring says; the run would still stop, because the cast reads the rows that no policy filters: `Roos.BlindRun`.
- **Two databases that agree on a tenant's rows can be told apart by a primary-key collision** with a row of another
  tenant (`TenantFrame.CollisionTellsApart`), and over whole runs by nothing else as far as policies and primary keys
  go: `TenantFrame.RunIndependence`. The indexes that are unique across tenants, the display codes and after
  `f4b8c1d2e3a9` the emails, tell databases apart in the same way and are not part of that statement.
- **A string that spells a surrogate pair with two code points comes back as one.** Envelopes of Unicode scalar
  strings are unaffected; `Envelope.TextRoundTripIff` gives the exact condition.
- **An object name determines its token even if the token holds slashes**: `ObjectNames.ObjectNameInjective` needs no
  restriction on the token.

## Model

| member | source | states |
|---|---|---|
| Ledger.PlatformLedger.Insert | axon/schemas/postgres/deliveries.sql:95-173 | the table takes a row exactly when columns, CHECKs and the free key allow it, the one new row shows every column of the record, and only the table's own primary key is ever reported as a repeat |
| Ledger.PlatformLedger.RecordPlatformDelivery | axon/src/axon/ledger.py:167-225 | true, false or LedgerWriteError, for every fault before or after the commit; the rows gain at most the record's own key, with every column as recorded |
| Ledger.PlatformLedger.SendPlatform | axon/src/axon/send.py:89-148 | the exact guards under which it raises, records and reports a duplicate, what it returns in each case, and every column of the row it leaves in terms of the envelope, the clock and the adapter's answer |
| Ledger.PlatformLedger.ProcessMessage | axon/services/axon-sender/src/axon_sender/subscriber.py:91-171 | acks exactly the sendable messages whose write went through undisturbed; an ack implies the row |
| Ledger.PlatformLedger.PollOnce | axon/services/axon-sender/src/axon_sender/subscriber.py:219-246 | acks and nacks of a whole batch, and none of either when one message raises, while the rows written so far stay |
| Ledger.AckedBatchIsRecorded | axon/services/axon-sender/src/axon_sender/subscriber.py:219-246 | in a finished batch every message is acked or nacked and not both, and each acked one has its row at the end |
| Ledger.OnlyThePrimaryKeyIsARepeat | axon/src/axon/ledger.py:214-225 | new and repeat agree with the table, any other error is never read as a repeat, and a row may be in the table although its writer was told of an error |
| Ledger.RecordFits | axon/schemas/postgres/deliveries.sql:95-173 | when the table takes a record of strings: the one channel, a reason exactly for suppressed rows, no lone surrogate, no NUL, blanks only beyond 64 and 32 characters |
| Ledger.TextRecordFits | axon/schemas/postgres/deliveries.sql:95-173 | the same for the row of a text envelope, in terms of its strings and the adapter's |
| Ledger.LoneSurrogateIsFatal | axon/src/axon/ledger.py:189-225 | every pair-free text envelope with a lone surrogate in its recipient arrives intact; the consumer then dies exactly unless the database fails first, and never acks |
| Ledger.LoneSurrogateArrives | axon/src/axon/ledger.py:189-225 | one such envelope, which arrives and kills the consumer although the database works |
| AtLeastOnce.QueueRun | infra/envs/staging/main.tf:608-623 | on every run each message has one status, at most five deliveries, waits only below five, is dead-lettered only at five, and is in flight only with an attempt of its own |
| AtLeastOnce.LedgerStep | axon/src/axon/send.py:113-148 | every event keeps the agreement between what attempts were told, the rows and the attempt that wrote each row |
| DeliverySafety.OneFirstWrite | axon/src/axon/send.py:146-148 | over every interleaving at most one attempt per delivery_id is told that its row is new |
| DeliverySafety.RowStatesItsWriter | axon/src/axon/ledger.py:87-104 | each row shows, column by column, the envelope and the provider's answer to the one attempt that wrote it: ACCEPTED a real acceptance, FAILED that attempt's refusal with its detail |
| DeliverySafety.NothingIsUndone | axon/src/axon/send.py:53-65 | extending a run never changes or removes a row, and acked and dead-lettered are final |
| DeliverySafety.MessagesAreConserved | infra/envs/staging/main.tf:608-623 | at every moment the queue holds exactly the messages published, unchanged, each queued, in flight, acked or dead-lettered |
| DeliverySafety.AckedMeansRecorded | axon/src/axon/send.py:82-86 | every acked message was readable and its row is in the ledger from then on |
| DeliverySafety.AckedByItsOwnAttempt | axon/services/axon-sender/src/axon_sender/subscriber.py:138-171 | a message is acked only on the strength of an attempt of its own that was told its row is there and whose record the table takes |
| DeliverySafety.UnwritableIsNeverAcked | axon/src/axon/ledger.py:189-225 | a message whose row can never be written, a lone surrogate in the recipient included, is acked in no run |
| DeliveryProgress.AttemptsAreDeliveries | infra/envs/staging/main.tf:614-617 | the delivery count is the number of attempts and never exceeds five |
| DeliveryProgress.CallsAreBounded | axon/src/axon/send.py:35-38 | provider calls for an id: at most five per message published with it, and no more than its deliveries |
| DeliveryProgress.RunsEnd | infra/envs/staging/main.tf:608-623 | n published messages allow at most 25 n further events, so no run goes on for ever |
| DeliveryProgress.StuckMeansSettled | axon/services/axon-sender/src/axon_sender/subscriber.py:4-13 | nothing more can happen exactly when every message is acked or dead-lettered |
| DeliveryProgress.EveryMessageSettles | infra/envs/staging/main.tf:608-623 | from every run a continuation without publishes has at most Measure effective events, and it cannot be extended exactly when every message is acked or dead-lettered and every consumer is done |
| DeliveryProgress.SettlingContinuation | infra/envs/staging/main.tf:608-623 | from every run there is a continuation that settles everything |
| DeliveryProgress.UnwritableIsDeadLettered | infra/envs/staging/main.tf:614-617 | once settled, a message whose row can never be written is on the dead-letter topic after exactly five attempts |
| DeliveryProgress.RecordedMessagesAreResent | axon/src/axon/send.py:118-140 | from any run with the row present and the message queued, the provider is called again and the attempt ends as a duplicate with the rows unchanged |
| DeliveryProgress.CrashAfterCommitRequeues | axon/src/axon/send.py:118-140 | such a run exists: commit, crash before the ack, expired deadline |
| DeliverySteps.DeliveryStep | infra/envs/staging/main.tf:608-623 | on every run a waiting message can be delivered: one attempt and one delivery more, nothing else changes |
| DeliverySteps.ExpiryStep | infra/envs/staging/main.tf:614-617 | on every run an expired delivery leaves the message waiting with its count below five, and dead-letters it at five; nothing else changes |
| DeliverySteps.AckStep | axon/services/axon-sender/src/axon_sender/subscriber.py:138-171 | an attempt that was told of its row acks; the ack, even a late one, removes the message unless it was given up, and a lost one changes nothing on the queue |
| DeliverySteps.NackStep | axon/services/axon-sender/src/axon_sender/subscriber.py:91-136 | an attempt on an unreadable message, or told that its write failed, nacks; that returns the message as an expiry does, but only for the delivery under way |
| DeliverySteps.SilentStep | axon/services/axon-sender/src/axon_sender/subscriber.py:91-171 | before it is told of its write an attempt has no answer; one that dies leaves queue and rows alone |
| DeliverySteps.CallStep | axon/src/axon/send.py:118-148 | the call leaves queue and rows alone and ends the attempt exactly if the adapter breaks; so does an exception around the INSERT that is no database error |
| DeliverySteps.OnlyMailIsSent | axon/services/axon-sender/src/axon_sender/subscriber.py:105-136 | on every run the provider is called only for messages that could be read and whose channel is email |
| DeliverySmooth.FaultFreeRun | axon/src/axon/send.py:113-148 | in every run without faults a sendable message gets at most one attempt, and once settled is acked with exactly one call and its row |
| DeliverySmooth.AttemptIsProcessMessage | axon/services/axon-sender/src/axon_sender/subscriber.py:91-171 | one uninterrupted attempt of the transition system changes rows and acks exactly as process_message does |
| LedgerReads.RecentIsNewest | axon/src/axon/reads.py:153-189 | whichever arrangement ORDER BY delivers, the list is the newest min(200, n) rows by created_at, then by delivery_id, both descending, no omitted row is newer than a returned one, and what the flag means, exactly 200 included |
| LedgerReads.UnionRowByRow | axon/src/axon/reads.py:153-184 | under the reader's session the union is every platform row without a tenant, then every tenant row with its own, each as stored |
| LedgerReads.UnionMembers | axon/src/axon/reads.py:153-184 | a session that is not PLATFORM would see the platform ledger and the rows of its own tenant only |
| LedgerReads.OneListIff | axon/src/axon/reads.py:185-189 | every arrangement gives the same list if and only if no two different rows share created_at and delivery_id on the page or across its end |
| LedgerReads.TiedRowsSwap | axon/src/axon/reads.py:185-189 | two rows that share both may come either way round |
| LedgerReads.ArrangementExists | axon/src/axon/reads.py:185-189 | every union has an arrangement |
| LedgerReads.UnsharedIdsGiveOneList | axon/src/axon/reads.py:185-189 | given each table's primary key, it is one list if no platform row and tenant row share both columns, which no constraint forbids |
| LedgerReads.TotalIsTheSumOfItsParts | axon/src/axon/reads.py:200-217 | total = accepted + failed + suppressed exactly when every state is in the vocabulary |
| LedgerReads.CountsAreCounts | axon/src/axon/reads.py:200-217 | each count is the number of rows in the state it is named after |
| LedgerReads.ListAgreesWithCounts | axon/src/axon/reads.py:220-272 | for every arrangement an unflagged list has length total; a flagged one has 200 of at least that many |
| LedgerReads.CountsCoverBothLedgers | axon/src/axon/reads.py:256-272 | under the reader's session every row of either ledger is counted |
| Envelope.RoundTrip | axon/src/axon/envelope.py:81-132 | from_json(to_json(e)) for every envelope without exception: itself with settled values for version 1, refused for any other integer version |
| Envelope.TextRoundTripIff | axon/src/axon/envelope.py:81-132 | for text envelopes the round trip is exact if and only if no string spells a surrogate pair in two code points |
| Envelope.ScalarRoundTrip | axon/src/axon/envelope.py:81-132 | every version 1 envelope over Unicode scalar strings is read back exactly |
| Envelope.AcceptedReachesFixedPoint | axon/src/axon/envelope.py:100-132 | whatever bytes are accepted, writing the envelope and reading it again reaches a fixed point |
| EnvelopeReading.AcceptedIff | axon/src/axon/envelope.py:100-132 | a body is accepted if and only if it is the UTF-8 of a JSON object with schema_version 1 or true, a delivery_id string that is a UUID, one of the three channels and all six text members; each field is its member's value and an absent actor_subject is None |
| EnvelopeReading.RefusedIff | axon/src/axon/envelope.py:113-120 | which bodies are refused as bytes that encode no text, and which for their version |
| EnvelopeReading.WireForm | axon/src/axon/envelope.py:81-98 | the message on the wire is one compact ASCII object of exactly the ten members, in key order |
| Uuids.TextRoundTrip | axon/src/axon/envelope.py:86-122 | `UUID(str(u)) == u` for every 128-bit id |
| Uuids.TextForm | axon/src/axon/envelope.py:86 | hyphens at positions 8, 13, 18 and 23, and the lower-case digits in order everywhere else |
| Uuids.OtherForms | axon/src/axon/envelope.py:122 | upper case, no hyphens, braces and `urn:uuid:` are read as the same id |
| Utf8.DecodeEncode | axon/src/axon/envelope.py:98-115 | every encodable string is decoded to itself |
| Utf8.DecodeIff | axon/src/axon/envelope.py:98-115 | bytes are decoded to a text if and only if they are its encoding: overlong forms, surrogates and stray bytes are refused |
| Utf8.EncodedForm | axon/src/axon/envelope.py:98-115 | the one to four bytes of a character, as section 3 of RFC 3629 lays them out |
| JsonText.StringRoundTrip | axon/src/axon/envelope.py:83-115 | an escaped string is read back whole whatever follows; with ASCII escapes its surrogate pairs come back joined |
| JsonForm.WrittenForm | contracts/conformance/validate.py:36-38 | the compact text of every kind of value: literal words, brackets, commas and colons without blanks |
| JsonForm.EscapeTable | contracts/conformance/validate.py:36-38 | how every character is written, with and without ASCII escapes |
| JsonForm.StringForm | contracts/conformance/validate.py:36-38 | a string is its characters one after the other between quotes |
| JsonForm.DigitsForm | axon/src/axon/envelope.py:83-98 | integers in decimal, digit by digit, without leading zeros |
| JsonReading.AroundADocument | axon/src/axon/envelope.py:115 | blanks around a document change nothing and anything else after it is refused |
| JsonReading.LaterMemberWins | axon/src/axon/envelope.py:115 | of two members with one key the later is kept and the others stay |
| JsonReading.RepeatedKey | axon/src/axon/envelope.py:115 | the same for an object that is read from text |
| JsonReading.StrictStrings | axon/src/axon/envelope.py:115 | raw control characters and unknown escapes are refused, the eight named escapes are read |
| JsonReading.NumbersEnd | axon/src/axon/envelope.py:115 | leading zeros are refused, and fractions and exponents are floats |
| JsonCanon.LoadsDumps | axon/src/axon/envelope.py:83-115 | for every value without floats, reading what was written gives it back with keys sorted and, with ASCII escapes, surrogate pairs joined (two keys joined to one string become one member); without ASCII escapes a dict comes back exactly |
| JsonCanon.CanonicalIff | contracts/conformance/validate.py:36-38 | two values have the same canonical text if and only if they are equal up to the order of object keys |
| JsonForm.NormalForm | contracts/conformance/validate.py:36-38 | what is written is the one value equal up to key order whose keys ascend, by the first code point that differs, in every object |
| Texts.BeforeIff | contracts/conformance/validate.py:36-38 | the order of keys: a string before its continuations, otherwise by the smaller code point at the first difference |
| Digests.CanonicalBytesIff | contracts/conformance/validate.py:36-38 | the same for the bytes that are hashed |
| Digests.CanonicalBytesForm | contracts/conformance/validate.py:36-38 | the hashed bytes are the UTF-8 of the compact text of that value |
| Digests.CheckDigests | contracts/conformance/validate.py:60-70 | the two checks together hold if and only if the manifest's map is the recomputed map |
| Digests.DigestsPinPayload | contracts/conformance/validate.py:60-70 | without a hash collision, two payloads that pass against one manifest are equal section by section up to key order |
| Rls.NullifRefinesOriginal | cm-backend/migrations/versions/e59f62d5037d_amend_rls_policies_use_nullif_for_empty_.py:7-21 | when each form raises; the amended one agrees with the original wherever that does not |
| Rls.GateIsNoOpOnNotNull | cm-backend/migrations/versions/4fd3aec6ae0c_amend_user_role_assignments_or_clause_.py:37-67 | the gated branch changes nothing on a NOT NULL column and admits exactly PLATFORM on NULL |
| Rls.PooledPolicies | cm-backend/migrations/versions/e59f62d5037d_amend_rls_policies_use_nullif_for_empty_.py:7-21 | along every run of settings, transaction ends and reuse the amended policy never raises and the original raises exactly when the history blanked the setting |
| PolicyChain.Catalogue.UpgradeChain | cm-backend/migrations/versions/21e2ad16303a_step_3_0_platform_visibility_or_clause.py:58-150 | the three upgrades in order grant exactly what was granted before plus, to PLATFORM, every row of four tables and the assignments without a tenant; afterwards only a setting that is no uuid raises |
| PolicyChain.Catalogue.DowngradeChain | cm-backend/migrations/versions/21e2ad16303a_step_3_0_platform_visibility_or_clause.py:153-232 | the three downgrades in reverse order withdraw exactly that access and restore the initial policies |
| PolicyChain.Catalogue.UpgradeNullif | cm-backend/migrations/versions/e59f62d5037d_amend_rls_policies_use_nullif_for_empty_.py:60-78 | the loop over the five tables changes nobody's access, and statements no longer raise under the empty setting |
| PolicyChain.Catalogue.UpgradeGate | cm-backend/migrations/versions/4fd3aec6ae0c_amend_user_role_assignments_or_clause_.py:37-67 | opens exactly the assignments without a tenant, to PLATFORM |
| PolicyChain.Catalogue.UpgradePlatform | cm-backend/migrations/versions/21e2ad16303a_step_3_0_platform_visibility_or_clause.py:58-150 | opens exactly the rows of the other four tables, to PLATFORM |
| PolicyChain.ChainAdmits | cm-backend/migrations/versions/21e2ad16303a_step_3_0_platform_visibility_or_clause.py:58-150 | whom the finished chain admits to which row, in terms of tenant and user type alone |
| PolicyChain.ChainOnlyWidensForPlatform | cm-backend/migrations/versions/21e2ad16303a_step_3_0_platform_visibility_or_clause.py:58-150 | no step takes access away and a session that is not PLATFORM gains none |
| TenantFrame.OtherTenantsUntouched | cm-backend/migrations/versions/21e2ad16303a_step_3_0_platform_visibility_or_clause.py:58-150 | over any run of SELECT, INSERT, UPDATE and DELETE in a session pinned to t, the rows of other tenants stay the same |
| TenantFrame.SelectAnswers | cm-backend/migrations/versions/21e2ad16303a_step_3_0_platform_visibility_or_clause.py:58-150 | a SELECT of a pinned session answers with exactly the own rows that its clause picks |
| TenantFrame.InsertAnswers | cm-backend/migrations/versions/21e2ad16303a_step_3_0_platform_visibility_or_clause.py:58-150 | an INSERT goes through exactly for an own row under a free key |
| TenantFrame.UpdateAnswers | cm-backend/migrations/versions/21e2ad16303a_step_3_0_platform_visibility_or_clause.py:58-150 | an UPDATE changes exactly the own rows picked, and is refused exactly if it would give one away |
| TenantFrame.DeleteAnswers | cm-backend/migrations/versions/21e2ad16303a_step_3_0_platform_visibility_or_clause.py:58-150 | a DELETE takes exactly the own rows picked |
| TenantFrame.StatementIndependence | cm-backend/migrations/versions/21e2ad16303a_step_3_0_platform_visibility_or_clause.py:58-150 | two databases that agree on t's rows answer a statement alike if and only if its insert collides with another tenant's key in both or in neither, and then agree on t's rows again |
| TenantFrame.RunIndependence | cm-backend/migrations/versions/21e2ad16303a_step_3_0_platform_visibility_or_clause.py:58-150 | over whole runs all answers are alike if and only if each insert collides in both databases or in neither, and then they agree on t's rows at the end |
| TenantFrame.CollisionTellsApart | cm-backend/migrations/versions/21e2ad16303a_step_3_0_platform_visibility_or_clause.py:58-150 | two databases without a row of t that one insert of t's tells apart |
| TenantFrame.NobodySeesNothing | cm-backend/migrations/versions/21e2ad16303a_step_3_0_platform_visibility_or_clause.py:58-150 | without a tenant nothing is visible and nothing can be written, over any run |
| SplitModel.ExactlyOnePass | cm-backend/migrations/versions/3e05299cb533_step_6_8_1_split_user_role_assignments.py:403-453 | under the changing session variables every old row is selected by exactly one of the passes made |
| SplitModel.NoSingleSessionSuffices | cm-backend/migrations/versions/4fd3aec6ae0c_amend_user_role_assignments_or_clause_.py:37-67 | no single session reads rows of two tenants through the gated policy, and one that is not PLATFORM reads no row without a tenant |
| SplitModel.ActiveOnce | cm-backend/migrations/versions/3e05299cb533_step_6_8_1_split_user_role_assignments.py:88-244 | what the partial unique indexes of all three tables mean: nobody holds a role twice at the same time, on the tenant side at one node |
| SplitModel.LifecycleIff | cm-backend/migrations/versions/3e05299cb533_step_6_8_1_split_user_role_assignments.py:88-244 | what the lifecycle CHECKs leave: an active row has no trace of a revocation, an inactive one all of it |
| SplitModel.ShapeIff | cm-backend/migrations/versions/ad8afd429581_initial_schema.py:2218-2325 | what the CHECKs of the old table leave: a platform user without anchor, or a tenant user with both parts of one |
| SplitModel.SplitThenMerge | cm-backend/migrations/versions/3e05299cb533_step_6_8_1_split_user_role_assignments.py:389-480 | the two parts partition the old table, hold each column as it was, and put together give it back |
| SplitModel.MergeThenSplit | cm-backend/migrations/versions/3e05299cb533_step_6_8_1_split_user_role_assignments.py:681-735 | two tables with disjoint ids are found again in their union, which holds each column as it was and NULL in those of the other side |
| SplitModel.PartsHoldColumns | cm-backend/migrations/versions/3e05299cb533_step_6_8_1_split_user_role_assignments.py:411-453 | which rows each new table has, and every column of each is the old row's own |
| SplitModel.MergedHoldsColumns | cm-backend/migrations/versions/3e05299cb533_step_6_8_1_split_user_role_assignments.py:681-735 | the same for the old table after the downgrade, with the NULLs |
| SplitModel.PartsKeepConstraints | cm-backend/migrations/versions/3e05299cb533_step_6_8_1_split_user_role_assignments.py:88-244 | all constraints of the new tables follow from the old ones, audience and membership |
| SplitModel.MergeKeepsConstraints | cm-backend/migrations/versions/ad8afd429581_initial_schema.py:2218-2325 | all constraints of the old table follow from those of the new ones |
| SplitModel.CountCheckIsBlind | cm-backend/migrations/versions/3e05299cb533_step_6_8_1_split_user_role_assignments.py:458-473 | the two counts agree whichever tenants were visited; nothing is lost exactly when every row's tenant was |
| SplitMigration.Database.InsertPlatform | cm-backend/migrations/versions/3e05299cb533_step_6_8_1_split_user_role_assignments.py:88-130 | when a row enters the platform table: trigger, CHECKs, keys, unique index, foreign keys |
| SplitMigration.Database.InsertTenant | cm-backend/migrations/versions/3e05299cb533_step_6_8_1_split_user_role_assignments.py:137-244 | the same for the tenant table, with its policy and composite foreign keys |
| SplitMigration.Database.CopyAndVerify | cm-backend/migrations/versions/3e05299cb533_step_6_8_1_split_user_role_assignments.py:389-480 | the copy block, session changes and counters included, ends with the exact partition, column by column, or fails exactly when the table is not splittable |
| SplitMigration.Database.Upgrade | cm-backend/migrations/versions/3e05299cb533_step_6_8_1_split_user_role_assignments.py:69-486 | completes if and only if every role has the right audience, every tenant row's user is of its tenant and the counters fit; the new tables then hold the old rows column by column, and a failure changes nothing |
| SplitMigration.Database.Downgrade | cm-backend/migrations/versions/3e05299cb533_step_6_8_1_split_user_role_assignments.py:489-776 | completes if and only if no id is in both tables and the tenant setting can be read, with the exact union of the two column by column; a failure changes nothing |
| SplitMigration.Database.UpgradeThenDowngrade | cm-backend/migrations/versions/3e05299cb533_step_6_8_1_split_user_role_assignments.py:681-735 | from every valid table the same table is there at the end |
| SplitMigration.Database.DowngradeThenUpgrade | cm-backend/migrations/versions/3e05299cb533_step_6_8_1_split_user_role_assignments.py:389-480 | the reverse composition restores both tables if and only if the downgrade completes, the audiences are right and the total fits; otherwise it leaves the state of the half that failed |
| SplitMigration.SplittableParts | cm-backend/migrations/versions/3e05299cb533_step_6_8_1_split_user_role_assignments.py:266-315 | splittable means both sides good and the total within INT |
| SplitWriters.FollowsKeeps | cm-backend/migrations/versions/3e05299cb533_step_6_8_1_split_user_role_assignments.py:80-83 | whatever other sessions commit between two statements, the table stays valid, and behind the lock on tenant_users the tenant side only loses rows and moves none |
| SplitWriters.CommitsIff | cm-backend/migrations/versions/3e05299cb533_step_6_8_1_split_user_role_assignments.py:80-83 | a change commits beside the migration if and only if its session may see the row before and after, the table is valid with it, and it names no new tenant user |
| SplitWriters.ChangeIsOneRow | cm-backend/migrations/versions/3e05299cb533_step_6_8_1_split_user_role_assignments.py:411-453 | a change changes its own row and no other |
| SplitWriters.CountsMatchIff | cm-backend/migrations/versions/3e05299cb533_step_6_8_1_split_user_role_assignments.py:407-473 | with each statement reading its own version, the count check passes if and only if the platform side has as many rows at its copy as at its count and no tenant lost a row between the two |
| SplitWriters.NothingLostIff | cm-backend/migrations/versions/3e05299cb533_step_6_8_1_split_user_role_assignments.py:411-486 | the new tables are the old one as dropped if and only if no side changed after the statement that copied it |
| SplitWriters.CopyBesideWriters | cm-backend/migrations/versions/3e05299cb533_step_6_8_1_split_user_role_assignments.py:389-480 | the copy block over changing versions completes exactly when the copied rows are good and the counts balance, with exactly those rows |
| SplitWriters.NewTablesValid | cm-backend/migrations/versions/3e05299cb533_step_6_8_1_split_user_role_assignments.py:88-244 | rows copied from different versions meet all constraints of the new tables together |
| SplitOneWriter.FateOfAChange | cm-backend/migrations/versions/3e05299cb533_step_6_8_1_split_user_role_assignments.py:389-486 | for every change that can commit and every moment: noticed by the count check, and carried over, each if and only if a stated condition on moment and row holds |
| SplitOneWriter.PlatformGrant | cm-backend/migrations/versions/3e05299cb533_step_6_8_1_split_user_role_assignments.py:407-427 | a platform grant is carried over before its copy's snapshot, stops the migration between count and copy, and is lost after |
| SplitOneWriter.RevocationBesideTheCopy | cm-backend/migrations/versions/3e05299cb533_step_6_8_1_split_user_role_assignments.py:411-453 | a revocation on either side is never noticed and is carried over if and only if it commits before the statement that copies its row |
| Rbac.CoherenceBreaksExactly | cm-backend/migrations/versions/5e22b2ca13cc_step_6_20_3_rbac_structural_triggers.py:64-96 | from a good state a statement that passes the triggers breaks an invariant if and only if it is one of the listed audience or scope changes |
| Rbac.CoherentRuns | cm-backend/migrations/versions/a0982a86985b_fix_schema_qualify_identifiers_inside_.py:71-113 | with audience, scope and codes fixed every run keeps "no TENANT role holds a GLOBAL permission" and "assignments match audience" |
| Rbac.AllowedExactly | cm-backend/migrations/versions/ad8afd429581_initial_schema.py:1955-2148 | from a sound database a row statement goes through if and only if its row is there or its key free, no trigger raises, and all unique codes and foreign keys hold afterwards |
| Rbac.IntegrityRun | cm-backend/migrations/versions/ad8afd429581_initial_schema.py:1955-2148 | keys, unique codes and foreign keys hold on every run |
| Rbac.SuperAdminIsForever | cm-backend/migrations/versions/5e22b2ca13cc_step_6_20_3_rbac_structural_triggers.py:135-170 | once present, the SUPER_ADMIN role keeps code, audience and status through every run that does not truncate the table of roles |
| Rbac.SuperAdminLostExactly | cm-backend/migrations/versions/5e22b2ca13cc_step_6_20_3_rbac_structural_triggers.py:135-170 | a statement that goes through takes the role away or changes it if and only if it truncates the table of roles |
| Rbac.SeedResetLosesBoth | cm-backend/scripts/seed_dev_data/truncate.py:32-72 | after any run from any database the seed reset goes through and leaves neither the SUPER_ADMIN role nor the override grant |
| Rbac.BootstrapIsSound | cm-backend/migrations/versions/5e22b2ca13cc_step_6_20_3_rbac_structural_triggers.py:99-170 | a sound database that has both |
| Rbac.OverrideLostExactly | cm-backend/migrations/versions/5e22b2ca13cc_step_6_20_3_rbac_structural_triggers.py:99-130 | which statements take the override grant away in spite of the trigger: an update that moves it, one that renames the permission, a TRUNCATE that lists the grants |
| Rbac.OverrideIsForever | cm-backend/migrations/versions/5e22b2ca13cc_step_6_20_3_rbac_structural_triggers.py:99-130 | while role_permissions changes by inserting and deleting rows alone and codes are fixed, the grant is permanent |
| Rbac.GrantEscapesThroughUpdate | cm-backend/migrations/versions/5e22b2ca13cc_step_6_20_3_rbac_structural_triggers.py:99-130 | an update followed by a delete removes it |
| Rbac.RoleTables.ProtectSuperAdminOverrideGlobalGrant | cm-backend/migrations/versions/5e22b2ca13cc_step_6_20_3_rbac_structural_triggers.py:99-130 | the trigger body, with its two lookups that may be NULL, raises exactly for the override grant |
| Rbac.RoleTables.ProtectSuperAdminRole | cm-backend/migrations/versions/5e22b2ca13cc_step_6_20_3_rbac_structural_triggers.py:135-170 | for the SUPER_ADMIN role the trigger raises exactly when the statement would leave no SUPER_ADMIN role with its present audience and status, whatever other columns it changes; for other roles it never raises |
| Rbac.RoleTables.EnforceRoleAudienceScopeCoherence | cm-backend/migrations/versions/5e22b2ca13cc_step_6_20_3_rbac_structural_triggers.py:64-96 | from coherent grants the trigger raises exactly when the new row would break the rule that no TENANT role holds a GLOBAL permission |
| Rbac.RoleTables.EnforceTenantRoleAudience | cm-backend/migrations/versions/a0982a86985b_fix_schema_qualify_identifiers_inside_.py:71-90 | from coherent assignments the trigger raises exactly when the row would break the rule that assignments match their role's audience |
| Rbac.RoleTables.EnforcePlatformRoleAudience | cm-backend/migrations/versions/a0982a86985b_fix_schema_qualify_identifiers_inside_.py:93-113 | the same on the platform side |
| Rbac.RoleTables.UpdateGrant | cm-backend/migrations/versions/ad8afd429581_initial_schema.py:2115-2148 | trigger, key and foreign keys together do what the transition function says |
| Roos.VerificationIsVacuousWhenBlind | cm-backend/migrations/versions/0fdfbc8871a8_remove_roos_module.py:356-383 | the access checks always pass; under PLATFORM they mean no ROOS row is left, for a blind session they pass on an untouched table |
| Roos.CleanedIsExact | cm-backend/migrations/versions/0fdfbc8871a8_remove_roos_module.py:323-354 | what is left is exactly the non-ROOS rows unchanged, with no dangling grant |
| Roos.ProtectedIsOverride | cm-backend/migrations/versions/5e22b2ca13cc_step_6_20_3_rbac_structural_triggers.py:99-130 | the grant that stops the delete is the override grant of the role tables |
| Roos.DropKeepsOrder | cm-backend/migrations/versions/0fdfbc8871a8_remove_roos_module.py:99-108 | leaving one label out of any declaration changes the order of no two others |
| Roos.OrderKept | cm-backend/migrations/versions/0fdfbc8871a8_remove_roos_module.py:99-108 | the supported labels are the declared ones without ROOS, so any two survivors sort as they did |
| Roos.Schema.DeleteGrants | cm-backend/migrations/versions/0fdfbc8871a8_remove_roos_module.py:333-341 | the row-by-row delete under the override trigger, and exactly when that trigger stops it |
| Roos.Schema.DeleteAndVerify | cm-backend/migrations/versions/0fdfbc8871a8_remove_roos_module.py:323-383 | the deletes in foreign-key order never meet RESTRICT, and the checks pass, under any session |
| Roos.Schema.Rebuild | cm-backend/migrations/versions/0fdfbc8871a8_remove_roos_module.py:385-419 | rename, recreate, cast, drop: completes exactly when every stored label is supported |
| Roos.Schema.Upgrade | cm-backend/migrations/versions/0fdfbc8871a8_remove_roos_module.py:296-420 | completes if and only if the catalogue is as expected, the setting is readable and no ROOS grant is pinned; else nothing changes |
| Roos.BlindRun | cm-backend/migrations/versions/0fdfbc8871a8_remove_roos_module.py:117-132 | had the setting not taken effect, only the cast would stop the run, exactly when a ROOS access row exists |
| EmailPreflight.DetectIsExact | cm-backend/migrations/versions/f4b8c1d2e3a9_slice9_global_email_uniqueness.py:54-83 | two empty lists if and only if emails are globally unique and disjoint from the platform's |
| EmailPreflight.ListsAre | cm-backend/migrations/versions/f4b8c1d2e3a9_slice9_global_email_uniqueness.py:54-83 | which emails each list names, and the number of rows that the first gives for each |
| EmailPreflight.BlindDetection | cm-backend/migrations/versions/f4b8c1d2e3a9_slice9_global_email_uniqueness.py:65-68 | a session that is neither PLATFORM nor pinned gets two empty lists for every population |
| EmailPreflight.Schema.Upgrade | cm-backend/migrations/versions/f4b8c1d2e3a9_slice9_global_email_uniqueness.py:105-121 | completes exactly then; past the pre-flight the index is always built, and a failure changes nothing and names the violations |
| EmailPreflight.Schema.Downgrade | cm-backend/migrations/versions/f4b8c1d2e3a9_slice9_global_email_uniqueness.py:124-131 | always succeeds from the upgraded state |
| UuidV7.GeneratedBits | cm-backend/migrations/versions/ad8afd429581_initial_schema.py:134-156 | top 48 bits are the clock modulo 2^48, version 7, variant and the other random bits kept |
| UuidV7.SmallerClockSortsFirst | cm-backend/migrations/versions/ad8afd429581_initial_schema.py:134-156 | a smaller clock always gives a byte-wise smaller id, until the clock wraps |
| ObjectNames.SanitizeKeepsLetters | cm-backend/src/admin_backend/gcs.py:56-65 | the result is never empty, in the safe alphabet, without separators at the ends, and has exactly the input's letters and digits in order |
| ObjectNames.SanitizeFixes | cm-backend/src/admin_backend/gcs.py:56-65 | the fixed points are exactly the sanitised names; sanitising is idempotent |
| ObjectNames.RunCollapses | cm-backend/src/admin_backend/gcs.py:53-64 | a run of unsafe characters becomes one underscore whatever stands around it |
| ObjectNames.SanitizeTrims | cm-backend/src/admin_backend/gcs.py:64-65 | the result is the collapsed name with nothing but the separators at its ends cut off |
| ObjectNames.ObjectNameForm | cm-backend/src/admin_backend/gcs.py:68-83 | the literal layout of an object key |
| ObjectNames.ObjectNameInjective | cm-backend/src/admin_backend/gcs.py:68-83 | an object name determines tenant, token and sanitised name, and conversely |
| ObjectNames.UriRoundTrip | cm-backend/src/admin_backend/gcs.py:86-101 | the key is read back for every bucket and key; the other way round exactly for URIs with the bucket's prefix |

## Left out

- Floats in JSON: reading one fails in the model with its own error; `1.0 == 1` at the version check is not modelled. `true == 1` is.
- Python's limits on integer digits and recursion depth, and `NaN` and `Infinity` literals.
- Uuids.FromText: does not accept the signs, underscores, `0x`, blanks and non-ASCII digits that `int(text, 16)` takes inside `UUID(text)`.
- Ledger.Storable: a list in a text column counts as a refused write, where the database would store the text of an array.
- A database that reports `pk_platform_deliveries` for an error of its own making: faults are any other error, before or after the commit.
- The provider's own effects: a call is an accept, a refusal or another exception. Whether the mail arrives is unknown to the source too.
- Pub/Sub beyond deliveries, acks, nacks, deadlines and the attempt limit: ordering, back-off and the forwarding to the dead-letter topic, which the model does at the fifth failed delivery. A late ack removes a message unless it was dead-lettered.
- `run_forever`, the heartbeat, logging, configuration, the producer's wiring, SendGrid, GCS signing, Auth0 and HTTP routes.
- SHA-256 is an arbitrary function; that it has no collision is a hypothesis of `Digests.DigestsPinPayload` only.
- The rest of `contracts/conformance/validate.py` and `contracts/synapse/validate.py`: finite checks of fixtures.
- Indexes that only serve speed, `updated_at` triggers (they fire on UPDATE only and no modelled copy updates), `search_path`, and the catalogue scans behind `blocking_dependents`, whose result is an argument.
- Statements that change a primary key in `TenantFrame`, and unique constraints across tenants other than the primary key there.
- Statements that disable triggers or drop tables, and writers running beside any migration but the split.
- SplitWriters.Commits: a change of a row's primary key, and writers that no policy binds; the transaction is taken to be READ COMMITTED, where each statement has its own snapshot.
- A statement that a policy governs is taken to fail under a tenant setting that is no uuid, whether or not it meets a row.
- TRUNCATE under row-level security: it consults no policy, so in `TenantFrame` a role with that privilege could empty a table; the statements there are SELECT, INSERT, UPDATE and DELETE.
- Rbac.Allowed: the format CHECKs, the uniqueness of a permission's (module, resource, action, scope) and the users of an assignment are not modelled; they only refuse more statements. A statement that changes several rows is the sequence of its row changes.
- The downgrade half of the ROOS removal, which the source refuses, and the seed of `lookups` and `tenant_module_access`.
- The tenant ledger's own policy, whose writer does not exist yet, beyond its open read branch.
- Tenant, store and org-tree services, the seed loader and the frontend.
