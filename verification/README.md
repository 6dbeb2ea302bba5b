# A verified model of the Kodi profile sync server's store

The store keeps ten SQLite tables and a content-addressed file tree, and drives a staged rollout: a candidate revision is
published by compare-and-swap, assigned to canaries by signed documents, reported on, promoted behind those reports with an
optional batch of signed active assignments, and bootstrapped onto late devices. Every operation may fail midway and roll back,
requests are retried under idempotency keys, revision uploads interleave, and a blob upload may die between linking its file and
committing its row. This project models that behaviour in Dafny and proves what holds over whole runs.

## How the model is built

* `Json`, `Text`, `Utf8`, `JsonText`, `Canonical`: JSON values, code-point order, UTF-8, the compact printer with sorted keys and a
  parser for what it prints and more (sections 4 to 7 of RFC 8259), and the bytes of `canonical_json`. `CanonicalForm`: what
  singles those bytes out among all texts of a value.
* `Base64Url`, `Formats`, `Signing`, `Documents`, `Convergence`: the strict codec, the field formats, signatures and the key
  registry, content-addressed documents, and the delegation chain of intents, assignments and reports.
* `Tables`, `Rollout`, `Enrolling`, `Administration`, `Blobs`: the tables and the meaning of each operation as a function from
  tables to tables and an outcome.
* `Store`: the class `ProfileStore`. Each table is a field that the methods change statement by statement; a transaction that fails
  puts a snapshot back. Every method is proved to do exactly what the operation means, and records the call in a ghost history.
* `World`: runs, which are arbitrary sequences of calls. An upload of a revision is two steps that others may separate, and a put of
  a blob may die before or after its file is linked.
* `RolloutInvariant`, `Justification`, `Retries`, `ChannelHistory`, `Promotions`, `RevisionHistory`, `NonceHistory`,
  `EnrollmentHistory`, `Access`, `Backups`: the theorems over all runs. `Store.StoreIsSound` carries the invariants to the fields
  of every reachable object.
* `Reads`, `Snapshot`: what devices and operators are shown. These reads run outside any transaction, so each of their SELECTs sees
  a state of its own, at increasing points of one run.
* `Publishing`, `Assigning`, `Reporting`, `Promoting`, `Admissions`: for every reachable state, exactly when an operation goes
  through, over the fields of what its caller sends, and exactly what it leaves and answers. `Refusals`: which exception answers the
  calls that do not go through. `Delegation` does the same for the
  documents of `Convergence`, and lemmas named `...Exactly` for the other operations. `SnapshotLines`: what a line says.
* `Signers`: documents as they are signed, and when a key registry accepts all that an operator signs.
* `Walkthrough`, `DeviceRollout`: whole rollouts that go through, with any verified legacy and schema 2 documents, so that the
  theorems about promotions speak of runs that exist. Documents signed by an operator whose key the registry lists are such
  documents. `FailureRuns`: runs that reach the failures named below.

Hypotheses are explicit. The SHA-256 digest is a function parameter, with injectivity required only where a lemma says
`Injective`. That is the usual idealisation of collision resistance; no lemma combines it with a demand that every digest be
well formed. Ed25519 is a pair of function parameters, with the correctness of section 5.1 of RFC 8032 required only where a lemma
says `Correct`. The verifier of signed documents is an arbitrary predicate; lemmas about an operator ask with `Trusts` that it
accept what that operator signs, which `Signers.RegistryTrusts` derives for the verifier that reads a key registry. Clocks, random
identifiers, access tokens and the free disk space are arguments. Where SQLite may return any of several rows, the choice is an
argument `ties`.

Some theorems say when the code does not do what one might expect, for all inputs, each with a run from the empty store that
shows it:

* a promotion of no candidate clears the active revision: `Promotions.PromotingNothing`, run `Walkthrough.ActiveCanBeLost`;
* two uploads of different bytes under one identifier can both succeed: `RevisionHistory.RacingUploads`, run
  `FailureRuns.RaceRun`;
* a put that dies after linking its file blocks its digest for good: `Backups.OrphanBlocksForGood`, run `Backups.FirstPutCanOrphan`;
* the attempt limit of a pairing code has no effect: `EnrollmentHistory.AttemptLimitNeverRefuses`, run `FailureRuns.AttemptsRun`;
* a legacy line of the snapshot may show another enrollment's result: `Snapshot.ShowsLegacyResult`, run
  `FailureRuns.MisleadingRun`;
* an unhashable `assignment_id` in one legacy document fails the whole snapshot: `Snapshot.SnapshotSucceeds`, run
  `FailureRuns.BrokenSnapshotRun`.

The repository's README promises immutable schema 2 revisions; the code accepts schemas 2 and 3, and the model follows the code.

## Model

| member | source | states |
|---|---|---|
| Canonical.LoadsDumps | src/profile_sync_server/store.py:82-85 | parsing the printed form of any JSON value gives that value back |
| Canonical.ReadCanonical | src/profile_sync_server/store.py:82-85 | canonical bytes, with or without the final newline of an inventory, decode and parse to the value they were made from |
| Canonical.CanonicalInjective | src/profile_sync_server/store.py:82-85 | two values have the same canonical bytes exactly when they are equal as dicts, whatever order their keys had |
| CanonicalForm.CanonicalText | src/profile_sync_server/store.py:82-85 | a text is the printed form of a value exactly when it loads to the value, an order-keeping reading of it finds the keys of every object strictly increasing at every depth, its escapes are in lower case, and no text of the value is shorter |
| CanonicalForm.ContentIdHashesCanonicalText | src/profile_sync_server/store.py:104-134 | a content identifier is the digest of whatever bytes decode to such a text of the identity |
| Utf8.DecodeEncoded | src/profile_sync_server/store.py:82-85 | decoding the UTF-8 bytes of a text gives the text |
| Utf8.EncodeDecoded | src/profile_sync_server/store.py:82-85 | whatever bytes decode are the encoding of what they decode to |
| Text.SortedUnique | src/profile_sync_server/convergence.py:47-59 | a list of texts equals the sorted list of its own set exactly when it is strictly increasing |
| Base64Url.DecodeExactlyEncodings | src/profile_sync_server/crypto.py:55-73 | for every size a text decodes to a payload exactly when the size is above zero and the text is the encoding of that payload of that size: padding, foreign symbols and non-zero surplus bits are refused |
| Base64Url.EncodesBits | src/profile_sync_server/crypto.py:55-56 | an encoding has one symbol for each six bits of its bytes taken three at a time, and as many as that takes |
| Base64Url.EncodeInjective | src/profile_sync_server/crypto.py:55-56 | different payloads have different encodings |
| Signing.SignedPayloadInjective | src/profile_sync_server/crypto.py:76-82 | signed bytes are equal exactly when the kinds and the documents without their signatures are, although one kind is a prefix of others |
| Signing.SignDocument | src/profile_sync_server/crypto.py:345-356 | filling the output field by field yields the document with its old signature replaced, or the fault of the first failing check |
| Signing.SignedVerifies | src/profile_sync_server/crypto.py:345-379 | whatever is signed verifies for that kind, key id and public key, and signing changes nothing but the signature |
| Signing.AcceptedForItsOwnPayload | src/profile_sync_server/crypto.py:364-379 | under any key, a signature accepted with another document or kind was made for exactly that document and kind, or else the backend itself takes it for a second, different message |
| Signing.SignedDocumentVerifier.constructor | src/profile_sync_server/crypto.py:383-413 | the registry loop accepts exactly the registries whose every record is well formed, and then holds each record's decoded key, kinds and owner |
| Signing.VerifiesExactly | src/profile_sync_server/crypto.py:364-379 | a document verifies under a key exactly when its kind is one of the ten and it carries, in the one form there is, 64 bytes that the backend accepts for the domain, the kind and the canonical document without them |
| Signing.RecordExactly | src/profile_sync_server/crypto.py:383-413 | a registry record is read as a key exactly when it has the one encoding of its 32 bytes, a non-empty list of distinct known kinds that is the key's set of kinds, and at most a non-empty owner |
| Signing.AcceptsExactly | src/profile_sync_server/crypto.py:438-464 | the registry accepts a document exactly when some key of it is allowed the kind, is not bound to another enrollment, and verifies the document |
| Signing.RegistryAccepts | src/profile_sync_server/crypto.py:438-464 | a document signed by a listed key for an allowed kind is accepted exactly when the key is unbound or bound to the document's enrollment |
| Signers.RegistryTrusts | src/profile_sync_server/crypto.py:438-464 | a registry that lists an operator's key accepts every revision, assignment, report and promotion it signs exactly when the key is allowed all four kinds and bound to no enrollment |
| Documents.ContentIdInjective | src/profile_sync_server/store.py:104-133 | equal content identifiers mean equal identities |
| Documents.StoredTags | src/profile_sync_server/store.py:622-633 | validated tags, stored and validated again, are the same list |
| Documents.TagsAccepted | src/profile_sync_server/store.py:622-633 | exactly the lists of at most sixteen well-formed texts without a repeat are accepted, as the increasing list of them |
| Documents.AssignmentAccepted | src/profile_sync_server/store.py:120-187 | a document is accepted with a contract exactly when each field is well formed, it carries its own content identifier, it is in time if the clock is consulted, and the contract repeats it field by field |
| Documents.StaysValid | src/profile_sync_server/store.py:162-176 | a document accepted at some time is accepted with the same contract when the clock is not consulted |
| Documents.AcceptanceWindow | src/profile_sync_server/store.py:162-173 | a well-formed assignment is accepted at exactly the times from five minutes before its issue to its expiry |
| Documents.AssignmentIdCommits | src/profile_sync_server/store.py:112-134 | two accepted assignments share an identifier exactly when they have the same keys and values, the identifier and the signature apart |
| Documents.RevisionAccepted | src/profile_sync_server/store.py:190-214 | exactly the manifests of schema 2 with adapters, or of schema 3 with a base of adapters and layers, that carry their own content identifier are accepted, with it |
| Documents.SignatureIsNotIdentity | src/profile_sync_server/store.py:190-214 | a manifest under another signature is accepted with the same identifier, or refused alike |
| Documents.RevisionIdCommits | src/profile_sync_server/store.py:104-109 | two accepted manifests share an identifier exactly when they have the same keys and values, the identifier, the creation time and the signature apart |
| Convergence.UniqueListExactly | src/profile_sync_server/convergence.py:47-59 | exactly the strictly increasing lists of well-formed texts within the limit are accepted, unchanged |
| Convergence.IntentBounds | src/profile_sync_server/convergence.py:62-125 | an accepted intent has a strictly increasing device list no longer than its maximum, a window of at most 30 days around the clock, and its own content identifier |
| Convergence.DelegationNarrows | src/profile_sync_server/convergence.py:128-236 | an accepted assignment and its intent were verified as such; it is signed by the delegated key, has the intent's bundle, channel and one of its devices, a window inside the intent's, and the given unrevoked enrollment's identity and tags |
| Delegation.IntentExactly | src/profile_sync_server/convergence.py:62-125 | an intent is accepted as this result exactly when it was verified as a release intent, has exactly its eleven fields, its content identifier and well-formed terms that the result repeats, and is current |
| Delegation.ConvergenceExactly | src/profile_sync_server/convergence.py:128-236 | an assignment is accepted as this result exactly when it was verified as a convergence assignment, has exactly its sixteen fields, its intent is accepted, and its key, bundle, channel, device, enrollment, tags, run and window are as demanded and as the result repeats them |
| Delegation.ReportExactly | src/profile_sync_server/convergence.py:239-284 | a report is accepted with this response exactly when it was verified as a convergence report, has exactly its thirteen fields, names the assignment and says one of the results and states; the response is the seven fields that name them |
| Convergence.ResultRepeatsDocument | src/profile_sync_server/convergence.py:223-236 | the result of an accepted assignment is what its document says, field by field |
| Convergence.IntentAnyTime | src/profile_sync_server/convergence.py:105-125 | an intent accepted once is accepted, with the same result, at exactly the times of its window |
| Convergence.AcceptanceTimes | src/profile_sync_server/convergence.py:205-222 | an assignment accepted once is accepted, with the same result, exactly from five minutes before its issue to its expiry, so the intent's own clock check adds nothing |
| Convergence.AssignmentCommitsToIntent | src/profile_sync_server/convergence.py:36-44 | equal assignment identifiers mean equal content, including the whole intent, and equal results |
| Convergence.ReportAnswersAssignment | src/profile_sync_server/convergence.py:239-284 | an accepted report repeats the six identifiers of its assignment, and its response repeats them and the reported result |
| Convergence.ReportNamesOneAssignment | src/profile_sync_server/convergence.py:239-284 | a report accepted for two assignments was issued for one and the same content |
| Rollout.NewestExists | src/profile_sync_server/store.py:1722-1730 | a non-empty set of candidate reports has a row of the highest channel generation |
| RolloutInvariant.PublishKeeps | src/profile_sync_server/store.py:1349-1376 | publishing keeps the rollout invariant, because it withdraws the channel's assignments with the old candidate |
| RolloutInvariant.AssignKeeps | src/profile_sync_server/store.py:1383-1458 | assigning keeps the rollout invariant |
| RolloutInvariant.BootstrapKeeps | src/profile_sync_server/store.py:1465-1558 | bootstrapping keeps the rollout invariant, with legacy rows stored as candidates |
| RolloutInvariant.PromoteKeeps | src/profile_sync_server/store.py:1712-1817 | promoting with or without a batch keeps the rollout invariant |
| RolloutInvariant.CallKeepsConsistent | src/profile_sync_server/store.py:1144-1160 | every call of the five operations keeps it, whether it commits, replays or fails |
| RolloutInvariant.RevalidationNeverFails | src/profile_sync_server/store.py:1595-1625 | where the invariant holds a report is accepted exactly when it names its sender's assignment and, for schema 2, repeats its contract; the stored document always revalidates |
| World.StepFrame | src/profile_sync_server/store.py:1144-1802 | which tables each operation may touch: revisions and enrollments only grow, files change only under a put, and the rollout tables only under the five operations |
| World.AlwaysConsistent | src/profile_sync_server/store.py:1336-1563 | in every reachable state each assignment names a stored revision and a channel whose pointer and generation it carries, and a schema 2 row its enrollment's exact channel, generation and tags |
| Justification.StepRecords | src/profile_sync_server/store.py:1595-1672 | each step changes the report tables by exactly the one report it commits, in the slot of the sender's assignment and with the result of the sender's own document |
| Justification.SlotHistory | src/profile_sync_server/store.py:1627-1671 | a report row exists exactly when some earlier operation recorded it, and shows the latest of those |
| Justification.RecordedDuringCandidacy | src/profile_sync_server/store.py:1595-1647 | a schema 2 candidate report was recorded while its revision was the channel's candidate |
| Justification.PromotionJustified | src/profile_sync_server/store.py:1722-1741 | for each enrollment a committed promotion requires, the run holds an earlier report of a success, signed by that enrollment and recorded while it was assigned that revision, still the latest for its assignment, of the highest generation, and legacy only if no schema 2 result exists |
| Retries.RetriesCanBeErased | src/profile_sync_server/store.py:1144-1160 | deleting every retry from any run leaves the final state and every other outcome unchanged |
| Retries.RunIsAfter | src/profile_sync_server/store.py:1144-1160 | the runs of the erasure theorem are the runs of the whole model |
| Retries.KeyIsKept | src/profile_sync_server/store.py:1144-1160 | a committed key keeps its operation and its first response for the rest of the run |
| Retries.ReplayRepeatsFirst | src/profile_sync_server/store.py:1148-1154 | a call with a committed key that passes its own checks returns the first response for the same operation and a conflict for another, whatever its arguments |
| Retries.UnverifiedIsNeverReplayed | src/profile_sync_server/store.py:1144-1160 | a request that fails its signature check is invalid under any key, also under one that has committed |
| Retries.KnownKeys | src/profile_sync_server/store.py:1144-1160 | a key is known exactly when some earlier call committed with it |
| ChannelHistory.ChannelIsItsLog | src/profile_sync_server/store.py:1349-1376 | in every reachable state a channel is the fold of its committed publications and promotions, each of which found the heads its predecessors left |
| ChannelHistory.GenerationsHaveNoGap | src/profile_sync_server/store.py:1742-1783 | promotions carry the generations 1, 2, ... without a gap and the channel's generation is their number |
| ChannelHistory.ActiveIsLastPromoted | src/profile_sync_server/store.py:1776-1783 | the active revision is what the latest promotion promoted |
| Promotions.FailuresLeaveNoTrace | src/profile_sync_server/store.py:228-234 | whatever fails leaves every table as it was, and everything but a crash leaves the whole state |
| Promotions.BatchIsExact | src/profile_sync_server/store.py:1690-1802 | after a committed promotion the channel's rows are exactly the batch, one per distinct enrollment, the event declares exactly their sorted identifiers, and the other channels are untouched |
| Promotions.RepeatedEnrollmentAborts | src/profile_sync_server/store.py:1788-1802 | a batch that names one enrollment twice never commits and changes nothing |
| Publishing.PublishesExactly | src/profile_sync_server/store.py:1336-1381 | in every reachable state a publication commits exactly when its key is fresh, the channel is well formed, the revision is stored and both heads are as expected; the channel then has that candidate, its rows are withdrawn, and the answer is what the channel says |
| Reporting.ReportsExactly | src/profile_sync_server/store.py:1565-1676 | in every reachable state a report commits exactly when its key is fresh, it verifies under its sender's own unrevoked key or, for an unknown sender, the registry, has one of the five results, names the row its sender holds and for schema 2 repeats that row's document; it leaves one row with its own result and is answered with its own words |
| Promoting.PromotionExactly | src/profile_sync_server/store.py:1678-1821 | in every reachable state a promotion commits exactly when its key is fresh, its event was verified, its batch is absent or a list of verified, acceptable active assignments whose distinct identifiers the event lists in order, the heads and the generation match, every required canary's latest result is a success, and every batch member fits an enrollment of its own; it leaves exactly that and is answered with what the channel then says |
| Promoting.CanaryIsLatest | src/profile_sync_server/store.py:1720-1741 | a canary's result is that of a schema 2 candidate report of the highest channel generation, else of its legacy report, else none; and any report of the highest generation may be the one read |
| Refusals.PublishRefused | src/profile_sync_server/store.py:1336-1381 | a publication that does not fit is invalid on a malformed channel, not found for a revision that is not stored, and a conflict otherwise; nothing changes |
| Refusals.AssignRefused | src/profile_sync_server/store.py:1383-1463 | in every reachable state a signed, well-formed assignment under a fresh key that does not fit is a conflict and changes nothing |
| Refusals.BootstrapRefused | src/profile_sync_server/store.py:1465-1563 | likewise a bootstrap of a well-formed channel |
| Refusals.ReportRefused | src/profile_sync_server/store.py:1565-1676 | in every reachable state a report under a fresh key that does not fit is invalid when its sender did not sign it or its result is none of the five, and a conflict otherwise; nothing changes |
| Refusals.PromoteRefused | src/profile_sync_server/store.py:1678-1821 | in every reachable state a promotion with a verified event and batch that does not fit is not found without its channel, refused by a constraint when only the rows of its batch cannot be inserted, and a conflict otherwise; nothing changes |
| Assigning.AssignsExactly | src/profile_sync_server/store.py:1383-1463 | in every reachable state an assignment commits exactly when its key is fresh, it is signed and well formed, it names the channel's candidate, and a registered enrollment is unrevoked, on its channel, with its tags and for schema 2 both generations, an unregistered one needing a legacy document; it leaves the one row and is answered with the document's own fields; it ends in the integrity error of the NOT NULL column (store.py:255) exactly when all that holds but candidate and named revision are null |
| Assigning.BootstrapsExactly | src/profile_sync_server/store.py:1465-1563 | likewise for a bootstrap, against the active revision and with a registered enrollment for every schema |
| Promotions.PromotingNothing | src/profile_sync_server/store.py:1712-1783 | a promotion of no candidate commits exactly when the channel has none, nothing is required and there is no batch |
| Promotions.ActiveAfterPromotion | src/profile_sync_server/store.py:1776-1783 | after a committed promotion the channel has no active revision exactly when nothing was promoted |
| Promotions.NoActiveRevision | src/profile_sync_server/store.py:1718-1783 | a channel has no active revision exactly when it was never promoted or its latest promotion promoted nothing |
| Promotions.NullPromotionEmpties | src/profile_sync_server/store.py:1718-1783 | on a channel without a candidate a promotion of nothing commits and leaves no active revision |
| Walkthrough.ActiveCanBeLost | src/profile_sync_server/store.py:1718-1783 | with any verified documents, a run from the empty store whose channel has an active revision before its last promotion and none after it |
| RevisionHistory.RevisionsAlwaysSound | src/profile_sync_server/store.py:1162-1178 | in every reachable state each stored manifest, and each one about to be inserted, is canonical, was verified as signed, is valid and hashes to its identifier |
| RevisionHistory.RevisionsImmutable | src/profile_sync_server/store.py:1167-1177 | once stored, a revision keeps its bytes, under every interleaving of uploads |
| RevisionHistory.UploadCarriesManifest | src/profile_sync_server/store.py:1162-1171 | an upload that begins carries the submitted manifest to its insert unchanged |
| RevisionHistory.UploadEnds | src/profile_sync_server/store.py:1167-1178 | an upload that ends leaves a manifest with its own identity fields under its identifier, and its own bytes exactly when nothing else got there first |
| RevisionHistory.UploadsExactly | src/profile_sync_server/store.py:1162-1178 | in every reachable state an upload begins exactly with a verified, valid manifest whose identifier is free or has this very manifest; uninterrupted, it leaves the manifest under the identifier that it is answered with |
| RevisionHistory.RacingUploads | src/profile_sync_server/store.py:1167-1178 | two different manifests of one identifier, both read before either inserts, both succeed and the first keeps its bytes |
| FailureRuns.RaceRun | src/profile_sync_server/store.py:1162-1178 | four steps from the empty store in which two uploads of one manifest under different signatures both succeed with one response and the first one's bytes are stored |
| FailureRuns.OperatorsRace | src/profile_sync_server/store.py:104-109 | two trusted operators can sign any valid manifest so |
| RevisionHistory.SequentialUploadRefused | src/profile_sync_server/store.py:1168-1173 | without such a race a different manifest of a stored identifier is a conflict and the same one succeeds |
| Access.AssignmentsAlwaysSigned | src/profile_sync_server/store.py:1383-1397 | in every reachable state each assignment row holds a document that was verified as signed, names its enrollment and names the row's revision |
| Reads.ServesSignedAssignment | src/profile_sync_server/store.py:1823-1846 | wherever its SELECTs fall in a run, reading an assignment that the second one finds fails only by the authentication of the first, and returns exactly the signed document of the row |
| Reads.ServesActive | src/profile_sync_server/store.py:1842-1857 | with no row on the channel, reading an assignment succeeds exactly for an admitted caller of a channel with an active revision, and names that revision and, with a token, the enrollment's own tags; without one it is not found |
| Reads.ServesRevision | src/profile_sync_server/store.py:1321-1334 | reading a revision succeeds exactly for a caller authenticated by the first SELECT and an identifier stored at the second, and returns the signed manifest that hashes to it |
| Reads.StillAuthenticates | src/profile_sync_server/store.py:889-911 | whoever authenticates once does so with the same token at every later moment until the enrollment is revoked |
| Reads.NamedRevisionIsServed | src/profile_sync_server/store.py:1823-1857 | a device is told its own row's revision or else the channel's active one, and the store keeps it and serves it to that device at any later time until the device is revoked |
| Reads.ServesReachableBlob | src/profile_sync_server/store.py:1277-1319 | wherever the four SELECTs and the file read fall in a run, a blob is served exactly to a device authenticated at the first, assigned a revision on its own channel at the second, if it is listed at the third and that revision's manifest reaches it by some path; its bytes then hash to its digest |
| Access.OnlyTheIssuedToken | src/profile_sync_server/store.py:889-911 | from its pairing on an enrollment is authenticated by the token it was given and no other, exactly while it is not revoked and holds the role |
| Access.RevocationIsFinal | src/profile_sync_server/store.py:1072-1081 | from its revocation on an enrollment is never authenticated, records no report and is given no assignment; its row stays as it was or is withdrawn |
| Administration.AdmitsExactly | src/profile_sync_server/store.py:1083-1121 | a request is admitted exactly when its role may perform the operation, it repeats operation and key, is current and short-lived, was verified as its role's kind and names its signing key; its use is recorded under that key and the whole request's digest |
| Administration.AuthorizesExactly | src/profile_sync_server/store.py:1122-1142 | an admitted request is authorised exactly when no unexpired use of its nonce was another request's, and is answered with its own payload |
| NonceHistory.TableIsUnexpiredHistory | src/profile_sync_server/store.py:1122-1141 | after every accepted request at time t the table is exactly the accepted requests that expire at t or later, for a clock that never runs backwards |
| NonceHistory.NonceIsUsedOnce | src/profile_sync_server/store.py:1122-1141 | no two different requests with one actor and nonce are accepted within the first one's validity |
| EnrollmentHistory.EnrollmentsAlwaysSound | src/profile_sync_server/store.py:759-798 | in every reachable state each device's generations are exactly 1 to n, each held once, and no key id is held twice |
| EnrollmentHistory.IdentitiesNeverChange | src/profile_sync_server/store.py:859-960 | an enrollment keeps every identity field and its tags, and stays revoked once it is |
| EnrollmentHistory.KeysNeverReplaced | src/profile_sync_server/store.py:859-881 | an encryption key once set stays as it is |
| EnrollmentHistory.OneEnrollmentPerCode | src/profile_sync_server/store.py:664-798 | between two enrollments with one pairing code the code was created anew, whatever was purged |
| EnrollmentHistory.AttemptsStayAsCreated | src/profile_sync_server/store.py:742-758 | in every reachable state a pairing code has the attempts that its latest creation gave it, because the count of a mismatch is rolled back |
| EnrollmentHistory.AttemptLimitNeverRefuses | src/profile_sync_server/store.py:735-741 | so a pairing code is usable exactly while it is unconsumed and unexpired |
| FailureRuns.AttemptsRun | src/profile_sync_server/store.py:742-758 | a run from the empty store in which a code of any number of attempts refuses any number of pairings that name another device, and then enrolls its own |
| Admissions.RolesExactly | src/profile_sync_server/store.py:611-620 | exactly the non-empty lists of the two roles without a repeat are accepted, as the increasing list of them |
| Admissions.CreatesExactly | src/profile_sync_server/store.py:635-697 | a code is created exactly when its terms are well formed and no live code is its equal; exactly the expired and consumed ones go, and what is kept is what is answered |
| Admissions.PairsExactly | src/profile_sync_server/store.py:699-816 | in every reachable state a pairing goes through exactly with a live code for its device and channel, well-formed keys and an unused key id; it adds one enrollment in the device's next generation with the code's roles and tags, consumes the code, and is answered with just that |
| Admissions.AnswerAuthenticates | src/profile_sync_server/store.py:756-816 | the token in the answer authenticates the enrollment in the answer for exactly the roles in the answer |
| Admissions.AuthenticatesExactly | src/profile_sync_server/store.py:889-911 | a caller is authenticated exactly by a long enough ASCII token whose digest its unrevoked enrollment keeps, in a role that it holds |
| Admissions.RegistersExactly | src/profile_sync_server/store.py:843-887 | a key is registered exactly for an authenticated device that names its generation and has no key or this very one |
| Admissions.BeatsExactly | src/profile_sync_server/store.py:913-962 | a heartbeat is taken exactly from an authenticated device that repeats its identity and says well-formed things, and leaves those, the time and the document's digest |
| Admissions.RevokesExactly | src/profile_sync_server/store.py:1072-1081 | exactly a known enrollment is revoked, for its row alone |
| Admissions.TagsAlwaysRead | src/profile_sync_server/store.py:699-816 | in every reachable state the tags kept for an enrollment can be read |
| Admissions.KeysAlwaysRead | src/profile_sync_server/store.py:699-816 | in every reachable state the public key kept for an enrollment can be read, so checking a report never fails for its sake |
| Blobs.MediaExactly | src/profile_sync_server/store.py:88-101 | the bytes that make a payload a PNG, a JPEG or a WebP, and nothing else is admitted |
| Blobs.AdmitsExactly | src/profile_sync_server/store.py:1186-1199 | a put passes its checks exactly with at most 8 MiB of valid media under their own digest |
| Blobs.MediaExclusive | src/profile_sync_server/store.py:88-101 | a payload is valid for at most one media type |
| Blobs.PutKeepsSound | src/profile_sync_server/store.py:1186-1252 | with a crash at any point of a put every row still has its intact file, the quota holds and no file is changed or lost |
| Blobs.PutAgain | src/profile_sync_server/store.py:1200-1217 | putting a stored blob again always reports it as not newly stored and changes nothing |
| Blobs.NewlyStored | src/profile_sync_server/store.py:1218-1252 | an admissible, unlisted blob is newly stored exactly when it fits the quota and the disk, the process survives and there is no file of its name |
| Blobs.ListedPutExactly | src/profile_sync_server/store.py:1200-1217 | whatever the disk holds, a listed blob is put again exactly with the size and type of its row and the bytes of its file, and is a conflict otherwise |
| Blobs.ServedIsIntact | src/profile_sync_server/store.py:1277-1319 | whatever the disk holds, a served blob has the size of its row and hashes to its name; a file that is gone is not found and any other file is a conflict |
| Blobs.ReferencesExactlyPaths | src/profile_sync_server/store.py:1254-1275 | the search succeeds exactly when some path reaches an object with the digest, size and type and no object before it on the path carries the digest |
| Backups.BlobsAlwaysSound | src/profile_sync_server/store.py:1186-1252 | in every reachable state every blob row has its intact file and the sizes stay within 512 MiB |
| Backups.FilesNeverChange | src/profile_sync_server/store.py:1222-1245 | over any stretch of a run files are only added, never changed or lost |
| Backups.OrphansAreDeaths | src/profile_sync_server/store.py:1238-1246 | in every reachable state the files without a row are exactly those of puts that died between linking the file and committing the row |
| Backups.OrphanBlocksForGood | src/profile_sync_server/store.py:1238-1246 | from such a death on its digest stays an orphan and every put of it fails, in every later state of any run |
| Backups.StoredUnlessDied | src/profile_sync_server/store.py:1218-1252 | in every reachable state an admissible, unlisted blob is newly stored exactly when it fits the quota and the disk, the process survives and no earlier put of it died there |
| Backups.FirstPutCanOrphan | src/profile_sync_server/store.py:1238-1246 | such runs exist: the first put of any admissible blob can die there, and the same put made again is a conflict |
| Backups.PutsExactly | src/profile_sync_server/store.py:1186-1252 | in every reachable state an admitted put succeeds exactly for a listed blob or a new one that fits, survives and has no file yet, and says which; only the latter adds its row and its file |
| Backups.PutIsLinkThenCommit | src/profile_sync_server/store.py:1238-1246 | a put is a link followed by a commit, and a death between them is its crash |
| Backups.TicksKeepSite | src/profile_sync_server/store.py:1238-1252 | at every moment between a link and its commit the store is sound and files only grow |
| Backups.BackupEpoch | src/profile_sync_server/store.py:447-516 | the copying loop yields the snapshot, the inventory and the checked bytes of every listed blob, or the first failure |
| Backups.RestoreEpoch | src/profile_sync_server/store.py:526-596 | the staging loop yields the database and the files its inventory names, or the first failure |
| Backups.BackupsExactly | src/profile_sync_server/store.py:447-516 | a backup of any store, sound or not, succeeds exactly when every listed blob is intact when it is copied, and holds those bytes and the canonical inventory of the database and of every row in the order of the digests |
| Backups.RestoresExactly | src/profile_sync_server/store.py:526-596 | any epoch, honest or not, restores exactly into an empty target when its inventory describes its database, the database loads and every entry describes a copied file that hashes to its name; what is restored is what is named |
| Backups.BackupRestores | src/profile_sync_server/store.py:447-596 | backing up a sound store whose files only grow and restoring gives back the snapshot and the exact bytes of every listed blob |
| Backups.ReachableBackupRestores | src/profile_sync_server/store.py:447-596 | the same from every reachable state, whatever steps of the store, down to halves of a put, fall between the file copies |
| Snapshot.SelectAssignments | src/profile_sync_server/store.py:1018-1027 | selects every assignment once, in the order of its ORDER BY, where a missing device sorts first |
| Snapshot.ListingUnique | src/profile_sync_server/store.py:1018-1027 | that order leaves one listing |
| Snapshot.BuildIndex | src/profile_sync_server/store.py:1028-1036 | the index holds every reported assignment id, with the result of some row that carries it |
| Snapshot.RolloutSnapshot | src/profile_sync_server/store.py:1014-1070 | the document of three states, one per SELECT: schema, time and one line per assignment in order, looked up in such an index |
| SnapshotLines.SnapshotHasLines | src/profile_sync_server/store.py:1014-1070 | a snapshot that succeeds has schema 1, its time and one line for each assignment in order |
| Snapshot.ReportsAlwaysNamed | src/profile_sync_server/store.py:268-279 | in every reachable state a report's assignment id is the content identifier of a document that names the report's enrollment |
| Snapshot.ShowsOwnResult | src/profile_sync_server/store.py:1046-1069 | wherever the three SELECTs fall in a run and whichever rows the index kept, a schema 2 assignment is shown with its own enrollment's result, else its legacy result, else none |
| SnapshotLines.ShownAsSigned | src/profile_sync_server/store.py:1046-1069 | wherever the SELECTs fall, nine fields of a schema 2 line are exactly those of its signed document, and the others are its enrollment's device and the result |
| Snapshot.ShowsLegacyResult | src/profile_sync_server/store.py:1046-1069 | wherever the SELECTs fall, a legacy line shows its own enrollment's result exactly when no other enrollment reported a different one under the id in its document, and fails exactly on a list or a dict there |
| Snapshot.SnapshotSucceeds | src/profile_sync_server/store.py:1046-1052 | wherever the SELECTs fall, the snapshot fails exactly when some legacy document it read carries a list or a dict as its assignment id, and otherwise has one line per assignment |
| FailureRuns.LegacyLineMisleads | src/profile_sync_server/store.py:1046-1052 | from any reachable state with a report, any verified legacy assignment that carries the report's identifier, to an unregistered enrollment that never reported, commits and is then shown with the other's result |
| FailureRuns.MisleadingRun | src/profile_sync_server/store.py:1046-1052 | a run from the empty store that ends so |
| FailureRuns.UnhashableCommits | src/profile_sync_server/store.py:1046-1052 | from any reachable state whose channel has a candidate, any verified legacy assignment with a list or a dict as its identifier, to an unregistered enrollment, commits, and every snapshot whose first SELECT reads it fails |
| FailureRuns.BrokenSnapshotRun | src/profile_sync_server/store.py:1046-1052 | a run from the empty store that ends so |
| FailureRuns.OperatorMisleads | src/profile_sync_server/store.py:1383-1397 | a trusted operator can sign legacy assignments with any value as their identifier, so such documents exist |
| Store.ProfileStore.constructor | src/profile_sync_server/store.py:217-226 | a new store is empty and has an empty history |
| Store.ProfileStore.Rollback | src/profile_sync_server/store.py:228-234 | a failed transaction gives back every table and no file |
| Store.ProfileStore.LatestCandidateReport | src/profile_sync_server/store.py:1722-1730 | scanning the rows in any order finds a candidate report of the highest generation, or that there is none |
| Store.ProfileStore.CheckCanaries | src/profile_sync_server/store.py:1720-1741 | the loop over the required enrollments stops at the first that has no latest success, and otherwise passes |
| Store.ProfileStore.InsertBatch | src/profile_sync_server/store.py:1788-1802 | the inserts succeed exactly when no enrollment repeats or holds a row and the revision is stored, and then add exactly the batch |
| Store.ProfileStore.PromoteBody | src/profile_sync_server/store.py:1712-1817 | the statements of a promotion leave exactly its effect, or raise its fault with some of them already done |
| Store.ProfileStore.Idempotent | src/profile_sync_server/store.py:1144-1160 | looks the key up, replays or refuses, or runs the body and remembers its response |
| Store.ProfileStore.Attempt | src/profile_sync_server/store.py:1144-1160 | tables and result after a call of an idempotent operation are those of its meaning, with every write given back on a failure |
| Store.ProfileStore.Transact | src/profile_sync_server/store.py:1144-1160 | one call of an idempotent operation is one step of a run |
| Store.ProfileStore.PublishCandidate | src/profile_sync_server/store.py:1336-1381 | new state and result are those of the publish step |
| Store.ProfileStore.AssignCandidate | src/profile_sync_server/store.py:1383-1463 | new state and result are those of the assign step |
| Store.ProfileStore.BootstrapActive | src/profile_sync_server/store.py:1465-1563 | new state and result are those of the bootstrap step |
| Store.ProfileStore.RecordReport | src/profile_sync_server/store.py:1565-1676 | new state and result are those of the report step |
| Store.ProfileStore.ReadBatch | src/profile_sync_server/store.py:1694-1705 | the loop over the batch yields the contracts of its documents, or the fault of the first that is unsigned, invalid or repeated |
| Store.ProfileStore.Promote | src/profile_sync_server/store.py:1678-1821 | new state and result are those of the promote step |
| Store.ProfileStore.CreatePairingCode | src/profile_sync_server/store.py:635-697 | new state and result are those of the step that creates a code, with the purge given back on a collision |
| Store.ProfileStore.NextGeneration | src/profile_sync_server/store.py:759-767 | the scan finds one more than the device's highest generation |
| Store.ProfileStore.PairDevice | src/profile_sync_server/store.py:699-816 | new state and result are those of the pairing step; the attempt counted on a mismatch is rolled back |
| Store.ProfileStore.RegisterEncryptionKey | src/profile_sync_server/store.py:843-887 | new state and result are those of the key registration step |
| Store.ProfileStore.Heartbeat | src/profile_sync_server/store.py:913-962 | new state and result are those of the heartbeat step |
| Store.ProfileStore.RevokeEnrollment | src/profile_sync_server/store.py:1072-1081 | new state and result are those of the revocation step |
| Store.ProfileStore.AuthorizeAdminRequest | src/profile_sync_server/store.py:1083-1142 | new state and result are those of the authorisation step, with the purge given back on a conflict |
| Store.ProfileStore.BeginRevision | src/profile_sync_server/store.py:1162-1173 | the checks and the read of an upload |
| Store.ProfileStore.EndRevision | src/profile_sync_server/store.py:1174-1178 | the insert of an upload, which ignores a row that is already there |
| Store.ProfileStore.StoredBytes | src/profile_sync_server/store.py:1218-1220 | the scan computes the sum of the stored sizes |
| Store.ProfileStore.PutBlob | src/profile_sync_server/store.py:1186-1252 | new state and result are those of the put step, crash points included |
| Walkthrough.RolloutCompletes | src/profile_sync_server/store.py:1162-1821 | with any verified manifest, legacy assignment, report of success and promotion that name one another, some run from the empty store uploads, publishes, assigns, reports and promotes behind that report |
| Walkthrough.OperatorRollsOut | src/profile_sync_server/store.py:1383-1586 | what a trusted operator signs for a legacy rollout meets those hypotheses |
| DeviceRollout.DeviceRolloutCompletes | src/profile_sync_server/store.py:699-1821 | a run from the empty store pairs a device, assigns it any verified schema 2 candidate of its own, records its own signed report and commits a promotion that requires that report and leaves exactly any verified active assignment of its own on the channel |
| DeviceRollout.OperatorIssues | src/profile_sync_server/store.py:120-187 | what a trusted operator signs for the device meets those hypotheses, the identifiers being unmoved by its signature |
| Store.StoreIsSound | src/profile_sync_server/store.py:217-1857 | in every object, after any calls, the rollout, enrollment, revision and blob invariants hold of its fields |

## Left out

- HTTP, administration and metadata handlers, TLS, argument parsing and the broker client (`http.py`, `admin.py`, `broker.py`, `metadata.py`).
- The native Ed25519 libraries and the inside of SHA-256; both are parameters.
- Schema migration, SQLite integrity checks, WAL and locking, fsync, file permissions, temporary names and the free-space arithmetic.
- `secret_envelope_request`, `integration_fleet_snapshot`, `readiness`, plain `backup` and `restore_backup`, `public_bundle` and `from_file`: reads or thin wrappers.
- Random enrollment ids, access tokens and pairing codes, and the clock, are arguments; that fresh values differ is a check of the tables, not an assumption.
- Floating-point numbers, lone surrogates and NUL-related limits of SQLite text in JSON values; `True` and `1` are different values here, as are `False` and `0`.
- Python's recursion limit and integer-size limits when parsing and printing.
- An unhashable value inside `validate_assignment_v2`, `validate_revision` or a registry record raises TypeError in Python; the model reports the document as invalid. Elsewhere such values raise as in the code.
- `required_enrollments` that is not a list, and idempotency keys that are not strings.
- Rollout.NewestExists: the row SQLite picks among equals is an argument, and one statement asked twice in a transaction picks the same row.
- Backups.RestoreEpoch: the removal of a half-written target is not modelled, because restoring returns the staged content as a value.
- Retries.ReplayRepeatsFirst: nothing binds a key to the arguments of its first call, because the code does not compare them.
- Promotions.BatchIsExact: the event is bound to the generation and the batch identifiers only, because the code compares nothing else.
- Convergence.DelegationNarrows: the number of assignments issued under one intent is not limited, because the code never counts them.
