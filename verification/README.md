# A model of the register, and what it keeps

This project models the core of a verifiable register of records in Dafny and proves properties of the
model. A register stores records as immutable versions on an authenticated ledger, changes them only
through workflows whose every step is a logged transaction, seals personal data under keys that can be
destroyed, and hands out evidence that anybody can check offline.

The four cores and the files that hold them:

- **The proof verifier.** `Bits`, `Merkle`: wire decoding, prefix comparison and the root fold of the sparse
  Merkle verifier. The hash is an arbitrary function to 32 bytes; every theorem says "so, or here are two
  different inputs that were hashed and collide".
- **The two printers.** `Canon`, `CanonRoundTrip`: canonical JSON and a reader that undoes it. `SqlLiteral`,
  `SqlShape`: SQL literals, templates, and a lexer that sees the same statement. `Base64`, `TxId`,
  `WriteSet`: transaction identity, stored write sets, and replaying them after a crash, unique indexes and all.
- **The lineage and its checkpoints.** `Lineage`, `Checkpoints`, `Auditor`: the fold over recorded roots, the
  signed chain, evidence bundles, and the offline checker.
- **The register as a state machine.** `Tables` (rows, write sets, the commit), `Packs` (what is declared),
  `RecordBuild` (building a change), `RecordInvariant` and `RecordSafety` (what the record tables keep),
  `Batch`, `BatchLimits` and `IndexLimits` (many changes in one write set, and when that goes wrong), `ReadBack`,
  `History`, `RetentionPolicy`, `Workflows`, `WorkflowSafety`, `Approval`, `Membership`, `MembershipSafety`, `Runs`
  (actions, the invariant), `PeopleSteps`, `RunSafety` (the theorems about whole runs), `Retries` (the retried
  request), `Replays` (crash replay of the register's own write sets), `RegisterObject` (the register and its
  keyring as classes whose methods change them step by step, each proved equal to the state machine's step), and
  `Yards`, `Witnesses` and `Placeholders` (runs from the empty register in which something is lost).
- **What it comes to.** What every action does, said a second time and without the planning: of the rows before and after,
  of who asked and of what was asked. `EffectMeanings` and `TaskMeanings` (proposals, decisions and their effects),
  `RecordMeanings` (what is stored of a record, column by column), `PeopleMeanings` (roles, invitations, profiles),
  `RetentionMeanings`, `KeyMeanings`, `Authority` (who may do what, for every action) and `Forms` (printed and encoded
  forms, and one entry of a write set, by their characters, bytes and columns).
- **Where they meet.** `KeyEvidence`: what an accepted bundle about a natural key says of the register's records.

How a run is modelled: an action plans a write set against the state and commits it whole
(`Runs.Plan`, `Runs.Step`, `Runs.Run`). `Runs.Inv` is the invariant; `Runs.Later` is the order no step goes
against. `Runs.Sound` lists what the register relies on and does not check itself: identifiers it mints are
new, the changes of one write set address distinct objects, no two of them need a key that does not exist
yet, natural keys are not empty, nobody is called by the placeholder for the transaction id, and the clock is past
zero. What is lost when the changes of a write set
overlap, mint one key twice or leave the empty key is proved, with the exact condition, in `BatchLimits` and
`IndexLimits`, and `Witnesses` runs an empty register into each of these losses.

A transaction id is the envelope and the write set it stands for, so that ids are equal exactly when those are;
beside them it carries a text of 64 characters, an arbitrary function of both, which is what the rows store wherever
a caller's text is the placeholder (`Tables.Fill`). Nothing assumes that the function has no collisions.

## Where the code and its documentation part

- `internal/register/register.go:353-362` puts the transaction id for every text of a write set that equals the
  placeholder, and does not ask who wrote it there. A record whose natural key is that text is stored under the id:
  no unique index keeps a second one out, no lookup finds it, a change of status moves it to another id, and a
  rebuild (`internal/register/bootstrap.go:151`) leaves its columns blank or is refused. The conditions are exact
  (`RunSafety.GivenKeysExactly`, `ReadBack.StatusCarriesPayload`, `RunSafety.RebuildAnyTime`,
  `Placeholders.PlaceholderTaken`); a person called so gets a role or a profile nobody finds
  (`Retries.GrantTakesEffectExactly`, `Retries.SeenTakesEffectExactly`).
- `internal/register/query.go:483-485` offers absence evidence for "this vehicle was never registered here". It says
  that the key is not registered now: one that was retired reads the same (`KeyEvidence.KeyBundleTruth`,
  `Witnesses.KeyCanBeRetired`).
- `cmd/register-verify/main.go:227-233` promises that the log cannot be shorter than a checkpoint says. The
  test never flags an honestly ordered log with its end cut off (`Auditor.TruncationUnseen`).
- `internal/register/records.go:157-169` retires an old natural key unless it is empty, and retires the key of the
  state the write set was built against. An object that moves off the empty key, or through a key on the way to
  another, leaves an entry behind (`IndexLimits.IndexAgreesExactly`, `Witnesses.EmptyKeyCanStay`,
  `Witnesses.KeyCanBeLeftBehind`).
- `internal/register/records.go:344-390` looks for a key only in the store, so two records of one write set
  can mint the same shared key and the first becomes unreadable (`BatchLimits.MintedOnceExactly`,
  `Witnesses.FirstTwinCanBeLost`).
- Two effects on one object both write the version after the head, and the later one replaces the earlier, be it
  a payload or only a status (`BatchLimits.NoUpdateLostExactly`, `Witnesses.StatusCanBeLost`).
- `internal/register/register.go:190-196` answers a repeated transaction without applying it. Of all actions only
  a grant, a revocation, a reminder and a profile can be swallowed so (`Retries.NeverSwallowed`): granting,
  revoking and granting again in one second and the same words ends without the grant, and a revocation said
  again after a grant leaves the role in place (`Retries.GrantTakesEffectExactly`,
  `Retries.RevokeTakesEffectExactly`, `Retries.ThirdIsSwallowed`, `Witnesses.RevocationCanBeSwallowed`). A profile
  swallowed so is still returned as if it had been recorded (`internal/register/identities.go:111-175`,
  `Retries.SeenTakesEffectExactly`).
- `internal/register/members.go:248` guards the last administrator by the role that was asked for, while the
  row is found by an id that joins subject and role with a bar. A subject with a bar in it can lose the last
  administering role to a request that names an undeclared role (`MembershipSafety.AdministratorsLostExactly`,
  `Witnesses.LastAdministratorCanBeLost`).
- `internal/register/audit.go:364-378` compares no roots on an empty range (`Lineage.EmptyRangeIgnoresRoots`).
- `internal/register/register.go:285-287` says every write set can be replayed. One that passes a natural key from
  one object to another on the way cannot, because the unique index of `internal/store/schema.go:96` refuses the
  second pass (`WriteSet.ReplayExactly`, `Witnesses.ReplayCanBeRefused`); nor could one that first updates a row and
  later deletes it, which the register never writes. Those of sound calls all can (`Replays.SoundCallsReplay`).

## Model

| member | source | states |
|---|---|---|
| `Merkle.CommonPrefixMeaning` | ui/src/lib/verify.js:69-81 | the comparison reaches n exactly when the first n bits of the two paths agree |
| `Merkle.CommonPrefixBits` | ui/src/lib/verify.js:71-81 | the byte and shift loops compute the number of leading bits two paths share |
| `Merkle.RegisterTagsSeparated` | ui/src/lib/verify.js:13-44 | the three tags keep leaf, node and placeholder inputs apart |
| `Merkle.VerifyProof` | ui/src/lib/verify.js:88-117 | the loop folds from the deepest sibling up and gives the specified verdict, error by error |
| `Merkle.Soundness` | ui/src/lib/verify.js:88-117 | whatever proof is accepted against a well-formed tree's root says present exactly when the tree holds the path, with its commitment, or a collision is exhibited |
| `Merkle.Completeness` | ui/src/lib/verify.js:88-117 | the siblings read off the tree along any path are accepted and give the right answer |
| `Merkle.ProofsAgree` | ui/src/lib/verify.js:88-117 | two proofs accepted for one root and path have the same length and leaf, or a collision is exhibited; no tree is assumed |
| `Merkle.DecodeProof` | ui/src/lib/verify.js:48-67 | the offset-driven decoder accepts and refuses exactly as specified |
| `Merkle.DecodeEncode` | ui/src/lib/verify.js:46-67 | decoding what was encoded gives the proof back |
| `Merkle.EncodeDecode` | ui/src/lib/verify.js:46-67 | the only bytes decoded to a proof are its encoding |
| `Merkle.EncodingPrefixFree` | ui/src/lib/verify.js:63 | no proper extension of an accepted encoding is accepted |
| `Merkle.WireAgree` | ui/src/lib/verify.js:48-117 | two byte strings accepted for one root and path are equal, or a collision is exhibited |
| `Forms.WireForm` | ui/src/lib/verify.js:48-67 | a proof's bytes: a flag, the leaf's path and hash if it has one, the count low byte first, the siblings in order |
| `Forms.HexForm` | internal/store/store.go:263-275 | two lower-case digits a byte, the high one first |
| `Bits.LeadingZeros` | ui/src/lib/verify.js:74-77 | the shift loop counts the zero bits before the first set bit of a byte |
| `Canon.SortStrings` | internal/canon/canon.go:82-86 | keys come out in ascending order, each once |
| `Canon.Buffer.WriteString` | internal/canon/canon.go:126-158 | appending leaves what the buffer held in front |
| `Canon.WriteQuoted` | internal/canon/canon.go:126-158 | a string is appended with the escapes of section 7 of RFC 8259 |
| `Canon.Write` | internal/canon/canon.go:54-103 | the recursive writer appends exactly the canonical text |
| `Canon.Marshal` | internal/canon/canon.go:27-54 | the text of a value, from an empty buffer |
| `CanonRoundTrip.StringReads` | internal/canon/canon.go:126-158 | a printed string reads back and the text after it is untouched |
| `CanonRoundTrip.NumberReads` | internal/canon/canon.go:108-112 | a printed 64-bit integer reads back and the text after it is untouched |
| `CanonRoundTrip.ValueReads` | internal/canon/canon.go:54-158 | for every value the reader recovers it from its text and stops right after |
| `CanonRoundTrip.TextInjective` | internal/canon/canon.go:54-158 | distinct values print distinct texts, equal ones equal texts |
| `Forms.ArrayForm` | internal/canon/canon.go:71-81 | a list is its items' texts in order, between brackets, with commas between them |
| `Forms.ObjectForm` | internal/canon/canon.go:82-99 | an object is its members by ascending key, each quoted key, colon and text, with commas between them |
| `Forms.BeforeMeans` | internal/canon/canon.go:87 | one key comes before another exactly when it is a proper prefix or smaller at the first difference |
| `Forms.CharForm` | internal/canon/canon.go:126-158 | which characters stand for themselves, and how the others are escaped |
| `Forms.NumberForm` | internal/canon/canon.go:108-112 | a number is its decimal digits without leading zeros, and they say it |
| `Forms.EnvelopeForm` | internal/model/model.go:69-90 | an envelope's JSON member by member, empty ones left out and no others |
| `Forms.Base64Vectors` | internal/model/model.go:196-217 | the vectors of section 10 of RFC 4648 |
| `Forms.EntryLands` | internal/register/register.go:306-351 | when one entry is refused, and otherwise what it leaves in every column of its row, and that no other row changes |
| `Forms.PlaceholderFilled` | internal/register/register.go:353-362 | the placeholder becomes the id in keys and values and nothing else changes |
| `WriteSet.Tables.ApplyOne` | internal/register/register.go:306-412 | the placeholder becomes the id in every cell, then one upsert or delete by primary key, refused when it would insert an incomplete row or a unique index holds the value for another row |
| `WriteSet.Tables.Apply` | internal/register/register.go:288-304 | the loop over a write set leaves the specified state, or refuses where it does |
| `WriteSet.RunByPlace` | internal/register/register.go:306-351 | a run that lands leaves each row as that row's own entries make it |
| `WriteSet.ReplayConverges` | internal/register/register.go:285-304 | under the condition below, applying any prefix and then the whole set ends in the state of applying it once |
| `WriteSet.ReplayFails` | internal/register/register.go:285-304 | a row first updated and later deleted gives a prefix from which replay fails |
| `WriteSet.HandoverFails` | internal/store/schema.go:96 | a value passed from one row to another is refused when the set is replayed after it arrived |
| `WriteSet.ReplayExactly` | internal/register/register.go:285-304 | with unique indexes, replay converges from every prefix exactly when no row is first updated and later deleted and no indexed value passes to a row nothing had settled before |
| `WriteSet.PassedOnCannotReplay` | internal/store/schema.go:72-97 | two changes of one object's key and the key passed on to another: lands, deletes nothing, cannot be replayed |
| `Base64.DecodeEncode` | internal/model/model.go:196-217 | decoding an encoding gives the bytes back |
| `TxId.BinaryReads` | internal/model/model.go:195-218 | a tagged byte value is recognised and gives its bytes back |
| `TxId.EnvelopeInjective` | internal/model/model.go:69-90 | envelopes with equal JSON are equal, absent members and all |
| `TxId.WriteSetInjective` | internal/model/model.go:175-180 | write sets with equal JSON are equal |
| `TxId.StoredWriteSetReads` | internal/register/register.go:356-412 | a replay decodes the stored write set exactly when every number in it is a double |
| `TxId.EqualIds` | internal/register/register.go:272-283 | equal ids mean equal envelopes and write sets, or the two texts hashed are a collision |
| `SqlLiteral.Quote` | internal/store/store.go:537-563 | the byte loop yields the quoted literal |
| `SqlLiteral.LitOf` | internal/store/store.go:496-532 | the literal of a string, integer, boolean or NULL |
| `SqlLiteral.RenderSQL` | internal/register/workflow.go:685-694 | the replace loop renders every placeholder as its literal and the rest verbatim |
| `SqlShape.QuoteReads` | internal/store/store.go:534-563 | a lexer reads the quoted literal back as the string and stops right after it, whatever follows but a quote |
| `SqlShape.LiteralLexes` | internal/store/store.go:496-532 | a literal standing alone lexes as its own tokens |
| `SqlShape.RenderKeepsShape` | internal/register/workflow.go:682-694 | the tokens of a rendered statement are the template's with each placeholder replaced by one literal |
| `Lineage.HashReads` | internal/store/store.go:263-275 | a printed hash parses back |
| `Lineage.VerifyAnchors` | internal/register/audit.go:326-378 | the loop over roots gives the specified answer, error by error |
| `Lineage.VerifyMeans` | internal/register/audit.go:326-378 | acceptance says that folding the decoded roots leads from one anchor to the other |
| `Lineage.LineageUnique` | internal/register/audit.go:326-378 | between two anchors at most one list of roots is accepted, or the link function collided on exhibited arguments |
| `Lineage.GenuineAccepted` | internal/register/audit.go:319-378 | the roots a ledger really recorded are accepted between any two of its states |
| `Lineage.RangesCompose` | internal/register/audit.go:326-378 | accepted ranges concatenate; with an empty second one, exactly when the later anchors name one root |
| `Lineage.EmptyFirstRange` | internal/register/audit.go:326-378 | with an empty first range, when the earlier anchors name one root, and otherwise only by a collision |
| `Lineage.EmptyRangeIgnoresRoots` | internal/register/audit.go:364-378 | an empty range is accepted between anchors that name different roots |
| `Checkpoints.ChainExtends` | internal/register/checkpoints.go:87-135 | a checkpoint issued at the current state extends the chain: signed, attesting, ascending, naming the one before |
| `Checkpoints.ChainAudits` | internal/register/checkpoints.go:87-135 | any two checkpoints of a chain audit each other over the roots recorded between them |
| `Checkpoints.Anchors.IssueCheckpoint` | internal/register/checkpoints.go:87-135 | nothing when the state has not moved, otherwise the current state signed with its reason, time and count, naming the checkpoint before it, and appended |
| `Checkpoints.Anchors.AnchorCurrentState` | internal/register/checkpoints.go:143-153 | a genuine checkpoint of the current state, new or the last one |
| `Checkpoints.Anchors.Evidence` | internal/register/query.go:425-476 | every bundle passes the proof check, the check against its own checkpoint and both signatures, and tells the truth about the position |
| `Checkpoints.Scan` | internal/register/checkpoints.go:205-226 | one page of the keyspace from a start key |
| `Checkpoints.ReadAll` | internal/register/checkpoints.go:205-226 | the paging loop returns the whole chain in order |
| `Checkpoints.Anchors.ReadCheckpoints` | internal/register/checkpoints.go:205-236 | the order and the limit asked for |
| `Checkpoints.ReverseOf` | internal/register/checkpoints.go:227-231 | the two-ended swap loop reverses |
| `Checkpoints.Anchors.LoadLastCheckpoint` | internal/register/checkpoints.go:190-201 | a restart finds the checkpoint issued last |
| `Checkpoints.FindMeans` | internal/register/query.go:439-446 | looking a path up in the tree finds its row exactly when the tree holds it |
| `Checkpoints.BundleTruth` | internal/checkpoint/checkpoint.go:106-153 | whoever made a bundle that passes both checks against an attested state, it tells the truth about that state or exhibits a collision |
| `Auditor.VerifyChain` | cmd/register-verify/main.go:168-221 | over entries in any order, a fork is reported exactly when two share a version with different roots, and the chain is clean exactly when none do and all signatures verify |
| `Auditor.ScanChain` | cmd/register-verify/main.go:192-211 | the scan with its table of seen roots names exactly the versions that contradict and those not signed |
| `Auditor.VerifyLog` | cmd/register-verify/main.go:234-306 | no gap is reported exactly when the numbers fill a window without repeats and every action is one commit; which gaps are reported, and which checkpoints the log is short of |
| `Auditor.DenseSorted` | cmd/register-verify/main.go:246-262 | sorted, a log is dense exactly when each number follows the one before |
| `Auditor.ScanLog` | cmd/register-verify/main.go:250-270 | the scan reports exactly the repeats, jumps and spans there are, and is silent exactly on consecutive logs of single commits |
| `Auditor.TruncationUnseen` | cmd/register-verify/main.go:283-296 | an honest log cut short is never flagged, whatever honest checkpoints it is held against |
| `Auditor.ShortLogPasses` | cmd/register-verify/main.go:283-296 | a log of any length cut to its first entry passes every part of the test against the checkpoint at its end |
| `Auditor.LaterVersionSeen` | cmd/register-verify/main.go:283-296 | a checkpoint numbered past every entry that is left is caught when a later version stays in the log |
| `RecordMeanings.QueryRowsShow` | internal/register/records.go:190-219 | in every reachable state each record has a query row with exactly the projected columns, each the coerced member of the property projected, null when absent, of what the head says |
| `RecordMeanings.ColumnValue` | internal/register/records.go:196-213 | the last projection of a column fills it with its own property's value |
| `RecordMeanings.NoOtherRows` | internal/register/records.go:190-219 | every query row is a record's, in its class's table, and no two agree on a unique column |
| `RecordMeanings.KeysShow` | internal/register/records.go:103-116 | in every reachable state the natural key on file is what the head prints for it, the record's id without one |
| `RecordMeanings.PersonalDataSealed` | internal/register/records.go:56-102 | in every reachable state the clear half of a version is the payload without personal data and exactly that data is sealed, under the scope of its class and for this version |
| `RecordMeanings.OpensOnlyWithItsKey` | internal/byok/byok.go:205-236 | a seal opens with its own key, for its own record and version, and with nothing else; a wrap only for its scope |
| `RecordMeanings.PayloadsValid` | internal/register/records.go:283-313 | in every reachable state the schema accepts every stored payload and every reference in one names a record of the right class |
| `Packs.ValidateClasses` | internal/pack/pack.go:312-376 | the loops accept exactly the declarations whose names are distinct, personal-data rules hold and references resolve |
| `RecordBuild.ScopeNamesUnique` | internal/register/records.go:317-327 | two key scopes of one tenant never share a stored name |
| `Packs.SplitMerges` | internal/register/records.go:61-82 | the clear and the personal half are disjoint and make up the payload |
| `RecordInvariant.RecordLands` | internal/register/records.go:127-181 | a record's write set lands unless another object holds its natural key or one of its unique columns, placeholders filled in, and then changes exactly these rows |
| `RecordSafety.KeysFollow` | internal/register/records.go:157-177 | the natural-key index still agrees with the objects after a key is changed, retired or reused |
| `RecordSafety.LandingKeeps` | internal/register/records.go:48-182 | landing one checked change keeps heads, index, projections, unique columns, keys and references in agreement |
| `Batch.BatchIsSequential` | internal/register/mutations.go:18-31 | a write set built in full against one state lands exactly when its changes landed one by one would, to the same state |
| `IndexLimits.EmptyKeyExactly` | internal/register/records.go:157-169 | after one change the index agrees exactly when the change takes no object off the empty key |
| `IndexLimits.IndexAgreesExactly` | internal/register/records.go:157-177 | after any landed write set, changes to one object included, the index agrees exactly when none is left behind on a key passed through or on the empty key |
| `IndexLimits.IndexLands` | internal/register/records.go:117-177 | what a landed write set makes of objects and index, change by change, and that the unique index let each through |
| `IndexLimits.LandsWhen` | internal/register/records.go:267-280 | a built write set lands when the unique indexes let each change through and every update finds its row |
| `BatchLimits.MintedOnceExactly` | internal/register/records.go:344-390 | the tables agree after a batch exactly when no key is minted twice; else the earlier record cannot be opened |
| `BatchLimits.OpensExactly` | internal/register/records.go:344-390 | in any landed write set, the last change to an object opens as written unless a later change minted its key anew and differently; then nobody can open it |
| `BatchLimits.NoUpdateLostExactly` | internal/register/workflow.go:505-558 | every change's payload and status is recorded exactly when no two changes to one object differ in either |
| `ReadBack.ReadsBack` | internal/register/records.go:403-460 | every version reads back whole, without its personal part, or as pruned, and never fails |
| `ReadBack.HeadReads` | internal/register/mutations.go:107-122 | the register's own reading of a head is the payload written |
| `ReadBack.StatusCarriesPayload` | internal/register/mutations.go:92-105 | a status change keeps the payload; it keeps the natural key exactly when that is not the placeholder, and the projected columns exactly when none of them is |
| `ReadBack.GivenKeysUnique` | internal/store/schema.go:96 | two heads of one class give one natural key only if it is the placeholder |
| `ReadBack.FoundUnderGivenKey` | internal/register/records.go:157-177 | the index names a record under the key its head gives exactly when that is not the placeholder |
| `ReadBack.Repopulate` | internal/register/bootstrap.go:46-155 | the loop over a table made anew writes exactly the rows the heads give, and is refused exactly when two of them clash on a unique column |
| `ReadBack.RebuildLandsExactly` | internal/register/bootstrap.go:100-155 | a rebuild is refused exactly when two records of the class have one unique column blank or the placeholder |
| `ReadBack.RebuildChangesExactly` | internal/register/bootstrap.go:126-155 | a rebuild adds and drops no row and keeps a row's columns exactly when no projected text of the head is the placeholder |
| `ReadBack.PersonalDataStaysSealed` | internal/register/records.go:56-182 | payloads differing only in personal data give write sets differing only in ciphertext and keyed commitment |
| `History.LandingOnward` | internal/register/records.go:127-155 | landing appends: no version row, creation stamp or erased flag of before is touched |
| `History.BatchOnward` | internal/register/workflow.go:496-563 | landing a batch records every change and leaves every other object alone |
| `RetentionPolicy.PageLands` | internal/register/retention.go:109-131 | a page of prunes empties exactly the versions named and keeps every agreement |
| `RetentionPolicy.PruneKeepsMarks` | internal/register/retention.go:113-130 | pruned versions and retention marks stay in one-to-one correspondence |
| `RetentionPolicy.RetentionConserves` | internal/register/retention.go:331-348 | under every policy as many versions are pruned as marks say |
| `RetentionPolicy.ErasureLands` | internal/register/retention.go:253-280 | an erasure changes exactly the key, the flag and the mark |
| `RetentionMeanings.PruneExactly` | internal/register/retention.go:66-108 | a prune is let through exactly for whoever may, under a declared policy, when something is due |
| `RetentionMeanings.PruneMeans` | internal/register/retention.go:85-131 | a prune empties versions that are superseded, past the window, of the class and of the record asked for, sealed if the policy says so, and nothing else: all of them when fewer than 5000, else the first 5000 |
| `RetentionMeanings.EraseMeans` | internal/register/retention.go:204-305 | who may erase which record, and that an erasure touches its key, its row and one mark |
| `RetentionPolicy.ErasureKeeps` | internal/register/retention.go:204-305 | an erasure keeps every agreement of the tables |
| `Workflows.Evaluate` | internal/register/workflow.go:607-631 | the loop stops at the first failing reject condition and collects the other failures |
| `Workflows.VerdictMeans` | internal/register/workflow.go:601-631 | no rejection means no reject condition fails; no blocker means every condition holds |
| `WorkflowSafety.ProposalLands` | internal/register/records.go:495-589 | a sealed proposal opens as what was proposed |
| `WorkflowSafety.MoveKeeps` | internal/register/workflow.go:218-493 | a justified move keeps states, keys, acceptances, decisions and the log in agreement |
| `WorkflowSafety.MoveIsNew` | internal/register/register.go:190-196 | the retry check never swallows a move of a proposal |
| `Approval.EffectsProper` | internal/register/workflow.go:495-599 | whatever effects a workflow declares, the changes they plan are new first versions or next versions of live records |
| `Approval.ApprovalLands` | internal/register/workflow.go:445-493 | an approval's one commit records every change, moves the proposal and destroys its key |
| `EffectMeanings.EffectsRecorded` | internal/register/workflow.go:496-599 | an approving step adds, for every effect, exactly the version it asks for, with its record, class, payload and status, all by one entry, and changes no other record |
| `TaskMeanings.ProposedIsRecorded` | internal/register/workflow.go:505-518 | over any run, approving a proposal to make, change or correct a record adds one version that says the payload submitted, and a cleared reader reads it |
| `TaskMeanings.ProposeMeans` | internal/register/workflow.go:72-196 | who may propose what, exactly, and the row filed: proposer, record, class and the party the payload names |
| `TaskMeanings.AnswerMeans` | internal/register/workflow.go:220-303 | only the party named answers, while the proposal waits for it, and nothing but that row and its key changes |
| `TaskMeanings.WithdrawMeans` | internal/register/workflow.go:343-394 | only the proposer withdraws, before a decision, and nothing but that row and its key changes |
| `TaskMeanings.RefusalMeans` | internal/register/workflow.go:306-340 | who may decide, and that a refusal changes nothing but that row and its key |
| `TaskMeanings.ApprovalAllowed` | internal/register/workflow.go:397-445 | whoever approves may, and no condition that must hold fails |
| `TaskMeanings.ApprovalMeans` | internal/register/workflow.go:445-493 | an approval decides that proposal and no other, about the record its effects came to |
| `TaskMeanings.ApprovedAsProposed` | internal/register/workflow.go:145-170 | over any run, an approved proposal was decided by another than who submitted it, under independence, and accepted before by the party printed in the payload submitted |
| `Membership.RolesHeld` | internal/auth/rbac.go:126-137 | a role is held exactly when the token claims it or the register granted it, and the model knows it |
| `Membership.PermissionsMean` | internal/auth/rbac.go:168-176 | a caller has exactly the permissions of the roles held |
| `PeopleMeanings.GrantMeans` | internal/register/members.go:146-228 | who may grant which role to whom, exactly, and that one row is added |
| `PeopleMeanings.RevokeMeans` | internal/register/members.go:231-271 | who may revoke, exactly, while somebody else administers, and that one row goes |
| `PeopleMeanings.InviteMeans` | internal/register/members.go:346-408 | who may invite, exactly, and the row made: role, secret, inviter and the end of its time |
| `PeopleMeanings.WithdrawInvitationMeans` | internal/register/members.go:446-482 | only an open invitation is withdrawn, by a manager, and its recipient is forgotten |
| `PeopleMeanings.RedeemMeans` | internal/register/members.go:485-562 | a redemption needs the row's secret, in time, neither used nor withdrawn, and grants the row's role to whoever presented it |
| `PeopleMeanings.SpendingIsRedeeming` | internal/register/members.go:485-562 | a step after which an invitation is used is its redemption by that person, with its secret |
| `PeopleMeanings.RedeemedAsInvited` | internal/register/members.go:346-562 | over any run, whoever uses an invitation presented the secret it was made with, within its time, and holds the role it was made for |
| `PeopleMeanings.ExpireMeans` | internal/register/invite_mail.go:177-214 | a recipient is forgotten only after the invitation ran out unanswered |
| `PeopleMeanings.SeeMeans` | internal/register/identities.go:111-175 | what signing in files of a person, sealed under their own key, and that nothing is filed when nothing is new or after an erasure |
| `PeopleMeanings.EraseProfileMeans` | internal/register/identities.go:180-233 | who may erase a profile, exactly, and that the key is destroyed and nothing else changes |
| `KeyMeanings.KeysJustMade` | internal/register/records.go:344-390 | every key a step adds is wrapped for its own scope, and for the customer exactly when one is enrolled |
| `Authority.BuildsExactly` | internal/register/records.go:45-182 | a change can be built exactly when the schema accepts it, its references resolve, its key can be had and no other record has its natural key |
| `Authority.SeedMeans` | internal/register/bootstrap.go:303-335 | what a seeded record is and when it can be |
| `Authority.SecretOpens` | internal/register/members.go:485-562 | in every reachable state a redemption goes through exactly for whoever presents the secret in time and may hold the role |
| `Authority.NothingUnauthorised` | internal/register/register.go:171-196 | whatever call acts has shown the permission, role, party, secret and state its action asks for; any other changes nothing |
| `Membership.MemberIdUnique` | internal/register/members.go:68 | a member id determines subject and role when role names hold no bar |
| `Membership.OtherAdministrators` | internal/register/members.go:273-287 | the loop counts the other people who administer |
| `Membership.Resolve` | internal/auth/rbac.go:125-179 | who is refused and why, under which role a caller acts, the first by name unless asked, and with which permissions and clearance |
| `MembershipSafety.GrantKeepsMembers` | internal/register/members.go:185-228 | nobody comes to hold two roles that may not be held together |
| `MembershipSafety.GrantedNeverBreaches` | internal/auth/rbac.go:146-152 | roles granted by the register alone are never refused for separation of duties |
| `MembershipSafety.RevokeKeepsAdministrators` | internal/register/members.go:231-271 | revoking a role named without a bar leaves somebody to administer |
| `MembershipSafety.AdministratorsLostExactly` | internal/register/members.go:237-257 | exactly when a revocation let through leaves nobody to administer |
| `MembershipSafety.AdministratorsCanBeLost` | internal/register/members.go:237-257 | the request that does it, in a register whose only administrator has a bar in the subject |
| `MembershipSafety.SpendKeeps` | internal/register/members.go:520-562 | the entry that spends an invitation grants its role, and is the only one to spend it |
| `PeopleSteps.RedeemSide` | internal/register/members.go:520-562 | redeeming grants, spends and forgets in one, keeping the people tables in agreement |
| `PeopleSteps.ForgetLocal` | internal/register/invite_mail.go:68-98 | once forgotten, an invitation's key is gone |
| `PeopleSteps.SealedInvite` | internal/register/invite_mail.go:40-66 | a recipient is sealed under the invitation's own new key |
| `PeopleSteps.SeenReads` | internal/register/identities.go:87-175 | a profile recorded reads back as what was asserted over what was held |
| `RunSafety.StepKeeps` | internal/register/register.go:171-270 | every call, whatever it does and however it ends, keeps the invariant and takes nothing back |
| `RunSafety.RunKeeps` | internal/register/register.go:171-270 | over any run the invariant holds and later states follow earlier ones |
| `RunSafety.ReadBackLater` | internal/register/records.go:403-460 | whatever is done later, a version reads as what was written, its clear part, or pruned |
| `RunSafety.IndexTellsTheTruth` | internal/register/records.go:157-177 | in every reachable state a key is in the index exactly when the object it names has it |
| `RunSafety.GivenKeysExactly` | internal/register/register.go:353-362 | in every reachable state a record is found under the key its head gives, and keys are given once, exactly as far as the placeholder is not given |
| `RunSafety.RebuildAnyTime` | internal/register/bootstrap.go:126-155 | when a rebuild run at any moment is refused, and which columns it changes, exactly |
| `RunSafety.KeysNeverReturn` | internal/register/retention.go:254-265 | a destroyed key is never live again and a live one is never exchanged |
| `RunSafety.KeyLifecycle` | internal/register/records.go:591-615 | a subject's key is destroyed exactly when erased, a proposal's lives exactly until decided, an invitation's only while open |
| `RunSafety.RetentionSparesThePresent` | internal/register/retention.go:86-131 | no head is pruned; each pruned version was superseded and past its window; counts are equal |
| `RunSafety.ApprovedProposals` | internal/register/workflow.go:218-493 | approved by exactly one entry, not by its proposer under independence, and after an earlier entry in which its counterparty accepted |
| `RunSafety.DecisionsAreFinal` | internal/register/workflow.go:231-356 | a decided proposal never changes |
| `RunSafety.ProposalReadsBack` | internal/register/records.go:542-589 | while undecided, a proposal opens as it did when it was made |
| `RunSafety.ProposalOpens` | internal/register/workflow.go:149-194 | a proposal just committed opens as the payload submitted |
| `RunSafety.ApprovalJustified` | internal/register/workflow.go:397-493 | a step that approves does so with no reject condition failing, none failing under policy, and every effect recorded with it |
| `RunSafety.AdministratorsRemain` | internal/register/members.go:245-257 | once somebody administers, somebody always does, as long as revocations name plain roles |
| `RunSafety.DutiesStaySeparate` | internal/register/members.go:196-210 | over any run no subject's granted roles breach separation of duties |
| `RunSafety.InvitationsSpentOnce` | internal/register/members.go:410-562 | used or withdrawn, never both, for good; used exactly when one entry spends it and grants its role |
| `RunSafety.ErasedPeopleStayErased` | internal/register/identities.go:112-233 | an erased person reads as erased from then on, whatever is asserted later |
| `Retries.NeverSwallowed` | internal/register/register.go:190-196 | in every reachable state an action let through has never been committed before, but for grants, revocations, reminders and profiles |
| `Retries.GrantTakesEffectExactly` | internal/register/register.go:190-196 | a grant let through has its row afterwards exactly when it is not a repeated transaction, and the row names the subject exactly when that is not the placeholder |
| `Retries.RevokeTakesEffectExactly` | internal/register/register.go:190-196 | a revocation let through has taken its row away exactly when it is not a repeated transaction |
| `Retries.SeenTakesEffectExactly` | internal/register/identities.go:118-175 | a profile reads as asserted over what was held exactly when saying so is not a repeated transaction and the person is not called by the placeholder |
| `Retries.RemindTakesEffectExactly` | internal/register/invite_mail.go:162-173 | a reminder is on record unless it is a repeated transaction and another was sent since |
| `Retries.ThirdIsSwallowed` | internal/register/register.go:190-196 | said a third time in one second and the same words, a grant or a revocation does nothing |
| `Replays.OncePerSpotReplays` | internal/register/register.go:285-304 | a write set that writes no row twice can be replayed from wherever it was left |
| `Replays.SoundCallsReplay` | internal/register/register.go:285-304 | in every reachable state, whatever a sound call commits can be replayed from any part of it, when no record was given the call's transaction id for its key beforehand |
| `Witnesses.StatusCanBeLost` | internal/register/mutations.go:96-105 | a run in which a status effect and a status action land together and the first status is nowhere |
| `Witnesses.KeyCanBeLeftBehind` | internal/register/records.go:157-177 | a run after which the index names a record for a key it only passed through |
| `Witnesses.EmptyKeyCanStay` | internal/register/records.go:157-169 | a run after which the index names a record for the empty key it has left |
| `Witnesses.FirstTwinCanBeLost` | internal/register/records.go:344-390 | a run in which one approval makes two records and the first cannot be opened |
| `Witnesses.ReplayCanBeRefused` | internal/store/schema.go:96 | a run whose last write set landed and cannot be applied again |
| `Witnesses.RevocationCanBeSwallowed` | internal/register/register.go:190-196 | a run in which a revocation is let through and the role stays |
| `Witnesses.LastAdministratorCanBeLost` | internal/register/members.go:237-257 | a run of one grant and one revocation that leaves nobody to administer |
| `Witnesses.KeyCanBeRetired` | internal/register/records.go:157-169 | a run after which a key that was registered is absent from the index |
| `Placeholders.BothLand` | internal/register/register.go:353-362 | a sound run of two calls, whatever ids they get as long as the ids differ, that seeds two records under the placeholder |
| `Placeholders.PlaceholderTaken` | internal/register/bootstrap.go:151 | after that run the two give one natural key, neither is found under it, and their table cannot be rebuilt |
| `KeyEvidence.PositionMeans` | internal/register/query.go:439-446 | the position of an index entry is taken exactly when the entry is there, or two ledger keys collide |
| `KeyEvidence.EntryTells` | internal/register/records.go:157-177 | in every reachable state an index entry names the one record registered under the key, and no entry means no record |
| `KeyEvidence.KeyBundleTruth` | internal/register/query.go:483-497 | whoever made an accepted bundle about a natural key at a reachable state: absent means no record of the class has it, present that exactly one has, or a collision is exhibited |
| `RegisterObject.Keyring.UnwrapOperational` | internal/byok/byok.go:91-113 | a cached key is answered without looking at the wrap; a miss unwraps and remembers |
| `RegisterObject.Keyring.Forget` | internal/byok/byok.go:115-122 | the scope leaves the cache and nothing else does |
| `RegisterObject.CacheFollows` | internal/byok/byok.go:91-122 | after a commit the cache is right once what the write set destroys is forgotten |
| `RegisterObject.Register.Commit` | internal/register/register.go:173-304 | the loop lands the whole write set and logs it, or changes nothing |
| `RegisterObject.Register.OpenKey` | internal/register/records.go:353-359 | the key given, cached or not, is the one the live row wraps |
| `RegisterObject.Register.EnsureKey` | internal/register/records.go:344-390 | the stored key, or a new one with the write that records it |
| `RegisterObject.Register.BuildRecordOps` | internal/register/records.go:45-182 | the step-by-step build refuses and yields as specified |
| `RegisterObject.Register.ReadVersion` | internal/register/records.go:403-460 | reading through the cache gives what reading the rows would |
| `RegisterObject.Register.NewestOf` | internal/register/mutations.go:110-117 | the scan finds the newest version |
| `RegisterObject.Register.EligibleRows` | internal/register/retention.go:87-108 | the prune query: every eligible version in order, cut at 5000 |
| `RegisterObject.Register.PlanStatus` | internal/register/mutations.go:96-105 | a status change carries what the head reads |
| `RegisterObject.Register.EffectOps` | internal/register/workflow.go:496-563 | planning and building effect by effect gives what planning all and then building all would |
| `RegisterObject.Register.CloseLink` | internal/register/workflow.go:569-599 | the open link's payload with the closing fields set |
| `RegisterObject.Register.Propose` | internal/register/workflow.go:72-216 | one commit, or two exactly when it approves by itself with no blocker; an error exactly when one of them is refused, a refused second leaving the first |
| `RegisterObject.Register.Accept` | internal/register/workflow.go:220-303 | one commit, or two exactly when accepted and free to approve by itself; an error exactly when one of them is refused |
| `RegisterObject.Register.Decide` | internal/register/workflow.go:306-340 | the state machine's step, and success exactly when it commits |
| `RegisterObject.Register.Withdraw` | internal/register/workflow.go:343-394 | the state machine's step, and success exactly when it commits |
| `RegisterObject.Register.Prune` | internal/register/retention.go:66-174 | the first page in order of the versions past their window is pruned, or counted on a dry run |
| `RegisterObject.Register.Erase` | internal/register/retention.go:204-305 | the state machine's step, with the key forgotten after the commit |
| `RegisterObject.Register.GrantRole` | internal/register/members.go:146-228 | the loop over held roles refuses exactly the grants that breach, and commits the others |
| `RegisterObject.Register.RevokeRole` | internal/register/members.go:231-271 | the state machine's step, and success exactly when it commits |
| `RegisterObject.Register.CreateInvite` | internal/register/members.go:346-408 | the state machine's step, with a sealed recipient when there is one |
| `RegisterObject.Register.RevokeInvite` | internal/register/members.go:446-482 | the state machine's step, with the key forgotten after the commit |
| `RegisterObject.Register.RedeemInvite` | internal/register/members.go:524-562 | the state machine's step, with the key forgotten after the commit |
| `RegisterObject.Register.MarkReminded` | internal/register/invite_mail.go:162-173 | the state machine's step, and success exactly when it commits |
| `RegisterObject.Register.ForgetExpiredRecipients` | internal/register/invite_mail.go:177-214 | one step for every recipient on file, in any order, until a commit is refused, and how many were forgotten |
| `RegisterObject.Register.SeeIdentity` | internal/register/identities.go:111-175 | the state machine's step, returning what was asserted over what was held, which reads back exactly unless swallowed |
| `RegisterObject.Register.EraseProfile` | internal/register/identities.go:180-233 | the state machine's step, with the key forgotten after the commit |
| `RegisterObject.Register.SeedRecord` | internal/register/bootstrap.go:314-335 | the state machine's step for one seeded record |

## Left out

- Real cryptography: wraps, ciphertexts, signatures and payload commitments are constructors; freshness of
  minted ids and keys is a premise.
- Floating point: JSON numbers are 64-bit integers, and reading a stored number is an arbitrary rounding that
  is exact on doubles.
- Strings are sequences of characters, so UTF-8 and invalid byte sequences are not modelled.
- One tenant and one set of declarations per run; declared names are not checked against their pattern.
- JSON Schema validation, value printing, column coercion, template text, condition SQL and the choice of an
  open link are functions of their arguments.
- Index and table creation, projection fingerprints and declaration upgrades: a rebuild is for the declarations the
  records were written under.
- The placeholder as an identifier, a scope or a declared name: the first two are made by the register, and that no
  status and no policy is called so is part of `Runs.PackSound`. References, reasons and messages that rows of other tables
  repeat are not part of the rows here.
- `WriteSet` works on columns and the state machine on typed rows. How an entry of the one is written as an entry of
  the other is not modelled, so `WriteSet.ReplayExactly` and `Replays.SoundCallsReplay` stand side by side.
- Envelope validation, message composition, clipping, evidence digests and long-form bodies: they can only refuse
  a call or change its text, which is one string here.
- Schema ids, policies and customer keys as rows; whether a customer key is enrolled is a parameter of a call.
- Standby import and export, history collection, webhooks and notifications.
- The lexer knows no SQL comments; templates that contain them are outside its claim.
- `hexToBytes` of the browser verifier, which tolerates bad digits; the model starts from bytes.
- Auditor.VerifyLog: counts of missing entries are the program's 64-bit ones; sequence numbers themselves are unbounded.
- Canon.Write: the float branch of the writer, because JSON numbers are 64-bit integers here.
- Canon.Marshal: the pass through encoding/json that makes a value plain; the model starts from plain values.
- SqlLiteral.LitOf: byte strings, unsigned integers, floats and times; a condition is only ever given strings, integers, booleans and NULL, or floats.
- Checkpoints.Anchors.Evidence: the row and the ledger key and value a bundle carries beside its proof.
- Packs.ValidateClasses: patterns of names and columns and the compilation of schemas.
- RegisterObject.Register.GrantRole: recording a display name after the grant.
- Listings, histories, reports and checkpoint summaries, which only read.
