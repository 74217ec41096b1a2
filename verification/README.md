# AgroChain: a verified model

AgroChain follows whole tomato batches from producer through carrier to retailer on a permissioned ledger, checks the
documents behind each step, and asks a regulator to look at price increases. This project models its moving parts and
proves what they promise.

**The chaincode.** Ten commands move a batch through its life. One accepted command writes the batch and its evidence
slots, a receipt under two keys, two secondary indexes, transfer, lot, cost and report references, three replay keys
per document, private records and one event. `Types`, `Evidence` and `Engine` say what one command does, as functions
of the state it reads, what its document loop lets through, and what it changes key kind by key kind. `Chaincode` is
the same as it runs: a store with fields that are read, written and removed one key at a time, a provider that loops
over documents, and a contract whose methods are proved equal to those functions. `Invariants` states twelve joint
properties of all key families; `Preserve` keeps those of records, indexes, transfers and references through every
command, `Provenance` those of documents, private records and reviews, `Runs` all of them through every run.
`Guarantees` and `Progress` draw the consequences: what is never lost, what a reader may rely on, and exactly when a
command is accepted. `Origins` adds that stored ids have their own grammar, that replay keys belong to stored
documents, and review actions to the receipts of versions nine and ten; together with the joint invariant they make
`Origins.Sound`, kept by every run (`Origins.RunSound`). `Recorded` states, against the transition table and the
submitted inputs, all that an accepted command leaves on the ledger (`Recorded.AcceptedLeaves`), carries it to every
later ledger and to the score (`Recorded.ScoreOfSubmitted`), and proves every stored document signed
(`Recorded.RunSigned`). `Refusals` gives every error code its reason: a refused command is refused for the condition
that its code stands for (`Refusals.RunRefused`). `Liveness` then exhibits, for every reachable batch that is not
done, a command with inputs and evidence that is accepted, and leads every batch to its end.

**Optimistic commit.** A command is endorsed against a snapshot and committed later only if nothing it read has
changed. `Reads` gives the read set of a command and proves that its outcome depends on nothing else. `Serial` models
versions and commits for any machine that simulates a request and reports the keys it read. A schedule gives, for
every turn without end, a request and the earlier ledger it was endorsed against. Four laws of a machine are enough
for serializability and for saying exactly when a transaction commits; `Serial.LedgerLawful` proves that the chaincode
obeys them.

**The operation journal.** The backend stages, prepares, endorses, persists, submits and promotes. `Network` is the
ledger as the backend sees it, with answers that may fail or come late; `Journal` holds the durable rows; `Workflow`
checks a client's request and is the protocol, with a possible crash between any two steps. The network keeps a record
of the error codes it has answered with (`Network.Network.told`), against which every failure of a row is explained.

**The evaluation worker.** `Reconciler` holds the backend's side of an evaluation: the queries, the proposal computed
from them, the command derived from three reads between which the ledger may move on, and the pass itself over a peer
(`Runs.Peer`) that moves on before it answers any query, submitting through `Workflow`. The operation id contains the
version that was read; an evaluation that commits between the first two reads makes that version eight or more
(`Reconciler.StraddledReads`). `Reconciler.DerivedCanonical` says exactly when the id is the batch's one id, and
`Reconciler.OthersRefused` that every other one is harmless. `Settlement` says when an evaluation commits in a
concurrent schedule, and what its journal row then means on the ledger.

**The projection.** `Projection` folds committed events into public views, proves that they agree with the ledger, and
models the worker with its aborts, crashes and restarts from an inclusive checkpoint.

**Kernels.** `Price` is the price rule of both programs on 64-bit integers, `Json` the chaincode's parser of
restricted JSON, `CanonicalJson` the canonical form with members sorted at every depth (the profile of RFC 8785,
sections 3.2.2 and 3.2.3, that both programs use), the backend's printer and the commitment framing, `Queries` the
paged index queries and a client that reads page after page of a moving ledger, `Ordering` the byte order of ids.

How the parts are tied: each imperative method states its result as a function of its inputs and the old state, and
the lemmas are about those functions, runs of them, or schedules of runs. `Settlement` maps a schedule of endorsements
and deliveries to the network that the backend assumes (`Settlement.NetOf`), and proves, for any machine that obeys
two of the laws, that it is one and only grows; it uses that a command that is endorsed records its receipt
(`Serial.Recording`), that a committed receipt stays (`Serial.ReceiptStays`), and that every stored receipt has its
commit (`Serial.ReceiptOrigin`). The events that `Projection` consumes are those of a serial run, which
`Serial.Serializable` shows to be every concurrent one.

Where code and documents differ, the model follows the code. Two small cases: a region code is read as a number, so a
leading plus sign is admitted (`+5` is region 5), although the documents speak of a two-digit code; and the chaincode
admits an expected version of 2147483647 and refuses it only against the stored batch, which
`Guarantees.VersionBounds` shows can never hold it.

## Model

| member | source | states |
|---|---|---|
| Runs.RunInv | chaincode/agrochain/internal/agrochain/domain.go:18-304 | The joint invariant of all key families holds of the ledger after every sequence of bootstrap and command requests, accepted or refused, over unboundedly many batches. |
| Runs.StepKeepsInv | chaincode/agrochain/internal/agrochain/domain.go:18-304 | One command on any ledger that satisfies the invariant, whatever its inputs, leaves a ledger that satisfies it. |
| Runs.BootstrapKeepsInv | chaincode/agrochain/internal/agrochain/evidence.go:138-206 | The one-time trust configuration keeps the invariant. |
| Origins.NothingBefore | chaincode/agrochain/internal/agrochain/evidence.go:127-147 | Before the configuration is stored the ledger is empty: no batch, receipt, reference, document, replay key or private record, and no event. |
| Origins.RunNamed | chaincode/agrochain/internal/agrochain/validation.go:78-80 | After every sequence of requests the ids the ledger stores have their own prefix and grammar, and the configured policy and four sources are proper and stored under their keys. |
| Origins.RunSound | chaincode/agrochain/internal/agrochain/domain.go:18-304 | The joint invariant together with the grammar of stored ids, the owners of replay keys and the trace of review actions holds after every sequence of requests. |
| Origins.ReplaysBelong | chaincode/agrochain/internal/agrochain/private.go:151-164 | A source-use or nonce key exists exactly when a stored document of that issuer has that source document or nonce. |
| Serial.Serializable | chaincode/agrochain/internal/agrochain/ledger.go:64-65 | For every schedule of arbitrarily stale endorsements, committed only if every version they read is current, the ledger equals the one left by serving the committed requests one by one in commit order. |
| Serial.CommitOutcome | chaincode/agrochain/internal/agrochain/domain_test.go:387-411 | A transaction that commits has, in the state it commits to, exactly the writes, event and receipt it was endorsed with. |
| Serial.SameVersionSameValue | chaincode/agrochain/internal/agrochain/ledger.go:64-65 | Between any two points of a schedule, a key with the same version, or absent at both, holds the same value. |
| Serial.OneWins | chaincode/agrochain/internal/agrochain/domain_test.go:387-411 | Of two commands for one batch endorsed on overlapping snapshots, the first that commits makes the other invalid. |
| Serial.CommitsIff | chaincode/agrochain/internal/agrochain/domain_test.go:387-411 | Any endorsed command commits exactly when at its turn its batch has the version it expects and every key it found unused is still unused, whatever else was committed since its endorsement. |
| Serial.LedgerLawful | chaincode/agrochain/internal/agrochain/ledger.go:64-65 | The chaincode is such a machine: outcomes depend on the recorded reads, every accepted command books its receipt and raises its batch's version by one, writes no key but its batch's own or one it found unused, and keeps the invariant. |
| Serial.OperationOnce | chaincode/agrochain/internal/agrochain/domain.go:33-35 | No two transactions of one organization commit under one operation id, however stale their endorsements. |
| Serial.ReceiptForever | chaincode/agrochain/internal/agrochain/domain.go:33-35 | A committed transaction found its operation key unused, and its own receipt stays under that key in every later ledger. |
| Serial.ReceiptOrigin | chaincode/agrochain/internal/agrochain/domain.go:266-278 | Every stored receipt belongs to a transaction that committed under that organization and operation id. |
| Serial.ConcurrentInv | chaincode/agrochain/internal/agrochain/ledger.go:64-65 | The joint invariant holds of every ledger reached under optimistic concurrency. |
| Recorded.AcceptedLeaves | docs/STATE_MACHINE.md:15-56 | An accepted command leaves, against the ledger it found and what was submitted with it, the batch field by field as the transition table says, its slots with the submitted documents, the transfer, cost, lot, report and analysis references, one receipt with exactly the touched ids and the event that repeats it, each document with its replay keys, and the private records. |
| Recorded.SubmittedForever | chaincode/agrochain/internal/agrochain/private.go:239-308 | Whatever is served later, the ledger holds the openings, the cost record, the retail report and the review action exactly as they were submitted, under the command's operation and transaction. |
| Recorded.ScoreOfSubmitted | chaincode/agrochain/internal/agrochain/analysis.go:121-160 | In any run an evaluated batch is scored by the price of the invoice submitted with its pickup and the price submitted with its report: the floored increase, and a review exactly above the real threshold. |
| Recorded.RunSigned | chaincode/agrochain/internal/agrochain/evidence.go:207-252 | In every run each stored document is properly headed and signed by a key the ledger holds for its issuer, enabled, of its system and for its type, and each opening opens its document's commitment. |
| Recorded.BootstrapIff | chaincode/agrochain/internal/agrochain/evidence.go:138-184 | The configuration is accepted exactly from the Regulator's administrator, before any other, with a proper policy id, a threshold in range and the four sources in order. |
| Recorded.BootstrapLeaves | chaincode/agrochain/internal/agrochain/evidence.go:184-205 | It is stored as submitted, with its policy and each of its sources under their own keys, and nothing else changes. |
| Reads.ApplyLocal | chaincode/agrochain/internal/agrochain/domain.go:18-304 | An accepted command has the same outcome and the same read set in every ledger that agrees with the first on the keys it read. |
| Reads.TakeDocumentsLocal | chaincode/agrochain/internal/agrochain/private.go:139-164 | The document loop depends only on the trust key and the three replay keys of each document. |
| Guarantees.RunExtends | chaincode/agrochain/internal/agrochain/domain.go:18-304 | Every later ledger keeps all receipts, references, replay keys, configuration, private records (an anomaly up to review state and salt), the immutable batch fields and the filled slots; versions never fall. |
| Guarantees.ReplayRefused | chaincode/agrochain/internal/agrochain/domain.go:33-35 | Once an organization's operation id was accepted, any well-posed command of that organization under it is refused with DUPLICATE_TRANSACTION in every later ledger. |
| Guarantees.TenCommands | chaincode/agrochain/internal/agrochain/domain.go:48-50 | A batch's version is the number of commands ever accepted for it, and there are at most ten. |
| Guarantees.VersionBounds | chaincode/agrochain/internal/agrochain/domain.go:263 | The version is at most ten, so the overflow guard never fires; a reported, unevaluated batch is at version seven. |
| Guarantees.StateDetermines | docs/STATE_MACHINE.md:36-45 | The state determines owner, custodian, lot and filled evidence slots; Logistics never owns; filled slots name stored documents of the right type and batch. |
| Guarantees.OneOffer | docs/STATE_MACHINE.md:36 | A batch never has two OFFERED transfers. |
| Guarantees.OfferIff | chaincode/agrochain/internal/agrochain/domain.go:137-144 | A batch has an OFFERED transfer, with its quantity, from its custodian and along its route, exactly while it is in a pending state. |
| Guarantees.TwoReceipts | chaincode/agrochain/internal/agrochain/domain.go:180-183 | An ACCEPTED transfer has two receipts from two organizations, the offer before the acceptance, with the transaction ids it records. |
| Guarantees.IndexesExact | chaincode/agrochain/internal/agrochain/domain.go:273-284 | An owner or state entry exists exactly for the batch's current owner or state. |
| Guarantees.HistoryComplete | chaincode/agrochain/internal/agrochain/domain.go:266-278 | The history keys of a batch are exactly versions 1 to v, and each receipt is stored identically under its operation key. |
| Guarantees.ReferencesInverse | chaincode/agrochain/internal/agrochain/domain.go:214-257 | Lot, cost, report and anomaly references are the inverses of the fields that name them, both ways. |
| Guarantees.GramsConserved | chaincode/agrochain/internal/agrochain/domain.go:104-252 | A batch's grams equal those of its lot, its transfers, its purchase, its freight cost and its retail report. |
| Guarantees.PurchaseConserved | chaincode/agrochain/internal/agrochain/domain.go:306-309 | A stored purchase satisfies price times grams equals total times 1000 exactly, with both products inside 64 bits. |
| Guarantees.EvidenceOnce | chaincode/agrochain/internal/agrochain/private.go:151-164 | Stored documents are injective in (issuer, source document) and in (issuer, nonce). |
| Guarantees.EvidenceBound | chaincode/agrochain/internal/agrochain/private.go:148-164 | Each stored document was consumed by a committed receipt of the batch and operation it is bound to; all but freight invoices have a public reference. |
| Guarantees.AnomalyExact | chaincode/agrochain/internal/agrochain/analysis.go:141-160 | A stored anomaly is the price rule applied to the still stored purchase, report and configuration, and asks for review exactly when the real increase exceeds the real threshold. |
| Origins.ReviewsTraced | chaincode/agrochain/internal/agrochain/analysis.go:168-231 | NOT_REQUIRED and OPEN go with no stored action, IN_REVIEW with exactly one OpenReview under the receipt of version 9, RESOLVED with that and exactly one ResolveReview under the receipt of version 10, each with its transaction. |
| Guarantees.EventTells | chaincode/agrochain/internal/agrochain/domain.go:285 | The event of an accepted command repeats its receipt, with the touched ids in ascending order, and tells the states before and after. |
| Guarantees.WellPosedIff | chaincode/agrochain/internal/agrochain/validation.go:78-91 | The checks made without the ledger pass exactly for the table of callers and roles, proper ids and payload, a version in range and a proper transaction; a region is a number from 1 to 81. |
| Liveness.NeverStuck | docs/STATE_MACHINE.md:15-28 | On every reachable ledger, for every stored batch that is not done, a command, inputs and evidence are exhibited that are accepted; asked for are only unused ids, fresh salts, admitted texts and institutions that can sign. |
| Liveness.CanCreate | chaincode/agrochain/internal/agrochain/domain.go:78-90 | A configured ledger accepts a creation for every unused batch id, given unused ids and an institution that can sign. |
| Liveness.CanFinish | docs/STATE_MACHINE.md:5-56 | Every reachable batch can be led to its end by the exhibited commands, in at most as many as its version leaves below eleven. |
| Progress.SuppliedAccepted | chaincode/agrochain/internal/agrochain/domain.go:177-258 | On every reachable ledger a batch that is not done has a next command, accepted whenever it is well posed and properly supplied. |
| Progress.DoneIsFinal | docs/STATE_MACHINE.md:47-55 | A batch that is evaluated and not, or no longer, under review accepts no command at all. |
| Progress.HonestIff | chaincode/agrochain/internal/agrochain/private.go:121-164 | The document loop, which only deletes from a map, accepts exactly when the documents are in bijection with the required types, verified, bound, fresh, distinct, and fit the batch. |
| Progress.CreateIff | chaincode/agrochain/internal/agrochain/domain.go:78-90 | A creation is accepted exactly with honest evidence for an unused batch id at expected version 0. |
| Progress.OfferPickupIff | chaincode/agrochain/internal/agrochain/domain.go:91-145 | A pickup is offered exactly from CREATED, with honest evidence, an unused transfer id and an invoice that pays exactly for the batch. |
| Progress.AcceptIff | chaincode/agrochain/internal/agrochain/domain.go:146-192 | A transfer is accepted exactly by naming the pending transfer with the batch's quantity, a delivery only with its freight; all other checks are unreachable. |
| Progress.OfferDeliveryIff | chaincode/agrochain/internal/agrochain/domain.go:91-145 | A delivery is offered exactly from IN_TRANSPORT with the batch's quantity and an unused transfer id; the missing-manifest check is unreachable. |
| Progress.FreightIff | chaincode/agrochain/internal/agrochain/domain.go:193-219 | Freight is recorded exactly once, in transport or while a delivery waits, from an honest invoice for the batch's grams. |
| Progress.ReportIff | chaincode/agrochain/internal/agrochain/domain.go:220-259 | A price is reported exactly for a received batch, under unused ids, the current policy and an admitted price; the stored records pass every check. |
| Progress.EvaluateIff | chaincode/agrochain/internal/agrochain/analysis.go:96-151 | An evaluation is accepted exactly with the one recomputed score; policy, money, availability and record-binding checks cannot fire on a reachable ledger. |
| Progress.EvaluationGuarded | chaincode/agrochain/internal/agrochain/analysis.go:121-151 | On any ledger, reachable or not, an evaluation is let through only on records that are about the batch, its grams and each other, under the current policy, in lira without tax, and with the score they give. |
| Progress.ReportGuarded | chaincode/agrochain/internal/agrochain/private.go:273-300 | On any ledger a report is let through only for the batch's own cost and in the currency and tax basis of its purchase and its cost. |
| Progress.ArmGuarded | chaincode/agrochain/internal/agrochain/domain.go:91-258 | On any ledger, reachable or not, a handoff, a freight cost and a report are accepted only from the custodian, for the pending transfer of the whole batch, and with a purchase that pays exactly. |
| Progress.ReviewIff | chaincode/agrochain/internal/agrochain/analysis.go:168-226 | A review step is accepted exactly in its review state on the batch's own anomaly, with well-formed inputs and fresh salts. |
| Progress.FieldsIff | chaincode/agrochain/internal/agrochain/private.go:121-138 | Exactly the transient fields of the command are taken, no more and no fewer. |
| Refusals.RunRefused | chaincode/agrochain/internal/agrochain/domain.go:18-262 | After every run, each refusal carries the error code of its own reason: every code is a condition on the ledger found, the command and its inputs, spelled out command by command; all other checks of the code are unreachable. |
| Refusals.AdmissionRefused | chaincode/agrochain/internal/agrochain/domain.go:18-66 | Each refusal before the evidence has the code of its own reason, and a code that these checks do not name is never given. |
| Refusals.LoopRefused | chaincode/agrochain/internal/agrochain/private.go:139-271 | A refusal by the document loop names what one of the submitted documents lacks: form, trust, signature, commitment, binding, freshness or the claim itself. |
| Reconciler.ProposalStands | backend/src/main/java/org/agrochain/Analysis.java:19-29 | Once a batch is reported, the backend's proposal has one value, whenever each of its four reads is made and whatever later ledger it meets: the score that ledger demands, or a policy mismatch exactly when the configured percentage is not the ledger's. |
| Reconciler.DerivedCanonical | backend/src/main/java/org/agrochain/Analysis.java:35-39 | The three reads may straddle anything: the derived command has version seven, and so the batch's one operation and anomaly id, exactly when the batch was read reported and unevaluated. |
| Reconciler.StraddledReads | backend/src/main/java/org/agrochain/Analysis.java:35-37 | The reads can miss: made on the two sides of any accepted evaluation they derive a command, and so an operation id, for version eight. |
| Reconciler.OthersRefused | chaincode/agrochain/internal/agrochain/domain.go:48-50 | A command derived for any other version is refused by every later ledger, whoever submits it with whatever inputs. |
| Reconciler.OneCommand | backend/src/main/java/org/agrochain/Analysis.java:37-39 | All commands that passes at any times derive for one batch, and that can be accepted, are one command. |
| Reconciler.EvaluatedOnce | chaincode/agrochain/internal/agrochain/analysis.go:106-120 | After one accepted evaluation every other evaluation of the batch is refused for ever. |
| Reconciler.ReconciledAccepted | backend/src/main/java/org/agrochain/Analysis.java:19-40 | The derived command with the backend's proposal is accepted by a later ledger exactly as long as the batch is not evaluated, given a proper digest, the oracle as caller, unused ids and the configured percentage of the ledger; its report and batch ids are the ledger's own and need no hypothesis. |
| Reconciler.RecordsStand | chaincode/agrochain/internal/agrochain/analysis.go:121-140 | From its report on, a batch stays reported, and purchase, freight, report and configuration stay readable and as they are. |
| Reconciler.ComputeProposal | backend/src/main/java/org/agrochain/Analysis.java:19-29 | A score is proposed exactly when the configured percentage is the ledger's threshold over 100, the report has the ledger's policy, the three records agree in currency, tax basis and grams and no cost is negative, and it is the ledger's price rule on them. |
| Reconciler.ThresholdConfigured | backend/src/main/java/org/agrochain/Analysis.java:15-18 | The threshold is n exactly when n is a whole number from 0 to 100000 and the configured percentage is n / 100; anything else is a policy mismatch. |
| Reconciler.Worker.Reconcile | backend/src/main/java/org/agrochain/Analysis.java:30-43 | One pass, with the ledger moving between any two queries and a possible crash in every submission: every new journal row is the oracle's, for a command derived from three successive reads; every derived command within the size limit has its row; other rows are untouched; with an answering peer every batch reported before is evaluated by the end or was asked for. |
| Reconciler.DerivedValid | backend/src/main/java/org/agrochain/Workflow.java:14-50 | A derived request passes all of the backend's request checks. |
| Reconciler.Worker.Derive | backend/src/main/java/org/agrochain/Analysis.java:34-39 | The command of one batch is derived faithfully from three reads, and with an answering peer a reported batch is skipped only when it is evaluated. |
| Reconciler.Worker.Propose | backend/src/main/java/org/agrochain/Analysis.java:19-29 | Four queries on a moving ledger give, for a batch reported before, the proposal the ledger now demands; with an answering peer there is one. |
| Reconciler.OneRequest | backend/src/main/java/org/agrochain/Analysis.java:37-40 | In all passes together one batch has one derived request that can be accepted, so one row of the journal. |
| Reconciler.StrayRefused | backend/src/main/java/org/agrochain/Analysis.java:34-40 | A request derived across a concurrent evaluation is refused by the ledger for ever. |
| Reconciler.LotReported | backend/src/main/java/org/agrochain/Analysis.java:32 | A batch whose projected view has a lot is reported on the ledger. |
| Price.ScoreMeaning | chaincode/agrochain/internal/agrochain/analysis.go:58-76 | The 64-bit score is the mathematical floor, and the verdict the exact comparison of products. |
| Price.ImplementationsAgree | backend/src/main/java/org/agrochain/Analysis.java:9-14 | The chaincode's corrected truncating division and the backend's floorDiv give the same result on every input, refusals included. |
| Price.ExactRatio | chaincode/agrochain/internal/agrochain/analysis.go:56-57 | Review is required exactly when the real ratio exceeds the real threshold. |
| Price.DisplayedBoundary | chaincode/agrochain/internal/agrochain/analysis.go:56-75 | An increase above the threshold implies a signal, a signal implies at least the threshold, and equality only with a remainder. |
| Price.ScoreMonotone | chaincode/agrochain/internal/agrochain/analysis.go:58-76 | The score is monotone in the retail price and antitone in the purchase price. |
| Price.ProductsFit | chaincode/agrochain/internal/agrochain/analysis.go:56-71 | On the admitted bounds no product leaves 64 bits. |
| Evidence.GatherFacts | chaincode/agrochain/internal/agrochain/private.go:121-164 | Accepted documents are in bijection with the required types, checked, fresh and mutually distinct; the public writes are exactly their replay keys. |
| Evidence.VerifiedIff | chaincode/agrochain/internal/agrochain/evidence.go:207-252 | A document passes exactly when its header is proper, the ledger holds an enabled key of its issuer for its system and type, the signature is by that key, the salt is proper and the commitment opens to the body. |
| Evidence.VerifiedBlames | chaincode/agrochain/internal/agrochain/evidence.go:207-252 | Each refusal of a document carries the code of what it lacks, in the order of the checks. |
| Evidence.DocumentsTaken | chaincode/agrochain/internal/agrochain/private.go:139-164 | After n turns of the loop the taken documents are checked and distinct, and the types still required are those not taken. |
| Evidence.DocumentsUsed | chaincode/agrochain/internal/agrochain/private.go:165-271 | Each taken document leaves exactly its facts and its private records, and later documents leave them alone. |
| Preserve.LifecycleKept | chaincode/agrochain/internal/agrochain/domain.go:68-262 | From a well-formed batch every accepted command leaves a well-formed one. |
| Preserve.RecordsKept | chaincode/agrochain/internal/agrochain/domain.go:267-272 | Batch and evidence slots stay paired and well formed. |
| Preserve.IndexedKept | chaincode/agrochain/internal/agrochain/domain.go:273-284 | Owner and state entries stay exact when an entry is replaced. |
| Preserve.HistoryKept | chaincode/agrochain/internal/agrochain/domain.go:266-278 | Receipts stay complete and doubly stored. |
| Preserve.TransfersKept | chaincode/agrochain/internal/agrochain/domain.go:91-192 | Transfers, pending entries and their receipts stay consistent through offers, acceptances and all other commands. |
| Preserve.ReferencesKept | chaincode/agrochain/internal/agrochain/domain.go:214-257 | Lot, cost and report references stay inverse to the batches. |
| Preserve.EvaluationsKept | chaincode/agrochain/internal/agrochain/analysis.go:106-167 | Each batch keeps at most one evaluation, found from both sides. |
| Provenance.ConsumedKept | chaincode/agrochain/internal/agrochain/private.go:151-164 | Stored envelopes stay injective and keep their committed receipt. |
| Provenance.SlotsKept | chaincode/agrochain/internal/agrochain/domain.go:310-326 | Filled slots name stored documents; a public reference exists exactly for stored documents other than freight invoices. |
| Provenance.PermanentKept | chaincode/agrochain/internal/agrochain/domain.go:286-303 | References, replay keys and evaluations are written once and never changed or removed. |
| Provenance.SealedKept | chaincode/agrochain/internal/agrochain/domain.go:289-298 | No command overwrites a private record except the anomaly record under review. |
| Provenance.GuardedKept | chaincode/agrochain/internal/agrochain/domain.go:289-303 | Every private record keeps its public counterpart. |
| Provenance.OpenedKept | chaincode/agrochain/internal/agrochain/private.go:190-308 | The purchase, freight and report records that the slots name stay in place and exact. |
| Provenance.PurchaseExact | chaincode/agrochain/internal/agrochain/domain.go:306-309 | The 64-bit purchase comparison is the exact one. |
| Provenance.AnalysedKept | chaincode/agrochain/internal/agrochain/analysis.go:88-232 | Anomaly records stay derived and their review state keeps counting the stored actions. |
| Provenance.VersionedKept | chaincode/agrochain/internal/agrochain/domain.go:263 | Version equals rank of the state, plus freight, plus evaluation, plus reviews, after every command. |
| Provenance.ConfiguredKept | chaincode/agrochain/internal/agrochain/evidence.go:127-137 | The configuration is never touched by a command. |
| Guarantees.StepExtends | chaincode/agrochain/internal/agrochain/domain.go:18-304 | One command, accepted or refused, only adds to what a ledger holds for good. |
| Guarantees.BootstrapFresh | chaincode/agrochain/internal/agrochain/evidence.go:142-196 | The bootstrap writes no key that is already there. |
| Engine.BaseEffectHolds | chaincode/agrochain/internal/agrochain/domain.go:267-284 | What an accepted command changes among batches, slots, receipts, history and indexes, and that it changes nothing else there. |
| Engine.RestEffectHolds | chaincode/agrochain/internal/agrochain/domain.go:286-303 | What an accepted command changes among all other keys, and that it changes nothing else. |
| Ordering.SortedUniqueFacts | chaincode/agrochain/internal/agrochain/validation.go:391-400 | The touched ids are strictly ascending and exactly those that were touched. |
| Ordering.UniqueIds | chaincode/agrochain/internal/agrochain/validation.go:391-400 | Sorting and dropping repeats in one loop gives exactly that sequence. |
| Chaincode.Contract.Apply | chaincode/agrochain/internal/agrochain/domain.go:18-304 | Accepted: the receipt, all writes and one event of the specification, and the recorded reads are the read set. Refused: public state, private state and events are unchanged. |
| Chaincode.Contract.Admit | chaincode/agrochain/internal/agrochain/domain.go:19-57 | The checks before the evidence, in order, with the keys they read. |
| Chaincode.Contract.Decide | chaincode/agrochain/internal/agrochain/domain.go:68-262 | The switch over the ten commands decides as specified and reads only its own keys. |
| Chaincode.Contract.Create | chaincode/agrochain/internal/agrochain/domain.go:78-90 | The creation arm. |
| Chaincode.Contract.Offer | chaincode/agrochain/internal/agrochain/domain.go:91-145 | The offer arm, with pickup documents consumed one after the other. |
| Chaincode.Contract.Accept | chaincode/agrochain/internal/agrochain/domain.go:146-192 | The acceptance arm: transfer closed, pending entry removed, custody and ownership moved. |
| Chaincode.Contract.RecordFreight | chaincode/agrochain/internal/agrochain/domain.go:193-219 | The freight arm. |
| Chaincode.Contract.Report | chaincode/agrochain/internal/agrochain/domain.go:220-259 | The report arm. |
| Chaincode.Contract.ConsumeDocument | chaincode/agrochain/internal/agrochain/domain.go:310-326 | A document reference is taken only if it is well formed and unused in the plan and on the ledger. |
| Chaincode.Contract.PlanRecords | chaincode/agrochain/internal/agrochain/domain.go:263-284 | The common records and the dropped index entries, put into the plan in order. |
| Chaincode.Contract.Bootstrap | chaincode/agrochain/internal/agrochain/evidence.go:138-206 | Accepted: exactly the configuration keys are written, without an event. Refused: nothing changes. |
| Chaincode.Contract.CheckSources | chaincode/agrochain/internal/agrochain/evidence.go:152-181 | The loop with its last name and taken keys admits exactly four enabled sources, one per system, in order, under distinct keys. |
| Chaincode.Provider.Prepare | chaincode/agrochain/internal/agrochain/private.go:92-310 | The private inputs are verified as specified, reading only the keys of the read set. |
| Chaincode.Provider.DocumentLoop | chaincode/agrochain/internal/agrochain/private.go:139-272 | The loop over documents equals its specification on every sequence, also when it stops early. |
| Chaincode.Provider.CheckDocuments | chaincode/agrochain/internal/agrochain/private.go:101-138 | Field count, field names, document order and document number. |
| Chaincode.Provider.Reserve | chaincode/agrochain/internal/agrochain/private.go:151-164 | The three replay keys are claimed in order, and the first then holds the envelope. |
| Chaincode.Provider.Verify | chaincode/agrochain/internal/agrochain/evidence.go:207-252 | Header, trust key, signature, salt and commitment of one document are checked in this order; `Evidence.VerifiedIff` says what passes. |
| Chaincode.Provider.Score | chaincode/agrochain/internal/agrochain/analysis.go:96-167 | The evaluation of stored records against the proposal. |
| Chaincode.Provider.ReviewStep | chaincode/agrochain/internal/agrochain/analysis.go:168-231 | One review step: new state, new salt, one action record of the submitted input; `Recorded.AcceptedLeaves` says what is stored. |
| Chaincode.Provider.CheckReport | chaincode/agrochain/internal/agrochain/private.go:273-308 | The retail report bound to the stored purchase and cost; `Recorded.AcceptedLeaves` says that it is stored as submitted. |
| Chaincode.Store.WriteAll | chaincode/agrochain/internal/agrochain/ledger.go:71-85 | Writing and removing planned keys one at a time, in any order, is one simultaneous update of the map. |
| Chaincode.Store.Flush | chaincode/agrochain/internal/agrochain/ledger.go:66-90 | All planned writes and exactly one event. |
| Chaincode.Store.WritePrivate | chaincode/agrochain/internal/agrochain/domain.go:289-299 | Writing the private records one at a time is one map update. |
| Chaincode.Store.CheckAbsent | chaincode/agrochain/internal/agrochain/ledger.go:42-51 | A taken key is refused with the given code, and the read is recorded. |
| Workflow.Workflow.Submit | backend/src/main/java/org/agrochain/Workflow.java:51-65 | An invalid request is refused with the code of its first failing check; a different request under the same id, or a failure that is final, is refused without any change; exactly the rest is tried, and refused then exactly when the row failed, with the row's own error. Every row that fails does so with a code the outside answered with, or because its operation id is taken. 200 and 201 are answered only for a committed row, 200 exactly for a known one, 202 only with a persisted transaction; with a truthful ledger a settled row is settled by the call. |
| Workflow.Workflow.Serve | backend/src/main/java/org/agrochain/Workflow.java:53-64 | Staging, reviving a retryable failure and one pass: what is tried, what is answered, with which error a try is refused, and that every promise of the journal holds after a crash at any point. |
| Workflow.ValidatedPosed | backend/src/main/java/org/agrochain/Workflow.java:14-50 | What the backend lets through from a configured caller passes the chaincode's own checks that do not look at the ledger, exactly but for a creation's product, grade, region and date. |
| Settlement.ScheduleNetOk | chaincode/agrochain/internal/agrochain/ledger.go:64-65 | What a schedule of endorsements and deliveries leaves is a network as the backend assumes it: one valid transaction per organization and operation id, its receipt stored. |
| Settlement.ScheduleNetGrows | chaincode/agrochain/internal/agrochain/ledger.go:64-65 | Along a schedule that network only grows: endorsements, statuses and receipts stay. |
| Settlement.EvaluationCommitsIff | chaincode/agrochain/internal/agrochain/analysis.go:106-151 | An endorsed evaluation commits exactly when at its turn its batch is not evaluated and its ids are unused, whatever else was committed since its endorsement. |
| Settlement.CommittedServed | backend/src/main/java/org/agrochain/Workflow.java:99-100 | A committed journal row is a committed transaction of the schedule, with its receipt. |
| Settlement.CommittedEvaluates | backend/src/main/java/org/agrochain/Analysis.java:30-43 | When the row of an evaluation is committed, its batch is evaluated on the ledger. |
| Settlement.FailedLost | backend/src/main/java/org/agrochain/Workflow.java:103-108 | When the row of an evaluation has failed with a transaction, the batch is evaluated or an id of the command is used. |
| Settlement.RowSettles | backend/src/main/java/org/agrochain/Workflow.java:81-85 | The transaction of a journal row, of whatever command, is settled once delivered, and valid exactly if the batch then had the version the request expects and every id found unused at its endorsement was still unused. |
| Settlement.DerivedSettles | backend/src/main/java/org/agrochain/Analysis.java:30-43 | With peer and network at two points of one schedule: the batch of a derived request is reported there, a committed row means it is evaluated, and a row failed with a transaction that it is evaluated or an id of the command is used. |
| Workflow.Workflow.Advance | backend/src/main/java/org/agrochain/Workflow.java:66-109 | One pass keeps the journal's promises at every crash point, touches only its row, leaves it final or with a persisted transaction, and with a truthful ledger settles a row whose transaction has settled. A row that fails carries the code the outside answered with last, or that its operation id is taken; one left open was told nothing that decides it; an outage never makes a failure final. |
| Workflow.Workflow.Recover | backend/src/main/java/org/agrochain/Workflow.java:110-112 | One completed recovery pass with a truthful ledger moves every unresolved row whose transaction had settled to the matching final state; every row that fails is explained by a code told during the pass. |
| Workflow.Workflow.Lookup | backend/src/main/java/org/agrochain/Workflow.java:72-79 | Only the receipt of the row's own transaction is adopted; any other receipt under the operation id is a conflict, and any error but not-found is thrown as it was told. |
| Workflow.Workflow.Resume | backend/src/main/java/org/agrochain/Workflow.java:81-85 | A persisted transaction takes its settled outcome, throws the code the ledger told for it, or goes on when the status is unknown. |
| Workflow.Workflow.Begin | backend/src/main/java/org/agrochain/Workflow.java:86-96 | Private inputs are persisted before the endorsement, which is made with exactly these, and the transaction before anything is sent; an error it ends with is the very code that the evidence service or the endorsement answered with last. |
| Workflow.FailureExplained | backend/src/main/java/org/agrochain/Workflow.java:103-108 | Failing a row with the code that ended its pass leaves it with its cause, and an outage never makes the failure final. |
| Journal.RetryableCodes | backend/src/main/java/org/agrochain/ApiError.java:12-24 | A client is asked to try again exactly after a code that ends in _UNAVAILABLE or says that the configuration is missing. |
| Workflow.ValidatedIff | backend/src/main/java/org/agrochain/Workflow.java:14-50 | A request passes exactly with its caller, identity, schema, scenario, payload, quantity, private input and size as spelled out. |
| Workflow.ValidatedBlames | backend/src/main/java/org/agrochain/Workflow.java:14-50 | A request that is refused at once carries the code of its own reason; no other code is given. |
| Workflow.Workflow.Dispatch | backend/src/main/java/org/agrochain/Workflow.java:97-102 | The row is marked, the persisted bytes are sent, only a known valid outcome commits the row, and an error is thrown as it was told. |
| Workflow.Workflow.Live | backend/src/main/java/org/agrochain/Workflow.java:51-112 | Every promise holds through any life: requests, recoveries, crashes and other clients in any order; a committed row, and a failure that a repeated request does not try again, is the same row at its end, and every row that failed meanwhile is explained. |
| Workflow.OneTransaction | backend/src/main/java/org/agrochain/Workflow.java:95-99 | For one operation at most one transaction is ever sent, always with the same bytes, and it is the persisted one. |
| Workflow.CommittedMeans | backend/src/main/java/org/agrochain/Store.java:61-69 | A committed row holds the ledger's own receipt of its persisted transaction, for its batch and command, and its evidence is promoted with it. |
| Workflow.OneRoleWins | backend/src/main/java/org/agrochain/Workflow.java:73-77 | Of two roles of one organization using one operation id, at most one row commits. |
| Workflow.NeverContradicted | backend/src/main/java/org/agrochain/Workflow.java:103-108 | A failed row with a transaction is never contradicted: the transaction is not valid and never becomes valid. |
| Workflow.CommitStep | backend/src/main/java/org/agrochain/Store.java:61-69 | Committing a row whose transaction is valid keeps every promise of the journal and of the archive. |
| Workflow.FailedStep | backend/src/main/java/org/agrochain/Workflow.java:103-108 | A row is failed only when its transaction, if any, is doomed and the code is final. |
| Workflow.RetryStep | backend/src/main/java/org/agrochain/Workflow.java:55-59 | Only a failed row without a transaction is revived. |
| Workflow.ReceiptIsOurs | backend/src/main/java/org/agrochain/Workflow.java:73-78 | A receipt with the row's transaction id is the row's own; with any other id it dooms the row's transaction. |
| Workflow.TransactionStep | backend/src/main/java/org/agrochain/Workflow.java:94-96 | A fresh transaction id is no other row's. |
| Workflow.ArchiveStep | backend/src/main/java/org/agrochain/Store.java:51-60 | Archiving for an uncommitted operation keeps promotion exact. |
| Network.DoomedForever | backend/src/main/java/org/agrochain/Ledger.java:14-15 | A transaction that is settled invalid, or whose operation key holds another receipt, never becomes valid. |
| Network.SettledGrows | backend/src/main/java/org/agrochain/FabricLedger.java:54-75 | A status is written once, and a valid one only while the operation key is unused. |
| Network.Network.Submit | backend/src/main/java/org/agrochain/FabricLedger.java:54-61 | Sent bytes may be lost, delivered or delivered late, and the outcome may stay unknown. |
| Network.Network.Reconcile | backend/src/main/java/org/agrochain/FabricLedger.java:62-75 | A known status is the settled one; none is never a failure. |
| Network.Network.GetOperation | chaincode/agrochain/internal/agrochain/queries.go:69-81 | The stored receipt, not found, or an outage. |
| Network.Network.Outcome | backend/src/main/java/org/agrochain/FabricLedger.java:57-59 | A settled transaction answers with its receipt or one of the two invalidity codes. |
| Journal.Store.Stage | backend/src/main/java/org/agrochain/Store.java:44-49 | A repeated request finds its row, a new one inserts a pending row, a different one is refused. |
| Journal.Store.Commit | backend/src/main/java/org/agrochain/Store.java:61-69 | Row and evidence change in one atomic step. |
| Journal.Store.Archive | backend/src/main/java/org/agrochain/Store.java:51-60 | An archived document is kept; one already there is not replaced. |
| Projection.RunAgrees | backend/src/main/java/org/agrochain/Projection.java:16-35 | The fold of all committed events agrees with the ledger batch by batch: state, version, transaction, lot, sources and the at most three milestones, each repeating a stored receipt. |
| Projection.AgreeStep | backend/src/main/java/org/agrochain/Projection.java:16-35 | One command's event, applied to agreeing views, gives agreeing views. |
| Projection.FoldStable | backend/src/main/java/org/agrochain/Projection.java:16-25 | The fold does not depend on when the late batch read happens. |
| Projection.FoldPrefix | backend/src/main/java/org/agrochain/Projection.java:12-16 | Later events do not change the fold of earlier ones. |
| Projection.ReportNamesLot | backend/src/main/java/org/agrochain/Projection.java:34 | Among the ids of a report event exactly the lot starts with LOT-. |
| Projection.Projection.Accept | backend/src/main/java/org/agrochain/Projection.java:12-36 | Each call folds in exactly the next unseen event or changes nothing, whatever aborts it, and undisturbed it always does; what is stored stays the fold of a prefix of the event sequence. |
| Projection.Projection.Session | backend/src/main/java/org/agrochain/Application.java:31-36 | A connection restarted at the inclusive checkpoint block leaves no gap and applies nothing twice, and, undisturbed, processes everything that was there when it started. |
| Projection.Projection.Work | backend/src/main/java/org/agrochain/Application.java:31-36 | The stored tables are the fold of a prefix after any number of sessions, crashes and new events. |
| Projection.Projection.Project | backend/src/main/java/org/agrochain/Store.java:72-80 | Both tables change in one step, unless another batch holds the lot. |
| Projection.Projection.Checkpoint | backend/src/main/java/org/agrochain/Store.java:71 | The greatest block of a processed event, or 0. |
| Projection.Projection.Lot | backend/src/main/java/org/agrochain/Projection.java:37 | A lot finds its batch's view, and no two views share a lot. |
| Projection.NoConflict | backend/src/main/java/org/agrochain/Store.java:72-80 | The next view never takes a lot that another view holds, so the unique column never aborts an update. |
| Projection.PrefixAgrees | backend/src/main/java/org/agrochain/Projection.java:12-36 | Every folded prefix agrees with an earlier ledger of the same run. |
| Projection.ProjectionAgrees | backend/src/main/java/org/agrochain/Projection.java:12-36 | Caught up, the stored views agree with the ledger as it is. |
| Projection.LotsDiffer | backend/src/main/java/org/agrochain/Store.java:23 | Views that agree with a ledger never share a lot. |
| Projection.CheckpointReaches | backend/src/main/java/org/agrochain/Store.java:70-71 | No unprocessed event lies before the checkpoint's block. |
| Queries.PaddedOrder | chaincode/agrochain/internal/agrochain/domain.go:272 | Padded to one width, byte order is numeric order, and no two numbers share a text. |
| Queries.HistoryInOrder | chaincode/agrochain/internal/agrochain/queries.go:82-125 | The history range of a batch is its versions 1 to v in numeric order. |
| Queries.EntryRecord | chaincode/agrochain/internal/agrochain/queries.go:118-140 | No index entry dangles on a reachable ledger, and each leads to the record its index promises. |
| Queries.Query | chaincode/agrochain/internal/agrochain/queries.go:82-147 | On a reachable ledger a query is refused for its size, then its filter with the code of its index, then its bookmark, and otherwise gives a page of the index's range, never an internal error. |
| Queries.List | chaincode/agrochain/internal/agrochain/contract.go:167-184 | The range of an index on any ledger, as the store iterates it, is exactly its entries in ascending byte order. |
| Queries.PageRecords | chaincode/agrochain/internal/agrochain/queries.go:113-147 | The page's entries are turned into their records one by one, and a dangling entry is an internal error. |
| Queries.Page | chaincode/agrochain/internal/agrochain/contract.go:152-185 | At most the page size from the bookmark on, and the next entry as the new bookmark. |
| Queries.Collect | chaincode/agrochain/internal/agrochain/contract.go:152-185 | Pages of any admitted size, read while the ledger moves on between them: entries come in order and each once, each with its record at one of the reads, and at the end none is missed that was there from some read on and not before its bookmark. |
| Queries.HistoryPaged | chaincode/agrochain/internal/agrochain/queries.go:82-147 | A history read to its end over a moving ledger is receipts 1 to v as the last read's ledger holds them. |
| Queries.CollectHistory | chaincode/agrochain/internal/agrochain/queries.go:82-147 | Reading a batch's history page by page ends, with receipts 1 to v in order and each once, v being the version at the last read. |
| Queries.FromEntry | chaincode/agrochain/internal/agrochain/contract.go:156-166 | A bookmark leads back to the entry it was made of. |
| Queries.FiltersNamed | chaincode/agrochain/internal/agrochain/queries.go:82-112 | An owner or state filter is read as exactly the organization or state that is written so. |
| CanonicalJson.OneText | backend/src/main/java/org/agrochain/Json.java:32-46 | Two values without repeated names have one canonical text exactly when they are equal up to the order of members at every depth. |
| CanonicalJson.ReadCanonical | chaincode/agrochain/internal/agrochain/validation.go:92-189 | The chaincode's parser turns the text of an admitted value, its members in any order at any depth, into the value in canonical form. |
| CanonicalJson.SameReading | chaincode/agrochain/internal/agrochain/validation.go:92-189 | The texts of two admitted values, members in any order, are read as one value exactly when the values differ in member order alone. |
| CanonicalJson.OneSorted | backend/src/main/java/org/agrochain/Json.java:34-38 | Of all values equal up to member order exactly one is sorted at every depth: the canonical form. |
| CanonicalJson.RoundTrip | chaincode/agrochain/internal/agrochain/validation.go:92-189 | Parsing the canonical text of any admitted value within the size limit gives back the value. |
| CanonicalJson.CanonicalAlike | backend/src/main/java/org/agrochain/Json.java:34-38 | Arranging members at every depth gives the same value exactly for values equal up to member order. |
| CanonicalJson.PrintInjective | backend/src/main/java/org/agrochain/Json.java:32-46 | No two values print alike. |
| CanonicalJson.Encode | backend/src/main/java/org/agrochain/Json.java:32-46 | The backend's recursive printer with its sorted table and loops gives the canonical text, and refuses exactly what cannot be encoded. |
| CanonicalJson.CanonicalOnce | chaincode/agrochain/internal/agrochain/validation.go:372-390 | Whatever form an accepted document comes in, its canonical text is no longer and is read back as the same value. |
| CanonicalJson.ParseAdmits | chaincode/agrochain/internal/agrochain/validation.go:107-189 | What the parser accepts is within its limits, members in order and without repeats at every depth. |
| CanonicalJson.TextSpelled | chaincode/agrochain/internal/agrochain/validation.go:92-106 | A text is read as its characters however each is written: plain, by one of the eight short escapes, or by four hexadecimal digits. |
| CanonicalJson.TextWritten | chaincode/agrochain/internal/agrochain/validation.go:92-106 | Whatever is read as a text was written so. |
| CanonicalJson.SpaceBefore | chaincode/agrochain/internal/agrochain/validation.go:92-106 | White space before a value or a name changes nothing. |
| CanonicalJson.SpaceAround | chaincode/agrochain/internal/agrochain/validation.go:92-106 | A document may be set in white space. |
| Json.NumeralsExact | chaincode/agrochain/internal/agrochain/validation.go:171-178 | The accepted numerals are exactly the printed 64-bit integers. |
| Json.ReadValue | chaincode/agrochain/internal/agrochain/validation.go:107-189 | The reader with its loops over items and members equals the grammar. |
| CanonicalJson.FramedInjective | chaincode/agrochain/internal/agrochain/evidence.go:105-126 | Domain, salt, length and body are framed without ambiguity. |
| CanonicalJson.CommitmentBinds | backend/src/main/java/org/agrochain/Crypto.java:20-24 | With a hash that never collides, commitments are equal exactly for equal salts and values equal up to member order. |

## Left out

- Decoding of requests and stored records: payloads, transient fields and ledger values are typed data; a refused decoding is a `Malformed` payload or a `BadField`, and a stored value of the wrong kind is an internal error. Schema version strings are part of that decoding.
- Calendar syntax, explanation text, signatures and commitments: functions in `Env`, the same for every peer. A base64 text that does not decode is an invalid signature.
- Byte layout of composite keys: a key is a kind and its attributes.
- Created-transaction fields of stored sources and policies, and the fixed literals of stored records.
- Failing reads and writes of the ledger stub, and failing disks: only crashes between atomic steps are modelled.
- Private collections: one map with typed keys; their membership, access tables and queries are not modelled, nor is the separate hash that a peer without the collection keeps.
- Repeated entries in a command's list of private writes: the list is a map, since no command writes one key twice.
- Endorsement policies, ordering, block assembly and peer identity: a schedule delivers one transaction at a time; invalid transactions leave the ledger as it was.
- Network.Network.Endorse: endorsement may fail with any code at any time, so nothing is promised about when it succeeds.
- Workflow.Workflow.PrepareEvidence: which documents the institutional adapters return is open; only archiving and failing are modelled, and attachments are not.
- Workflow.Validate: field names and types of a request are typed data; the time of a retail report and a creation's text fields are not looked at, as in the code; the size of the request's text is given with it.
- Reconciler.Worker.Reconcile: inside a pass the peer and the network move on independently, a superset of what one ledger allows; `Settlement.DerivedSettles` says what the rows mean when both are of one schedule. The order of rows and the digest behind the ids are open.
- Settlement.NetOf: every endorsed transaction of the first k turns counts as sent, and those of the first n as delivered; one that is never delivered is one whose turn is not looked at.
- The Java parser and its limits; `Json` models the chaincode's, `CanonicalJson.Encode` the Java printer. Texts outside printable ASCII, including longer explanations outside it, are refused by the model.
- The base64 form of page bookmarks: a bookmark is garbled, or its scope and the attribute text of the next entry.
- HTTP routing, tokens, pages, scripts, packaging and the simulators.
