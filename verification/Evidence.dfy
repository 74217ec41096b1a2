/** Verification of the private inputs of a command, before the command itself is decided. */
module Evidence {
  import opened Types
  import opened Price

  /** What the provider hands to the engine: facts, public writes and private writes. */
  datatype Verified = Verified(pub: Plan, priv: map<PrivKey, PrivValue>, cks: Id, purchase: Id, hks: Id, manifest: Id,
                               quantity: int, purchasePrice: int, purchaseTotal: int, freightTotal: int,
                               retailPrice: int, currency: Currency, tax: Tax, policy: Id)

  const NOTHING := Verified(map[], map[], NO_ID, NO_ID, NO_ID, NO_ID, 0, 0, 0, 0, 0,
                            OtherCurrency(""), OtherTax(""), NO_ID)

  // ------------------------------------------------------------- ledger reads

  function Absent(s: State, k: Key, code: ErrorCode): Guard {
    if k in s.pub then Fail(code) else Pass
  }

  function LoadConfig(s: State): Result<Configuration> {
    if ConfigKey !in s.pub then Err(ConfigurationRequired)
    else match s.pub[ConfigKey]
      case ConfigValue(c) => Ok(c)
      case _ => Err(InternalError)
  }

  function LoadSource(s: State, issuer: string, key: string): Result<SourceKey> {
    if SourceKeyKey(issuer, key) !in s.pub then Err(UntrustedSourceKey)
    else match s.pub[SourceKeyKey(issuer, key)]
      case SourceKeyValue(k) => Ok(k)
      case _ => Err(InternalError)
  }

  function LoadPurchase(s: State, document: Id): Result<Body> {
    if OpeningKey(TradeCollection, document) !in s.priv then Err(PrivateDataUnavailable)
    else match s.priv[OpeningKey(TradeCollection, document)]
      case OpeningValue(body, _) => if body.PurchaseBody? then Ok(body) else Err(InvalidSchema)
      case _ => Err(InternalError)
  }

  function LoadCost(s: State, cost: Id): Result<CostRecord> {
    if CostKey(cost) !in s.priv then Err(PrivateDataUnavailable)
    else match s.priv[CostKey(cost)]
      case CostValue(r) => Ok(r)
      case _ => Err(InternalError)
  }

  function LoadReport(s: State, report: Id): Result<RetailRecord> {
    if ReportKey(report) !in s.priv then Err(PrivateDataUnavailable)
    else match s.priv[ReportKey(report)]
      case ReportValue(r) => Ok(r)
      case _ => Err(InternalError)
  }

  function LoadAnomaly(s: State, anomaly: Id): Result<AnomalyRecord> {
    if AnomalyKey(anomaly) !in s.priv then Err(PrivateDataUnavailable)
    else match s.priv[AnomalyKey(anomaly)]
      case AnomalyValue(r) => Ok(r)
      case _ => Err(InternalError)
  }

  // --------------------------------------------------------- transient fields

  function Get(t: Transient, name: FieldName): Field {
    if name in t then t[name] else BadField
  }

  function ReadSalt(t: Transient, name: FieldName): Result<string> {
    match Get(t, name)
    case Salt(text) => if HexId(text) then Ok(text) else Err(InvalidSchema)
    case _ => Err(InvalidSchema)
  }

  /** Bundles must come in strictly increasing order of document id, starting after the empty one. */
  predicate Increasing(docs: seq<Bundle>) {
    && (forall i :: 0 <= i < |docs| ==> docs[i].envelope.header.document != NO_ID)
    && forall i, j :: 0 <= i < j < |docs| ==>
         Before(docs[i].envelope.header.document.text, docs[j].envelope.header.document.text)
  }

  function DecodeBundles(f: Field): Result<seq<Bundle>> {
    match f
    case Bundles(docs) => if Increasing(docs) then Ok(docs) else Err(InvalidSchema)
    case _ => Err(InvalidSchema)
  }

  // ------------------------------------------------------------ one document

  /** `[A-Z0-9_]{1,64}` */
  predicate Reference(s: string) {
    && 1 <= |s| <= 64
    && forall i :: 0 <= i < |s| ==> 'A' <= s[i] <= 'Z' || '0' <= s[i] <= '9' || s[i] == '_'
  }

  predicate WellFormed(env: Env, h: Header) {
    && h.profile
    && ValidId(h.document, "DOC") && ValidId(h.sourceDocument, "DOC")
    && ValidId(h.batch, "BAT") && ValidId(h.op, "OP")
    && Reference(h.issuer) && Reference(h.key)
    && HexId(h.nonce) && HexId(h.commitment) && env.dateTime(h.issuedAt)
  }

  /** Trusted key, valid signature, matching commitment. */
  function VerifyBundle(env: Env, s: State, d: Bundle): Result<()> {
    var h := d.envelope.header;
    :- Need(WellFormed(env, h), InvalidSchema);
    var k :- LoadSource(s, h.issuer, h.key);
    :- Need(k.enabled && k.system == h.system, UntrustedSourceKey);
    :- Need(h.docType in k.docTypes, UntrustedSourceKey);
    :- Need(env.signed(k.publicKey, h, d.envelope.signature), InvalidSourceSignature);
    :- Need(HexId(d.salt), InvalidSchema);
    :- Need(env.commit(d.body, d.salt) == h.commitment, DocumentHashMismatch);
    Ok(())
  }

  predicate MediaOk(digest: string, media: string) {
    HexId(digest) && media in {"application/xml", "application/json", "application/pdf"}
  }

  /** Reserve a replay-protection key, both in the pending writes and on the ledger. */
  function Claim(s: State, pending: Plan, k: Key, use: Value, code: ErrorCode): Result<Plan> {
    if k in pending || k in s.pub then Err(code) else Ok(pending[k := Some(use)])
  }

  function ClaimAll(s: State, pending: Plan, e: Envelope, tx: string): Result<Plan> {
    var h := e.header;
    var use := UseValue(h.batch, h.op, tx);
    var p1 :- Claim(s, pending, DocumentKey(h.document), use, DocumentAlreadyUsed);
    var p2 :- Claim(s, p1, SourceUseKey(h.issuer, h.sourceDocument), use, DocumentAlreadyUsed);
    var p3 :- Claim(s, p2, NonceKey(h.issuer, h.nonce), use, SourceNonceAlreadyUsed);
    Ok(p3[DocumentKey(h.document) := Some(EnvelopeValue(e))])
  }

  /** Compare a verified body with the batch and the command; keep what the engine needs. */
  function TakeBody(env: Env, c: Command, x: Execution, t: Transient, b: Batch, v: Verified,
                    d: Bundle): Result<Verified> {
    var h := d.envelope.header;
    var open := OpeningValue(d.body, d.salt);
    match (h.docType, d.body)
    case (ProducerEligibility, EligibilityBody(producer, product, grade, quantity, region, harvest, eligible)) =>
      :- Need(eligible, SourceClaimRejected);
      :- Need(c.payload.CreateInput?, InvalidSchema);
      var p := c.payload;
      :- Need(producer == x.actor && product == p.product && grade == p.grade && quantity == p.quantity
              && region == p.region && harvest == p.harvest, SourceBindingMismatch);
      Ok(v.(cks := h.document, quantity := quantity))
    case (PurchaseInvoice, PurchaseBody(seller, buyer, quantity, price, total, currency, tax, digest, media)) =>
      :- Need(seller == b.producer && buyer == b.retailer && MediaOk(digest, media), SourceBindingMismatch);
      Ok(v.(purchase := h.document, quantity := quantity, purchasePrice := price, purchaseTotal := total,
            currency := currency, tax := tax, priv := v.priv[OpeningKey(TradeCollection, h.document) := open]))
    case (TradeNotification, TradeBody(producer, retailer, product, quantity, notified)) =>
      :- Need(notified, SourceClaimRejected);
      :- Need(producer == b.producer && retailer == b.retailer && product == b.product && quantity == b.quantity,
              SourceBindingMismatch);
      Ok(v.(hks := h.document))
    case (TransportManifest, ManifestBody(carrier, consignor, consignee, product, quantity, departure)) =>
      :- Need(carrier == b.logistics && consignor == b.producer && consignee == b.retailer && product == b.product
              && quantity == b.quantity && env.dateTime(departure), SourceBindingMismatch);
      Ok(v.(manifest := h.document))
    case (FreightInvoice, FreightBody(carrier, payer, quantity, total, currency, tax, digest, media)) =>
      :- Need(carrier == b.logistics && payer == b.retailer && MediaOk(digest, media), SourceBindingMismatch);
      var salt :- ReadSalt(t, RecordSaltField);
      :- Need(c.payload.FreightInput?, InvalidSchema);
      var record := CostRecord(c.payload.cost, c.batch, payer, carrier, quantity, total, currency, tax,
                               h.document, salt, c.op, x.tx);
      Ok(v.(quantity := quantity, freightTotal := total, currency := currency, tax := tax,
            priv := v.priv[CostKey(c.payload.cost) := CostValue(record)]
                          [OpeningKey(FreightCollection, h.document) := open]))
    case (OtherDocument(_), _) => Ok(v)
    case _ => Err(InvalidSchema)
  }

  // ------------------------------------------------------------ all documents

  function RequiredTypes(name: CommandName): map<DocType, System> {
    match name
    case CreateBatch => map[ProducerEligibility := Cks]
    case OfferPickup => map[PurchaseInvoice := Efatura, TradeNotification := Hks, TransportManifest := Uetds]
    case RecordFreightCost => map[FreightInvoice := Efatura]
    case _ => map[]
  }

  function ExtraField(name: CommandName): Option<FieldName> {
    match name
    case RecordFreightCost => Some(RecordSaltField)
    case ReportRetailPrice => Some(RetailReportField)
    case _ => None
  }

  /** The document loop's variables: types still required, and what was verified so far. */
  datatype Progress = Progress(required: map<DocType, System>, v: Verified)

  function TakeDocument(env: Env, s: State, c: Command, x: Execution, t: Transient, b: Batch,
                        p: Progress, d: Bundle): Result<Progress> {
    var h := d.envelope.header;
    :- Need(h.docType in p.required && p.required[h.docType] == h.system, SourceBindingMismatch);
    var _ :- VerifyBundle(env, s, d);
    :- Need(h.batch == c.batch && h.op == c.op, SourceBindingMismatch);
    var pub :- ClaimAll(s, p.v.pub, d.envelope, x.tx);
    var v :- TakeBody(env, c, x, t, b, p.v.(pub := pub), d);
    Ok(Progress(p.required - {h.docType}, v))
  }

  /** The loop over the first n documents. */
  function TakeDocuments(env: Env, s: State, c: Command, x: Execution, t: Transient, b: Batch,
                         docs: seq<Bundle>, n: nat): Result<Progress>
    requires n <= |docs|
  {
    if n == 0 then Ok(Progress(RequiredTypes(c.name), NOTHING))
    else
      var p :- TakeDocuments(env, s, c, x, t, b, docs, n - 1);
      TakeDocument(env, s, c, x, t, b, p, docs[n - 1])
  }

  /** The documents submitted with a command; none when it requires none. */
  function Submitted(c: Command, t: Transient): seq<Bundle> {
    var f := Get(t, EvidenceField);
    if RequiredTypes(c.name) != map[] && f.Bundles? then f.bundles else []
  }

  function FieldsOk(c: Command, t: Transient): Result<()> {
    var required, extra := RequiredTypes(c.name), ExtraField(c.name);
    var expected := (if required == map[] then 0 else 1) + (if extra.Some? then 1 else 0);
    :- Need(|t| == expected, MissingEvidence);
    :- Need(forall k :: k in t ==> extra == Some(k) || (k == EvidenceField && required != map[]), InvalidSchema);
    Ok(())
  }

  function GatherDocuments(env: Env, s: State, c: Command, x: Execution, t: Transient, b: Batch): Result<Verified> {
    var required := RequiredTypes(c.name);
    var _ :- FieldsOk(c, t);
    var docs :- if required == map[] then Ok([]) else DecodeBundles(Get(t, EvidenceField));
    :- Need(|docs| == |required|, MissingEvidence);
    var p :- TakeDocuments(env, s, c, x, t, b, docs, |docs|);
    Ok(p.v)
  }

  /** The retail report: bound to the stored purchase opening and the stored freight cost. */
  function TakeReport(env: Env, s: State, c: Command, x: Execution, t: Transient, b: Batch, refs: Refs,
                      policy: Id, v: Verified): Result<Verified> {
    var field := Get(t, RetailReportField);
    :- Need(field.RetailField?, InvalidSchema);
    var input := field.retail;
    :- Need(env.dateTime(input.reportedAt) && HexId(input.salt), InvalidSchema);
    var p :- LoadPurchase(s, refs.purchase);
    :- Need(p.PurchaseBody?, InvalidSchema);
    var cost :- LoadCost(s, refs.freight);
    :- Need(cost.batch == b.id && cost.quantity == b.quantity && cost.currency == input.currency
            && cost.tax == input.tax && p.currency == input.currency && p.tax == input.tax, SourceBindingMismatch);
    :- Need(c.payload.ReportInput?, InvalidSchema);
    var r := c.payload;
    var record := RetailRecord(r.report, c.batch, r.lot, b.quantity, x.actor, input, refs.purchase, refs.freight,
                               r.policy, c.op, x.tx);
    Ok(v.(quantity := p.quantity, purchasePrice := p.price, purchaseTotal := p.total, retailPrice := input.price,
          currency := input.currency, tax := input.tax, policy := policy,
          priv := v.priv[ReportKey(r.report) := ReportValue(record)]))
  }

  // ---------------------------------------------------------------- analysis

  /** The three stored records are about this batch and about each other. */
  predicate SubjectOk(b: Batch, refs: Refs, p: Body, r: RetailRecord, cost: CostRecord) {
    && p.PurchaseBody?
    && r.batch == b.id && cost.batch == b.id && p.quantity == b.quantity && r.quantity == b.quantity
    && cost.quantity == b.quantity && r.purchase == refs.purchase && r.cost == refs.freight
  }

  /** All three are in the one admitted currency and tax basis, and the freight total is in range. */
  predicate MoneyClear(p: Body, r: RetailRecord, cost: CostRecord) {
    && p.PurchaseBody?
    && p.currency == Try && r.input.currency == Try && cost.currency == Try && p.tax == ExcludingTax
    && r.input.tax == ExcludingTax && cost.tax == ExcludingTax && 0 <= cost.total <= 1_000_000_000_000
  }

  /** EvaluatePrice: recompute the score from the stored records and compare it with the proposal. */
  function Evaluate(s: State, c: Command, x: Execution, t: Transient, b: Batch, refs: Refs): Result<Verified> {
    var input := c.payload;
    :- Need(|t| == 2, InvalidSchema);
    :- Need(input.EvaluateInput?, InvalidSchema);
    var anomaly, report := input.anomaly, input.report;
    :- Need(refs.report != NO_ID && refs.purchase != NO_ID && refs.freight != NO_ID, MissingEvidence);
    :- Need(report == refs.report, SourceBindingMismatch);
    :- Absent(s, EvaluationKey(b.id), AnomalyAlreadyExists);
    :- Absent(s, AnomalyRefKey(anomaly), AnomalyAlreadyExists);
    var cfg :- LoadConfig(s);
    var p :- LoadPurchase(s, refs.purchase);
    :- Need(p.PurchaseBody?, InvalidSchema);
    var r :- LoadReport(s, refs.report);
    var cost :- LoadCost(s, refs.freight);
    :- Need(SubjectOk(b, refs, p, r, cost), SourceBindingMismatch);
    :- Need(r.policy == cfg.policy, PolicyMismatch);
    :- Need(MoneyClear(p, r, cost), InvalidMoney);
    var score :- PriceScore(p.price, r.input.price, cfg.threshold);
    var proposed := Get(t, ProposedField);
    :- Need(proposed.ScoreField?, InvalidSchema);
    :- Need(proposed.score == score, AnomalyResultMismatch);
    var salt :- ReadSalt(t, RecordSaltField);
    var record := AnomalyRecord(anomaly, b.id, report, cfg.policy, p.price, r.input.price, cost.total, b.quantity,
                                score, cfg.threshold, if score.verdict.ReviewRequired? then Open else NotRequired,
                                salt, c.op, x.tx);
    var ref := EvaluationValue(Evaluation(b.id, report, anomaly, x.tx));
    Ok(NOTHING.(pub := map[EvaluationKey(b.id) := Some(ref), AnomalyRefKey(anomaly) := Some(ref)],
                priv := map[AnomalyKey(anomaly) := AnomalyValue(record)]))
  }

  /** The reviewer's input: opening names a reviewer, resolving also an outcome and an explanation. */
  function ReadReview(name: CommandName, t: Transient): Result<ReviewInput> {
    match (name, Get(t, ReviewActionField))
    case (OpenReview, OpenField(reviewer, salt)) => Ok(ReviewInput(reviewer, "", "", salt))
    case (ResolveReview, ResolveField(input)) => Ok(input)
    case _ => Err(InvalidSchema)
  }

  /** OpenReview and ResolveReview: one step of the review state, one action record. */
  function Review(env: Env, s: State, c: Command, x: Execution, t: Transient, b: Batch): Result<Verified> {
    var target := c.payload;
    :- Need(|t| == 2, InvalidSchema);
    :- Need(target.ReviewTarget?, InvalidSchema);
    var anomaly := target.anomaly;
    :- Need(EvaluationKey(b.id) in s.pub, InvalidReviewTransition);
    var stored := s.pub[EvaluationKey(b.id)];
    :- Need(stored.EvaluationValue?, InternalError);
    :- Need(stored.evaluation.anomaly == anomaly, InvalidReviewTransition);
    var a :- LoadAnomaly(s, anomaly);
    :- Need(a.score.verdict.ReviewRequired?, InvalidReviewTransition);
    var input :- ReadReview(c.name, t);
    :- Need(ValidId(input.reviewer, "REV") && HexId(input.salt), InvalidSchema);
    var salt :- ReadSalt(t, ReviewSaltField);
    :- Need(salt != input.salt && salt != a.salt, InvalidSchema);
    :- Need(a.review == (if c.name.OpenReview? then Open else InReview), InvalidReviewTransition);
    :- Need(c.name.ResolveReview? ==>
              input.outcome in {"EXPLAINED", "FOLLOW_UP_RECOMMENDED", "INSUFFICIENT_EVIDENCE"}
              && env.explanation(input.explanation), InvalidSchema);
    var next := a.(review := if c.name.OpenReview? then InReview else Resolved, salt := salt);
    Ok(NOTHING.(pub := map[ReviewRefKey(anomaly, c.op) := Some(IdValue(c.op))],
                priv := map[ActionKey(anomaly, c.op) := ActionValue(ReviewAction(c.op, anomaly, c.name, input, x.tx)),
                            AnomalyKey(anomaly) := AnomalyValue(next)]))
  }

  // ----------------------------------------------------------------- prepare

  predicate IsAnalysis(name: CommandName) {
    name.EvaluatePrice? || name.OpenReview? || name.ResolveReview?
  }

  function Prepare(env: Env, s: State, c: Command, x: Execution, t: Transient, b: Batch, refs: Refs): Result<Verified> {
    if IsAnalysis(c.name) then
      :- Need(b.state == RetailReported, InvalidStateTransition);
      if c.name.EvaluatePrice? then Evaluate(s, c, x, t, b, refs) else Review(env, s, c, x, t, b)
    else
      var cfg :- LoadConfig(s);
      var v :- GatherDocuments(env, s, c, x, t, b);
      if c.name.ReportRetailPrice? then TakeReport(env, s, c, x, t, b, refs, cfg.policy, v) else Ok(v)
  }

  // ==========================================================================
  // The document loop of the evidence provider: what holds of the documents it lets through.

  // ----------------------------------------------------- document loop facts

  /** The public writes of the first n documents. */
  function DocPlan(docs: seq<Bundle>, n: nat, tx: string): Plan
    requires n <= |docs|
  {
    if n == 0 then map[]
    else
      var e := docs[n - 1].envelope;
      var h := e.header;
      var use := UseValue(h.batch, h.op, tx);
      DocPlan(docs, n - 1, tx)
        [SourceUseKey(h.issuer, h.sourceDocument) := Some(use)]
        [NonceKey(h.issuer, h.nonce) := Some(use)]
        [DocumentKey(h.document) := Some(EnvelopeValue(e))]
  }

  /** The header names proper ids, references and digests, and was issued at a proper time. */
  ghost predicate ProperHeader(env: Env, h: Header) {
    && h.profile && env.dateTime(h.issuedAt)
    && ValidId(h.document, "DOC") && ValidId(h.sourceDocument, "DOC")
    && ValidId(h.batch, "BAT") && ValidId(h.op, "OP")
    && Reference(h.issuer) && Reference(h.key) && HexId(h.nonce) && HexId(h.commitment)
  }

  /** The ledger holds an enabled key of the document's system, for its type, and the signature is by that key. */
  ghost predicate SignedBySource(env: Env, s: State, e: Envelope) {
    var h := e.header;
    && SourceKeyKey(h.issuer, h.key) in s.pub
    && match s.pub[SourceKeyKey(h.issuer, h.key)]
       case SourceKeyValue(k) =>
         k.enabled && k.system == h.system && h.docType in k.docTypes && env.signed(k.publicKey, h, e.signature)
       case _ => false
  }

  /** The salt is proper and the commitment of the header opens to this body under it. */
  ghost predicate Opens(env: Env, h: Header, body: Body, salt: string) {
    HexId(salt) && h.commitment == env.commit(body, salt)
  }

  /** What makes a submitted document genuine: its header, its source's signature and its commitment. */
  ghost predicate Authentic(env: Env, s: State, d: Bundle) {
    && ProperHeader(env, d.envelope.header) && SignedBySource(env, s, d.envelope)
    && Opens(env, d.envelope.header, d.body, d.salt)
  }

  /** The verification of one document lets exactly the genuine ones through. */
  lemma VerifiedIff(env: Env, s: State, d: Bundle)
    ensures VerifyBundle(env, s, d).Ok? <==> Authentic(env, s, d)
  {
    hide ValidId, HexId, Reference;
  }

  /** Each refusal names what the document lacks; the checks come in this order. */
  lemma VerifiedBlames(env: Env, s: State, d: Bundle)
    ensures match VerifyBundle(env, s, d)
            case Ok(_) => true
            case Err(e) =>
              var h, k := d.envelope.header, LoadSource(s, d.envelope.header.issuer, d.envelope.header.key);
              if !ProperHeader(env, h) then e == InvalidSchema
              else if k.Err? || !k.value.enabled || k.value.system != h.system || h.docType !in k.value.docTypes then
                e == UntrustedSourceKey || (k.Err? && e == k.error)
              else if !SignedBySource(env, s, d.envelope) then e == InvalidSourceSignature
              else if !HexId(d.salt) then e == InvalidSchema
              else e == DocumentHashMismatch
  {
    hide ValidId, HexId, Reference;
  }

  /** The document is genuine, is bound to the command, and its three keys were unused on the ledger. */
  ghost predicate DocOk(env: Env, s: State, c: Command, d: Bundle) {
    var h := d.envelope.header;
    && h.docType in RequiredTypes(c.name) && RequiredTypes(c.name)[h.docType] == h.system
    && Authentic(env, s, d)
    && h.batch == c.batch && h.op == c.op
    && DocumentKey(h.document) !in s.pub
    && SourceUseKey(h.issuer, h.sourceDocument) !in s.pub
    && NonceKey(h.issuer, h.nonce) !in s.pub
  }

  ghost predicate DocsDiffer(d1: Bundle, d2: Bundle) {
    var h1, h2 := d1.envelope.header, d2.envelope.header;
    && h1.docType != h2.docType
    && h1.document != h2.document
    && !(h1.issuer == h2.issuer && h1.sourceDocument == h2.sourceDocument)
    && !(h1.issuer == h2.issuer && h1.nonce == h2.nonce)
  }

  ghost predicate Remaining(c: Command, docs: seq<Bundle>, n: nat, required: map<DocType, System>)
    requires n <= |docs|
  {
    forall k :: k in required <==> k in RequiredTypes(c.name) && forall i :: 0 <= i < n ==>
      docs[i].envelope.header.docType != k
  }

  lemma ClaimFacts(s: State, pending: Plan, e: Envelope, tx: string)
    requires ClaimAll(s, pending, e, tx).Ok?
    ensures var h := e.header;
            var use := UseValue(h.batch, h.op, tx);
            && ClaimAll(s, pending, e, tx).value
               == pending[SourceUseKey(h.issuer, h.sourceDocument) := Some(use)]
                         [NonceKey(h.issuer, h.nonce) := Some(use)]
                         [DocumentKey(h.document) := Some(EnvelopeValue(e))]
            && DocumentKey(h.document) !in pending && DocumentKey(h.document) !in s.pub
            && SourceUseKey(h.issuer, h.sourceDocument) !in pending
            && SourceUseKey(h.issuer, h.sourceDocument) !in s.pub
            && NonceKey(h.issuer, h.nonce) !in pending && NonceKey(h.issuer, h.nonce) !in s.pub
  {
  }

  lemma DocPlanHas(docs: seq<Bundle>, n: nat, tx: string, i: nat)
    requires i < n <= |docs|
    ensures var h := docs[i].envelope.header;
            && DocumentKey(h.document) in DocPlan(docs, n, tx)
            && SourceUseKey(h.issuer, h.sourceDocument) in DocPlan(docs, n, tx)
            && NonceKey(h.issuer, h.nonce) in DocPlan(docs, n, tx)
  {
    if i < n - 1 {
      DocPlanHas(docs, n - 1, tx, i);
    }
  }

  lemma TakeBodyKeepsPub(env: Env, c: Command, x: Execution, t: Transient, b: Batch, v: Verified, d: Bundle)
    requires TakeBody(env, c, x, t, b, v, d).Ok?
    ensures TakeBody(env, c, x, t, b, v, d).value.pub == v.pub
  {
  }

  /** One turn of the loop, in terms of the claims and the checks it made. */
  lemma TakeDocumentFacts(env: Env, s: State, c: Command, x: Execution, t: Transient, b: Batch, p: Progress, d: Bundle)
    requires TakeDocument(env, s, c, x, t, b, p, d).Ok?
    ensures var h, q := d.envelope.header, TakeDocument(env, s, c, x, t, b, p, d).value;
            && h.docType in p.required && p.required[h.docType] == h.system
            && VerifyBundle(env, s, d).Ok? && h.batch == c.batch && h.op == c.op
            && ClaimAll(s, p.v.pub, d.envelope, x.tx) == Ok(q.v.pub)
            && TakeBody(env, c, x, t, b, p.v.(pub := q.v.pub), d) == Ok(q.v)
            && q.required == p.required - {h.docType}
  {
    hide VerifyBundle, ClaimAll, TakeBody;
    var pub := ClaimAll(s, p.v.pub, d.envelope, x.tx).value;
    TakeBodyKeepsPub(env, c, x, t, b, p.v.(pub := pub), d);
  }

  /** The loop after n turns: which keys it claimed, and which types it still requires. */
  ghost predicate LoopState(c: Command, docs: seq<Bundle>, n: nat, tx: string, p: Progress)
    requires n <= |docs|
  {
    && p.v.pub == DocPlan(docs, n, tx)
    && Remaining(c, docs, n, p.required)
    && (forall k :: k in p.required ==> p.required[k] == RequiredTypes(c.name)[k])
    && |p.required.Keys| + n == |RequiredTypes(c.name).Keys|
  }

  lemma LoopStart(c: Command, docs: seq<Bundle>, tx: string)
    ensures LoopState(c, docs, 0, tx, Progress(RequiredTypes(c.name), NOTHING))
  {
  }

  lemma LoopTurn(s: State, c: Command, docs: seq<Bundle>, n: nat, tx: string, p: Progress, q: Progress)
    requires n < |docs| && LoopState(c, docs, n, tx, p)
    requires var d := docs[n];
             && d.envelope.header.docType in p.required
             && ClaimAll(s, p.v.pub, d.envelope, tx) == Ok(q.v.pub)
             && q.required == p.required - {d.envelope.header.docType}
    ensures LoopState(c, docs, n + 1, tx, q)
    ensures forall i :: 0 <= i < n ==> DocsDiffer(docs[i], docs[n])
  {
    hide ClaimAll, RequiredTypes, DocsDiffer, Remaining;
    ClaimFacts(s, p.v.pub, docs[n].envelope, tx);
    LoopDiffers(c, docs, n, tx, p);
    LoopRequired(c, docs, n, p.required, q.required);
  }

  /** The type of the document taken is required no more. */
  lemma LoopRequired(c: Command, docs: seq<Bundle>, n: nat, required: map<DocType, System>,
                     left: map<DocType, System>)
    requires n < |docs| && Remaining(c, docs, n, required)
    requires var k := docs[n].envelope.header.docType; k in required && left == required - {k}
    ensures Remaining(c, docs, n + 1, left) && |left.Keys| + 1 == |required.Keys|
  {
    hide RequiredTypes;
    assert left.Keys == required.Keys - {docs[n].envelope.header.docType};
  }

  /** A document whose type is still required and whose keys are unclaimed differs from all earlier ones. */
  lemma LoopDiffers(c: Command, docs: seq<Bundle>, n: nat, tx: string, p: Progress)
    requires n < |docs| && LoopState(c, docs, n, tx, p)
    requires var h := docs[n].envelope.header;
             && h.docType in p.required
             && DocumentKey(h.document) !in p.v.pub && SourceUseKey(h.issuer, h.sourceDocument) !in p.v.pub
             && NonceKey(h.issuer, h.nonce) !in p.v.pub
    ensures forall i :: 0 <= i < n ==> DocsDiffer(docs[i], docs[n])
  {
    hide RequiredTypes, DocPlan;
    forall i | 0 <= i < n ensures DocsDiffer(docs[i], docs[n]) {
      DocPlanHas(docs, n, tx, i);
    }
  }

  lemma TakenDocOk(env: Env, s: State, c: Command, docs: seq<Bundle>, n: nat, tx: string, p: Progress, q: Progress)
    requires n < |docs| && LoopState(c, docs, n, tx, p)
    requires var d := docs[n];
             var h := d.envelope.header;
             && h.docType in p.required && p.required[h.docType] == h.system
             && VerifyBundle(env, s, d).Ok? && h.batch == c.batch && h.op == c.op
             && ClaimAll(s, p.v.pub, d.envelope, tx) == Ok(q.v.pub)
    ensures DocOk(env, s, c, docs[n])
  {
    hide VerifyBundle, Authentic;
    VerifiedIff(env, s, docs[n]);
    ClaimFacts(s, p.v.pub, docs[n].envelope, tx);
  }

  /** Every document taken so far passed its checks, and no two share a type or a replay key. */
  lemma {:induction false} DocumentsTaken(env: Env, s: State, c: Command, x: Execution, t: Transient, b: Batch,
                                          docs: seq<Bundle>, n: nat)
    requires n <= |docs| && TakeDocuments(env, s, c, x, t, b, docs, n).Ok?
    ensures LoopState(c, docs, n, x.tx, TakeDocuments(env, s, c, x, t, b, docs, n).value)
    ensures forall i :: 0 <= i < n ==> DocOk(env, s, c, docs[i])
    ensures forall i, j :: 0 <= i < j < n ==> DocsDiffer(docs[i], docs[j])
  {
    hide VerifyBundle, TakeDocument, ClaimAll, TakeBody, DocOk, DocsDiffer, LoopState;
    if n == 0 {
      LoopStart(c, docs, x.tx);
    } else {
      DocumentsTaken(env, s, c, x, t, b, docs, n - 1);
      var p := TakeDocuments(env, s, c, x, t, b, docs, n - 1).value;
      TakeDocumentFacts(env, s, c, x, t, b, p, docs[n - 1]);
      var q := TakeDocument(env, s, c, x, t, b, p, docs[n - 1]).value;
      LoopTurn(s, c, docs, n - 1, x.tx, p, q);
      TakenDocOk(env, s, c, docs, n - 1, x.tx, p, q);
    }
  }

  // -------------------------------------------------- what the facts come from

  /** The verified facts and private writes that one document contributes. */
  ghost predicate DocUsed(c: Command, x: Execution, b: Batch, d: Bundle, v: Verified) {
    var h, body := d.envelope.header, d.body;
    match h.docType
    case ProducerEligibility =>
      && body.EligibilityBody? && body.eligible && c.payload.CreateInput?
      && v.cks == h.document && v.quantity == body.quantity == c.payload.quantity && body.producer == x.actor
    case PurchaseInvoice =>
      && body.PurchaseBody? && body.seller == b.producer && body.buyer == b.retailer
      && v.purchase == h.document && v.quantity == body.quantity && v.purchasePrice == body.price
      && v.purchaseTotal == body.total && v.currency == body.currency && v.tax == body.tax
      && OpeningKey(TradeCollection, h.document) in v.priv
      && v.priv[OpeningKey(TradeCollection, h.document)] == OpeningValue(body, d.salt)
    case TradeNotification =>
      && body.TradeBody? && body.notified && body.quantity == b.quantity && body.producer == b.producer
      && body.retailer == b.retailer && v.hks == h.document
    case TransportManifest =>
      && body.ManifestBody? && body.quantity == b.quantity && body.carrier == b.logistics
      && body.consignor == b.producer && body.consignee == b.retailer && v.manifest == h.document
    case FreightInvoice =>
      && body.FreightBody? && body.carrier == b.logistics && body.payer == b.retailer && c.payload.FreightInput?
      && v.quantity == body.quantity && v.freightTotal == body.total && v.currency == body.currency && v.tax == body.tax
      && OpeningKey(FreightCollection, h.document) in v.priv
      && v.priv[OpeningKey(FreightCollection, h.document)] == OpeningValue(body, d.salt)
      && CostKey(c.payload.cost) in v.priv
      && v.priv[CostKey(c.payload.cost)].CostValue?
      && var r := v.priv[CostKey(c.payload.cost)].cost;
         && r.cost == c.payload.cost && r.batch == c.batch && r.quantity == body.quantity && r.total == body.total
         && r.currency == body.currency && r.tax == body.tax && r.document == h.document && r.op == c.op
            && r.payer == b.retailer && r.payee == b.logistics && r.tx == x.tx
    case OtherDocument(_) => false
  }

  /** An invoice's opening: its body and salt, in the collection of its kind. */
  predicate IsOpening(d: Bundle, collection: Collection, document: Id, stored: PrivValue) {
    && d.envelope.header.document == document && stored == OpeningValue(d.body, d.salt)
    && match collection
       case TradeCollection => d.envelope.header.docType.PurchaseInvoice?
       case FreightCollection => d.envelope.header.docType.FreightInvoice?
  }

  /** Only openings of taken invoices, and the cost record of a freight invoice, are written. */
  ghost predicate PrivFrom(c: Command, docs: seq<Bundle>, n: nat, priv: map<PrivKey, PrivValue>)
    requires n <= |docs|
  {
    forall q :: q in priv ==>
      || (q.OpeningKey? && exists i :: 0 <= i < n && IsOpening(docs[i], q.collection, q.document, priv[q]))
      || (q.CostKey? && c.name.RecordFreightCost? && c.payload.FreightInput? && q.cost == c.payload.cost)
  }

  lemma BodyUsed(env: Env, c: Command, x: Execution, t: Transient, b: Batch, v: Verified, d: Bundle)
    requires TakeBody(env, c, x, t, b, v, d).Ok? && d.envelope.header.docType in RequiredTypes(c.name)
    ensures DocUsed(c, x, b, d, TakeBody(env, c, x, t, b, v, d).value)
  {
    hide ReadSalt, MediaOk;
  }

  /** A later document of another type of the same command leaves an earlier one's facts alone. */
  lemma BodyKeeps(env: Env, c: Command, x: Execution, t: Transient, b: Batch, v: Verified, v0: Verified, d: Bundle,
                  e: Bundle)
    requires TakeBody(env, c, x, t, b, v, d).Ok? && v == v0.(pub := v.pub)
    requires d.envelope.header.docType in RequiredTypes(c.name) && e.envelope.header.docType in RequiredTypes(c.name)
    requires d.envelope.header.docType != e.envelope.header.docType
    requires d.envelope.header.document != e.envelope.header.document
    requires DocUsed(c, x, b, e, v0)
    ensures DocUsed(c, x, b, e, TakeBody(env, c, x, t, b, v, d).value)
  {
    hide ReadSalt, MediaOk;
  }

  lemma BodyPriv(env: Env, c: Command, x: Execution, t: Transient, b: Batch, v: Verified, docs: seq<Bundle>, n: nat)
    requires n < |docs| && PrivFrom(c, docs, n, v.priv)
    requires TakeBody(env, c, x, t, b, v, docs[n]).Ok? && docs[n].envelope.header.docType in RequiredTypes(c.name)
    ensures PrivFrom(c, docs, n + 1, TakeBody(env, c, x, t, b, v, docs[n]).value.priv)
  {
    hide TakeBody, IsOpening, RequiredTypes;
    BodyWrites(env, c, x, t, b, v, docs[n]);
    var w := TakeBody(env, c, x, t, b, v, docs[n]).value;
    forall q | q in w.priv && q.OpeningKey?
      ensures exists i :: 0 <= i < n + 1 && IsOpening(docs[i], q.collection, q.document, w.priv[q])
    {
      if !IsOpening(docs[n], q.collection, q.document, w.priv[q]) {
        var i :| 0 <= i < n && IsOpening(docs[i], q.collection, q.document, v.priv[q]);
      }
    }
  }

  /** What one document adds to the private writes: the opening of an invoice, the cost record of a freight invoice. */
  lemma BodyWrites(env: Env, c: Command, x: Execution, t: Transient, b: Batch, v: Verified, d: Bundle)
    requires TakeBody(env, c, x, t, b, v, d).Ok? && d.envelope.header.docType in RequiredTypes(c.name)
    ensures var w := TakeBody(env, c, x, t, b, v, d).value;
            forall q :: q in w.priv ==>
              || (q in v.priv && w.priv[q] == v.priv[q])
              || (q.OpeningKey? && IsOpening(d, q.collection, q.document, w.priv[q]))
              || (q.CostKey? && c.name.RecordFreightCost? && c.payload.FreightInput? && q.cost == c.payload.cost)
  {
    hide ReadSalt, MediaOk;
  }

  lemma {:induction false} DocumentsUsed(env: Env, s: State, c: Command, x: Execution, t: Transient, b: Batch,
                                         docs: seq<Bundle>, n: nat)
    requires n <= |docs| && TakeDocuments(env, s, c, x, t, b, docs, n).Ok?
    ensures var v := TakeDocuments(env, s, c, x, t, b, docs, n).value.v;
            && PrivFrom(c, docs, n, v.priv)
            && forall i :: 0 <= i < n ==> DocUsed(c, x, b, docs[i], v)
  {
    hide VerifyBundle, TakeDocument, ClaimAll, TakeBody, DocUsed, LoopState;
    if n > 0 {
      DocumentsUsed(env, s, c, x, t, b, docs, n - 1);
      var p := TakeDocuments(env, s, c, x, t, b, docs, n - 1).value;
      TakeDocumentFacts(env, s, c, x, t, b, p, docs[n - 1]);
      var q := TakeDocument(env, s, c, x, t, b, p, docs[n - 1]).value;
      DocumentsTaken(env, s, c, x, t, b, docs, n);
      var v1 := p.v.(pub := q.v.pub);
      assert DocOk(env, s, c, docs[n - 1]);
      BodyUsed(env, c, x, t, b, v1, docs[n - 1]);
      BodyPriv(env, c, x, t, b, v1, docs, n - 1);
      forall i | 0 <= i < n - 1 ensures DocUsed(c, x, b, docs[i], q.v) {
        assert DocsDiffer(docs[i], docs[n - 1]);
        assert DocOk(env, s, c, docs[i]);
        BodyKeeps(env, c, x, t, b, v1, p.v, docs[n - 1], docs[i]);
      }
    }
  }

  // ------------------------------------------------------------- the theorem

  /** Some document of this type was submitted. */
  ghost predicate HasType(docs: seq<Bundle>, k: DocType) {
    exists i :: 0 <= i < |docs| && docs[i].envelope.header.docType == k
  }

  /**
   * Accepted evidence: the submitted documents are in bijection with the
   * command's required types, pass every check, are fresh on the ledger and
   * mutually distinct; the public writes are exactly their replay keys.
   */
  ghost predicate Gathered(env: Env, s: State, c: Command, x: Execution, t: Transient, b: Batch, v: Verified) {
    var docs := Submitted(c, t);
    && |docs| == |RequiredTypes(c.name).Keys|
    && (forall k :: k in RequiredTypes(c.name) ==> HasType(docs, k))
    && (forall i :: 0 <= i < |docs| ==> DocOk(env, s, c, docs[i]) && DocUsed(c, x, b, docs[i], v))
    && (forall i, j :: 0 <= i < j < |docs| ==> DocsDiffer(docs[i], docs[j]))
    && v.pub == DocPlan(docs, |docs|, x.tx)
    && PrivFrom(c, docs, |docs|, v.priv)
  }

  lemma GatherFacts(env: Env, s: State, c: Command, x: Execution, t: Transient, b: Batch)
    requires GatherDocuments(env, s, c, x, t, b).Ok?
    ensures Gathered(env, s, c, x, t, b, GatherDocuments(env, s, c, x, t, b).value)
    ensures RequiredTypes(c.name) == map[] ==> GatherDocuments(env, s, c, x, t, b).value == NOTHING
  {
    hide DocOk, DocUsed, DocsDiffer, TakeDocument, FieldsOk, PrivFrom;
    var docs := Submitted(c, t);
    assert |RequiredTypes(c.name)| == |RequiredTypes(c.name).Keys|;
    assert GatherDocuments(env, s, c, x, t, b) == Ok(TakeDocuments(env, s, c, x, t, b, docs, |docs|).value.v);
    DocumentsTaken(env, s, c, x, t, b, docs, |docs|);
    DocumentsUsed(env, s, c, x, t, b, docs, |docs|);
    var p := TakeDocuments(env, s, c, x, t, b, docs, |docs|).value;
    assert p.required.Keys == {};
    forall k | k in RequiredTypes(c.name) ensures HasType(docs, k) {
      assert k !in p.required;
    }
  }
}
