/** Exactly when a command is accepted on a reachable ledger, and that no batch is ever stuck. */
module Progress {
  import opened Types
  import opened Price
  import opened Evidence
  import opened Engine
  import opened Invariants
  import opened Preserve
  import opened Provenance
  import opened Runs
  import opened Guarantees

  // ---------------------------------------------------------------- admission

  /** A well-posed command for a stored batch, at its current version, under an unused operation id. */
  ghost predicate Ready(env: Env, s: State, c: Command, x: Execution) {
    && WellPosed(env, c, x) && !c.name.CreateBatch?
    && OperationKey(x.actor, c.op) !in s.pub
    && BatchKey(c.batch) in s.pub && c.expected == BatchAt(s, c.batch).version
  }

  lemma ReadyAdmitted(env: Env, s: State, c: Command, x: Execution)
    requires Inv(s) && Ready(env, s, c, x)
    ensures Admit(env, s, c, x) == Ok(Start(true, BatchAt(s, c.batch), RefsAt(s, c.batch)))
    ensures Admitted(s, c, x, Start(true, BatchAt(s, c.batch), RefsAt(s, c.batch)))
    ensures LifecycleOk(c.batch, BatchAt(s, c.batch), RefsAt(s, c.batch))
    ensures LoadConfig(s).Ok?
  {
    hide Indexed, History, Transfers, References, Evaluations, Consumed, Slots, Privates, Analysed, Versioned,
         LifecycleOk;
    hide Authorize, ValidId, ValidatePayload, ContextOk, PayloadFits, SourcesOk;
    VersionBounds(s, c.batch);
    assert RecordOk(s, c.batch);
    assert LoadConfig(s).Ok?;
    assert Admit(env, s, c, x) == Ok(Start(true, BatchAt(s, c.batch), RefsAt(s, c.batch)));
    AdmitFacts(env, s, c, x, Start(true, BatchAt(s, c.batch), RefsAt(s, c.batch)));
  }

  /** What the evidence and then the arm decide of a command. */
  function Decided(s: State, c: Command, x: Execution, b: Batch, r: Refs, prepared: Result<Verified>): Result<Arm> {
    match prepared
    case Ok(v) => RunArm(s, c, x, Start(true, b, r), v)
    case Err(e) => Err(e)
  }

  /** Both accept, or both refuse with the same code. */
  predicate Alike<A, B>(a: Result<A>, b: Result<B>) {
    match a
    case Ok(_) => b.Ok?
    case Err(e) => b == Err(e)
  }

  /** After admission the outcome is decided by the evidence and the arm. */
  lemma ReadyOutcome(env: Env, s: State, c: Command, x: Execution, t: Transient, b: Batch, r: Refs)
    requires Inv(s) && Ready(env, s, c, x) && b == BatchAt(s, c.batch) && r == RefsAt(s, c.batch)
    ensures Alike(Apply(env, s, c, x, t), Decided(s, c, x, b, r, Prepare(env, s, c, x, t, b, r)))
  {
    hide Inv, Ready, Admit, Prepare, RunArm, Finish, Admitted, LifecycleOk, BatchAt, RefsAt, LoadConfig;
    ReadyAdmitted(env, s, c, x);
  }

  // ------------------------------------------------ commands without evidence

  lemma NothingPrepared(env: Env, s: State, c: Command, x: Execution, t: Transient, b: Batch, refs: Refs)
    requires (IsAccept(c.name) || c.name.OfferDelivery?) && LoadConfig(s).Ok?
    ensures Prepare(env, s, c, x, t, b, refs) == if t == map[] then Ok(NOTHING) else Err(MissingEvidence)
  {
    hide LoadConfig, TakeDocument;
    assert TakeDocuments(env, s, c, x, t, b, [], 0) == Ok(Evidence.Progress(map[], NOTHING));
    assert |t| == 0 <==> t == map[];
  }

  /**
   * The command names the batch's pending transfer with its quantity, in the right
   * state; a delivery has its freight.
   */
  ghost predicate AcceptFits(s: State, c: Command, b: Batch, r: Refs) {
    && c.payload.HandoffInput?
    && b.state == (if c.name.AcceptPickup? then PickupPending else DeliveryPending)
    && PendingKey(c.batch) in s.pub && s.pub[PendingKey(c.batch)] == IdValue(c.payload.transfer)
    && c.payload.quantity == b.quantity
    && (c.name.AcceptDelivery? ==> r.freight != NO_ID)
  }

  /** A transfer is accepted exactly by naming the batch's pending transfer; no other check can fail. */
  lemma AcceptIff(env: Env, s: State, c: Command, x: Execution, t: Transient)
    requires Inv(s) && Ready(env, s, c, x) && IsAccept(c.name)
    ensures Apply(env, s, c, x, t).Ok? <==> t == map[] && AcceptFits(s, c, BatchAt(s, c.batch), RefsAt(s, c.batch))
  {
    hide Ready, Apply, Admit, Prepare, BatchAt, RefsAt, LifecycleOk, AcceptArm, AcceptFits, Admitted, LoadConfig,
         CreateArm, OfferArm, FreightArm, ReportArm;
    hide Configured, Records, Indexed, History, Transfers, References, Evaluations, Consumed, Slots, Privates, Analysed,
         Versioned;
    var b, r := BatchAt(s, c.batch), RefsAt(s, c.batch);
    ReadyAdmitted(env, s, c, x);
    ReadyOutcome(env, s, c, x, t, b, r);
    NothingPrepared(env, s, c, x, t, b, r);
    AcceptArmIff(s, c, x, Start(true, b, r));
  }

  lemma AcceptArmIff(s: State, c: Command, x: Execution, st: Start)
    requires Transfers(s) && Admitted(s, c, x, st) && st.existing && IsAccept(c.name)
    requires BatchAt(s, c.batch) == st.before && LifecycleOk(c.batch, st.before, st.refs)
    ensures AcceptArm(s, c, x, st).Ok? <==> AcceptFits(s, c, st.before, st.refs)
  {
    hide ValidId, BatchAt;
    var k := TransferKey(c.payload.transfer);
    if k in s.pub {
      assert TransferOk(s, c.payload.transfer);
    }
    if PendingKey(c.batch) in s.pub {
      assert PendingOk(s, c.batch);
    }
  }

  /** A handoff of the whole batch under an unused transfer id. */
  ghost predicate FreshTransfer(s: State, p: Payload, b: Batch) {
    p.HandoffInput? && p.quantity == b.quantity && TransferKey(p.transfer) !in s.pub
  }

  ghost predicate OfferFits(s: State, c: Command, b: Batch) {
    b.state.InTransport? && FreshTransfer(s, c.payload, b)
  }

  /** A delivery is offered exactly from transport, with the batch's quantity, under an unused transfer id. */
  lemma OfferDeliveryIff(env: Env, s: State, c: Command, x: Execution, t: Transient)
    requires Inv(s) && Ready(env, s, c, x) && c.name.OfferDelivery?
    ensures Apply(env, s, c, x, t).Ok? <==> t == map[] && OfferFits(s, c, BatchAt(s, c.batch))
  {
    hide Ready, Apply, Admit, Prepare, BatchAt, RefsAt, LifecycleOk, OfferArm, OfferFits, Admitted, LoadConfig,
         CreateArm, AcceptArm, FreightArm, ReportArm;
    hide Configured, Records, Indexed, History, Transfers, References, Evaluations, Consumed, Slots, Privates, Analysed,
         Versioned;
    var b, r := BatchAt(s, c.batch), RefsAt(s, c.batch);
    ReadyAdmitted(env, s, c, x);
    ReadyOutcome(env, s, c, x, t, b, r);
    NothingPrepared(env, s, c, x, t, b, r);
    OfferDeliveryArmIff(s, c, x, Start(true, b, r), NOTHING);
  }

  lemma OfferDeliveryArmIff(s: State, c: Command, x: Execution, st: Start, v: Verified)
    requires Transfers(s) && Admitted(s, c, x, st) && st.existing && c.name.OfferDelivery?
    requires BatchAt(s, c.batch) == st.before && LifecycleOk(c.batch, st.before, st.refs)
    ensures OfferArm(s, c, x, st, v).Ok? <==> OfferFits(s, c, st.before)
  {
    hide ValidId, BatchAt, PickupDocuments;
    if PendingKey(c.batch) in s.pub {
      assert PendingOk(s, c.batch);
    }
  }

  // ---------------------------------------------------------------- evidence

  /**
   * The document's own claims fit the command and the batch: an eligibility names
   * the submitter and everything the creation claims, a notification and a manifest
   * repeat the parties, the product and the grams of the batch, and an invoice is
   * between its parties, with an admitted digest and medium; a freight invoice
   * comes with a salt and a cost id.
   */
  predicate BodyFits(env: Env, c: Command, x: Execution, t: Transient, b: Batch, d: Bundle) {
    match d.envelope.header.docType
    case ProducerEligibility =>
      (match c.payload
       case CreateInput(product, grade, quantity, region, harvest, _, _) =>
         d.body == EligibilityBody(x.actor, product, grade, quantity, region, harvest, true)
       case _ => false)
    case PurchaseInvoice =>
      && d.body.PurchaseBody? && d.body.seller == b.producer && d.body.buyer == b.retailer
      && MediaOk(d.body.digest, d.body.media)
    case TradeNotification => d.body == TradeBody(b.producer, b.retailer, b.product, b.quantity, true)
    case TransportManifest =>
      && d.body.ManifestBody? && env.dateTime(d.body.departure)
      && d.body == ManifestBody(b.logistics, b.producer, b.retailer, b.product, b.quantity, d.body.departure)
    case FreightInvoice =>
      && d.body.FreightBody? && d.body.carrier == b.logistics && d.body.payer == b.retailer
      && MediaOk(d.body.digest, d.body.media) && ReadSalt(t, RecordSaltField).Ok? && c.payload.FreightInput?
    case OtherDocument(_) => true
  }

  /** The loop takes a document's body exactly when its claims fit, whatever was taken before. */
  lemma BodyFitsAnywhere(env: Env, c: Command, x: Execution, t: Transient, b: Batch, v: Verified, d: Bundle)
    ensures TakeBody(env, c, x, t, b, v, d).Ok? <==> BodyFits(env, c, x, t, b, d)
  {
    hide ReadSalt, MediaOk;
  }

  /** The transient fields that a command comes with. */
  function FieldsOf(name: CommandName): set<FieldName> {
    match name
    case CreateBatch | OfferPickup => {EvidenceField}
    case RecordFreightCost => {EvidenceField, RecordSaltField}
    case ReportRetailPrice => {RetailReportField}
    case _ => {}
  }

  lemma SubsetWhole<T>(a: set<T>, b: set<T>)
    requires a <= b && |a| == |b|
    ensures a == b
  {
    assert b == a + (b - a);
  }

  /** Exactly these fields are taken, no more and no fewer. */
  lemma FieldsIff(c: Command, t: Transient)
    ensures FieldsOk(c, t).Ok? <==> t.Keys == FieldsOf(c.name)
  {
    assert |t| == |t.Keys|;
    assert |{EvidenceField, RecordSaltField}| == 2;
    if FieldsOk(c, t).Ok? {
      SubsetWhole(t.Keys, FieldsOf(c.name));
    }
  }

  /** The right number of documents, in order, one of each required type, verified, bound, fresh and distinct. */
  ghost predicate Honest(env: Env, s: State, c: Command, x: Execution, t: Transient, b: Batch) {
    var docs := Submitted(c, t);
    && t.Keys == FieldsOf(c.name)
    && (RequiredTypes(c.name) != map[] ==> Get(t, EvidenceField).Bundles?)
    && Increasing(docs) && |docs| == |RequiredTypes(c.name)|
    && (forall i :: 0 <= i < |docs| ==> DocOk(env, s, c, docs[i]) && BodyFits(env, c, x, t, b, docs[i]))
    && (forall i, j :: 0 <= i < j < |docs| ==> DocsDiffer(docs[i], docs[j]))
  }

  lemma ClaimsFree(s: State, docs: seq<Bundle>, n: nat, tx: string)
    requires n < |docs|
    requires forall i :: 0 <= i < n ==> DocsDiffer(docs[i], docs[n])
    requires var h := docs[n].envelope.header;
             && DocumentKey(h.document) !in s.pub && SourceUseKey(h.issuer, h.sourceDocument) !in s.pub
             && NonceKey(h.issuer, h.nonce) !in s.pub
    ensures ClaimAll(s, DocPlan(docs, n, tx), docs[n].envelope, tx).Ok?
  {
    NotPlanned(docs, n, tx, docs[n]);
    hide DocPlan;
  }

  lemma {:induction false} NotPlanned(docs: seq<Bundle>, n: nat, tx: string, d: Bundle)
    requires n <= |docs| && forall i :: 0 <= i < n ==> DocsDiffer(docs[i], d)
    ensures var h := d.envelope.header;
            && DocumentKey(h.document) !in DocPlan(docs, n, tx)
            && SourceUseKey(h.issuer, h.sourceDocument) !in DocPlan(docs, n, tx)
            && NonceKey(h.issuer, h.nonce) !in DocPlan(docs, n, tx)
  {
    if n > 0 {
      NotPlanned(docs, n - 1, tx, d);
      assert DocsDiffer(docs[n - 1], d);
    }
  }

  lemma HonestTurn(env: Env, s: State, c: Command, x: Execution, t: Transient, b: Batch, docs: seq<Bundle>, n: nat,
                   p: Progress)
    requires n < |docs| && LoopState(c, docs, n, x.tx, p)
    requires DocOk(env, s, c, docs[n]) && BodyFits(env, c, x, t, b, docs[n])
    requires forall i :: 0 <= i < n ==> DocsDiffer(docs[i], docs[n])
    ensures TakeDocument(env, s, c, x, t, b, p, docs[n]).Ok?
  {
    hide VerifyBundle, Authentic, ClaimAll, TakeBody, BodyFits, DocPlan;
    var d := docs[n];
    VerifiedIff(env, s, d);
    assert d.envelope.header.docType in p.required;
    ClaimsFree(s, docs, n, x.tx);
    BodyFitsAnywhere(env, c, x, t, b, p.v.(pub := ClaimAll(s, p.v.pub, d.envelope, x.tx).value), d);
  }

  lemma {:induction false} HonestTaken(env: Env, s: State, c: Command, x: Execution, t: Transient, b: Batch,
                                       docs: seq<Bundle>, n: nat)
    requires n <= |docs|
    requires forall i :: 0 <= i < n ==> DocOk(env, s, c, docs[i]) && BodyFits(env, c, x, t, b, docs[i])
    requires forall i, j :: 0 <= i < j < n ==> DocsDiffer(docs[i], docs[j])
    ensures TakeDocuments(env, s, c, x, t, b, docs, n).Ok?
  {
    hide TakeDocument, DocOk, BodyFits, DocsDiffer, LoopState;
    if n > 0 {
      HonestTaken(env, s, c, x, t, b, docs, n - 1);
      DocumentsTaken(env, s, c, x, t, b, docs, n - 1);
      HonestTurn(env, s, c, x, t, b, docs, n - 1, TakeDocuments(env, s, c, x, t, b, docs, n - 1).value);
    }
  }

  lemma {:induction false} TakenFits(env: Env, s: State, c: Command, x: Execution, t: Transient, b: Batch,
                                     docs: seq<Bundle>, n: nat)
    requires n <= |docs| && TakeDocuments(env, s, c, x, t, b, docs, n).Ok?
    ensures forall i :: 0 <= i < n ==> BodyFits(env, c, x, t, b, docs[i])
  {
    hide TakeDocument, BodyFits;
    if n > 0 {
      TakenFits(env, s, c, x, t, b, docs, n - 1);
      var p := TakeDocuments(env, s, c, x, t, b, docs, n - 1).value;
      TakeDocumentFacts(env, s, c, x, t, b, p, docs[n - 1]);
      var q := TakeDocument(env, s, c, x, t, b, p, docs[n - 1]).value;
      BodyFitsAnywhere(env, c, x, t, b, p.v.(pub := q.v.pub), docs[n - 1]);
    }
  }

  /** The document loop, which only deletes from a map, accepts exactly honest evidence. */
  lemma HonestIff(env: Env, s: State, c: Command, x: Execution, t: Transient, b: Batch)
    ensures GatherDocuments(env, s, c, x, t, b).Ok? <==> Honest(env, s, c, x, t, b)
  {
    hide DocOk, DocsDiffer, BodyFits, TakeDocuments, FieldsOk, Increasing, LoopState;
    var docs := Submitted(c, t);
    assert RequiredTypes(c.name) == map[] ==> docs == [];
    EmptyIncreasing();
    FieldsIff(c, t);
    if GatherDocuments(env, s, c, x, t, b).Ok? {
      DocumentsTaken(env, s, c, x, t, b, docs, |docs|);
      TakenFits(env, s, c, x, t, b, docs, |docs|);
    }
    if Honest(env, s, c, x, t, b) {
      HonestTaken(env, s, c, x, t, b, docs, |docs|);
    }
  }

  lemma EmptyIncreasing()
    ensures Increasing([])
  {
  }

  // ---------------------------------------------------------------- analysis

  /** The one score that an evaluation of this batch can be accepted with. */
  function TheScore(s: State, r: Refs): Result<Score> {
    var p :- LoadPurchase(s, r.purchase);
    :- Need(p.PurchaseBody?, InvalidSchema);
    var x :- LoadReport(s, r.report);
    var cfg :- LoadConfig(s);
    PriceScore(p.price, x.input.price, cfg.threshold)
  }

  ghost predicate EvaluateFits(s: State, c: Command, t: Transient, b: Batch, r: Refs) {
    && c.payload.EvaluateInput?
    && EvaluationKey(b.id) !in s.pub && AnomalyRefKey(c.payload.anomaly) !in s.pub && c.payload.report == r.report
    && TheScore(s, r).Ok? && ScoreProposed(s, t, r)
  }

  /** A proposal and a salt; the proposal is the score, where there is one. */
  ghost predicate ScoreProposed(s: State, t: Transient, r: Refs) {
    && |t| == 2 && ReadSalt(t, RecordSaltField).Ok?
    && match TheScore(s, r)
       case Ok(score) => Get(t, ProposedField) == ScoreField(score)
       case Err(_) => true
  }

  /** Checks of the evaluation that a reachable ledger can never fail. */
  predicate NeverFires(e: ErrorCode) {
    e.PolicyMismatch? || e.InvalidMoney? || e.PrivateDataUnavailable? || e.MissingEvidence? || e.InternalError?
      || e.ConfigurationRequired?
  }

  /** A refusal is none of those, and blames the binding only for another batch's report. */
  predicate OwnErrors<T>(o: Result<T>, p: Payload, r: Refs) {
    match o
    case Ok(_) => true
    case Err(e) => !NeverFires(e) && (e.SourceBindingMismatch? ==> p.EvaluateInput? && p.report != r.report)
  }

  /** The private records of a reported batch pass every consistency check of the evaluation. */
  ghost predicate Consistent(s: State, b: Batch, r: Refs) {
    && r.report != NO_ID && r.purchase != NO_ID && r.freight != NO_ID
    && LoadConfig(s).Ok? && ThresholdOk(LoadConfig(s).value.threshold)
    && LoadPurchase(s, r.purchase).Ok? && LoadReport(s, r.report).Ok? && LoadCost(s, r.freight).Ok?
    && var p, x, k := LoadPurchase(s, r.purchase).value, LoadReport(s, r.report).value, LoadCost(s, r.freight).value;
       && p.PurchaseBody? && MoneyOk(p.price, x.input.price)
       && x.batch == b.id && k.batch == b.id && p.quantity == b.quantity && x.quantity == b.quantity
       && k.quantity == b.quantity
       && x.purchase == r.purchase && x.cost == r.freight && x.policy == LoadConfig(s).value.policy
       && p.currency == Try && x.input.currency == Try && k.currency == Try
       && p.tax == ExcludingTax && x.input.tax == ExcludingTax && k.tax == ExcludingTax
       && 0 <= k.total <= 1_000_000_000_000
  }

  lemma ReportedConsistent(s: State, id: Id)
    requires Inv(s) && BatchKey(id) in s.pub && BatchAt(s, id).state.RetailReported?
    ensures Consistent(s, BatchAt(s, id), RefsAt(s, id))
  {
    hide Indexed, History, Transfers, References, Evaluations, Consumed, Slots, Analysed, Versioned, Guarded;
    hide BatchAt, RefsAt, LoadPurchase, LoadReport, LoadCost, LoadConfig;
    assert RecordOk(s, id) && Opened(s, id);
  }

  lemma ScoreDefined(purchase: int, retail: int, threshold: int)
    requires MoneyOk(purchase, retail) && ThresholdOk(threshold)
    ensures PriceScore(purchase, retail, threshold).Ok?
  {
  }

  lemma EvaluateDecided(s: State, c: Command, x: Execution, t: Transient, b: Batch, r: Refs)
    requires Consistent(s, b, r) && c.payload.EvaluateInput?
    ensures Evaluate(s, c, x, t, b, r).Ok? <==> EvaluateFits(s, c, t, b, r)
    ensures OwnErrors(Evaluate(s, c, x, t, b, r), c.payload, r)
  {
    hide LoadPurchase, LoadReport, LoadCost, LoadConfig, HexId, PriceScore;
    ScoreDefined(LoadPurchase(s, r.purchase).value.price, LoadReport(s, r.report).value.input.price,
                 LoadConfig(s).value.threshold);
  }

  /**
   * An evaluation is accepted exactly for a reported, unevaluated batch with one
   * proposed score, the recomputed one; the policy, money, currency, binding and
   * availability checks on the stored records cannot fail.
   */
  lemma EvaluateIff(env: Env, s: State, c: Command, x: Execution, t: Transient)
    requires Inv(s) && Ready(env, s, c, x) && c.name.EvaluatePrice?
    ensures Apply(env, s, c, x, t).Ok? <==>
              BatchAt(s, c.batch).state.RetailReported?
                && EvaluateFits(s, c, t, BatchAt(s, c.batch), RefsAt(s, c.batch))
    ensures OwnErrors(Apply(env, s, c, x, t), c.payload, RefsAt(s, c.batch))
  {
    hide Ready, Apply, Admit, BatchAt, RefsAt, LifecycleOk, Evaluate, EvaluateFits, Admitted, LoadConfig, Consistent;
    hide CreateArm, OfferArm, AcceptArm, FreightArm, ReportArm, Inv;
    var b, r := BatchAt(s, c.batch), RefsAt(s, c.batch);
    ReadyAdmitted(env, s, c, x);
    ReadyOutcome(env, s, c, x, t, b, r);
    EvaluatePayload(s, c, x, Start(true, b, r));
    if b.state.RetailReported? {
      ReadyStored(env, s, c, x);
      ReportedConsistent(s, c.batch);
      EvaluateDecided(s, c, x, t, b, r);
    }
  }

  /** Three records about one batch, its grams and each other, in the one admitted currency and tax basis. */
  ghost predicate RecordsAgree(s: State, b: Batch, r: Refs) {
    && LoadPurchase(s, r.purchase).Ok? && LoadReport(s, r.report).Ok? && LoadCost(s, r.freight).Ok? && LoadConfig(s).Ok?
    && var p, x, k := LoadPurchase(s, r.purchase).value, LoadReport(s, r.report).value, LoadCost(s, r.freight).value;
       && p.PurchaseBody? && x.batch == b.id && k.batch == b.id
       && p.quantity == b.quantity && x.quantity == b.quantity && k.quantity == b.quantity
       && x.purchase == r.purchase && x.cost == r.freight && x.policy == LoadConfig(s).value.policy
       && p.currency == Try && x.input.currency == Try && k.currency == Try
       && p.tax == ExcludingTax && x.input.tax == ExcludingTax && k.tax == ExcludingTax
       && 0 <= k.total <= 1_000_000_000_000
  }

  /** On any ledger, reachable or not, an evaluation is let through only on records that agree. */
  lemma EvaluationGuarded(s: State, c: Command, x: Execution, t: Transient, b: Batch, r: Refs)
    requires Evaluate(s, c, x, t, b, r).Ok?
    ensures RecordsAgree(s, b, r) && r.purchase != NO_ID && r.freight != NO_ID && r.report != NO_ID
    ensures TheScore(s, r).Ok? && ScoreProposed(s, t, r)
  {
    hide LoadPurchase, LoadReport, LoadCost, LoadConfig, HexId, PriceScore;
  }

  /** On any ledger, a report is let through only in the currency and tax basis of the batch's own records. */
  lemma ReportGuarded(env: Env, s: State, c: Command, x: Execution, t: Transient, b: Batch, r: Refs, policy: Id,
                      v: Verified)
    requires TakeReport(env, s, c, x, t, b, r, policy, v).Ok?
    ensures LoadPurchase(s, r.purchase).Ok? && LoadCost(s, r.freight).Ok? && Get(t, RetailReportField).RetailField?
    ensures var p, k, input := LoadPurchase(s, r.purchase).value, LoadCost(s, r.freight).value,
                               Get(t, RetailReportField).retail;
            && p.PurchaseBody? && k.batch == b.id && k.quantity == b.quantity
            && p.currency == k.currency == input.currency && p.tax == k.tax == input.tax
  {
    hide LoadPurchase, LoadCost, HexId;
  }

  lemma EvaluatePayload(s: State, c: Command, x: Execution, st: Start)
    requires Admitted(s, c, x, st) && c.name.EvaluatePrice?
    ensures c.payload.EvaluateInput?
  {
    hide ValidId;
  }

  lemma ReadyStored(env: Env, s: State, c: Command, x: Execution)
    requires Ready(env, s, c, x)
    ensures BatchKey(c.batch) in s.pub
  {
    hide WellPosed;
  }

  /** The review inputs: a reviewer, fresh salts, and for a resolution an outcome with an explanation. */
  predicate ReviewInputsOk(env: Env, c: Command, t: Transient, recordSalt: string) {
    && |t| == 2 && ReadReview(c.name, t).Ok? && ReadSalt(t, ReviewSaltField).Ok?
    && var input, salt := ReadReview(c.name, t).value, ReadSalt(t, ReviewSaltField).value;
       && ValidId(input.reviewer, "REV") && HexId(input.salt) && salt != input.salt && salt != recordSalt
       && (c.name.ResolveReview? ==>
             input.outcome in {"EXPLAINED", "FOLLOW_UP_RECOMMENDED", "INSUFFICIENT_EVIDENCE"}
               && env.explanation(input.explanation))
  }

  ghost predicate ReviewFits(env: Env, s: State, c: Command, t: Transient, b: Batch) {
    && c.payload.ReviewTarget?
    && EvaluationKey(b.id) in s.pub && s.pub[EvaluationKey(b.id)].EvaluationValue?
    && s.pub[EvaluationKey(b.id)].evaluation.anomaly == c.payload.anomaly
    && LoadAnomaly(s, c.payload.anomaly).Ok?
    && var a := LoadAnomaly(s, c.payload.anomaly).value;
       && a.review == (if c.name.OpenReview? then Open else InReview)
       && ReviewInputsOk(env, c, t, a.salt)
  }

  lemma ReviewDecided(env: Env, s: State, c: Command, x: Execution, t: Transient, b: Batch)
    requires IsReview(c.name) && Analysed(s) && b.id == c.batch
    ensures Review(env, s, c, x, t, b).Ok? <==> ReviewFits(env, s, c, t, b)
  {
    hide HexId, ValidId, ReadSalt, ReadReview, Derived, ReviewsOf, LoadAnomaly;
    if EvaluationKey(b.id) in s.pub {
      assert Scored(s, b.id);
    }
  }

  lemma ReviewPayload(s: State, c: Command, x: Execution, st: Start)
    requires Admitted(s, c, x, st) && IsReview(c.name)
    ensures c.payload.ReviewTarget?
  {
    hide ValidId;
  }

  /**
   * A review step is accepted exactly in its review state, on the batch's own
   * anomaly, with well-formed fresh inputs.
   */
  lemma ReviewIff(env: Env, s: State, c: Command, x: Execution, t: Transient)
    requires Inv(s) && Ready(env, s, c, x) && IsReview(c.name)
    ensures Apply(env, s, c, x, t).Ok? <==>
              BatchAt(s, c.batch).state.RetailReported? && ReviewFits(env, s, c, t, BatchAt(s, c.batch))
  {
    hide Ready, Apply, Admit, BatchAt, RefsAt, Review, ReviewFits, Admitted, LoadConfig, LifecycleOk;
    hide CreateArm, OfferArm, AcceptArm, FreightArm, ReportArm;
    hide Configured, Records, Indexed, History, Transfers, References, Evaluations, Consumed, Slots, Privates, Analysed,
         Versioned;
    var b, r := BatchAt(s, c.batch), RefsAt(s, c.batch);
    ReadyAdmitted(env, s, c, x);
    ReadyOutcome(env, s, c, x, t, b, r);
    ReviewPayload(s, c, x, Start(true, b, r));
    assert b.id == c.batch by {
      StartedId(s, c, Start(true, b, r));
    }
    ReviewDecided(env, s, c, x, t, b);
  }

  // ------------------------------------------------- commands with documents

  lemma DocumentOf(env: Env, s: State, c: Command, x: Execution, t: Transient, b: Batch, v: Verified, k: DocType)
    returns (i: nat)
    requires Gathered(env, s, c, x, t, b, v) && k in RequiredTypes(c.name)
    ensures var docs := Submitted(c, t);
            && i < |docs| && docs[i].envelope.header.docType == k
            && DocOk(env, s, c, docs[i]) && DocUsed(c, x, b, docs[i], v)
  {
    hide DocUsed, DocOk, DocsDiffer, PrivFrom;
    var docs := Submitted(c, t);
    assert HasType(docs, k);
    i :| 0 <= i < |docs| && docs[i].envelope.header.docType == k;
  }

  /** A document that no slot of any batch names yet. */
  ghost predicate Referable(s: State, document: Id) {
    ValidId(document, "DOC") && DocRefKey(document) !in s.pub
  }

  lemma VerifiedReferable(env: Env, s: State, c: Command, d: Bundle)
    requires Slots(s) && DocOk(env, s, c, d)
    ensures Referable(s, d.envelope.header.document)
  {
    assert Referenced(s, d.envelope.header.document);
    hide ValidId, HexId, Reference, Slots;
  }

  lemma ConsumeOk(s: State, plan: Plan, document: Id, c: Command)
    requires Referable(s, document) && DocRefKey(document) !in plan
    ensures Consume(s, plan, document, c) == Ok(plan[DocRefKey(document) := Some(DocRefValue(c.batch, c.op))])
  {
    hide ValidId;
  }

  /** A batch is created exactly with honest evidence for an unused batch id. */
  lemma CreateIff(env: Env, s: State, c: Command, x: Execution, t: Transient)
    requires Inv(s) && LoadConfig(s).Ok? && c.name.CreateBatch? && WellPosed(env, c, x)
             && OperationKey(x.actor, c.op) !in s.pub
    ensures Apply(env, s, c, x, t).Ok?
            <==> BatchKey(c.batch) !in s.pub && c.expected == 0 && Honest(env, s, c, x, t, ZERO_BATCH)
  {
    hide Inv, WellPosed, Admit, Honest, GatherDocuments, LoadConfig, CreateArm, Finish, Slots, Gathered;
    HonestIff(env, s, c, x, t, ZERO_BATCH);
    CreateAdmitted(env, s, c, x);
    if BatchKey(c.batch) !in s.pub && c.expected == 0 && GatherDocuments(env, s, c, x, t, ZERO_BATCH).Ok? {
      var v := GatherDocuments(env, s, c, x, t, ZERO_BATCH).value;
      GatherFacts(env, s, c, x, t, ZERO_BATCH);
      CreateDecided(env, s, c, x, t, Start(false, ZERO_BATCH, EmptyRefs(c.batch)), v);
    }
  }

  lemma CreateAdmitted(env: Env, s: State, c: Command, x: Execution)
    requires Inv(s) && LoadConfig(s).Ok? && c.name.CreateBatch? && WellPosed(env, c, x)
             && OperationKey(x.actor, c.op) !in s.pub
    ensures Slots(s)
    ensures if BatchKey(c.batch) !in s.pub && c.expected == 0 then
      Admit(env, s, c, x) == Ok(Start(false, ZERO_BATCH, EmptyRefs(c.batch)))
            else Admit(env, s, c, x).Err?
  {
    hide Configured, Records, Indexed, History, Transfers, References, Evaluations, Consumed, Slots, Privates, Analysed,
         Versioned;
    hide Authorize, ValidId, ValidatePayload, ContextOk, LoadConfig;
  }

  lemma CreateDecided(env: Env, s: State, c: Command, x: Execution, t: Transient, st: Start, v: Verified)
    requires Slots(s) && c.name.CreateBatch? && Gathered(env, s, c, x, t, st.before, v)
    ensures CreateArm(s, c, x, st, v).Ok?
  {
    hide Slots, ValidId, Consume, DocOk, Gathered;
    var i := DocumentOf(env, s, c, x, t, st.before, v, ProducerEligibility);
    var d := Submitted(c, t)[i];
    VerifiedReferable(env, s, c, d);
    ConsumeOk(s, map[], v.cks, c);
  }

  // ------------------------------------------------------------------- pickup

  /** The purchase invoice among the documents pays exactly for the batch's grams. */
  ghost predicate InvoiceFits(docs: seq<Bundle>, b: Batch) {
    exists i :: 0 <= i < |docs| && docs[i].envelope.header.docType.PurchaseInvoice?
      && PurchaseOk(docs[i].body, b.quantity)
  }

  ghost predicate PickupFits(s: State, c: Command, t: Transient, b: Batch) {
    b.state.Created? && FreshTransfer(s, c.payload, b) && InvoiceFits(Submitted(c, t), b)
  }

  lemma InvoiceIff(c: Command, x: Execution, b: Batch, d: Bundle, v: Verified)
    requires d.envelope.header.docType.PurchaseInvoice? && DocUsed(c, x, b, d, v)
    requires b.producer == Producer && b.retailer == Retailer && 0 < b.quantity <= 100_000_000
    ensures v.quantity == b.quantity && ValidPurchase(v) <==> PurchaseOk(d.body, b.quantity)
  {
    assert d.body.PurchaseBody? && d.body.price == v.purchasePrice && d.body.quantity == v.quantity
        && d.body.total == v.purchaseTotal && d.body.currency == v.currency && d.body.tax == v.tax
        && d.body.seller == Producer && d.body.buyer == Retailer;
    hide DocUsed;
    if v.quantity == b.quantity && ValidPurchase(v) {
      PurchaseExact(v);
      PurchaseBounds(v);
      hide ValidPurchase;
      assert d.body.price * d.body.quantity == v.purchasePrice * v.quantity;
    }
    if PurchaseOk(d.body, b.quantity) {
      assert v.purchasePrice * v.quantity == d.body.price * d.body.quantity;
      hide Wrap64;
    }
  }

  /** Three verified documents of one pickup can all be consumed. */
  lemma PickupConsumes(env: Env, s: State, c: Command, x: Execution, t: Transient, st: Start, v: Verified)
    requires Slots(s) && c.name.OfferPickup? && Gathered(env, s, c, x, t, st.before, v)
    requires st.refs.cks != NO_ID && v.quantity == st.before.quantity && ValidPurchase(v)
    ensures PickupDocuments(s, c, st, v).Ok?
  {
    hide Slots, Referable, Consume, ValidPurchase, Gathered;
    PickupReferable(env, s, c, x, t, st.before, v);
    ConsumeOk(s, map[], v.purchase, c);
    var p1 := Consume(s, map[], v.purchase, c).value;
    ConsumeOk(s, p1, v.hks, c);
    var p2 := Consume(s, p1, v.hks, c).value;
    ConsumeOk(s, p2, v.manifest, c);
  }

  lemma PickupReferable(env: Env, s: State, c: Command, x: Execution, t: Transient, b: Batch, v: Verified)
    requires Slots(s) && c.name.OfferPickup? && Gathered(env, s, c, x, t, b, v)
    ensures Referable(s, v.purchase) && Referable(s, v.hks) && Referable(s, v.manifest)
    ensures v.purchase != v.hks && v.purchase != v.manifest && v.hks != v.manifest
  {
    hide Slots, DocOk, Referable, Gathered;
    var docs := Submitted(c, t);
    var i := DocumentOf(env, s, c, x, t, b, v, PurchaseInvoice);
    var j := DocumentOf(env, s, c, x, t, b, v, TradeNotification);
    var k := DocumentOf(env, s, c, x, t, b, v, TransportManifest);
    assert v.purchase == docs[i].envelope.header.document && v.hks == docs[j].envelope.header.document
        && v.manifest == docs[k].envelope.header.document;
    hide DocUsed, RequiredTypes;
    DistinctDocs(env, s, c, x, t, b, v, i, j);
    DistinctDocs(env, s, c, x, t, b, v, i, k);
    DistinctDocs(env, s, c, x, t, b, v, j, k);
    VerifiedReferable(env, s, c, docs[i]);
    VerifiedReferable(env, s, c, docs[j]);
    VerifiedReferable(env, s, c, docs[k]);
  }

  lemma DistinctDocs(env: Env, s: State, c: Command, x: Execution, t: Transient, b: Batch, v: Verified, i: nat, j: nat)
    requires Gathered(env, s, c, x, t, b, v) && i < |Submitted(c, t)| && j < |Submitted(c, t)|
    requires Submitted(c, t)[i].envelope.header.docType != Submitted(c, t)[j].envelope.header.docType
    ensures Submitted(c, t)[i].envelope.header.document != Submitted(c, t)[j].envelope.header.document
  {
    hide DocOk, DocUsed, PrivFrom, RequiredTypes, DocPlan, HasType;
    if i < j {
      assert DocsDiffer(Submitted(c, t)[i], Submitted(c, t)[j]);
    } else {
      assert DocsDiffer(Submitted(c, t)[j], Submitted(c, t)[i]);
    }
  }

  /** The one invoice of a pickup decides the money check. */
  lemma InvoiceDecides(env: Env, s: State, c: Command, x: Execution, t: Transient, b: Batch, v: Verified)
    requires c.name.OfferPickup? && Gathered(env, s, c, x, t, b, v)
    requires b.producer == Producer && b.retailer == Retailer && 0 < b.quantity <= 100_000_000
    ensures v.quantity == b.quantity && ValidPurchase(v) <==> InvoiceFits(Submitted(c, t), b)
  {
    hide DocUsed, DocOk, PrivFrom, ValidPurchase, PurchaseOk;
    var docs := Submitted(c, t);
    var i := DocumentOf(env, s, c, x, t, b, v, PurchaseInvoice);
    InvoiceIff(c, x, b, docs[i], v);
    forall j | 0 <= j < |docs| && j != i ensures !docs[j].envelope.header.docType.PurchaseInvoice? {
      assert if i < j then DocsDiffer(docs[i], docs[j]) else DocsDiffer(docs[j], docs[i]);
    }
  }

  lemma PickupDecided(env: Env, s: State, c: Command, x: Execution, t: Transient, st: Start, v: Verified)
    requires Slots(s) && Transfers(s) && Admitted(s, c, x, st) && st.existing && c.name.OfferPickup?
    requires BatchAt(s, c.batch) == st.before && LifecycleOk(c.batch, st.before, st.refs)
    requires Gathered(env, s, c, x, t, st.before, v)
    ensures OfferArm(s, c, x, st, v).Ok? <==> PickupFits(s, c, t, st.before)
  {
    hide ValidId, BatchAt, PickupDocuments, Slots, Gathered, ValidPurchase, InvoiceFits;
    InvoiceDecides(env, s, c, x, t, st.before, v);
    if PendingKey(c.batch) in s.pub {
      assert PendingOk(s, c.batch);
    }
    if v.quantity == st.before.quantity && ValidPurchase(v) {
      PickupConsumes(env, s, c, x, t, st, v);
    }
    if PickupDocuments(s, c, st, v).Ok? {
      PickupNotEmpty(s, c, st, v);
    }
  }

  /** A pickup is offered exactly from creation, with honest evidence and an invoice that pays exactly for the batch. */
  lemma OfferPickupIff(env: Env, s: State, c: Command, x: Execution, t: Transient)
    requires Inv(s) && Ready(env, s, c, x) && c.name.OfferPickup?
    ensures Apply(env, s, c, x, t).Ok? <==>
              Honest(env, s, c, x, t, BatchAt(s, c.batch)) && PickupFits(s, c, t, BatchAt(s, c.batch))
  {
    hide Ready, Apply, Admit, BatchAt, RefsAt, LifecycleOk, OfferArm, PickupFits, Admitted, LoadConfig, Honest,
         GatherDocuments, Gathered;
    hide Configured, Records, Indexed, History, Transfers, References, Evaluations, Consumed, Slots, Privates, Analysed,
         Versioned;
    var b, r := BatchAt(s, c.batch), RefsAt(s, c.batch);
    ReadyAdmitted(env, s, c, x);
    ReadyOutcome(env, s, c, x, t, b, r);
    HonestIff(env, s, c, x, t, b);
    if GatherDocuments(env, s, c, x, t, b).Ok? {
      GatherFacts(env, s, c, x, t, b);
      PickupDecided(env, s, c, x, t, Start(true, b, r), GatherDocuments(env, s, c, x, t, b).value);
    }
  }

  // ------------------------------------------------------------------ freight

  ghost predicate FreightFits(s: State, c: Command, t: Transient, b: Batch, r: Refs) {
    && c.payload.FreightInput?
    && (b.state.InTransport? || b.state.DeliveryPending?) && r.freight == NO_ID && CostRefKey(c.payload.cost) !in s.pub
    && FreightBilled(Submitted(c, t), b.quantity)
  }

  /** One of the documents bills the freight of these grams. */
  ghost predicate FreightBilled(docs: seq<Bundle>, quantity: int) {
    exists i :: 0 <= i < |docs| && FreightBodyOk(docs[i].body, quantity)
  }

  predicate FreightBodyOk(p: Body, quantity: int) {
    p.FreightBody? && p.quantity == quantity && 0 <= p.total <= 1_000_000_000_000 && p.currency == Try
      && p.tax == ExcludingTax
  }

  lemma FreightDecided(env: Env, s: State, c: Command, x: Execution, t: Transient, st: Start, v: Verified)
    requires Admitted(s, c, x, st) && st.existing && c.name.RecordFreightCost?
    requires LifecycleOk(c.batch, st.before, st.refs) && Gathered(env, s, c, x, t, st.before, v)
    ensures FreightArm(s, c, x, st, v).Ok? <==> FreightFits(s, c, t, st.before, st.refs)
  {
    hide ValidId, DocOk, PrivFrom, DocPlan, DocsDiffer, HasType;
    var docs := Submitted(c, t);
    var i := DocumentOf(env, s, c, x, t, st.before, v, FreightInvoice);
    assert |docs| == 1;
    hide Gathered;
    assert FreightBodyOk(docs[i].body, st.before.quantity) <==>
      v.quantity == st.before.quantity && 0 <= v.freightTotal <= 1_000_000_000_000 && v.currency == Try
        && v.tax == ExcludingTax;
  }

  /** Freight is recorded exactly once, in transport or while a delivery waits, for the batch's grams. */
  lemma FreightIff(env: Env, s: State, c: Command, x: Execution, t: Transient)
    requires Inv(s) && Ready(env, s, c, x) && c.name.RecordFreightCost?
    ensures Apply(env, s, c, x, t).Ok? <==>
              Honest(env, s, c, x, t, BatchAt(s, c.batch))
                && FreightFits(s, c, t, BatchAt(s, c.batch), RefsAt(s, c.batch))
  {
    hide Ready, Apply, Admit, BatchAt, RefsAt, LifecycleOk, FreightArm, FreightFits, Admitted, LoadConfig, Honest,
         GatherDocuments, Gathered;
    hide Configured, Records, Indexed, History, Transfers, References, Evaluations, Consumed, Slots, Privates, Analysed,
         Versioned;
    var b, r := BatchAt(s, c.batch), RefsAt(s, c.batch);
    ReadyAdmitted(env, s, c, x);
    ReadyOutcome(env, s, c, x, t, b, r);
    HonestIff(env, s, c, x, t, b);
    if GatherDocuments(env, s, c, x, t, b).Ok? {
      GatherFacts(env, s, c, x, t, b);
      FreightDecided(env, s, c, x, t, Start(true, b, r), GatherDocuments(env, s, c, x, t, b).value);
    }
  }

  // ------------------------------------------------------------------- report

  predicate RetailOk(env: Env, f: Field) {
    && f.RetailField? && env.dateTime(f.retail.reportedAt) && HexId(f.retail.salt)
    && 0 <= f.retail.price <= 1_000_000_000 && f.retail.currency == Try && f.retail.tax == ExcludingTax
  }

  /** A report under unused ids and the current policy. */
  ghost predicate FreshReport(s: State, p: Payload) {
    && p.ReportInput? && LotKey(p.lot) !in s.pub && ReportRefKey(p.report) !in s.pub
    && match LoadConfig(s)
       case Ok(cfg) => p.policy == cfg.policy
       case Err(_) => false
  }

  ghost predicate ReportFits(env: Env, s: State, c: Command, t: Transient, b: Batch) {
    && b.state.Received? && FreshReport(s, c.payload)
    && t.Keys == FieldsOf(c.name) && RetailOk(env, Get(t, RetailReportField))
  }

  /** What the stored records of a received batch are worth to a report. */
  ghost predicate Reportable(s: State, b: Batch, r: Refs) {
    && LoadConfig(s).Ok? && LoadPurchase(s, r.purchase).Ok? && LoadCost(s, r.freight).Ok?
    && PurchaseOk(LoadPurchase(s, r.purchase).value, b.quantity)
    && LoadCost(s, r.freight).value.batch == b.id && LoadCost(s, r.freight).value.quantity == b.quantity
    && LoadCost(s, r.freight).value.currency == Try && LoadCost(s, r.freight).value.tax == ExcludingTax
  }

  lemma ReceivedReportable(s: State, id: Id)
    requires Inv(s) && BatchKey(id) in s.pub && BatchAt(s, id).state.Received?
    ensures Reportable(s, BatchAt(s, id), RefsAt(s, id))
  {
    hide Indexed, History, Transfers, References, Evaluations, Consumed, Slots, Analysed, Versioned, Guarded;
    hide BatchAt, RefsAt, LoadPurchase, LoadReport, LoadCost, LoadConfig, PurchaseOk;
    assert RecordOk(s, id) && Opened(s, id);
  }

  /** The stored purchase, read back, is a valid purchase again. */
  lemma StoredPurchaseValid(p: Body, v: Verified, quantity: int)
    requires PurchaseOk(p, quantity) && 0 < quantity <= 100_000_000
    requires v.quantity == p.quantity && v.purchasePrice == p.price && v.purchaseTotal == p.total && v.currency == Try
             && v.tax == ExcludingTax
    ensures ValidPurchase(v)
  {
    assert v.purchasePrice * v.quantity == p.price * p.quantity;
    hide Wrap64;
  }

  lemma ReportDecided(env: Env, s: State, c: Command, x: Execution, t: Transient, st: Start, cfg: Configuration)
    requires Admitted(s, c, x, st) && st.existing && c.name.ReportRetailPrice? && LoadConfig(s) == Ok(cfg)
    requires LifecycleOk(c.batch, st.before, st.refs)
             && (st.before.state.Received? ==> Reportable(s, st.before, st.refs))
    requires FieldsOk(c, t).Ok?
    ensures var r := TakeReport(env, s, c, x, t, st.before, st.refs, cfg.policy, NOTHING);
            Decided(s, c, x, st.before, st.refs, r).Ok? <==> ReportFits(env, s, c, t, st.before)
  {
    hide ValidId, HexId, LoadPurchase, LoadCost, LoadConfig, FieldsOk, PurchaseOk, ValidPurchase;
    FieldsIff(c, t);
    var r := TakeReport(env, s, c, x, t, st.before, st.refs, cfg.policy, NOTHING);
    if st.before.state.Received? {
      var p := LoadPurchase(s, st.refs.purchase).value;
      assert p.PurchaseBody? && p.quantity == st.before.quantity && p.currency == Try && p.tax == ExcludingTax by {
        PurchaseShape(p, st.before.quantity);
      }
      if r.Ok? {
        assert r.value.currency == Try && r.value.tax == ExcludingTax;
        StoredPurchaseValid(p, r.value, st.before.quantity);
      }
    }
  }

  lemma PurchaseShape(p: Body, quantity: int)
    requires PurchaseOk(p, quantity)
    ensures p.PurchaseBody? && p.quantity == quantity && p.currency == Try && p.tax == ExcludingTax
  {
  }

  lemma ReportPrepared(env: Env, s: State, c: Command, x: Execution, t: Transient, b: Batch, r: Refs,
                       cfg: Configuration)
    requires c.name.ReportRetailPrice? && LoadConfig(s) == Ok(cfg)
    ensures if FieldsOk(c, t).Ok? then Prepare(env, s, c, x, t, b, r)
                                       == TakeReport(env, s, c, x, t, b, r, cfg.policy, NOTHING)
            else Prepare(env, s, c, x, t, b, r).Err?
  {
    hide LoadConfig, FieldsOk, TakeReport, TakeDocument;
    assert TakeDocuments(env, s, c, x, t, b, [], 0) == Ok(Evidence.Progress(map[], NOTHING));
  }

  /**
   * A retail price is reported exactly for a received batch, under unused ids, the
   * current policy and an admitted price.
   */
  lemma ReportIff(env: Env, s: State, c: Command, x: Execution, t: Transient)
    requires Inv(s) && Ready(env, s, c, x) && c.name.ReportRetailPrice?
    ensures Apply(env, s, c, x, t).Ok? <==> ReportFits(env, s, c, t, BatchAt(s, c.batch))
  {
    hide Ready, Apply, Admit, BatchAt, RefsAt, LifecycleOk, ReportArm, ReportFits, Admitted, LoadConfig, Prepare,
         TakeReport, FieldsOk, Reportable;
    hide Inv, CreateArm, OfferArm, AcceptArm, FreightArm;
    var b, r := BatchAt(s, c.batch), RefsAt(s, c.batch);
    ReadyAdmitted(env, s, c, x);
    ReadyOutcome(env, s, c, x, t, b, r);
    var cfg := LoadConfig(s).value;
    ReportPrepared(env, s, c, x, t, b, r, cfg);
    ReadyStored(env, s, c, x);
    if b.state.Received? {
      ReceivedReportable(s, c.batch);
    }
    if FieldsOk(c, t).Ok? {
      ReportDecided(env, s, c, x, t, Start(true, b, r), cfg);
    } else {
      NoFields(env, s, c, t, b);
    }
  }

  lemma NoFields(env: Env, s: State, c: Command, t: Transient, b: Batch)
    requires FieldsOk(c, t).Err?
    ensures !ReportFits(env, s, c, t, b)
  {
    FieldsIff(c, t);
  }

  // ------------------------------------------------------- on any ledger

  /** The verified purchase pays exactly price times grams, within its bounds. */
  predicate PaidExactly(v: Verified) {
    && 1 <= v.quantity <= 100_000_000 && 1 <= v.purchasePrice <= 1_000_000_000
    && 1 <= v.purchaseTotal <= 1_000_000_000_000 && v.purchasePrice * v.quantity == v.purchaseTotal * 1000
    && v.currency == Try && v.tax == ExcludingTax
  }

  /** What an offer, an acceptance, a freight cost or a report checks, whatever the ledger holds. */
  ghost predicate ArmChecks(s: State, c: Command, x: Execution, b: Batch, r: Refs, v: Verified) {
    match c.name
    case OfferPickup =>
      && x.actor == b.custodian == b.owner && PendingKey(b.id) !in s.pub && FreshTransfer(s, c.payload, b)
      && r.cks != NO_ID && v.quantity == b.quantity && PaidExactly(v)
    case OfferDelivery =>
      x.actor == b.custodian && PendingKey(b.id) !in s.pub && FreshTransfer(s, c.payload, b) && r.transport != NO_ID
    case AcceptPickup | AcceptDelivery =>
      && c.payload.HandoffInput? && c.payload.quantity == b.quantity && TransferKey(c.payload.transfer) in s.pub
      && (match s.pub[TransferKey(c.payload.transfer)]
          case TransferValue(t) =>
            && t.batch == b.id && t.from == b.custodian && t.to == x.actor && t.quantity == b.quantity
            && t.status == Offered && t.kind == (if c.name.AcceptPickup? then Pickup else Delivery)
            && PendingKey(b.id) in s.pub && s.pub[PendingKey(b.id)] == IdValue(t.id)
          case _ => false)
      && (c.name.AcceptDelivery? ==> r.freight != NO_ID)
    case RecordFreightCost => x.actor == b.custodian && r.freight == NO_ID && v.quantity == b.quantity
    case ReportRetailPrice =>
      && x.actor == b.custodian == b.owner && r.purchase != NO_ID && r.freight != NO_ID && r.report == NO_ID
      && b.lot == NO_ID && v.quantity == b.quantity && PaidExactly(v)
    case _ => true
  }

  lemma PaidGuarded(v: Verified)
    requires ValidPurchase(v)
    ensures PaidExactly(v)
  {
    PurchaseExact(v);
    hide Mul64;
  }

  lemma OfferGuarded(s: State, c: Command, x: Execution, st: Start, v: Verified)
    requires IsOffer(c.name) && OfferArm(s, c, x, st, v).Ok?
    ensures ArmChecks(s, c, x, st.before, st.refs, v)
  {
    hide ValidPurchase, Consume, PaidExactly;
    if c.name.OfferPickup? {
      PaidGuarded(v);
    }
  }

  /**
   * On any ledger, reachable or not, an accepted command was called by the
   * custodian, on a batch, transfer and evidence that agree; on reachable ledgers
   * most of these checks cannot fail.
   */
  lemma ArmGuarded(s: State, c: Command, x: Execution, st: Start, v: Verified)
    requires RunArm(s, c, x, st, v).Ok?
    ensures ArmChecks(s, c, x, st.before, st.refs, v)
  {
    hide ValidPurchase, PaidExactly, OfferArm, CreateArm;
    if IsOffer(c.name) {
      OfferGuarded(s, c, x, st, v);
    }
    if c.name.ReportRetailPrice? {
      PaidGuarded(v);
    }
  }

  // -------------------------------------------------------------- never stuck

  /** The batch is evaluated, and its review is not required or resolved. */
  ghost predicate Done(s: State, id: Id) {
    && EvaluationKey(id) in s.pub && s.pub[EvaluationKey(id)].EvaluationValue?
    && LoadAnomaly(s, s.pub[EvaluationKey(id)].evaluation.anomaly).Ok?
    && var a := LoadAnomaly(s, s.pub[EvaluationKey(id)].evaluation.anomaly).value;
       a.review.NotRequired? || a.review.Resolved?
  }

  /** The command that moves the batch on. */
  function NextName(s: State, id: Id): CommandName {
    var noFreight := RefsAt(s, id).freight == NO_ID;
    match BatchAt(s, id).state
    case Created => OfferPickup
    case PickupPending => AcceptPickup
    case InTransport => if noFreight then RecordFreightCost else OfferDelivery
    case DeliveryPending => if noFreight then RecordFreightCost else AcceptDelivery
    case Received => ReportRetailPrice
    case RetailReported =>
      if EvaluationKey(id) !in s.pub then EvaluatePrice
      else if UnderReview(s, id) then ResolveReview
      else OpenReview
  }

  predicate UnderReview(s: State, id: Id) {
    && EvaluationKey(id) in s.pub && s.pub[EvaluationKey(id)].EvaluationValue?
    && LoadAnomaly(s, s.pub[EvaluationKey(id)].evaluation.anomaly).Ok?
    && LoadAnomaly(s, s.pub[EvaluationKey(id)].evaluation.anomaly).value.review.InReview?
  }

  /** Unused ids, the stored quantity and references, and honest inputs; nothing is asked of the batch's state. */
  ghost predicate Supplied(env: Env, s: State, c: Command, x: Execution, t: Transient, b: Batch, r: Refs) {
    match c.name
    case OfferPickup =>
      FreshTransfer(s, c.payload, b) && Honest(env, s, c, x, t, b) && InvoiceFits(Submitted(c, t), b)
    case OfferDelivery => FreshTransfer(s, c.payload, b) && t == map[]
    case AcceptPickup | AcceptDelivery => NamesPending(s, c, b) && t == map[]
    case RecordFreightCost =>
      FreshCost(s, c.payload) && Honest(env, s, c, x, t, b) && FreightBilled(Submitted(c, t), b.quantity)
    case ReportRetailPrice =>
      FreshReport(s, c.payload) && t.Keys == FieldsOf(c.name) && RetailOk(env, Get(t, RetailReportField))
    case EvaluatePrice => FreshAnomaly(s, c.payload, r) && ScoreProposed(s, t, r)
    case OpenReview | ResolveReview => NamesAnomaly(s, c) && ReviewGiven(env, s, c, t)
    case CreateBatch => true
  }

  ghost predicate NamesPending(s: State, c: Command, b: Batch) {
    && c.payload.HandoffInput? && c.payload.quantity == b.quantity
    && (PendingKey(c.batch) in s.pub ==> s.pub[PendingKey(c.batch)] == IdValue(c.payload.transfer))
  }

  ghost predicate FreshCost(s: State, p: Payload) {
    p.FreightInput? && CostRefKey(p.cost) !in s.pub
  }

  ghost predicate FreshAnomaly(s: State, p: Payload, r: Refs) {
    p.EvaluateInput? && AnomalyRefKey(p.anomaly) !in s.pub && p.report == r.report
  }

  ghost predicate NamesAnomaly(s: State, c: Command) {
    && c.payload.ReviewTarget?
    && (EvaluationKey(c.batch) in s.pub && s.pub[EvaluationKey(c.batch)].EvaluationValue? ==>
          c.payload.anomaly == s.pub[EvaluationKey(c.batch)].evaluation.anomaly)
  }

  ghost predicate ReviewGiven(env: Env, s: State, c: Command, t: Transient) {
    && c.payload.ReviewTarget?
    && match LoadAnomaly(s, c.payload.anomaly)
       case Ok(a) => ReviewInputsOk(env, c, t, a.salt)
       case Err(_) => true
  }

  lemma TransportSteps(env: Env, s: State, c: Command, x: Execution, t: Transient, b: Batch, r: Refs)
    requires LifecycleOk(c.batch, b, r) && Transfers(s) && BatchKey(c.batch) in s.pub && BatchAt(s, c.batch) == b
    requires Supplied(env, s, c, x, t, b, r)
    ensures b.state.Created? && c.name.OfferPickup? ==> Honest(env, s, c, x, t, b) && PickupFits(s, c, t, b)
    ensures b.state.PickupPending? && c.name.AcceptPickup? ==> AcceptFits(s, c, b, r)
    ensures (b.state.InTransport? || b.state.DeliveryPending?) && r.freight == NO_ID && c.name.RecordFreightCost? ==>
              Honest(env, s, c, x, t, b) && FreightFits(s, c, t, b, r)
    ensures b.state.InTransport? && c.name.OfferDelivery? ==> OfferFits(s, c, b)
    ensures b.state.DeliveryPending? && r.freight != NO_ID && c.name.AcceptDelivery? ==> AcceptFits(s, c, b, r)
    ensures b.state.Received? && c.name.ReportRetailPrice? ==> ReportFits(env, s, c, t, b)
  {
    hide Honest, InvoiceFits, FreightBilled, FreshTransfer, FreshReport, FieldsOk, RetailOk, LoadConfig, BatchAt,
         TransferOk, NamesAnomaly, ReviewGiven, ScoreProposed;
    assert Pending(b.state) ==> PendingKey(c.batch) in s.pub;
  }

  lemma SuppliedPlain(env: Env, s: State, c: Command, x: Execution, t: Transient, b: Batch, r: Refs)
    requires Supplied(env, s, c, x, t, b, r)
    ensures IsAccept(c.name) || c.name.OfferDelivery? ==> t == map[]
  {
  }

  lemma ScoreStored(s: State, b: Batch, r: Refs)
    requires Consistent(s, b, r)
    ensures TheScore(s, r).Ok?
  {
    hide LoadPurchase, LoadReport, LoadCost, LoadConfig, PriceScore;
    ScoreDefined(LoadPurchase(s, r.purchase).value.price, LoadReport(s, r.report).value.input.price,
                 LoadConfig(s).value.threshold);
  }

  lemma AnalysisMoves(env: Env, s: State, c: Command, x: Execution, t: Transient, b: Batch, r: Refs)
    requires Analysed(s) && b.id == c.batch && Supplied(env, s, c, x, t, b, r)
    ensures EvaluationKey(c.batch) !in s.pub && c.name.EvaluatePrice? && TheScore(s, r).Ok? ==>
              EvaluateFits(s, c, t, b, r)
    ensures (EvaluationKey(c.batch) in s.pub && !Done(s, c.batch)
             && c.name == (if UnderReview(s, c.batch) then ResolveReview else OpenReview)) ==>
                  ReviewFits(env, s, c, t, b)
  {
    hide LoadAnomaly, TheScore, ScoreProposed, ReviewInputsOk, Derived, ReviewsOf, Honest, InvoiceFits, FreightBilled,
         FreshTransfer, FreshReport;
    if EvaluationKey(c.batch) in s.pub {
      assert Scored(s, c.batch);
    }
  }

  /** Until a batch is done, its next command is accepted whenever it is well posed and properly supplied. */
  lemma SuppliedAccepted(env: Env, rs: seq<Request>, c: Command, x: Execution, t: Transient)
    requires var s := Run(env, rs);
             && Ready(env, s, c, x) && c.name == NextName(s, c.batch) && !Done(s, c.batch)
             && Supplied(env, s, c, x, t, BatchAt(s, c.batch), RefsAt(s, c.batch))
    ensures Apply(env, Run(env, rs), c, x, t).Ok?
  {
    hide *;
    RunInv(env, rs);
    Unstuck(env, Run(env, rs), c, x, t);
  }

  lemma Unstuck(env: Env, s: State, c: Command, x: Execution, t: Transient)
    requires Inv(s) && Ready(env, s, c, x) && c.name == NextName(s, c.batch) && !Done(s, c.batch)
    requires Supplied(env, s, c, x, t, BatchAt(s, c.batch), RefsAt(s, c.batch))
    ensures Apply(env, s, c, x, t).Ok?
  {
    hide Ready, Apply, BatchAt, RefsAt, LifecycleOk, Supplied, Honest, PickupFits, AcceptFits, FreightFits, OfferFits,
         ReportFits, Admitted;
    hide EvaluateFits, ReviewFits, TheScore, Done, UnderReview, LoadConfig, Consistent, Admit;
    hide Configured, Records, Indexed, History, Transfers, References, Evaluations, Consumed, Slots, Privates, Analysed,
         Versioned;
    var b, r := BatchAt(s, c.batch), RefsAt(s, c.batch);
    ReadyAdmitted(env, s, c, x);
    ReadyStored(env, s, c, x);
    StartedId(s, c, Start(true, b, r));
    SuppliedPlain(env, s, c, x, t, b, r);
    TransportSteps(env, s, c, x, t, b, r);
    if b.state.RetailReported? {
      ReportedConsistent(s, c.batch);
      ScoreStored(s, b, r);
      AnalysisMoves(env, s, c, x, t, b, r);
    }
    match c.name
    case OfferPickup => OfferPickupIff(env, s, c, x, t);
    case AcceptPickup | AcceptDelivery => AcceptIff(env, s, c, x, t);
    case OfferDelivery => OfferDeliveryIff(env, s, c, x, t);
    case RecordFreightCost => FreightIff(env, s, c, x, t);
    case ReportRetailPrice => ReportIff(env, s, c, x, t);
    case EvaluatePrice => EvaluateIff(env, s, c, x, t);
    case OpenReview | ResolveReview => ReviewIff(env, s, c, x, t);
    case CreateBatch =>
  }

  lemma DoneRefuses(env: Env, s: State, c: Command, t: Transient, b: Batch, r: Refs)
    requires Done(s, c.batch) && b.id == c.batch && b.state.RetailReported?
    ensures !EvaluateFits(s, c, t, b, r) && !(IsReview(c.name) && ReviewFits(env, s, c, t, b))
    ensures !AcceptFits(s, c, b, r) && !OfferFits(s, c, b) && !PickupFits(s, c, t, b) && !FreightFits(s, c, t, b, r)
    ensures !ReportFits(env, s, c, t, b)
  {
    hide ReviewInputsOk, InvoiceFits, FreightBilled, RetailOk, FieldsOk, FreshTransfer, FreshReport, TheScore,
         ScoreProposed, LoadAnomaly;
  }

  lemma EvaluatedIsReported(s: State, id: Id)
    requires Evaluations(s) && EvaluationKey(id) in s.pub
    ensures BatchAt(s, id).state.RetailReported?
  {
    hide BatchAt, RefsAt;
  }

  /** A batch that is done accepts no further command at all. */
  lemma DoneIsFinal(env: Env, rs: seq<Request>, c: Command, x: Execution, t: Transient)
    requires Ready(env, Run(env, rs), c, x) && Done(Run(env, rs), c.batch)
    ensures Apply(env, Run(env, rs), c, x, t).Err?
  {
    hide *;
    RunInv(env, rs);
    Settled(env, Run(env, rs), c, x, t);
  }

  lemma Settled(env: Env, s: State, c: Command, x: Execution, t: Transient)
    requires Inv(s) && Ready(env, s, c, x) && Done(s, c.batch)
    ensures Apply(env, s, c, x, t).Err?
  {
    hide Ready, Apply, BatchAt, RefsAt, LifecycleOk, Honest, PickupFits, AcceptFits, FreightFits, OfferFits, ReportFits,
         Admitted;
    hide EvaluateFits, ReviewFits, TheScore, LoadAnomaly, Admit, OwnErrors;
    hide Configured, Records, Indexed, History, Transfers, References, Evaluations, Consumed, Slots, Privates, Analysed,
         Versioned;
    var b, r := BatchAt(s, c.batch), RefsAt(s, c.batch);
    ReadyAdmitted(env, s, c, x);
    ReadyStored(env, s, c, x);
    StartedId(s, c, Start(true, b, r));
    EvaluatedIsReported(s, c.batch);
    DoneRefuses(env, s, c, t, b, r);
    match c.name
    case OfferPickup => OfferPickupIff(env, s, c, x, t);
    case AcceptPickup | AcceptDelivery => AcceptIff(env, s, c, x, t);
    case OfferDelivery => OfferDeliveryIff(env, s, c, x, t);
    case RecordFreightCost => FreightIff(env, s, c, x, t);
    case ReportRetailPrice => ReportIff(env, s, c, x, t);
    case EvaluatePrice => EvaluateIff(env, s, c, x, t);
    case OpenReview | ResolveReview => ReviewIff(env, s, c, x, t);
    case CreateBatch => NotCreating(env, s, c, x);
  }

  lemma NotCreating(env: Env, s: State, c: Command, x: Execution)
    requires Ready(env, s, c, x)
    ensures !c.name.CreateBatch?
  {
    hide WellPosed;
  }
}
