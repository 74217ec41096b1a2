/** What holds of every ledger that requests can produce. */
module Invariants {
  import opened Types
  import opened Price
  import opened Evidence
  import opened Engine

  // ----------------------------------------------------------------- getters

  function BatchAt(s: State, id: Id): Batch {
    if BatchKey(id) in s.pub && s.pub[BatchKey(id)].BatchValue? then s.pub[BatchKey(id)].batch else ZERO_BATCH
  }

  function RefsAt(s: State, id: Id): Refs {
    if RefsKey(id) in s.pub && s.pub[RefsKey(id)].RefsValue? then s.pub[RefsKey(id)].refs else EmptyRefs(id)
  }

  // --------------------------------------------------------------- lifecycle

  function OwnerIn(state: Lifecycle): Msp {
    if state.Received? || state.RetailReported? then Retailer else Producer
  }

  function CustodianIn(state: Lifecycle): Msp {
    match state
    case Created | PickupPending => Producer
    case InTransport | DeliveryPending => Logistics
    case Received | RetailReported => Retailer
  }

  /** The state determines the owner, the custodian, the lot and the filled evidence slots. */
  predicate LifecycleOk(id: Id, b: Batch, r: Refs) {
    && b.id == id && r.batch == id
    && QuantityOk(b.quantity)
    && b.producer == Producer && b.logistics == Logistics && b.retailer == Retailer
    && b.owner == OwnerIn(b.state) && b.custodian == CustodianIn(b.state)
    && r.cks != NO_ID
    && (r.purchase == NO_ID <==> b.state.Created?)
    && (r.hks == NO_ID <==> b.state.Created?)
    && (r.transport == NO_ID <==> b.state.Created?)
    && (b.state.Created? || b.state.PickupPending? ==> r.freight == NO_ID)
    && (b.state.Received? || b.state.RetailReported? ==> r.freight != NO_ID)
    && (r.report != NO_ID <==> b.state.RetailReported?)
    && (b.lot != NO_ID <==> b.state.RetailReported?)
  }

  ghost predicate RecordOk(s: State, id: Id)
    requires BatchKey(id) in s.pub
  {
    && s.pub[BatchKey(id)].BatchValue?
    && RefsKey(id) in s.pub && s.pub[RefsKey(id)].RefsValue?
    && LifecycleOk(id, BatchAt(s, id), RefsAt(s, id))
  }

  ghost predicate Records(s: State) {
    && (forall id {:trigger BatchKey(id) in s.pub} :: BatchKey(id) in s.pub ==> RecordOk(s, id))
    && (forall id {:trigger RefsKey(id) in s.pub} :: RefsKey(id) in s.pub ==> BatchKey(id) in s.pub)
  }

  // ----------------------------------------------------------------- indexes

  /** Each batch has exactly one owner entry and one state entry, equal to its fields. */
  ghost predicate Indexed(s: State) {
    && (forall m, id {:trigger OwnerKey(m, id) in s.pub} :: OwnerKey(m, id) in s.pub ==>
          s.pub[OwnerKey(m, id)] == IdValue(id) && BatchKey(id) in s.pub && BatchAt(s, id).owner == m)
    && (forall l, id {:trigger StateKey(l, id) in s.pub} :: StateKey(l, id) in s.pub ==>
          s.pub[StateKey(l, id)] == IdValue(id) && BatchKey(id) in s.pub && BatchAt(s, id).state == l)
    && (forall id {:trigger BatchKey(id) in s.pub} :: BatchKey(id) in s.pub ==>
          OwnerKey(BatchAt(s, id).owner, id) in s.pub && StateKey(BatchAt(s, id).state, id) in s.pub)
  }

  // ----------------------------------------------------------------- history

  /** A receipt is stored identically under its version and under its operation. */
  ghost predicate SameReceipt(s: State, k: Key, r: Receipt) {
    k in s.pub && s.pub[k] == ReceiptValue(r)
  }

  ghost predicate History(s: State) {
    && (forall id, n {:trigger HistoryKey(id, n) in s.pub} :: HistoryKey(id, n) in s.pub ==>
          && s.pub[HistoryKey(id, n)].ReceiptValue?
          && BatchKey(id) in s.pub && 1 <= n <= BatchAt(s, id).version
          && var r := s.pub[HistoryKey(id, n)].receipt;
             r.batch == id && r.version == n && SameReceipt(s, OperationKey(r.actor, r.op), r))
    && (forall id, n {:trigger HistoryKey(id, n) in s.pub} ::
          BatchKey(id) in s.pub && 1 <= n <= BatchAt(s, id).version ==> HistoryKey(id, n) in s.pub)
    && (forall a, op {:trigger OperationKey(a, op) in s.pub} :: OperationKey(a, op) in s.pub ==>
          && s.pub[OperationKey(a, op)].ReceiptValue?
          && var r := s.pub[OperationKey(a, op)].receipt;
             r.actor == a && r.op == op && SameReceipt(s, HistoryKey(r.batch, r.version), r))
  }

  // --------------------------------------------------------------- transfers

  predicate Pending(state: Lifecycle) {
    state.PickupPending? || state.DeliveryPending?
  }

  /** A committed receipt of this caller and operation, for this batch, command and transaction. */
  ghost predicate Receipted(s: State, actor: Msp, op: Id, batch: Id, command: CommandName, tx: string) {
    && OperationKey(actor, op) in s.pub && s.pub[OperationKey(actor, op)].ReceiptValue?
    && var r := s.pub[OperationKey(actor, op)].receipt;
       r.batch == batch && r.command == command && r.tx == tx
  }

  function ReceiptVersion(s: State, actor: Msp, op: Id): int {
    if OperationKey(actor, op) in s.pub && s.pub[OperationKey(actor, op)].ReceiptValue?
    then s.pub[OperationKey(actor, op)].receipt.version else 0
  }

  /** Route, quantity and receipts of a transfer; it is OFFERED exactly while the batch's pending entry names it. */
  ghost predicate TransferOk(s: State, id: Id)
    requires TransferKey(id) in s.pub
  {
    && s.pub[TransferKey(id)].TransferValue?
    && var t := s.pub[TransferKey(id)].transfer;
       && t.id == id && BatchKey(t.batch) in s.pub && t.quantity == BatchAt(s, t.batch).quantity
       && (t.kind.Pickup? ==> t.from == Producer && t.to == Logistics)
       && (t.kind.Delivery? ==> t.from == Logistics && t.to == Retailer)
       && (t.status.Offered? <==> PendingKey(t.batch) in s.pub && s.pub[PendingKey(t.batch)] == IdValue(id))
       && Receipted(s, t.from, t.offerOp, t.batch, if t.kind.Pickup? then OfferPickup else OfferDelivery, t.offeredTx)
       && (t.status.Accepted? ==>
             && Receipted(s, t.to, t.acceptOp, t.batch, if t.kind.Pickup? then AcceptPickup else AcceptDelivery,
                          t.acceptedTx)
             && ReceiptVersion(s, t.from, t.offerOp) < ReceiptVersion(s, t.to, t.acceptOp))
  }

  /** The pending entry of a batch names a transfer of that batch, of the kind its state waits for. */
  ghost predicate PendingOk(s: State, id: Id)
    requires PendingKey(id) in s.pub
  {
    && s.pub[PendingKey(id)].IdValue?
    && BatchKey(id) in s.pub && Pending(BatchAt(s, id).state)
    && var k := TransferKey(s.pub[PendingKey(id)].id);
       && k in s.pub && s.pub[k].TransferValue?
       && s.pub[k].transfer.batch == id
       && s.pub[k].transfer.kind == (if BatchAt(s, id).state.PickupPending? then Pickup else Delivery)
  }

  ghost predicate Transfers(s: State) {
    && (forall id {:trigger TransferKey(id) in s.pub} :: TransferKey(id) in s.pub ==> TransferOk(s, id))
    && (forall id {:trigger PendingKey(id) in s.pub} :: PendingKey(id) in s.pub ==> PendingOk(s, id))
    && (forall id {:trigger PendingKey(id) in s.pub} ::
          BatchKey(id) in s.pub && Pending(BatchAt(s, id).state) ==> PendingKey(id) in s.pub)
  }

  // -------------------------------------------------------------- references

  /** A cost entry names a batch whose freight slot names it. */
  ghost predicate CostRefOk(s: State, k: Id)
    requires CostRefKey(k) in s.pub
  {
    && k != NO_ID && s.pub[CostRefKey(k)].IdValue?
    && var id := s.pub[CostRefKey(k)].id; BatchKey(id) in s.pub && RefsAt(s, id).freight == k
  }

  ghost predicate ReportRefOk(s: State, k: Id)
    requires ReportRefKey(k) in s.pub
  {
    && k != NO_ID && s.pub[ReportRefKey(k)].IdValue?
    && var id := s.pub[ReportRefKey(k)].id; BatchKey(id) in s.pub && RefsAt(s, id).report == k
  }

  /** A lot is that of its batch: the same grams and the same report. */
  ghost predicate LotOk(s: State, k: Id)
    requires LotKey(k) in s.pub
  {
    && k != NO_ID && s.pub[LotKey(k)].LotValue?
    && var l := s.pub[LotKey(k)].lot;
       && l.id == k && BatchKey(l.batch) in s.pub && BatchAt(s, l.batch).lot == k
       && l.quantity == BatchAt(s, l.batch).quantity && l.report == RefsAt(s, l.batch).report
  }

  /** Lot, cost and report references and their batches are mutually inverse. */
  ghost predicate References(s: State) {
    && (forall k {:trigger CostRefKey(k) in s.pub} :: CostRefKey(k) in s.pub ==> CostRefOk(s, k))
    && (forall k {:trigger ReportRefKey(k) in s.pub} :: ReportRefKey(k) in s.pub ==> ReportRefOk(s, k))
    && (forall k {:trigger LotKey(k) in s.pub} :: LotKey(k) in s.pub ==> LotOk(s, k))
    && (forall id {:trigger BatchKey(id) in s.pub} :: BatchKey(id) in s.pub ==> ReferencesOf(s, id))
  }

  /** The references that a batch with these fields and slots must have. */
  ghost predicate Referred(s: State, id: Id, b: Batch, r: Refs) {
    && (r.freight != NO_ID ==> CostRefKey(r.freight) in s.pub && s.pub[CostRefKey(r.freight)] == IdValue(id))
    && (r.report != NO_ID ==> ReportRefKey(r.report) in s.pub && s.pub[ReportRefKey(r.report)] == IdValue(id))
    && (b.lot != NO_ID ==>
          LotKey(b.lot) in s.pub && s.pub[LotKey(b.lot)].LotValue? && s.pub[LotKey(b.lot)].lot.batch == id)
  }

  ghost predicate ReferencesOf(s: State, id: Id) {
    Referred(s, id, BatchAt(s, id), RefsAt(s, id))
  }

  /** From a batch to its one evaluation, and on to the anomaly's reference. */
  ghost predicate EvaluationsLead(s: State) {
    forall id {:trigger EvaluationKey(id) in s.pub} :: EvaluationKey(id) in s.pub ==>
      && s.pub[EvaluationKey(id)].EvaluationValue?
      && var e := s.pub[EvaluationKey(id)].evaluation;
         && e.batch == id && BatchKey(id) in s.pub && BatchAt(s, id).state.RetailReported?
         && e.report == RefsAt(s, id).report
         && AnomalyRefKey(e.anomaly) in s.pub && s.pub[AnomalyRefKey(e.anomaly)] == EvaluationValue(e)
  }

  /** From an anomaly back to the batch it was evaluated for. */
  ghost predicate AnomaliesLead(s: State) {
    forall a {:trigger AnomalyRefKey(a) in s.pub} :: AnomalyRefKey(a) in s.pub ==>
      && s.pub[AnomalyRefKey(a)].EvaluationValue?
      && var e := s.pub[AnomalyRefKey(a)].evaluation;
         && e.anomaly == a && EvaluationKey(e.batch) in s.pub && s.pub[EvaluationKey(e.batch)] == EvaluationValue(e)
  }

  /** One evaluation per batch, found from the batch and from the anomaly alike. */
  ghost predicate Evaluations(s: State) {
    EvaluationsLead(s) && AnomaliesLead(s)
  }

  // ---------------------------------------------------------------- evidence

  /** The command and caller that consume a document type. */
  function ConsumerOf(k: DocType): (Msp, CommandName) {
    match k
    case ProducerEligibility => (Producer, CreateBatch)
    case FreightInvoice => (Logistics, RecordFreightCost)
    case _ => (Producer, OfferPickup)
  }

  /** A stored envelope holds its replay keys and a committed receipt of the operation it is bound to. */
  ghost predicate EnvelopeOk(s: State, d: Id)
    requires DocumentKey(d) in s.pub
  {
    && s.pub[DocumentKey(d)].EnvelopeValue?
    && var h := s.pub[DocumentKey(d)].envelope.header;
       && h.document == d
       && SourceUseKey(h.issuer, h.sourceDocument) in s.pub
       && NonceKey(h.issuer, h.nonce) in s.pub
       && OperationKey(ConsumerOf(h.docType).0, h.op) in s.pub
       && s.pub[OperationKey(ConsumerOf(h.docType).0, h.op)].ReceiptValue?
       && var r := s.pub[OperationKey(ConsumerOf(h.docType).0, h.op)].receipt;
          r.batch == h.batch && r.command == ConsumerOf(h.docType).1
  }

  predicate HeadersDiffer(h1: Header, h2: Header) {
    && !(h1.issuer == h2.issuer && h1.sourceDocument == h2.sourceDocument)
    && !(h1.issuer == h2.issuer && h1.nonce == h2.nonce)
  }

  /** Stored envelopes are injective in (issuer, source document) and in (issuer, nonce). */
  ghost predicate Consumed(s: State) {
    && (forall d {:trigger DocumentKey(d) in s.pub} :: DocumentKey(d) in s.pub ==> EnvelopeOk(s, d))
    && (forall d, e {:trigger DocumentKey(d) in s.pub, DocumentKey(e) in s.pub} ::
          DocumentKey(d) in s.pub && DocumentKey(e) in s.pub && d != e ==>
          HeadersDiffer(s.pub[DocumentKey(d)].envelope.header, s.pub[DocumentKey(e)].envelope.header))
  }

  /** A document of this type, bound to this batch, is stored under this id. */
  ghost predicate Stored(s: State, d: Id, k: DocType, batch: Id) {
    && DocumentKey(d) in s.pub && s.pub[DocumentKey(d)].EnvelopeValue?
    && var h := s.pub[DocumentKey(d)].envelope.header; h.docType == k && h.batch == batch
  }

  /**
   * Filled slots name stored documents of the right type; every document but a
   * freight invoice has a public reference.
   */
  ghost predicate Slots(s: State) {
    && (forall id {:trigger BatchKey(id) in s.pub} :: BatchKey(id) in s.pub ==> SlotsOf(s, id))
    && (forall d {:trigger DocRefKey(d) in s.pub} {:trigger DocumentKey(d) in s.pub} :: Referenced(s, d))
  }

  /** The public reference of a document: there exactly when the document is, unless it is a freight invoice. */
  ghost predicate Referenced(s: State, d: Id) {
    DocRefKey(d) in s.pub <==>
      DocumentKey(d) in s.pub && s.pub[DocumentKey(d)].EnvelopeValue?
      && !s.pub[DocumentKey(d)].envelope.header.docType.FreightInvoice?
  }

  ghost predicate SlotsOf(s: State, id: Id) {
    var r := RefsAt(s, id);
    && Stored(s, r.cks, ProducerEligibility, id)
    && (r.purchase != NO_ID ==> Stored(s, r.purchase, PurchaseInvoice, id))
    && (r.hks != NO_ID ==> Stored(s, r.hks, TradeNotification, id))
    && (r.transport != NO_ID ==> Stored(s, r.transport, TransportManifest, id))
  }

  // ----------------------------------------------------------------- private

  predicate PurchaseOk(p: Body, quantity: int) {
    && p.PurchaseBody? && p.quantity == quantity
    && 0 < p.price <= 1_000_000_000 && 0 < p.total <= 1_000_000_000_000
    && p.price * p.quantity == p.total * 1000
    && p.currency == Try && p.tax == ExcludingTax
    && p.seller == Producer && p.buyer == Retailer
  }

  ghost predicate PurchaseStored(s: State, document: Id, quantity: int) {
    LoadPurchase(s, document).Ok? && PurchaseOk(LoadPurchase(s, document).value, quantity)
  }

  ghost predicate CostStored(s: State, cost: Id, batch: Id, quantity: int) {
    && LoadCost(s, cost).Ok?
    && var r := LoadCost(s, cost).value;
       && r.cost == cost && r.batch == batch && r.quantity == quantity && 0 <= r.total <= 1_000_000_000_000
       && r.currency == Try && r.tax == ExcludingTax
  }

  ghost predicate ReportStored(s: State, report: Id, b: Batch, r: Refs) {
    && LoadReport(s, report).Ok? && LoadConfig(s).Ok?
    && var x := LoadReport(s, report).value;
       && x.report == report && x.batch == b.id && x.lot == b.lot && x.quantity == b.quantity
       && x.purchase == r.purchase && x.cost == r.freight && x.policy == LoadConfig(s).value.policy
       && 0 <= x.input.price <= 1_000_000_000 && x.input.currency == Try && x.input.tax == ExcludingTax
  }

  /** The private records a batch's slots name are there and agree with the batch. */
  ghost predicate Opened(s: State, id: Id) {
    var b, r := BatchAt(s, id), RefsAt(s, id);
    && (r.purchase != NO_ID ==> PurchaseStored(s, r.purchase, b.quantity))
    && (r.freight != NO_ID ==> CostStored(s, r.freight, id, b.quantity))
    && (r.report != NO_ID ==> ReportStored(s, r.report, b, r))
  }

  /** The public key that a private record goes with. */
  ghost predicate Counterpart(s: State, q: PrivKey) {
    match q
    case OpeningKey(_, d) => DocumentKey(d) in s.pub
    case CostKey(k) => CostRefKey(k) in s.pub
    case ReportKey(k) => ReportRefKey(k) in s.pub
    case AnomalyKey(a) => AnomalyRefKey(a) in s.pub
    case ActionKey(a, op) => ReviewRefKey(a, op) in s.pub
  }

  /** The operation, the anomaly and the private action that a review reference goes with. */
  ghost predicate ReviewGuarded(s: State, a: Id, op: Id)
    requires ReviewRefKey(a, op) in s.pub
  {
    && OperationKey(Regulator, op) in s.pub && AnomalyRefKey(a) in s.pub
    && s.pub[ReviewRefKey(a, op)] == IdValue(op)
    && ActionKey(a, op) in s.priv && s.priv[ActionKey(a, op)].ActionValue?
    && s.priv[ActionKey(a, op)].action.op == op && s.priv[ActionKey(a, op)].action.anomaly == a
  }

  /** Every private record has its public counterpart, so no later command can overwrite it. */
  ghost predicate Guarded(s: State) {
    && (forall q {:trigger q in s.priv} :: q in s.priv ==> Counterpart(s, q))
    && (forall a, op {:trigger ReviewRefKey(a, op) in s.pub} :: ReviewRefKey(a, op) in s.pub ==>
          ReviewGuarded(s, a, op))
  }

  ghost predicate Privates(s: State) {
    && (forall id {:trigger BatchKey(id) in s.pub} :: BatchKey(id) in s.pub ==> Opened(s, id))
    && Guarded(s)
  }

  // ---------------------------------------------------------------- analysis

  function ReviewSteps(r: ReviewState): int {
    match r
    case NotRequired | Open => 0
    case InReview => 1
    case Resolved => 2
  }

  /** The stored review actions of an anomaly, by operation. */
  function ReviewsOf(s: State, anomaly: Id): set<Id> {
    set k | k in s.pub && k.ReviewRefKey? && k.anomaly == anomaly :: k.op
  }

  /** The record is the price rule applied to the stored records that the slots name. */
  ghost predicate Derived(s: State, b: Batch, r: Refs, a: AnomalyRecord) {
    && LoadPurchase(s, r.purchase).Ok? && LoadReport(s, r.report).Ok? && LoadCost(s, r.freight).Ok? && LoadConfig(s).Ok?
    && var p, x, k, cfg := LoadPurchase(s, r.purchase).value, LoadReport(s, r.report).value,
                           LoadCost(s, r.freight).value, LoadConfig(s).value;
       && a.batch == b.id && a.report == r.report && a.policy == cfg.policy && a.threshold == cfg.threshold
       && p.PurchaseBody? && a.purchase == p.price && a.retail == x.input.price && a.freight == k.total
       && a.quantity == b.quantity
       && PriceScore(p.price, x.input.price, cfg.threshold) == Ok(a.score)
  }

  /** The stored anomaly record is derived, and its review state counts the stored review actions. */
  ghost predicate Scored(s: State, id: Id)
    requires EvaluationKey(id) in s.pub && s.pub[EvaluationKey(id)].EvaluationValue?
  {
    var e := s.pub[EvaluationKey(id)].evaluation;
    && LoadAnomaly(s, e.anomaly).Ok?
    && var a := LoadAnomaly(s, e.anomaly).value;
       && a.anomaly == e.anomaly && Derived(s, BatchAt(s, id), RefsAt(s, id), a)
       && (a.review.NotRequired? <==> a.score.verdict.NoSignal?)
       && |ReviewsOf(s, e.anomaly)| == ReviewSteps(a.review)
  }

  ghost predicate Analysed(s: State) {
    forall id {:trigger EvaluationKey(id) in s.pub} :: EvaluationKey(id) in s.pub ==>
      s.pub[EvaluationKey(id)].EvaluationValue? && Scored(s, id)
  }

  // ---------------------------------------------------------------- versions

  function Rank(state: Lifecycle): int {
    match state
    case Created => 1
    case PickupPending => 2
    case InTransport => 3
    case DeliveryPending => 4
    case Received => 5
    case RetailReported => 6
  }

  /** The commands spent on analysis: one evaluation and up to two reviews. */
  function AnalysisSteps(s: State, id: Id): int {
    if EvaluationKey(id) in s.pub && s.pub[EvaluationKey(id)].EvaluationValue? then
      var a := LoadAnomaly(s, s.pub[EvaluationKey(id)].evaluation.anomaly);
      if a.Ok? then 1 + ReviewSteps(a.value.review) else 1
    else 0
  }

  function VersionOf(s: State, id: Id): int {
    Rank(BatchAt(s, id).state) + (if RefsAt(s, id).freight != NO_ID then 1 else 0) + AnalysisSteps(s, id)
  }

  ghost predicate Versioned(s: State) {
    forall id {:trigger BatchKey(id) in s.pub} :: BatchKey(id) in s.pub ==> BatchAt(s, id).version == VersionOf(s, id)
  }

  // ----------------------------------------------------------- configuration

  ghost predicate Configured(s: State) {
    && (ConfigKey in s.pub ==> LoadConfig(s).Ok? && ThresholdOk(LoadConfig(s).value.threshold))
    && (forall id {:trigger BatchKey(id) in s.pub} :: BatchKey(id) in s.pub ==> ConfigKey in s.pub)
    && (forall i, k {:trigger SourceKeyKey(i, k) in s.pub} :: SourceKeyKey(i, k) in s.pub ==>
          ConfigKey in s.pub && s.pub[SourceKeyKey(i, k)].SourceKeyValue?)
    && (forall p {:trigger PolicyKey(p) in s.pub} :: PolicyKey(p) in s.pub ==> ConfigKey in s.pub)
  }

  ghost predicate Inv(s: State) {
    && Configured(s) && Records(s) && Indexed(s) && History(s) && Transfers(s) && References(s) && Evaluations(s)
    && Consumed(s) && Slots(s) && Privates(s) && Analysed(s) && Versioned(s)
  }
}
