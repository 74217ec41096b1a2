/** What an accepted command leaves on the ledger, told by the command and what was submitted with it. */
module Recorded {
  import opened Types
  import opened Price
  import opened Evidence
  import opened Engine
  import opened Ordering
  import opened Invariants
  import opened Preserve
  import opened Provenance
  import opened Runs
  import opened Guarantees
  import opened Origins

  predicate Holds<K, V(==)>(m: map<K, V>, k: K, v: V) {
    k in m && m[k] == v
  }

  // ------------------------------------------------------------- the batch

  /** The transition table: the state before, and the whole batch after. */
  predicate BatchMoves(b: Batch, n: Batch, c: Command, x: Execution) {
    var later := b.(version := b.version + 1, updatedTx := x.tx, time := x.time);
    match c.name
    case CreateBatch =>
      (match c.payload
       case CreateInput(product, grade, quantity, region, harvest, logistics, retailer) =>
         n == Batch(c.batch, product, grade, quantity, region, harvest, Producer, logistics, retailer, Producer,
                    Producer, Created, 1, NO_ID, x.tx, x.tx, x.time)
       case _ => false)
    case OfferPickup => b.state.Created? && n == later.(state := PickupPending)
    case AcceptPickup => b.state.PickupPending? && n == later.(state := InTransport, custodian := Logistics)
    case RecordFreightCost => (b.state.InTransport? || b.state.DeliveryPending?) && n == later
    case OfferDelivery => b.state.InTransport? && n == later.(state := DeliveryPending)
    case AcceptDelivery =>
      b.state.DeliveryPending? && n == later.(state := Received, owner := Retailer, custodian := Retailer)
    case ReportRetailPrice =>
      (match c.payload
       case ReportInput(_, lot, _) => b.state.Received? && n == later.(state := RetailReported, lot := lot)
       case _ => false)
    case EvaluatePrice | OpenReview | ResolveReview => b.state.RetailReported? && n == later
  }

  lemma OfferMoves(s: State, c: Command, x: Execution, st: Start, v: Verified, arm: Arm)
    requires IsOffer(c.name) && OfferArm(s, c, x, st, v) == Ok(arm)
    ensures BatchMoves(st.before, NewBatch(x, st, arm), c, x)
  {
    hide PickupDocuments;
  }

  lemma AcceptMoves(s: State, c: Command, x: Execution, st: Start, arm: Arm)
    requires IsAccept(c.name) && AcceptArm(s, c, x, st) == Ok(arm) && x.actor == RequiredCaller(c.name).0
    requires LifecycleOk(c.batch, st.before, st.refs)
    ensures BatchMoves(st.before, NewBatch(x, st, arm), c, x)
  {
  }

  lemma CreateMoves(s: State, c: Command, x: Execution, st: Start, v: Verified, arm: Arm)
    requires CreateArm(s, c, x, st, v) == Ok(arm) && c.name.CreateBatch? && x.actor == Producer
    requires st == Start(false, ZERO_BATCH, EmptyRefs(c.batch))
    ensures BatchMoves(st.before, NewBatch(x, st, arm), c, x)
  {
    hide Consume;
  }

  lemma ArmMoves(s: State, c: Command, x: Execution, st: Start, v: Verified, arm: Arm)
    requires RunArm(s, c, x, st, v) == Ok(arm) && x.actor == RequiredCaller(c.name).0
    requires IsAnalysis(c.name) ==> st.before.state.RetailReported?
    requires if c.name.CreateBatch? then st == Start(false, ZERO_BATCH, EmptyRefs(c.batch))
             else LifecycleOk(c.batch, st.before, st.refs)
    ensures BatchMoves(st.before, NewBatch(x, st, arm), c, x)
  {
    hide OfferArm, AcceptArm, CreateArm, ValidPurchase, LifecycleOk;
    match c.name
    case CreateBatch => CreateMoves(s, c, x, st, v, arm);
    case OfferPickup | OfferDelivery => OfferMoves(s, c, x, st, v, arm);
    case AcceptPickup | AcceptDelivery => AcceptMoves(s, c, x, st, arm);
    case _ =>
  }

  // ----------------------------------------------------------- evidence slots

  /** The document's id is in the slot of its type; a freight invoice has none. */
  predicate InSlot(r: Refs, h: Header) {
    match h.docType
    case ProducerEligibility => r.cks == h.document
    case PurchaseInvoice => r.purchase == h.document
    case TradeNotification => r.hks == h.document
    case TransportManifest => r.transport == h.document
    case FreightInvoice => true
    case OtherDocument(_) => false
  }

  /** Which slots a command fills: by submitted documents of their types, or by the id it names. */
  ghost predicate SlotsMove(r: Refs, n: Refs, c: Command, docs: seq<Bundle>) {
    && (forall i :: 0 <= i < |docs| ==> InSlot(n, docs[i].envelope.header))
    && match (c.name, c.payload)
       case (CreateBatch, _) => HasType(docs, ProducerEligibility) && n == EmptyRefs(c.batch).(cks := n.cks)
       case (OfferPickup, _) =>
         && HasType(docs, PurchaseInvoice) && HasType(docs, TradeNotification) && HasType(docs, TransportManifest)
         && n == r.(purchase := n.purchase, hks := n.hks, transport := n.transport)
       case (RecordFreightCost, FreightInput(cost)) => HasType(docs, FreightInvoice) && n == r.(freight := cost)
       case (ReportRetailPrice, ReportInput(report, _, _)) => n == r.(report := report)
       case _ => !c.name.RecordFreightCost? && !c.name.ReportRetailPrice? && n == r
  }

  lemma ArmSlots(s: State, c: Command, x: Execution, st: Start, v: Verified, arm: Arm)
    requires RunArm(s, c, x, st, v) == Ok(arm)
    requires c.name.CreateBatch? ==> st == Start(false, ZERO_BATCH, EmptyRefs(c.batch))
    ensures match c.name
            case CreateBatch => arm.refs == EmptyRefs(c.batch).(cks := v.cks)
            case OfferPickup =>
              arm.refs == st.refs.(purchase := v.purchase, hks := v.hks, transport := v.manifest)
            case RecordFreightCost => c.payload.FreightInput? && arm.refs == st.refs.(freight := c.payload.cost)
            case ReportRetailPrice => c.payload.ReportInput? && arm.refs == st.refs.(report := c.payload.report)
            case _ => arm.refs == st.refs
  {
    hide PickupDocuments, Consume, ValidPurchase;
    if c.name.OfferPickup? {
      PickupNotEmpty(s, c, st, v);
    }
  }

  lemma SlotsMoved(s: State, c: Command, x: Execution, st: Start, v: Verified, arm: Arm, docs: seq<Bundle>)
    requires RunArm(s, c, x, st, v) == Ok(arm) && SlotDocs(c, v, docs)
    requires c.name.CreateBatch? ==> st == Start(false, ZERO_BATCH, EmptyRefs(c.batch))
    requires forall i :: 0 <= i < |docs| ==> docs[i].envelope.header.docType in RequiredTypes(c.name)
    ensures SlotsMove(st.refs, arm.refs, c, docs)
  {
    hide RunArm, HasType;
    ArmSlots(s, c, x, st, v, arm);
  }

  // ------------------------------------------------------ transfers and lots

  /** A new offer of the whole batch, pending. */
  predicate OfferLeft(s: State, s': State, c: Command, x: Execution, b: Batch, kind: TransferKind, from: Msp, to: Msp) {
    match c.payload
    case HandoffInput(transfer, quantity) =>
      && quantity == b.quantity && TransferKey(transfer) !in s.pub && PendingKey(c.batch) !in s.pub
      && Holds(s'.pub, PendingKey(c.batch), IdValue(transfer))
      && Holds(s'.pub, TransferKey(transfer),
               TransferValue(Transfer(transfer, c.batch, kind, Offered, from, to, quantity, c.op, NO_ID, x.tx, "")))
    case _ => false
  }

  /** The pending offer, accepted; nothing is pending any more. */
  predicate AcceptLeft(s: State, s': State, c: Command, x: Execution, b: Batch, kind: TransferKind) {
    match c.payload
    case HandoffInput(transfer, quantity) =>
      && quantity == b.quantity
      && Holds(s.pub, PendingKey(c.batch), IdValue(transfer)) && PendingKey(c.batch) !in s'.pub
      && TransferKey(transfer) in s.pub
      && (match s.pub[TransferKey(transfer)]
          case TransferValue(was) =>
            && was.batch == c.batch && was.kind == kind && was.status == Offered
            && Holds(s'.pub, TransferKey(transfer),
                     TransferValue(was.(status := Accepted, acceptOp := c.op, acceptedTx := x.tx)))
          case _ => false)
    case _ => false
  }

  /** The transfer, cost, lot, report and analysis references that a command leaves. */
  predicate ObjectsLeft(s: State, s': State, c: Command, x: Execution, b: Batch, r: Refs) {
    match c.name
    case CreateBatch => true
    case OfferPickup => OfferLeft(s, s', c, x, b, Pickup, Producer, Logistics)
    case OfferDelivery => OfferLeft(s, s', c, x, b, Delivery, Logistics, Retailer)
    case AcceptPickup => AcceptLeft(s, s', c, x, b, Pickup)
    case AcceptDelivery => AcceptLeft(s, s', c, x, b, Delivery)
    case RecordFreightCost =>
      (match c.payload
       case FreightInput(cost) => CostRefKey(cost) !in s.pub && Holds(s'.pub, CostRefKey(cost), IdValue(c.batch))
       case _ => false)
    case ReportRetailPrice =>
      (match c.payload
       case ReportInput(report, lot, _) =>
         && LotKey(lot) !in s.pub && ReportRefKey(report) !in s.pub
         && Holds(s'.pub, LotKey(lot), LotValue(Lot(lot, c.batch, b.quantity, Retailer, report, x.tx)))
         && Holds(s'.pub, ReportRefKey(report), IdValue(c.batch))
       case _ => false)
    case EvaluatePrice =>
      (match c.payload
       case EvaluateInput(anomaly, report) =>
         && EvaluationKey(c.batch) !in s.pub && AnomalyRefKey(anomaly) !in s.pub && report == r.report
         && Holds(s'.pub, EvaluationKey(c.batch), EvaluationValue(Evaluation(c.batch, report, anomaly, x.tx)))
         && Holds(s'.pub, AnomalyRefKey(anomaly), EvaluationValue(Evaluation(c.batch, report, anomaly, x.tx)))
       case _ => false)
    case OpenReview | ResolveReview =>
      (match c.payload
       case ReviewTarget(anomaly) => Holds(s'.pub, ReviewRefKey(anomaly, c.op), IdValue(c.op))
       case _ => false)
  }

  lemma OfferObjects(s: State, s': State, c: Command, x: Execution, st: Start, v: Verified, arm: Arm)
    requires IsOffer(c.name) && OfferArm(s, c, x, st, v) == Ok(arm) && x.actor == RequiredCaller(c.name).0
    requires LifecycleOk(c.batch, st.before, st.refs) && ArmEffect(s, s', arm)
    ensures ObjectsLeft(s, s', c, x, st.before, st.refs)
  {
    hide PickupDocuments, EmptyRefs;
    assert TransferKey(c.payload.transfer) in s'.pub && PendingKey(c.batch) in s'.pub;
  }

  lemma AcceptObjects(s: State, s': State, c: Command, x: Execution, st: Start, arm: Arm)
    requires IsAccept(c.name) && AcceptArm(s, c, x, st) == Ok(arm) && Transfers(s)
    requires st.before.id == c.batch && ArmEffect(s, s', arm)
    ensures ObjectsLeft(s, s', c, x, st.before, st.refs)
  {
    assert TransferOk(s, c.payload.transfer);
    hide Transfers, TransferOk;
    assert TransferKey(c.payload.transfer) in s'.pub;
    assert PendingKey(c.batch) !in s'.pub;
  }

  lemma ReferenceObjects(s: State, s': State, c: Command, x: Execution, st: Start, v: Verified, arm: Arm)
    requires c.name.RecordFreightCost? || c.name.ReportRetailPrice?
    requires RunArm(s, c, x, st, v) == Ok(arm) && x.actor == RequiredCaller(c.name).0
    requires st.before.id == c.batch && ArmEffect(s, s', arm)
    ensures ObjectsLeft(s, s', c, x, st.before, st.refs)
  {
    hide ValidPurchase, CreateArm, OfferArm, AcceptArm;
    match c.payload
    case FreightInput(cost) => assert CostRefKey(cost) in s'.pub;
    case ReportInput(report, lot, _) => assert LotKey(lot) in s'.pub && ReportRefKey(report) in s'.pub;
  }

  lemma AnalysisObjects(s: State, s': State, c: Command, x: Execution, b: Batch, r: Refs, v: Verified)
    requires IsAnalysis(c.name) && ProofPlan(s, c, x, b, r, v) && b.id == c.batch && ProofEffect(s, s', v)
    ensures ObjectsLeft(s, s', c, x, b, r)
  {
    match c.payload
    case EvaluateInput(anomaly, _) => assert EvaluationKey(c.batch) in s'.pub && AnomalyRefKey(anomaly) in s'.pub;
    case ReviewTarget(anomaly) => assert ReviewRefKey(anomaly, c.op) in s'.pub;
  }

  lemma ObjectsMoved(s: State, s': State, c: Command, x: Execution, st: Start, v: Verified, arm: Arm)
    requires RunArm(s, c, x, st, v) == Ok(arm) && x.actor == RequiredCaller(c.name).0 && Transfers(s)
    requires ProofPlan(s, c, x, st.before, st.refs, v) && ArmEffect(s, s', arm) && ProofEffect(s, s', v)
    requires !c.name.CreateBatch? ==> LifecycleOk(c.batch, st.before, st.refs)
    ensures ObjectsLeft(s, s', c, x, st.before, st.refs)
  {
    hide OfferArm, AcceptArm, CreateArm, FreightArm, ReportArm, AnalysisArm, Transfers, ProofPlan, ArmEffect,
         ProofEffect, OfferLeft, AcceptLeft;
    match c.name
    case CreateBatch =>
    case OfferPickup | OfferDelivery => OfferObjects(s, s', c, x, st, v, arm);
    case AcceptPickup | AcceptDelivery => AcceptObjects(s, s', c, x, st, arm);
    case RecordFreightCost | ReportRetailPrice => ReferenceObjects(s, s', c, x, st, v, arm);
    case _ => AnalysisObjects(s, s', c, x, st.before, st.refs, v);
  }

  // ------------------------------------------------------- receipt and event

  /** The ids a command touches: its batch, what it names, and the documents it consumes for public slots. */
  function Touched(c: Command, n: Refs): set<Id> {
    match (c.name, c.payload)
    case (CreateBatch, _) => {c.batch, n.cks}
    case (OfferPickup, HandoffInput(transfer, _)) => {c.batch, n.purchase, n.hks, n.transport, transfer}
    case (_, HandoffInput(transfer, _)) => {c.batch, transfer}
    case (_, FreightInput(cost)) => {c.batch, cost}
    case (_, ReportInput(report, lot, policy)) => {c.batch, report, lot, policy}
    case (_, EvaluateInput(anomaly, report)) => {c.batch, anomaly, report}
    case (_, ReviewTarget(anomaly)) => {c.batch, anomaly}
    case _ => {}
  }

  function EventOf(name: CommandName): EventName {
    match name
    case CreateBatch => BatchCreated
    case OfferPickup => PickupOffered
    case AcceptPickup => PickupAccepted
    case RecordFreightCost => FreightCostRecorded
    case OfferDelivery => DeliveryOffered
    case AcceptDelivery => DeliveryAccepted
    case ReportRetailPrice => RetailPriceReported
    case EvaluatePrice => PriceEvaluated
    case OpenReview | ResolveReview => ReviewUpdated
  }

  /** One receipt, under its operation and under its version, and one event that repeats it. */
  ghost predicate ReceiptLeft(s: State, s': State, c: Command, x: Execution, n: Batch, r: Refs) {
    OperationKey(x.actor, c.op) in s'.pub
    && match s'.pub[OperationKey(x.actor, c.op)]
       case ReceiptValue(q) =>
         && q == Receipt(c.op, c.batch, c.name, x.actor, x.tx, x.time, n.version, q.ids)
         && Ascending(q.ids) && (forall id :: id in q.ids <==> id in Touched(c, r))
         && Holds(s'.pub, HistoryKey(c.batch, n.version), ReceiptValue(q))
         && var previous := if BatchKey(c.batch) in s.pub then Some(BatchAt(s, c.batch).state) else None;
            s'.events == s.events + [Event(EventOf(c.name), c.op, c.batch, x.actor, x.tx, x.time, n.version, q.ids,
                                           previous, n.state)]
       case _ => false
  }

  lemma OfferTouched(s: State, c: Command, x: Execution, st: Start, v: Verified, arm: Arm)
    requires IsOffer(c.name) && OfferArm(s, c, x, st, v) == Ok(arm)
    ensures arm.event == EventOf(c.name) && forall id :: id in arm.ids <==> id in Touched(c, arm.refs)
  {
    hide ValidPurchase, Consume;
  }

  lemma ArmTouched(s: State, c: Command, x: Execution, st: Start, v: Verified, arm: Arm)
    requires RunArm(s, c, x, st, v) == Ok(arm) && PayloadFits(c)
    ensures arm.event == EventOf(c.name) && forall id :: id in arm.ids <==> id in Touched(c, arm.refs)
  {
    hide ValidPurchase, Consume, OfferArm, ValidId;
    if IsOffer(c.name) {
      OfferTouched(s, c, x, st, v, arm);
    }
  }

  lemma EventFinished(s: State, c: Command, x: Execution, st: Start, v: Verified, arm: Arm)
    ensures var n := NewBatch(x, st, arm);
            After(s, Finish(c, x, st, arm, v)).events
            == s.events + [Event(arm.event, c.op, c.batch, x.actor, x.tx, x.time, n.version,
                                 NewReceipt(c, x, st, arm).ids, if st.existing then Some(st.before.state) else None,
                                 n.state)]
  {
    hide BasePlan, Commit;
  }

  lemma ReceiptMoved(s: State, s': State, c: Command, x: Execution, st: Start, v: Verified, arm: Arm)
    requires RunArm(s, c, x, st, v) == Ok(arm) && PayloadFits(c) && ReceiptEffect(s, s', c, x, st, arm)
    requires s'.events == After(s, Finish(c, x, st, arm, v)).events
    requires st.existing <==> BatchKey(c.batch) in s.pub
    requires st.existing ==> BatchAt(s, c.batch) == st.before
    ensures ReceiptLeft(s, s', c, x, NewBatch(x, st, arm), arm.refs)
  {
    hide RunArm, Finish, After, BatchAt, Touched, EventOf, SortedUnique, PayloadFits;
    ArmTouched(s, c, x, st, v, arm);
    SortedUniqueFacts(arm.ids);
    EventFinished(s, c, x, st, v, arm);
  }

  // --------------------------------------------------------------- documents

  /** A consumed document: its envelope, its two replay keys and, but for a freight invoice, its public reference. */
  predicate DocumentLeft(s: State, s': State, c: Command, x: Execution, e: Envelope) {
    var h, use := e.header, UseValue(c.batch, c.op, x.tx);
    && h.batch == c.batch && h.op == c.op
    && DocumentKey(h.document) !in s.pub && Holds(s'.pub, DocumentKey(h.document), EnvelopeValue(e))
    && SourceUseKey(h.issuer, h.sourceDocument) !in s.pub
    && Holds(s'.pub, SourceUseKey(h.issuer, h.sourceDocument), use)
    && NonceKey(h.issuer, h.nonce) !in s.pub && Holds(s'.pub, NonceKey(h.issuer, h.nonce), use)
    && (h.docType.FreightInvoice? || Holds(s'.pub, DocRefKey(h.document), DocRefValue(c.batch, c.op)))
  }

  lemma {:induction false} DocPlanUses(docs: seq<Bundle>, n: nat, tx: string, i: nat)
    requires i < n <= |docs|
    requires forall i, j :: 0 <= i < j < n ==> DocsDiffer(docs[i], docs[j])
    ensures var h, p := docs[i].envelope.header, DocPlan(docs, n, tx);
            var use := Some(UseValue(h.batch, h.op, tx));
            && Holds(p, SourceUseKey(h.issuer, h.sourceDocument), use) && Holds(p, NonceKey(h.issuer, h.nonce), use)
  {
    if i < n - 1 {
      assert DocsDiffer(docs[i], docs[n - 1]);
      DocPlanUses(docs, n - 1, tx, i);
    }
  }

  lemma ConsumeRefs(s: State, plan: Plan, document: Id, c: Command)
    requires Consume(s, plan, document, c).Ok?
    ensures Consume(s, plan, document, c).value == plan[DocRefKey(document) := Some(DocRefValue(c.batch, c.op))]
    ensures DocRefKey(document) !in plan
  {
  }

  lemma ArmRefs(s: State, c: Command, x: Execution, st: Start, v: Verified, arm: Arm, d: Id)
    requires RunArm(s, c, x, st, v) == Ok(arm)
    requires (c.name.CreateBatch? && d == v.cks)
             || (c.name.OfferPickup? && (d == v.purchase || d == v.hks || d == v.manifest))
    ensures Holds(arm.plan, DocRefKey(d), Some(DocRefValue(c.batch, c.op)))
  {
    hide ValidPurchase, Consume;
    if c.name.CreateBatch? {
      ConsumeRefs(s, map[], v.cks, c);
    } else {
      ConsumeRefs(s, map[], v.purchase, c);
      var p1 := Consume(s, map[], v.purchase, c).value;
      ConsumeRefs(s, p1, v.hks, c);
      ConsumeRefs(s, Consume(s, p1, v.hks, c).value, v.manifest, c);
    }
  }

  lemma DocumentMoved(env: Env, s: State, s': State, c: Command, x: Execution, st: Start, v: Verified, arm: Arm,
                      docs: seq<Bundle>, i: nat)
    requires i < |docs| && DocOk(env, s, c, docs[i]) && v.pub == DocPlan(docs, |docs|, x.tx)
    requires forall i, j :: 0 <= i < j < |docs| ==> DocsDiffer(docs[i], docs[j])
    requires SlotDoc(v, docs[i].envelope.header)
    requires RunArm(s, c, x, st, v) == Ok(arm) && ArmEffect(s, s', arm) && ProofEffect(s, s', v)
    ensures DocumentLeft(s, s', c, x, docs[i].envelope)
  {
    hide Authentic, DocPlan, DocsDiffer, RunArm;
    var h := docs[i].envelope.header;
    DocPlanUses(docs, |docs|, x.tx, i);
    DocPlanEntry(docs, |docs|, x.tx, i);
    assert DocumentKey(h.document) in s'.pub && SourceUseKey(h.issuer, h.sourceDocument) in s'.pub
           && NonceKey(h.issuer, h.nonce) in s'.pub;
    if !h.docType.FreightInvoice? {
      ArmRefs(s, c, x, st, v, arm, h.document);
      assert DocRefKey(h.document) in s'.pub;
    }
  }

  ghost predicate DocumentsLeft(s: State, s': State, c: Command, x: Execution, docs: seq<Bundle>) {
    forall i :: 0 <= i < |docs| ==> DocumentLeft(s, s', c, x, docs[i].envelope)
  }

  lemma DocumentsMoved(env: Env, s: State, s': State, c: Command, x: Execution, t: Transient, st: Start, v: Verified,
                       arm: Arm)
    requires Prepare(env, s, c, x, t, st.before, st.refs) == Ok(v) && SlotDocs(c, v, Submitted(c, t))
    requires RunArm(s, c, x, st, v) == Ok(arm) && ArmEffect(s, s', arm) && ProofEffect(s, s', v)
    ensures DocumentsLeft(s, s', c, x, Submitted(c, t))
  {
    hide Prepare, RunArm, ArmEffect, ProofEffect, DocumentLeft, SlotDoc, DocOk, DocUsed, DocsDiffer, DocPlan, PrivFrom,
         HasType;
    if !IsAnalysis(c.name) && !c.name.ReportRetailPrice? {
      EvidenceTaken(env, s, c, x, t, st.before, st.refs, v);
      var docs := Submitted(c, t);
      forall i | 0 <= i < |docs| ensures DocumentLeft(s, s', c, x, docs[i].envelope) {
        DocumentMoved(env, s, s', c, x, st, v, arm, docs, i);
      }
    }
  }

  // --------------------------------------------------------- private records

  /** A purchase invoice is opened to the auditors: its body and salt as they were submitted. */
  predicate PurchaseLeft(q: map<PrivKey, PrivValue>, d: Bundle) {
    d.body.PurchaseBody?
    && Holds(q, OpeningKey(TradeCollection, d.envelope.header.document), OpeningValue(d.body, d.salt))
  }

  /** A freight invoice is opened to the carrier's collection, and its total is the cost of the batch. */
  predicate FreightLeft(q: map<PrivKey, PrivValue>, c: Command, x: Execution, t: Transient, b: Batch, d: Bundle) {
    && Holds(q, OpeningKey(FreightCollection, d.envelope.header.document), OpeningValue(d.body, d.salt))
    && RecordSaltField in t
    && match (c.payload, d.body, t[RecordSaltField])
       case (FreightInput(cost), FreightBody(_, _, _, total, _, _, _, _), Salt(salt)) =>
         Holds(q, CostKey(cost),
               CostValue(CostRecord(cost, c.batch, Retailer, Logistics, b.quantity, total, Try, ExcludingTax,
                                    d.envelope.header.document, salt, c.op, x.tx)))
       case _ => false
  }

  /** The retail report as it was submitted, bound to the batch's purchase, freight, lot and policy. */
  predicate ReportLeft(q: map<PrivKey, PrivValue>, c: Command, x: Execution, t: Transient, b: Batch, r: Refs) {
    RetailReportField in t
    && match (c.payload, t[RetailReportField])
       case (ReportInput(report, lot, policy), RetailField(input)) =>
         Holds(q, ReportKey(report),
               ReportValue(RetailRecord(report, c.batch, lot, b.quantity, Retailer, input, r.purchase, r.freight,
                                        policy, c.op, x.tx)))
       case _ => false
  }

  /** The review action as it was submitted: an opening names a reviewer, a resolution is kept whole. */
  predicate ActionLeft(q: map<PrivKey, PrivValue>, c: Command, x: Execution, t: Transient) {
    ReviewActionField in t
    && match (c.name, c.payload, t[ReviewActionField])
       case (OpenReview, ReviewTarget(anomaly), OpenField(reviewer, salt)) =>
         Holds(q, ActionKey(anomaly, c.op),
               ActionValue(ReviewAction(c.op, anomaly, OpenReview, ReviewInput(reviewer, "", "", salt), x.tx)))
       case (ResolveReview, ReviewTarget(anomaly), ResolveField(input)) =>
         Holds(q, ActionKey(anomaly, c.op), ActionValue(ReviewAction(c.op, anomaly, ResolveReview, input, x.tx)))
       case _ => false
  }

  /** The private records that a command leaves for good. */
  ghost predicate RecordsLeft(q: map<PrivKey, PrivValue>, c: Command, x: Execution, t: Transient, b: Batch, r: Refs) {
    var docs := Submitted(c, t);
    match c.name
    case OfferPickup =>
      forall i :: 0 <= i < |docs| && docs[i].envelope.header.docType.PurchaseInvoice? ==> PurchaseLeft(q, docs[i])
    case RecordFreightCost =>
      forall i :: 0 <= i < |docs| ==> FreightLeft(q, c, x, t, b, docs[i])
    case ReportRetailPrice => ReportLeft(q, c, x, t, b, r)
    case OpenReview | ResolveReview => ActionLeft(q, c, x, t)
    case _ => true
  }

  lemma PurchaseRecorded(c: Command, x: Execution, b: Batch, d: Bundle, v: Verified, s: State, s': State)
    requires d.envelope.header.docType.PurchaseInvoice? && DocUsed(c, x, b, d, v) && s'.priv == s.priv + v.priv
    ensures PurchaseLeft(s'.priv, d)
  {
    assert OpeningKey(TradeCollection, d.envelope.header.document) in s'.priv;
  }

  /** A freight command takes one document, the invoice. */
  lemma FreightTaken(env: Env, s: State, c: Command, x: Execution, t: Transient, b: Batch, v: Verified)
    requires c.name.RecordFreightCost? && GatherDocuments(env, s, c, x, t, b) == Ok(v)
    ensures var docs := Submitted(c, t);
            && |docs| == 1 && docs[0].envelope.header.docType.FreightInvoice?
            && TakeBody(env, c, x, t, b, NOTHING.(pub := v.pub), docs[0]) == Ok(v)
  {
    hide TakeDocument, TakeBody, FieldsOk, ClaimAll, Authentic, VerifyBundle, Increasing;
    var docs := Submitted(c, t);
    assert |RequiredTypes(c.name)| == 1;
    var p := Progress(RequiredTypes(c.name), NOTHING);
    assert TakeDocuments(env, s, c, x, t, b, docs, 0) == Ok(p);
    assert TakeDocuments(env, s, c, x, t, b, docs, 1) == TakeDocument(env, s, c, x, t, b, p, docs[0]);
    TakeDocumentFacts(env, s, c, x, t, b, p, docs[0]);
  }

  lemma CostWritten(env: Env, s: State, s': State, c: Command, x: Execution, t: Transient, st: Start, v: Verified,
                    arm: Arm, d: Bundle)
    requires d.envelope.header.docType.FreightInvoice?
    requires TakeBody(env, c, x, t, st.before, NOTHING.(pub := v.pub), d) == Ok(v)
    requires FreightArm(s, c, x, st, v) == Ok(arm) && LifecycleOk(c.batch, st.before, st.refs)
    requires s'.priv == s.priv + v.priv
    ensures FreightLeft(s'.priv, c, x, t, st.before, d)
  {
    hide MediaOk, HexId, EmptyRefs, OwnerIn, CustodianIn, QuantityOk;
    assert CostKey(c.payload.cost) in v.priv && OpeningKey(FreightCollection, d.envelope.header.document) in v.priv;
  }

  lemma FreightRecorded(env: Env, s: State, s': State, c: Command, x: Execution, t: Transient, st: Start, v: Verified,
                        arm: Arm)
    requires c.name.RecordFreightCost? && Prepare(env, s, c, x, t, st.before, st.refs) == Ok(v)
    requires RunArm(s, c, x, st, v) == Ok(arm) && LifecycleOk(c.batch, st.before, st.refs)
    requires s'.priv == s.priv + v.priv
    ensures RecordsLeft(s'.priv, c, x, t, st.before, st.refs)
  {
    hide GatherDocuments, FreightArm, LifecycleOk, FreightLeft, TakeBody, LoadConfig, Evaluate, Review, TakeReport,
         Submitted;
    FreightTaken(env, s, c, x, t, st.before, v);
    CostWritten(env, s, s', c, x, t, st, v, arm, Submitted(c, t)[0]);
  }

  /** The report that the provider writes is the submitted one. */
  lemma ReportWritten(env: Env, s: State, s': State, c: Command, x: Execution, t: Transient, b: Batch, r: Refs,
                      policy: Id, w: Verified, v: Verified)
    requires TakeReport(env, s, c, x, t, b, r, policy, w) == Ok(v) && x.actor == Retailer
    requires s'.priv == s.priv + v.priv
    ensures ReportLeft(s'.priv, c, x, t, b, r)
  {
    hide LoadPurchase, LoadCost, HexId;
    assert ReportKey(c.payload.report) in s'.priv;
  }

  lemma ActionWritten(env: Env, s: State, s': State, c: Command, x: Execution, t: Transient, b: Batch, v: Verified)
    requires IsReview(c.name) && Review(env, s, c, x, t, b) == Ok(v) && s'.priv == s.priv + v.priv
    ensures ActionLeft(s'.priv, c, x, t)
  {
    hide ValidId, HexId, LoadAnomaly, ReadSalt;
    assert ActionKey(c.payload.anomaly, c.op) in s'.priv;
  }

  lemma RecordsMoved(env: Env, s: State, s': State, c: Command, x: Execution, t: Transient, st: Start, v: Verified,
                     arm: Arm)
    requires Prepare(env, s, c, x, t, st.before, st.refs) == Ok(v) && RunArm(s, c, x, st, v) == Ok(arm)
    requires !c.name.CreateBatch? ==> LifecycleOk(c.batch, st.before, st.refs)
    requires x.actor == RequiredCaller(c.name).0 && s'.priv == s.priv + v.priv
    ensures RecordsLeft(s'.priv, c, x, t, st.before, st.refs)
  {
    hide RunArm, LifecycleOk, GatherDocuments, TakeReport, Evaluate, Review, LoadConfig, DocUsed, DocOk, DocsDiffer,
         PrivFrom, PurchaseLeft, FreightLeft, ReportLeft, ActionLeft, Submitted, HasType, Gathered;
    match c.name
    case RecordFreightCost => FreightRecorded(env, s, s', c, x, t, st, v, arm);
    case ReportRetailPrice =>
      ReportWritten(env, s, s', c, x, t, st.before, st.refs, LoadConfig(s).value.policy,
                    GatherDocuments(env, s, c, x, t, st.before).value, v);
    case OpenReview | ResolveReview => ActionWritten(env, s, s', c, x, t, st.before, v);
    case OfferPickup => PickupRecorded(env, s, s', c, x, t, st, v);
    case _ =>
  }

  lemma PickupRecorded(env: Env, s: State, s': State, c: Command, x: Execution, t: Transient, st: Start, v: Verified)
    requires c.name.OfferPickup? && Prepare(env, s, c, x, t, st.before, st.refs) == Ok(v)
    requires s'.priv == s.priv + v.priv
    ensures RecordsLeft(s'.priv, c, x, t, st.before, st.refs)
  {
    hide Prepare, DocUsed, DocOk, DocsDiffer, PrivFrom, PurchaseLeft, HasType;
    EvidenceTaken(env, s, c, x, t, st.before, st.refs, v);
    var docs := Submitted(c, t);
    forall i | 0 <= i < |docs| && docs[i].envelope.header.docType.PurchaseInvoice?
      ensures PurchaseLeft(s'.priv, docs[i])
    {
      PurchaseRecorded(c, x, st.before, docs[i], v, s, s');
    }
  }

  // ------------------------------------------------------- the anomaly record

  /** The anomaly record right after an evaluation or a review: submitted score and salt, and the review state. */
  predicate AnomalyLeft(s: State, s': State, c: Command, x: Execution, t: Transient, b: Batch) {
    match c.payload
    case EvaluateInput(anomaly, report) =>
      c.name.EvaluatePrice? ==>
        && AnomalyKey(anomaly) in s'.priv && s'.priv[AnomalyKey(anomaly)].AnomalyValue?
        && Evaluated(c, x, t, b, report, s'.priv[AnomalyKey(anomaly)].anomaly)
    case ReviewTarget(anomaly) =>
      IsReview(c.name) ==>
        && AnomalyKey(anomaly) in s.priv && s.priv[AnomalyKey(anomaly)].AnomalyValue?
        && AnomalyKey(anomaly) in s'.priv && s'.priv[AnomalyKey(anomaly)].AnomalyValue?
        && Reviewed(c, t, s.priv[AnomalyKey(anomaly)].anomaly, s'.priv[AnomalyKey(anomaly)].anomaly)
    case _ => !IsAnalysis(c.name)
  }

  /** A first record: the submitted score and salt, and a review that is open exactly when one is required. */
  predicate Evaluated(c: Command, x: Execution, t: Transient, b: Batch, report: Id, a: AnomalyRecord) {
    && ProposedField in t && t[ProposedField] == ScoreField(a.score)
    && RecordSaltField in t && t[RecordSaltField] == Salt(a.salt)
    && a.batch == c.batch && a.report == report && a.quantity == b.quantity && a.op == c.op && a.tx == x.tx
    && a.review == (if a.score.verdict.ReviewRequired? then Open else NotRequired)
  }

  /** The record moved one review state on, under the submitted salt, and is otherwise as it was. */
  predicate Reviewed(c: Command, t: Transient, was: AnomalyRecord, now: AnomalyRecord) {
    && ReviewSaltField in t && t[ReviewSaltField] == Salt(now.salt) && now.salt != was.salt
    && was.review == (if c.name.OpenReview? then Open else InReview)
    && now == was.(review := if c.name.OpenReview? then InReview else Resolved, salt := now.salt)
  }

  lemma EvaluationWritten(s: State, c: Command, x: Execution, t: Transient, b: Batch, r: Refs, v: Verified)
    requires c.name.EvaluatePrice? && Evaluate(s, c, x, t, b, r) == Ok(v) && b.id == c.batch
    ensures match c.payload
            case EvaluateInput(anomaly, report) =>
              && AnomalyKey(anomaly) in v.priv && v.priv[AnomalyKey(anomaly)].AnomalyValue?
              && Evaluated(c, x, t, b, report, v.priv[AnomalyKey(anomaly)].anomaly)
            case _ => false
  {
    hide LoadPurchase, LoadCost, LoadReport, LoadConfig, HexId, PriceScore, SubjectOk, MoneyClear;
  }

  lemma ReviewRecorded(env: Env, s: State, c: Command, x: Execution, t: Transient, b: Batch, v: Verified)
    requires IsReview(c.name) && Review(env, s, c, x, t, b) == Ok(v)
    ensures match c.payload
            case ReviewTarget(anomaly) =>
              && AnomalyKey(anomaly) in s.priv && s.priv[AnomalyKey(anomaly)].AnomalyValue?
              && AnomalyKey(anomaly) in v.priv && v.priv[AnomalyKey(anomaly)].AnomalyValue?
              && Reviewed(c, t, s.priv[AnomalyKey(anomaly)].anomaly, v.priv[AnomalyKey(anomaly)].anomaly)
            case _ => false
  {
    hide ValidId, HexId, ReadReview;
  }

  lemma AnomalyMoved(env: Env, s: State, s': State, c: Command, x: Execution, t: Transient, b: Batch, r: Refs,
                     v: Verified)
    requires Prepare(env, s, c, x, t, b, r) == Ok(v) && s'.priv == s.priv + v.priv
    requires !c.name.CreateBatch? ==> b.id == c.batch
    requires PayloadFits(c)
    ensures AnomalyLeft(s, s', c, x, t, b)
  {
    hide GatherDocuments, TakeReport, Evaluate, Review, LoadConfig, Evaluated, Reviewed, ValidId;
    if c.name.EvaluatePrice? {
      EvaluationWritten(s, c, x, t, b, r, v);
      assert AnomalyKey(c.payload.anomaly) in s'.priv;
    } else if IsReview(c.name) {
      ReviewRecorded(env, s, c, x, t, b, v);
      assert AnomalyKey(c.payload.anomaly) in s'.priv;
    }
  }

  // ------------------------------------------------------------ the theorems

  /** All that an accepted command leaves, against the ledger it found and what was submitted. */
  ghost predicate Left(s: State, s': State, c: Command, x: Execution, t: Transient) {
    var b, r, n, m := BatchAt(s, c.batch), RefsAt(s, c.batch), BatchAt(s', c.batch), RefsAt(s', c.batch);
    && CalledBy(c.name, x.actor, x.role)
    && BatchKey(c.batch) in s'.pub && BatchMoves(b, n, c, x) && SlotsMove(r, m, c, Submitted(c, t))
    && ObjectsLeft(s, s', c, x, b, r) && ReceiptLeft(s, s', c, x, n, m)
    && DocumentsLeft(s, s', c, x, Submitted(c, t))
    && RecordsLeft(s'.priv, c, x, t, b, r) && AnomalyLeft(s, s', c, x, t, b)
  }

  /** A command starts from the stored batch and slots, or from none. */
  lemma StartIs(s: State, c: Command, st: Start)
    requires Records(s)
    requires if st.existing then Started(s, c, st)
             else st == Start(false, ZERO_BATCH, EmptyRefs(c.batch)) && BatchKey(c.batch) !in s.pub
    ensures BatchAt(s, c.batch) == st.before && RefsAt(s, c.batch) == st.refs
    ensures st.existing ==> LifecycleOk(c.batch, st.before, st.refs) && st.before.id == c.batch
  {
  }

  lemma CallerOf(s: State, c: Command, x: Execution, st: Start)
    requires Admitted(s, c, x, st)
    ensures CalledBy(c.name, x.actor, x.role)
  {
    hide PayloadFits;
  }

  lemma AnalysedState(s: State, c: Command, x: Execution, b: Batch, r: Refs, v: Verified)
    requires ProofPlan(s, c, x, b, r, v)
    ensures IsAnalysis(c.name) ==> b.state.RetailReported?
  {
  }

  lemma MovedLeft(env: Env, s: State, s': State, c: Command, x: Execution, t: Transient, st: Start, v: Verified,
                  arm: Arm)
    requires Inv(s) && Moved(env, s, s', c, x, t, st, v, arm) && Guards(env, s, s', c, x, t, st, v, arm)
    requires s'.events == After(s, Finish(c, x, st, arm, v)).events
    ensures Left(s, s', c, x, t)
  {
    hide Admit, Prepare, RunArm, ProofPlan, RecordEffect, ReceiptEffect, IndexEffect, ArmEffect, ProofEffect;
    hide Configured, Records, Indexed, History, Transfers, References, Evaluations, Consumed, Slots, Analysed,
         Versioned, Privates;
    hide Fresh, Permanent, Sealed, PrivPlan, ReferencePlan, AnalysisWrites, ReceiptsGrow, NewBatch, After, Finish;
    hide BatchMoves, SlotsMove, ObjectsLeft, ReceiptLeft, DocumentsLeft, RecordsLeft, AnomalyLeft, PayloadFits,
         LifecycleOk, BatchAt, RefsAt, Submitted, SlotDocs, Started, RequiredCaller, CalledBy;
    StartIs(s, c, st);
    CallerOf(s, c, x, st);
    AnalysedState(s, c, x, st.before, st.refs, v);
    DocsOf(env, s, c, x, t, st.before, st.refs, v);
    ArmMoves(s, c, x, st, v, arm);
    SlotsMoved(s, c, x, st, v, arm, Submitted(c, t));
    ObjectsMoved(s, s', c, x, st, v, arm);
    ReceiptMoved(s, s', c, x, st, v, arm);
    DocumentsMoved(env, s, s', c, x, t, st, v, arm);
    PrivOf(s, s', v);
    RecordsMoved(env, s, s', c, x, t, st, v, arm);
    AnomalyMoved(env, s, s', c, x, t, st.before, st.refs, v);
  }

  lemma PrivOf(s: State, s': State, v: Verified)
    requires ProofEffect(s, s', v)
    ensures s'.priv == s.priv + v.priv
  {
  }

  /**
   * An accepted command leaves exactly what the transition table and its inputs
   * say: the batch, its slots, the transfer, cost, lot, report and analysis
   * references, receipt, event and documents, and the private records.
   */
  lemma AcceptedLeaves(env: Env, s: State, c: Command, x: Execution, t: Transient)
    requires Inv(s) && Apply(env, s, c, x, t).Ok?
    ensures Left(s, Step(env, s, c, x, t), c, x, t)
  {
    hide Apply, After, Moved, Guards, Inv, Left, Finish;
    var s' := Step(env, s, c, x, t);
    var st, v, arm := MovedBy(env, s, c, x, t);
    GuardsHold(env, s, s', c, x, t, st, v, arm);
    MovedLeft(env, s, s', c, x, t, st, v, arm);
  }

  // ------------------------------------------------------------- for ever

  /** Whatever is no anomaly record stays as it is. */
  lemma HoldingStays(s: State, s': State, k: PrivKey, v: PrivValue)
    requires RecordsLast(s, s') && Holds(s.priv, k, v) && !v.AnomalyValue?
    ensures Holds(s'.priv, k, v)
  {
    assert k in s'.priv;
  }

  lemma RecordsStay(s: State, s': State, c: Command, x: Execution, t: Transient, b: Batch, r: Refs)
    requires RecordsLeft(s.priv, c, x, t, b, r) && RecordsLast(s, s')
    ensures RecordsLeft(s'.priv, c, x, t, b, r)
  {
    hide Submitted, RecordsLast, Holds, HasType;
    forall k, v | Holds(s.priv, k, v) && !v.AnomalyValue? ensures Holds(s'.priv, k, v) {
      HoldingStays(s, s', k, v);
    }
  }

  lemma RecordsOf(s: State, s': State, c: Command, x: Execution, t: Transient)
    requires Left(s, s', c, x, t)
    ensures RecordsLeft(s'.priv, c, x, t, BatchAt(s, c.batch), RefsAt(s, c.batch))
  {
    hide BatchMoves, SlotsMove, ObjectsLeft, ReceiptLeft, DocumentsLeft, RecordsLeft, AnomalyLeft, BatchAt, RefsAt;
  }

  /** An accepted command of a run: the ledger right after it, and what a later one still holds of it. */
  lemma AcceptedAt(env: Env, rs: seq<Request>, c: Command, x: Execution, t: Transient, more: seq<Request>)
    returns (s': State)
    requires Apply(env, Run(env, rs), c, x, t).Ok?
    ensures Left(Run(env, rs), s', c, x, t) && Inv(s')
    ensures Extends(s', Run(env, rs + [Invoke(c, x, t)] + more))
    ensures RecordsLeft(Run(env, rs + [Invoke(c, x, t)] + more).priv, c, x, t, BatchAt(Run(env, rs), c.batch),
                        RefsAt(Run(env, rs), c.batch))
  {
    hide Apply, Inv, Left, Step, RecordsLeft, KeysLast, BatchesLast, RecordsLast, BatchAt, RefsAt;
    var s, served := Run(env, rs), rs + [Invoke(c, x, t)];
    assert served[..|served| - 1] == rs;
    s' := Run(env, served);
    assert s' == Step(env, s, c, x, t);
    RunInv(env, rs);
    RunInv(env, served);
    AcceptedLeaves(env, s, c, x, t);
    RecordsOf(s, s', c, x, t);
    RunExtends(env, served, more);
    RecordsStay(s', Run(env, served + more), c, x, t, BatchAt(s, c.batch), RefsAt(s, c.batch));
  }

  /** Whatever is served later, the ledger still holds the private records that an accepted command submitted. */
  lemma SubmittedForever(env: Env, rs: seq<Request>, c: Command, x: Execution, t: Transient, more: seq<Request>)
    requires Apply(env, Run(env, rs), c, x, t).Ok?
    ensures var s, s' := Run(env, rs), Run(env, rs + [Invoke(c, x, t)] + more);
            RecordsLeft(s'.priv, c, x, t, BatchAt(s, c.batch), RefsAt(s, c.batch))
  {
    hide *;
    var s' := AcceptedAt(env, rs, c, x, t, more);
  }

  // ------------------------------------------------------------ to the score

  /** The batch's purchase slot names this invoice, which is still opened to the auditors. */
  ghost predicate PurchaseIs(s: State, id: Id, d: Bundle) {
    && RefsAt(s, id).purchase == d.envelope.header.document
    && LoadPurchase(s, d.envelope.header.document) == Ok(d.body)
  }

  /** The batch's report slot names this report, which still holds the submitted input. */
  ghost predicate ReportIs(s: State, id: Id, report: Id, input: RetailInput) {
    && RefsAt(s, id).report == report
    && LoadReport(s, report).Ok? && LoadReport(s, report).value.input == input
  }

  lemma PurchaseSlot(s: State, s': State, s2: State, c: Command, x: Execution, t: Transient, d: Bundle)
    requires Left(s, s', c, x, t) && Inv(s') && BatchesLast(s', s2) && c.name.OfferPickup?
    requires d in Submitted(c, t) && d.envelope.header.docType.PurchaseInvoice?
    requires RecordsLeft(s2.priv, c, x, t, BatchAt(s, c.batch), RefsAt(s, c.batch))
    ensures PurchaseIs(s2, c.batch, d)
  {
    hide Configured, Indexed, History, Transfers, References, Evaluations, Consumed, Slots, Analysed, Versioned,
         Privates, ObjectsLeft, ReceiptLeft, DocumentsLeft, AnomalyLeft, Submitted, HasType, BatchAt, RefsAt,
         IsAnalysis, OwnerIn, CustodianIn;
    assert RecordOk(s', c.batch);
    assert InSlot(RefsAt(s', c.batch), d.envelope.header);
    assert PurchaseLeft(s2.priv, d);
  }

  lemma ReportSlot(s: State, s': State, s2: State, c: Command, x: Execution, t: Transient, report: Id, lot: Id,
                   policy: Id, input: RetailInput)
    requires Left(s, s', c, x, t) && Inv(s') && BatchesLast(s', s2) && c.name.ReportRetailPrice?
    requires c.payload == ReportInput(report, lot, policy) && Get(t, RetailReportField) == RetailField(input)
    requires RecordsLeft(s2.priv, c, x, t, BatchAt(s, c.batch), RefsAt(s, c.batch))
    ensures ReportIs(s2, c.batch, report, input)
  {
    hide Configured, Indexed, History, Transfers, References, Evaluations, Consumed, Slots, Analysed, Versioned,
         Privates, ObjectsLeft, ReceiptLeft, DocumentsLeft, AnomalyLeft, Submitted, HasType, BatchAt, RefsAt,
         IsAnalysis, OwnerIn, CustodianIn;
    assert RecordOk(s', c.batch);
  }

  /** Once it is evaluated, the batch is scored by the price of this invoice and the price of this report. */
  ghost predicate ScoredOn(s: State, id: Id, d: Bundle, input: RetailInput) {
    d.body.PurchaseBody? &&
    (EvaluationKey(id) in s.pub ==>
       && s.pub[EvaluationKey(id)].EvaluationValue?
       && LoadAnomaly(s, s.pub[EvaluationKey(id)].evaluation.anomaly).Ok?
       && var a, p, q := LoadAnomaly(s, s.pub[EvaluationKey(id)].evaluation.anomaly).value, d.body.price, input.price;
          && a.purchase == p > 0 && a.retail == q && a.score.increase == (q - p) * 10000 / p
          && (!a.review.NotRequired? <==> (q - p) as real / p as real > a.threshold as real / 10000.0))
  }

  lemma ScoredOnBoth(s: State, id: Id, d: Bundle, report: Id, input: RetailInput)
    requires ScoredExactly(s, id) && PurchaseIs(s, id, d) && ReportIs(s, id, report, input) && d.body.PurchaseBody?
    ensures ScoredOn(s, id, d, input)
  {
    hide LoadAnomaly, LoadPurchase, LoadReport, LoadCost, LoadConfig, PriceScore, BatchAt, RefsAt;
  }

  /** The i-th request of the run is this command, and it was accepted. */
  ghost predicate AcceptedIn(env: Env, all: seq<Request>, i: nat, c: Command, x: Execution, t: Transient) {
    i < |all| && all[i] == Invoke(c, x, t) && Apply(env, Run(env, all[..i]), c, x, t).Ok?
  }

  /** This purchase invoice was submitted with the pickup offer. */
  predicate Invoiced(c: Command, t: Transient, d: Bundle) {
    c.name.OfferPickup? && d in Submitted(c, t) && d.envelope.header.docType.PurchaseInvoice?
  }

  /** This retail report was submitted under this id. */
  predicate Reported(c: Command, t: Transient, report: Id, input: RetailInput) {
    && c.name.ReportRetailPrice? && c.payload.ReportInput? && c.payload.report == report
    && RetailReportField in t && t[RetailReportField] == RetailField(input)
  }

  lemma PurchaseServed(env: Env, all: seq<Request>, i: nat, c: Command, x: Execution, t: Transient, d: Bundle)
    requires AcceptedIn(env, all, i, c, x, t) && Invoiced(c, t, d)
    ensures d.body.PurchaseBody? && PurchaseIs(Run(env, all), c.batch, d)
  {
    hide Apply, Inv, Left, Step, Run, RecordsLeft, BatchesLast, KeysLast, RecordsLast, Submitted;
    assert all == all[..i] + [Invoke(c, x, t)] + all[i + 1..];
    var s' := AcceptedAt(env, all[..i], c, x, t, all[i + 1..]);
    PurchaseSlot(Run(env, all[..i]), s', Run(env, all), c, x, t, d);
  }

  lemma ReportServed(env: Env, all: seq<Request>, j: nat, c: Command, x: Execution, t: Transient, report: Id,
                     input: RetailInput)
    requires AcceptedIn(env, all, j, c, x, t) && Reported(c, t, report, input)
    ensures ReportIs(Run(env, all), c.batch, report, input)
  {
    hide Apply, Inv, Left, Step, Run, RecordsLeft, BatchesLast, KeysLast, RecordsLast, Submitted;
    assert all == all[..j] + [Invoke(c, x, t)] + all[j + 1..];
    var s' := AcceptedAt(env, all[..j], c, x, t, all[j + 1..]);
    ReportSlot(Run(env, all[..j]), s', Run(env, all), c, x, t, report, c.payload.lot, c.payload.policy, input);
  }

  /**
   * In any run, a batch that was evaluated is scored by the price of the invoice
   * submitted with its pickup and by the price submitted with its report.
   */
  lemma ScoreOfSubmitted(env: Env, all: seq<Request>, i: nat, pickup: Command, x: Execution, t: Transient, d: Bundle,
                         j: nat, c: Command, y: Execution, u: Transient, report: Id, input: RetailInput)
    requires AcceptedIn(env, all, i, pickup, x, t) && Invoiced(pickup, t, d)
    requires AcceptedIn(env, all, j, c, y, u) && Reported(c, u, report, input)
    requires pickup.batch == c.batch
    ensures ScoredOn(Run(env, all), c.batch, d, input)
  {
    hide Inv, Run, AcceptedIn, Invoiced, Reported, ScoredExactly, PurchaseIs, ReportIs, ScoredOn;
    PurchaseServed(env, all, i, pickup, x, t, d);
    ReportServed(env, all, j, c, y, u, report, input);
    AnomalyExact(env, all, c.batch);
    ScoredOnBoth(Run(env, all), c.batch, d, report, input);
  }

  // ------------------------------------------------- documents in every run

  /** The document is of the issuer it names: properly headed, and signed by a key the ledger still trusts. */
  ghost predicate DocumentSigned(env: Env, s: State, d: Id) {
    DocumentKey(d) in s.pub ==>
      && s.pub[DocumentKey(d)].EnvelopeValue?
      && var e := s.pub[DocumentKey(d)].envelope;
         e.header.document == d && ProperHeader(env, e.header) && SignedBySource(env, s, e)
  }

  /** The opening is that of a stored invoice of the collection's kind, whose commitment it opens. */
  ghost predicate OpeningSigned(env: Env, s: State, collection: Collection, d: Id) {
    OpeningKey(collection, d) in s.priv ==>
      && s.priv[OpeningKey(collection, d)].OpeningValue?
      && DocumentKey(d) in s.pub && s.pub[DocumentKey(d)].EnvelopeValue?
      && var h, o := s.pub[DocumentKey(d)].envelope.header, s.priv[OpeningKey(collection, d)];
         && Opens(env, h, o.body, o.salt)
         && h.docType == (if collection.TradeCollection? then PurchaseInvoice else FreightInvoice)
  }

  ghost predicate Signed(env: Env, s: State) {
    && (forall d {:trigger DocumentKey(d) in s.pub} :: DocumentSigned(env, s, d))
    && (forall k, d {:trigger OpeningKey(k, d) in s.priv} :: OpeningSigned(env, s, k, d))
  }

  /** The documents of a command are genuine, and the openings it writes are theirs. */
  ghost predicate Genuine(env: Env, s: State, docs: seq<Bundle>, v: Verified) {
    && (forall i :: 0 <= i < |docs| ==> Authentic(env, s, docs[i]))
    && (forall q {:trigger q in v.priv} :: q in v.priv && q.OpeningKey? ==>
          exists i :: 0 <= i < |docs| && IsOpening(docs[i], q.collection, q.document, v.priv[q]))
  }

  lemma GenuineTaken(env: Env, s: State, c: Command, x: Execution, t: Transient, b: Batch, refs: Refs, v: Verified)
    requires Prepare(env, s, c, x, t, b, refs) == Ok(v) && PrivPlan(c, v) && NewDocs(s, c, Submitted(c, t), v.pub)
    ensures Genuine(env, s, Submitted(c, t), v)
  {
    hide Prepare, DocUsed, DocsDiffer, Authentic, IsOpening, HasType, NewDoc, DocPlan;
    if !IsAnalysis(c.name) && !c.name.ReportRetailPrice? {
      EvidenceTaken(env, s, c, x, t, b, refs, v);
    } else {
      assert Submitted(c, t) == [];
    }
  }

  lemma SourceStays(env: Env, s: State, s': State, v: Verified, e: Envelope)
    requires SignedBySource(env, s, e) && ProofEffect(s, s', v)
    ensures SignedBySource(env, s', e)
  {
    assert SourceKeyKey(e.header.issuer, e.header.key) in s'.pub;
  }

  /** Every stored document was stored before or is one of the command's. */
  lemma DocumentFrom(s: State, s': State, c: Command, v: Verified, docs: seq<Bundle>, d: Id) returns (i: nat)
    requires Permanent(s, s') && ProofEffect(s, s', v) && NewDocs(s, c, docs, v.pub) && DocumentKey(d) in s'.pub
    ensures if DocumentKey(d) in s.pub then s'.pub[DocumentKey(d)] == s.pub[DocumentKey(d)]
            else i < |docs| && s'.pub[DocumentKey(d)] == EnvelopeValue(docs[i].envelope)
                            && docs[i].envelope.header.document == d
  {
    hide DocsDiffer;
    i := 0;
    if DocumentKey(d) !in s.pub {
      assert DocumentKey(d) in v.pub;
      i :| 0 <= i < |docs| && docs[i].envelope.header.document == d;
      assert NewDoc(s, c, docs[i], v.pub);
    }
  }

  lemma DocumentStored(s: State, s': State, c: Command, v: Verified, docs: seq<Bundle>, i: nat)
    requires ProofEffect(s, s', v) && NewDocs(s, c, docs, v.pub) && i < |docs|
    ensures Holds(s'.pub, DocumentKey(docs[i].envelope.header.document), EnvelopeValue(docs[i].envelope))
  {
    hide DocsDiffer;
    assert NewDoc(s, c, docs[i], v.pub);
    assert DocumentKey(docs[i].envelope.header.document) in s'.pub;
  }

  lemma SignedKept(env: Env, s: State, s': State, c: Command, v: Verified, docs: seq<Bundle>)
    requires Signed(env, s) && Permanent(s, s') && Sealed(s, s', c) && ProofEffect(s, s', v)
    requires NewDocs(s, c, docs, v.pub) && Genuine(env, s, docs, v)
    ensures Signed(env, s')
  {
    hide ProperHeader, SignedBySource, Opens, NewDocs, ProofEffect, Permanent, Sealed, Signed;
    forall d | DocumentKey(d) in s'.pub ensures DocumentSigned(env, s', d) {
      DocumentKept(env, s, s', c, v, docs, d);
    }
    forall k, d | OpeningKey(k, d) in s'.priv ensures OpeningSigned(env, s', k, d) {
      OpeningKept(env, s, s', c, v, docs, k, d);
    }
    Combined(env, s');
  }

  lemma Combined(env: Env, s: State)
    requires forall d :: DocumentKey(d) in s.pub ==> DocumentSigned(env, s, d)
    requires forall k, d :: OpeningKey(k, d) in s.priv ==> OpeningSigned(env, s, k, d)
    ensures Signed(env, s)
  {
    hide ProperHeader, SignedBySource, Opens;
  }

  lemma DocumentKept(env: Env, s: State, s': State, c: Command, v: Verified, docs: seq<Bundle>, d: Id)
    requires Signed(env, s) && Permanent(s, s') && ProofEffect(s, s', v)
    requires NewDocs(s, c, docs, v.pub) && Genuine(env, s, docs, v) && DocumentKey(d) in s'.pub
    ensures DocumentSigned(env, s', d)
  {
    hide ProperHeader, SignedBySource, Opens, NewDocs, ProofEffect, Permanent, IsOpening;
    var i := DocumentFrom(s, s', c, v, docs, d);
    if DocumentKey(d) in s.pub {
      assert DocumentSigned(env, s, d);
      SourceStays(env, s, s', v, s.pub[DocumentKey(d)].envelope);
    } else {
      assert Authentic(env, s, docs[i]);
      SourceStays(env, s, s', v, docs[i].envelope);
    }
  }

  lemma OpeningKept(env: Env, s: State, s': State, c: Command, v: Verified, docs: seq<Bundle>, k: Collection, d: Id)
    requires Signed(env, s) && Permanent(s, s') && Sealed(s, s', c) && ProofEffect(s, s', v)
    requires NewDocs(s, c, docs, v.pub) && Genuine(env, s, docs, v) && OpeningKey(k, d) in s'.priv
    ensures OpeningSigned(env, s', k, d)
  {
    hide ProperHeader, SignedBySource, Opens, NewDocs;
    if OpeningKey(k, d) in s.priv {
      assert OpeningSigned(env, s, k, d);
      assert DocumentKey(d) in s'.pub;
    } else {
      assert OpeningKey(k, d) in v.priv;
      var i :| 0 <= i < |docs| && IsOpening(docs[i], k, d, v.priv[OpeningKey(k, d)]);
      assert Authentic(env, s, docs[i]);
      DocumentStored(s, s', c, v, docs, i);
    }
  }

  lemma StepSigned(env: Env, s: State, c: Command, x: Execution, t: Transient)
    requires Inv(s) && Signed(env, s)
    ensures Signed(env, Step(env, s, c, x, t))
  {
    hide Apply, After, Moved, Guards, Inv, Signed, Finish;
    if Apply(env, s, c, x, t).Ok? {
      var s' := Step(env, s, c, x, t);
      var st, v, arm := MovedBy(env, s, c, x, t);
      GuardsHold(env, s, s', c, x, t, st, v, arm);
      MovedSigned(env, s, s', c, x, t, st, v, arm);
    }
  }

  lemma MovedSigned(env: Env, s: State, s': State, c: Command, x: Execution, t: Transient, st: Start, v: Verified,
                    arm: Arm)
    requires Moved(env, s, s', c, x, t, st, v, arm) && Guards(env, s, s', c, x, t, st, v, arm) && Signed(env, s)
    ensures Signed(env, s')
  {
    hide Admit, Prepare, RunArm, Admitted, ProofPlan, RecordEffect, ReceiptEffect, IndexEffect, ArmEffect, ProofEffect;
    hide Fresh, Permanent, Sealed, PrivPlan, ReferencePlan, AnalysisWrites, ReceiptsGrow, Getters, NewBatch, Started;
    hide Signed, NewDocs, SlotDocs, Submitted, Genuine, RequiredCaller, IsReview;
    DocsOf(env, s, c, x, t, st.before, st.refs, v);
    GenuineTaken(env, s, c, x, t, st.before, st.refs, v);
    SignedKept(env, s, s', c, v, Submitted(c, t));
  }

  lemma BootstrapSigned(env: Env, s: State, actor: Msp, role: Role, cfg: Configuration)
    requires Inv(s) && Bootstrap(s, actor, role, cfg).Ok?
    ensures Signed(env, Bootstrapped(s, actor, role, cfg))
  {
    hide Inv, ValidId, SourcesOk, SourcePlan, Blank, Bootstrapped, Signed;
    BlankBefore(s);
    NothingStored(s, actor, role, cfg);
    Combined(env, Bootstrapped(s, actor, role, cfg));
  }

  lemma NothingStored(s: State, actor: Msp, role: Role, cfg: Configuration)
    requires Blank(s) && Bootstrap(s, actor, role, cfg).Ok?
    ensures forall d :: DocumentKey(d) !in Bootstrapped(s, actor, role, cfg).pub
    ensures forall k, d :: OpeningKey(k, d) !in Bootstrapped(s, actor, role, cfg).priv
  {
    hide ValidId, SourcesOk, SourcePlan;
    SourcePlanKinds(cfg.sources);
  }

  lemma ServeSigned(env: Env, s: State, r: Request)
    requires Inv(s) && Signed(env, s)
    ensures Signed(env, Serve(env, s, r))
  {
    hide Inv, Signed, Step, Bootstrap, Commit;
    match r
    case Configure(actor, role, config) =>
      if Bootstrap(s, actor, role, config).Ok? {
        BootstrapSigned(env, s, actor, role, config);
      }
    case Invoke(c, x, t) => StepSigned(env, s, c, x, t);
  }

  /**
   * In every run, each stored document is properly headed and signed by a key the
   * ledger holds for its issuer, and each opening opens the commitment of its document.
   */
  lemma {:induction false} RunSigned(env: Env, rs: seq<Request>)
    ensures Signed(env, Run(env, rs))
  {
    hide Inv, Serve, Signed;
    if rs == [] {
      Combined(env, EMPTY_STATE);
    } else {
      var before := rs[..|rs| - 1];
      RunSigned(env, before);
      RunInv(env, before);
      ServeSigned(env, Run(env, before), rs[|rs| - 1]);
    }
  }

  // ------------------------------------------------------------ configuration

  /** One source: enabled, of this system, for exactly these document types, under proper names. */
  predicate ProperSource(k: SourceKey, system: System, docTypes: set<DocType>) {
    k.enabled && k.system == system && k.docTypes == docTypes && Reference(k.issuer) && Reference(k.key)
  }

  /** The four sources in their order, no two under one key. */
  predicate ProperSources(ks: seq<SourceKey>) {
    && |ks| == 4
    && ProperSource(ks[0], Cks, {ProducerEligibility})
    && ProperSource(ks[1], Efatura, {PurchaseInvoice, FreightInvoice})
    && ProperSource(ks[2], Hks, {TradeNotification})
    && ProperSource(ks[3], Uetds, {TransportManifest})
    && forall i, j :: 0 <= i < j < 4 ==> ks[i].issuer != ks[j].issuer || ks[i].key != ks[j].key
  }

  lemma SourcesIff(ks: seq<SourceKey>)
    ensures SourcesOk(ks) <==> ProperSources(ks)
  {
    hide Reference;
    assert SYSTEM_ORDER == [Cks, Efatura, Hks, Uetds];
    if |ks| == 4 {
      assert (forall i :: 0 <= i < 4 ==> SourceOk(ks[i], SYSTEM_ORDER[i]))
             <==> SourceOk(ks[0], Cks) && SourceOk(ks[1], Efatura) && SourceOk(ks[2], Hks) && SourceOk(ks[3], Uetds);
    }
  }

  /** The configuration is accepted exactly once, from the Regulator's administrator, when it is proper. */
  lemma BootstrapIff(s: State, actor: Msp, role: Role, cfg: Configuration)
    ensures Bootstrap(s, actor, role, cfg).Ok? <==>
              && actor == Regulator && role == AdminRole && ConfigKey !in s.pub
              && ValidId(cfg.policy, "CFG") && 0 <= cfg.threshold <= 100_000 && ProperSources(cfg.sources)
  {
    hide ValidId, SourcesOk, ProperSources, SourcePlan;
    SourcesIff(cfg.sources);
  }

  /** The accepted configuration is stored as it was submitted, its policy and its four sources beside it. */
  lemma BootstrapLeaves(s: State, actor: Msp, role: Role, cfg: Configuration, i: nat)
    requires Bootstrap(s, actor, role, cfg).Ok?
    ensures var s' := Bootstrapped(s, actor, role, cfg);
            && Holds(s'.pub, ConfigKey, ConfigValue(cfg))
            && Holds(s'.pub, PolicyKey(cfg.policy), PolicyValue(cfg.threshold))
            && (i < |cfg.sources| ==>
                  var k := cfg.sources[i]; Holds(s'.pub, SourceKeyKey(k.issuer, k.key), SourceKeyValue(k)))
            && (forall k :: !IsConfigKey(k) ==> Kept(s.pub, s'.pub, k))
            && s'.priv == s.priv && s'.events == s.events
  {
    hide ValidId, SourceOk, SourcePlan;
    var plan := Bootstrap(s, actor, role, cfg).value;
    SourcePlanKinds(cfg.sources);
    SourcePlanHas(cfg.sources, 4);
    assert cfg.sources[..4] == cfg.sources;
    if i < 4 {
      var k := SourceKeyKey(cfg.sources[i].issuer, cfg.sources[i].key);
      assert k in plan && plan[k] == Some(SourceKeyValue(cfg.sources[i]));
    }
  }
}
