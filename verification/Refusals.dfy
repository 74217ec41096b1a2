/** Why a command is refused: every error code of the chaincode comes for its own reason. */
module Refusals {
  import opened Types
  import opened Price
  import opened Evidence
  import opened Engine
  import opened Invariants
  import opened Preserve
  import opened Provenance
  import opened Runs
  import opened Guarantees
  import opened Origins
  import opened Progress

  // --------------------------------------------------------------- admission

  /** The ids that a payload names are proper. */
  predicate IdsProper(p: Payload) {
    match p
    case CreateInput(_, _, _, _, _, _, _) => true
    case HandoffInput(transfer, _) => ValidId(transfer, "TRF")
    case FreightInput(cost) => ValidId(cost, "CST")
    case ReportInput(report, lot, policy) => ValidId(report, "RPT") && ValidId(lot, "LOT") && ValidId(policy, "CFG")
    case EvaluateInput(anomaly, report) => ValidId(anomaly, "ANM") && ValidId(report, "RPT")
    case ReviewTarget(anomaly) => ValidId(anomaly, "ANM")
    case Malformed => true
  }

  predicate GramsProper(p: Payload) {
    match p
    case CreateInput(_, _, quantity, _, _, _, _) => 1 <= quantity <= 100_000_000
    case HandoffInput(_, quantity) => 1 <= quantity <= 100_000_000
    case _ => true
  }

  /** The payload is of the command's kind, and a creation is of the one admitted product on the one route. */
  ghost predicate KindProper(env: Env, name: CommandName, p: Payload) {
    match name
    case CreateBatch =>
      && p.CreateInput? && p.product == "TOMATO" && p.grade == "STANDARD" && p.logistics == Logistics
      && p.retailer == Retailer && (exists n :: RegionNumber(p.region, n)) && env.date(p.harvest)
    case OfferPickup | AcceptPickup | OfferDelivery | AcceptDelivery => p.HandoffInput?
    case RecordFreightCost => p.FreightInput?
    case ReportRetailPrice => p.ReportInput?
    case EvaluatePrice => p.EvaluateInput?
    case OpenReview | ResolveReview => p.ReviewTarget?
  }

  /** The organization that calls a command. */
  function CallerOf(name: CommandName): Msp {
    match name
    case CreateBatch | OfferPickup => Producer
    case AcceptPickup | RecordFreightCost | OfferDelivery => Logistics
    case AcceptDelivery | ReportRetailPrice => Retailer
    case EvaluatePrice | OpenReview | ResolveReview => Regulator
  }

  /** The reasons for which admission refuses. */
  ghost predicate AdmissionReason(env: Env, s: State, c: Command, x: Execution, e: ErrorCode) {
    || (e == UnauthorizedOrganization
        && x.actor != CallerOf(c.name) && (x.actor.Foreign? || !IsAccept(c.name)))
    || (e == WrongTransferRecipient && x.actor != CallerOf(c.name) && !x.actor.Foreign? && IsAccept(c.name))
    || (e == UnauthorizedRole && x.actor == CallerOf(c.name) && !CalledBy(c.name, x.actor, x.role))
    || (e == InvalidIdentifier && (!ValidId(c.batch, "BAT") || !ValidId(c.op, "OP") || !IdsProper(c.payload)))
    || (e == VersionConflict
        && (!(0 <= c.expected <= 2147483647) || (c.name.CreateBatch? && c.expected != 0)
            || (BatchKey(c.batch) in s.pub && c.expected != BatchAt(s, c.batch).version)))
    || (e == InvalidQuantity && !GramsProper(c.payload))
    || (e == InvalidSchema && !KindProper(env, c.name, c.payload))
    || (e == ConfigurationRequired && ConfigKey !in s.pub)
    || (e == InternalError
        && !(HexId(x.tx) && 0 <= x.time.seconds < 0x8000_0000_0000_0000 && 0 <= x.time.nanos <= 999_999_999))
    || (e == DuplicateTransaction && OperationKey(x.actor, c.op) in s.pub)
    || (e == BatchNotFound && BatchKey(c.batch) !in s.pub && !c.name.CreateBatch?)
    || (e == BatchAlreadyExists && BatchKey(c.batch) in s.pub && c.name.CreateBatch?)
  }

  lemma CallerRefused(env: Env, s: State, c: Command, x: Execution, e: ErrorCode)
    requires Authorize(x.actor, x.role, c.name) == Err(e)
    ensures AdmissionReason(env, s, c, x, e)
  {
    hide KindProper, IdsProper, GramsProper, ValidId;
  }

  lemma PayloadRefused(env: Env, s: State, c: Command, x: Execution, e: ErrorCode)
    requires ValidatePayload(env, c) == Err(e)
    ensures AdmissionReason(env, s, c, x, e)
  {
    hide RegionOk, RegionNumber, ValidId, BatchAt;
    if c.payload.CreateInput? {
      RegionIff(c.payload.region);
    }
  }

  lemma StartRefused(env: Env, s: State, c: Command, x: Execution, e: ErrorCode)
    requires Inv(s) && 0 <= c.expected <= MAX_VERSION
    requires LoadStart(s, c) == Err(e)
    ensures AdmissionReason(env, s, c, x, e)
  {
    hide Configured, Indexed, History, Transfers, References, Evaluations, Consumed, Slots, Privates, Analysed,
         Versioned, LifecycleOk, KindProper, IdsProper, GramsProper, CalledBy, ValidId;
    VersionBounds(s, c.batch);
    if BatchKey(c.batch) in s.pub {
      assert RecordOk(s, c.batch);
    }
  }

  lemma AdmissionRefused(env: Env, s: State, c: Command, x: Execution, e: ErrorCode)
    requires Inv(s) && Admit(env, s, c, x) == Err(e)
    ensures AdmissionReason(env, s, c, x, e)
  {
    hide Authorize, ValidatePayload, LoadStart, ValidId, HexId, KindProper, IdsProper, GramsProper, CalledBy;
    hide Records, Indexed, History, Transfers, References, Evaluations, Consumed, Slots, Privates, Analysed, Versioned;
    if Authorize(x.actor, x.role, c.name) == Err(e) {
      CallerRefused(env, s, c, x, e);
    } else if ValidatePayload(env, c) == Err(e) {
      PayloadRefused(env, s, c, x, e);
    } else if 0 <= c.expected <= MAX_VERSION && LoadStart(s, c) == Err(e) {
      StartRefused(env, s, c, x, e);
    }
  }

  // --------------------------------------------------------------- documents

  /** The body is of the kind that the header says. */
  predicate BodyOfKind(d: Bundle) {
    match d.envelope.header.docType
    case ProducerEligibility => d.body.EligibilityBody?
    case PurchaseInvoice => d.body.PurchaseBody?
    case TradeNotification => d.body.TradeBody?
    case TransportManifest => d.body.ManifestBody?
    case FreightInvoice => d.body.FreightBody?
    case OtherDocument(_) => true
  }

  /** The source denies the claim: the producer is not eligible, or the trade was not notified. */
  predicate Denied(d: Bundle) {
    || (d.body.EligibilityBody? && !d.body.eligible)
    || (d.body.TradeBody? && !d.body.notified)
  }

  /** A digest and an admitted medium of an attachment. */
  predicate AttachmentProper(digest: string, media: string) {
    HexId(digest) && media in {"application/xml", "application/json", "application/pdf"}
  }

  /** The body is about the command and the batch. */
  predicate BodyBound(env: Env, c: Command, x: Execution, b: Batch, body: Body) {
    match body
    case EligibilityBody(producer, product, grade, quantity, region, harvest, _) =>
      (match c.payload
       case CreateInput(p, g, q, r, h, _, _) =>
         producer == x.actor && product == p && grade == g && quantity == q && region == r && harvest == h
       case _ => true)
    case PurchaseBody(seller, buyer, _, _, _, _, _, digest, media) =>
      seller == b.producer && buyer == b.retailer && AttachmentProper(digest, media)
    case TradeBody(producer, retailer, product, quantity, _) =>
      producer == b.producer && retailer == b.retailer && product == b.product && quantity == b.quantity
    case ManifestBody(carrier, consignor, consignee, product, quantity, departure) =>
      && carrier == b.logistics && consignor == b.producer && consignee == b.retailer && product == b.product
      && quantity == b.quantity && env.dateTime(departure)
    case FreightBody(carrier, payer, _, _, _, _, digest, media) =>
      carrier == b.logistics && payer == b.retailer && AttachmentProper(digest, media)
    case OtherBody(_) => true
  }

  predicate SaltGiven(t: Transient, name: FieldName) {
    name in t && t[name].Salt? && HexId(t[name].text)
  }

  /** The ledger holds an enabled key of this issuer, of the document's system and for its type. */
  predicate KeyTrusted(s: State, h: Header) {
    SourceKeyKey(h.issuer, h.key) in s.pub
    && match s.pub[SourceKeyKey(h.issuer, h.key)]
       case SourceKeyValue(k) => k.enabled && k.system == h.system && h.docType in k.docTypes
       case _ => false
  }

  /** An earlier document of the command has the same type, id, source document or nonce. */
  predicate TypeTaken(docs: seq<Bundle>, n: nat)
    requires n < |docs|
  {
    exists j :: 0 <= j < n && docs[j].envelope.header.docType == docs[n].envelope.header.docType
  }

  predicate IdTaken(docs: seq<Bundle>, n: nat)
    requires n < |docs|
  {
    exists j :: 0 <= j < n && docs[j].envelope.header.document == docs[n].envelope.header.document
  }

  predicate SourceTaken(docs: seq<Bundle>, n: nat)
    requires n < |docs|
  {
    exists j :: 0 <= j < n && docs[j].envelope.header.issuer == docs[n].envelope.header.issuer
      && docs[j].envelope.header.sourceDocument == docs[n].envelope.header.sourceDocument
  }

  predicate NonceTaken(docs: seq<Bundle>, n: nat)
    requires n < |docs|
  {
    exists j :: 0 <= j < n && docs[j].envelope.header.issuer == docs[n].envelope.header.issuer
      && docs[j].envelope.header.nonce == docs[n].envelope.header.nonce
  }

  /** The reasons for which the n-th document is refused. */
  ghost predicate DocumentReason(env: Env, s: State, c: Command, x: Execution, t: Transient, b: Batch,
                                 docs: seq<Bundle>, n: nat, e: ErrorCode)
    requires n < |docs|
  {
    var d := docs[n];
    var h := d.envelope.header;
    || (e == InvalidSchema
        && (!ProperHeader(env, h) || !HexId(d.salt) || !BodyOfKind(d)
            || (h.docType.FreightInvoice? && !SaltGiven(t, RecordSaltField))))
    || (e == UntrustedSourceKey && !KeyTrusted(s, h))
    || (e == InvalidSourceSignature && KeyTrusted(s, h) && !SignedBySource(env, s, d.envelope))
    || (e == DocumentHashMismatch && HexId(d.salt) && h.commitment != env.commit(d.body, d.salt))
    || (e == SourceBindingMismatch
        && (h.docType !in RequiredTypes(c.name) || RequiredTypes(c.name)[h.docType] != h.system || TypeTaken(docs, n)
            || h.batch != c.batch || h.op != c.op || !BodyBound(env, c, x, b, d.body)))
    || (e == DocumentAlreadyUsed
        && (DocumentKey(h.document) in s.pub || SourceUseKey(h.issuer, h.sourceDocument) in s.pub
            || IdTaken(docs, n) || SourceTaken(docs, n)))
    || (e == SourceNonceAlreadyUsed
        && (NonceKey(h.issuer, h.nonce) in s.pub || NonceTaken(docs, n)))
    || (e == SourceClaimRejected && Denied(d))
  }

  lemma BodyRefused(env: Env, s: State, c: Command, x: Execution, t: Transient, b: Batch, v: Verified,
                    docs: seq<Bundle>, n: nat, e: ErrorCode)
    requires n < |docs| && docs[n].envelope.header.docType in RequiredTypes(c.name)
    requires c.name.CreateBatch? ==> c.payload.CreateInput?
    requires c.name.RecordFreightCost? ==> c.payload.FreightInput?
    requires TakeBody(env, c, x, t, b, v, docs[n]) == Err(e)
    ensures DocumentReason(env, s, c, x, t, b, docs, n, e)
  {
    hide ProperHeader, KeyTrusted, SignedBySource, HexId, TypeTaken, IdTaken, SourceTaken, NonceTaken;
  }

  lemma VerifyRefused(env: Env, s: State, c: Command, x: Execution, t: Transient, b: Batch, docs: seq<Bundle>,
                      n: nat, e: ErrorCode)
    requires n < |docs| && Configured(s) && VerifyBundle(env, s, docs[n]) == Err(e)
    ensures DocumentReason(env, s, c, x, t, b, docs, n, e)
  {
    hide ValidId, HexId, Reference, BodyBound, BodyOfKind, Denied, RequiredTypes, LoadConfig, SourcesOk, TypeTaken,
         IdTaken, SourceTaken, NonceTaken;
  }

  lemma ClaimRefused(env: Env, s: State, c: Command, x: Execution, t: Transient, b: Batch, docs: seq<Bundle>,
                     n: nat, e: ErrorCode)
    requires n < |docs| && ClaimAll(s, DocPlan(docs, n, x.tx), docs[n].envelope, x.tx) == Err(e)
    ensures DocumentReason(env, s, c, x, t, b, docs, n, e)
  {
    hide ProperHeader, SignedBySource, KeyTrusted, BodyBound, BodyOfKind, Denied, RequiredTypes, DocPlan, HexId,
         TypeTaken;
    var h, p := docs[n].envelope.header, DocPlan(docs, n, x.tx);
    if DocumentKey(h.document) in p {
      DocPlanOrigin(docs, n, x.tx, h.document);
    }
    if SourceUseKey(h.issuer, h.sourceDocument) in p {
      SourceOrigin(docs, n, x.tx, h.issuer, h.sourceDocument);
    }
    if NonceKey(h.issuer, h.nonce) in p {
      NonceOrigin(docs, n, x.tx, h.issuer, h.nonce);
    }
  }

  lemma TypeRefused(env: Env, s: State, c: Command, x: Execution, t: Transient, b: Batch, docs: seq<Bundle>, n: nat,
                    p: Evidence.Progress)
    requires n < |docs| && LoopState(c, docs, n, x.tx, p)
    requires var h := docs[n].envelope.header; !(h.docType in p.required && p.required[h.docType] == h.system)
    ensures DocumentReason(env, s, c, x, t, b, docs, n, SourceBindingMismatch)
  {
    hide BodyBound, RequiredTypes, DocPlan;
  }

  lemma DocumentRefused(env: Env, s: State, c: Command, x: Execution, t: Transient, b: Batch, docs: seq<Bundle>,
                        n: nat, p: Evidence.Progress, e: ErrorCode)
    requires n < |docs| && LoopState(c, docs, n, x.tx, p) && Configured(s)
    requires c.name.CreateBatch? ==> c.payload.CreateInput?
    requires c.name.RecordFreightCost? ==> c.payload.FreightInput?
    requires TakeDocument(env, s, c, x, t, b, p, docs[n]) == Err(e)
    ensures DocumentReason(env, s, c, x, t, b, docs, n, e)
  {
    hide Configured, VerifyBundle, ClaimAll, TakeBody, DocPlan, Remaining, BodyBound, RequiredTypes, ProperHeader,
         KeyTrusted, SignedBySource, BodyOfKind, Denied, HexId, SaltGiven, TypeTaken, IdTaken, SourceTaken, NonceTaken;
    var d := docs[n];
    var h := d.envelope.header;
    if !(h.docType in p.required && p.required[h.docType] == h.system) {
      TypeRefused(env, s, c, x, t, b, docs, n, p);
    } else if VerifyBundle(env, s, d) == Err(e) {
      VerifyRefused(env, s, c, x, t, b, docs, n, e);
    } else if h.batch == c.batch && h.op == c.op {
      if ClaimAll(s, p.v.pub, d.envelope, x.tx) == Err(e) {
        ClaimRefused(env, s, c, x, t, b, docs, n, e);
      } else {
        StillRequired(c, docs, n, x.tx, p);
        BodyRefused(env, s, c, x, t, b, p.v.(pub := ClaimAll(s, p.v.pub, d.envelope, x.tx).value), docs, n, e);
      }
    }
  }

  lemma StillRequired(c: Command, docs: seq<Bundle>, n: nat, tx: string, p: Evidence.Progress)
    requires n < |docs| && LoopState(c, docs, n, tx, p) && docs[n].envelope.header.docType in p.required
    ensures docs[n].envelope.header.docType in RequiredTypes(c.name)
  {
    hide RequiredTypes, DocPlan;
  }

  /** One of the first n documents is to blame. */
  ghost predicate SomeDocument(env: Env, s: State, c: Command, x: Execution, t: Transient, b: Batch, docs: seq<Bundle>,
                               e: ErrorCode) {
    exists i :: 0 <= i < |docs| && DocumentReason(env, s, c, x, t, b, docs, i, e)
  }

  lemma {:induction false} LoopRefused(env: Env, s: State, c: Command, x: Execution, t: Transient, b: Batch,
                                       docs: seq<Bundle>, n: nat, e: ErrorCode)
    requires n <= |docs| && Configured(s)
    requires c.name.CreateBatch? ==> c.payload.CreateInput?
    requires c.name.RecordFreightCost? ==> c.payload.FreightInput?
    requires TakeDocuments(env, s, c, x, t, b, docs, n) == Err(e)
    ensures SomeDocument(env, s, c, x, t, b, docs, e)
  {
    hide Configured, TakeDocument, DocumentReason, DocOk, DocsDiffer, LoopState;
    if TakeDocuments(env, s, c, x, t, b, docs, n - 1) == Err(e) {
      LoopRefused(env, s, c, x, t, b, docs, n - 1, e);
    } else {
      DocumentsTaken(env, s, c, x, t, b, docs, n - 1);
      DocumentRefused(env, s, c, x, t, b, docs, n - 1, TakeDocuments(env, s, c, x, t, b, docs, n - 1).value, e);
    }
  }

  /** The number of documents that a command requires. */
  function DocumentsOf(name: CommandName): nat {
    match name
    case CreateBatch | RecordFreightCost => 1
    case OfferPickup => 3
    case _ => 0
  }

  /** The reasons for which the evidence of a command is refused. */
  ghost predicate EvidenceReason(env: Env, s: State, c: Command, x: Execution, t: Transient, b: Batch, e: ErrorCode) {
    || (e.MissingEvidence? && (|t| != |FieldsOf(c.name)| || |Submitted(c, t)| != DocumentsOf(c.name)))
    || (e.InvalidSchema? && |t| == |FieldsOf(c.name)| && t.Keys != FieldsOf(c.name))
    || (e.InvalidSchema? && DocumentsOf(c.name) > 0
        && !(Get(t, EvidenceField).Bundles? && Increasing(Submitted(c, t))))
    || SomeDocument(env, s, c, x, t, b, Submitted(c, t), e)
  }

  lemma FieldsRefused(c: Command, t: Transient, e: ErrorCode)
    requires FieldsOk(c, t) == Err(e)
    ensures || (e.MissingEvidence? && |t| != |FieldsOf(c.name)|)
            || (e.InvalidSchema? && |t| == |FieldsOf(c.name)| && t.Keys != FieldsOf(c.name))
  {
    FieldsIff(c, t);
    RequiredCount(c.name);
    assert |{EvidenceField}| == 1 && |{RetailReportField}| == 1 && |{EvidenceField, RecordSaltField}| == 2;
    hide RequiredTypes;
  }

  lemma RequiredCount(name: CommandName)
    ensures |RequiredTypes(name)| == DocumentsOf(name) && (RequiredTypes(name) == map[] <==> DocumentsOf(name) == 0)
  {
  }

  lemma EvidenceRefused(env: Env, s: State, c: Command, x: Execution, t: Transient, b: Batch, e: ErrorCode)
    requires Configured(s)
    requires c.name.CreateBatch? ==> c.payload.CreateInput?
    requires c.name.RecordFreightCost? ==> c.payload.FreightInput?
    requires GatherDocuments(env, s, c, x, t, b) == Err(e)
    ensures EvidenceReason(env, s, c, x, t, b, e)
  {
    hide Configured, TakeDocuments, FieldsOk, FieldsOf, RequiredTypes, DocumentsOf, SomeDocument, Increasing, Get;
    RequiredCount(c.name);
    var docs := Submitted(c, t);
    if FieldsOk(c, t) == Err(e) {
      FieldsRefused(c, t, e);
    } else if |docs| == DocumentsOf(c.name) && TakeDocuments(env, s, c, x, t, b, docs, |docs|) == Err(e) {
      LoopRefused(env, s, c, x, t, b, docs, |docs|, e);
    }
  }

  // ------------------------------------------------------ handoffs and freight

  /** The named transfer, if it is one of this batch. */
  function TransferOf(s: State, id: Id, batch: Id): Option<Transfer> {
    if TransferKey(id) in s.pub && s.pub[TransferKey(id)].TransferValue?
       && s.pub[TransferKey(id)].transfer.batch == batch
    then Some(s.pub[TransferKey(id)].transfer) else None
  }

  predicate AddressedTo(t: Option<Transfer>, m: Msp) {
    match t
    case Some(transfer) => transfer.to == m
    case None => false
  }

  /** A submitted invoice is over other grams than the batch's. */
  ghost predicate OtherGrams(docs: seq<Bundle>, quantity: int) {
    exists i :: 0 <= i < |docs| && BilledGrams(docs[i].body) != Some(quantity)
                && (docs[i].envelope.header.docType.PurchaseInvoice? || docs[i].envelope.header.docType.FreightInvoice?)
  }

  function BilledGrams(p: Body): Option<int> {
    match p
    case PurchaseBody(_, _, quantity, _, _, _, _, _, _) => Some(quantity)
    case FreightBody(_, _, quantity, _, _, _, _, _) => Some(quantity)
    case _ => None
  }

  /** A submitted invoice is over the batch's grams, but its money is out of bounds, in another currency or inexact. */
  ghost predicate OtherMoney(docs: seq<Bundle>, quantity: int) {
    exists i :: 0 <= i < |docs| && BilledGrams(docs[i].body) == Some(quantity) && !MoneyProper(docs[i].body)
  }

  predicate MoneyProper(p: Body) {
    match p
    case PurchaseBody(_, _, quantity, price, total, currency, tax, _, _) =>
      && 1 <= price <= 1_000_000_000 && 1 <= total <= 1_000_000_000_000 && price * quantity == total * 1000
      && currency == Try && tax == ExcludingTax
    case FreightBody(_, _, _, total, currency, tax, _, _) =>
      0 <= total <= 1_000_000_000_000 && currency == Try && tax == ExcludingTax
    case _ => true
  }

  /** The reasons for which an offer is refused after its evidence. */
  ghost predicate OfferReason(s: State, c: Command, t: Transient, b: Batch, e: ErrorCode) {
    match c.payload
    case HandoffInput(transfer, quantity) =>
      || (e == InvalidStateTransition && b.state != (if c.name.OfferPickup? then Created else InTransport))
      || (e == InvalidQuantity && quantity != b.quantity)
      || (e == TransferAlreadyExists && TransferKey(transfer) in s.pub)
      || (e == SourceBindingMismatch && c.name.OfferPickup? && OtherGrams(Submitted(c, t), b.quantity))
      || (e == InvalidMoney && c.name.OfferPickup? && OtherMoney(Submitted(c, t), b.quantity))
    case _ => false
  }

  /** The reasons for which an acceptance is refused. */
  ghost predicate AcceptReason(s: State, c: Command, b: Batch, r: Refs, e: ErrorCode) {
    match c.payload
    case HandoffInput(transfer, quantity) =>
      || (e == TransferNotFound && TransferOf(s, transfer, c.batch).None?)
      || (e == WrongTransferRecipient && !AddressedTo(TransferOf(s, transfer, c.batch), CallerOf(c.name)))
      || (e == InvalidStateTransition
          && (b.state != (if c.name.AcceptPickup? then PickupPending else DeliveryPending)
              || !(PendingKey(c.batch) in s.pub && s.pub[PendingKey(c.batch)] == IdValue(transfer))))
      || (e == InvalidQuantity && quantity != b.quantity)
      || (e == MissingEvidence && c.name.AcceptDelivery? && r.freight == NO_ID)
    case _ => false
  }

  /** The reasons for which a freight cost is refused after its evidence. */
  ghost predicate FreightReason(s: State, c: Command, t: Transient, b: Batch, r: Refs, e: ErrorCode) {
    match c.payload
    case FreightInput(cost) =>
      || (e == InvalidStateTransition && b.state != InTransport && b.state != DeliveryPending)
      || (e == CostAlreadyExists && (r.freight != NO_ID || CostRefKey(cost) in s.pub))
      || (e == SourceBindingMismatch && OtherGrams(Submitted(c, t), b.quantity))
      || (e == InvalidMoney && OtherMoney(Submitted(c, t), b.quantity))
    case _ => false
  }

  lemma PickupMoneyRefused(env: Env, s: State, c: Command, x: Execution, t: Transient, b: Batch, v: Verified)
    requires c.name.OfferPickup? && Gathered(env, s, c, x, t, b, v)
    requires b.producer == Producer && b.retailer == Retailer && 0 < b.quantity <= 100_000_000
    ensures v.quantity != b.quantity ==> OtherGrams(Submitted(c, t), b.quantity)
    ensures v.quantity == b.quantity && !ValidPurchase(v) ==> OtherMoney(Submitted(c, t), b.quantity)
  {
    hide DocOk, PrivFrom, ValidPurchase;
    var i := DocumentOf(env, s, c, x, t, b, v, PurchaseInvoice);
    var d := Submitted(c, t)[i];
    InvoiceIff(c, x, b, d, v);
    assert BilledGrams(d.body) == Some(v.quantity);
  }

  /** What the ledger and the evidence already decide of an offer. */
  ghost predicate OfferSettled(s: State, c: Command, x: Execution, t: Transient, st: Start, v: Verified) {
    var b := st.before;
    && c.payload.HandoffInput?
    && (b.state == (if c.name.OfferPickup? then Created else InTransport) ==>
          && x.actor == b.custodian && (c.name.OfferPickup? ==> x.actor == b.owner) && PendingKey(b.id) !in s.pub
          && (c.name.OfferDelivery? ==> st.refs.transport != NO_ID))
    && (c.name.OfferPickup? ==>
          && st.refs.cks != NO_ID
          && match PickupDocuments(s, c, st, v)
             case Ok(_) => true
             case Err(e) =>
               || (e == SourceBindingMismatch && OtherGrams(Submitted(c, t), b.quantity))
               || (e == InvalidMoney && OtherMoney(Submitted(c, t), b.quantity)))
  }

  lemma OfferCodes(s: State, c: Command, x: Execution, t: Transient, st: Start, v: Verified, e: ErrorCode)
    requires IsOffer(c.name) && OfferSettled(s, c, x, t, st, v) && OfferArm(s, c, x, st, v) == Err(e)
    ensures OfferReason(s, c, t, st.before, e)
  {
    hide PickupDocuments, OtherGrams, OtherMoney, Submitted;
  }

  lemma OfferIsSettled(env: Env, s: State, c: Command, x: Execution, t: Transient, st: Start, v: Verified)
    requires Slots(s) && Transfers(s) && Admitted(s, c, x, st) && st.existing && IsOffer(c.name)
    requires BatchAt(s, c.batch) == st.before && LifecycleOk(c.batch, st.before, st.refs)
    requires c.name.OfferPickup? ==> Gathered(env, s, c, x, t, st.before, v)
    ensures OfferSettled(s, c, x, t, st, v)
  {
    hide ValidId, BatchAt, PickupDocuments, Slots, Gathered, ValidPurchase, OtherGrams, OtherMoney, Submitted;
    if PendingKey(c.batch) in s.pub {
      assert PendingOk(s, c.batch);
    }
    hide Transfers;
    if c.name.OfferPickup? {
      PickupMoneyRefused(env, s, c, x, t, st.before, v);
      PickupRefused(env, s, c, x, t, st, v);
    }
  }

  lemma OfferRefused(env: Env, s: State, c: Command, x: Execution, t: Transient, st: Start, v: Verified, e: ErrorCode)
    requires Slots(s) && Transfers(s) && Admitted(s, c, x, st) && st.existing && IsOffer(c.name)
    requires BatchAt(s, c.batch) == st.before && LifecycleOk(c.batch, st.before, st.refs)
    requires c.name.OfferPickup? ==> Gathered(env, s, c, x, t, st.before, v)
    requires OfferArm(s, c, x, st, v) == Err(e)
    ensures OfferReason(s, c, t, st.before, e)
  {
    hide Slots, Transfers, Admitted, BatchAt, LifecycleOk, Gathered, OfferArm, OfferReason, OfferSettled;
    OfferIsSettled(env, s, c, x, t, st, v);
    OfferCodes(s, c, x, t, st, v, e);
  }

  /** After the state, what a pickup's documents can still be refused for is their grams and their money. */
  lemma PickupRefused(env: Env, s: State, c: Command, x: Execution, t: Transient, st: Start, v: Verified)
    requires Slots(s) && c.name.OfferPickup? && Gathered(env, s, c, x, t, st.before, v) && st.refs.cks != NO_ID
    ensures PickupDocuments(s, c, st, v)
            == if v.quantity != st.before.quantity then Err(SourceBindingMismatch)
               else if !ValidPurchase(v) then Err(InvalidMoney) else PickupDocuments(s, c, st, v)
    ensures v.quantity == st.before.quantity && ValidPurchase(v) ==> PickupDocuments(s, c, st, v).Ok?
  {
    hide Slots, Gathered, ValidPurchase, Consume;
    if v.quantity == st.before.quantity && ValidPurchase(v) {
      PickupConsumes(env, s, c, x, t, st, v);
    }
  }

  lemma NamedTransfer(s: State, id: Id, batch: Id)
    requires Transfers(s) && TransferKey(id) in s.pub
    ensures s.pub[TransferKey(id)].TransferValue?
    ensures var t := s.pub[TransferKey(id)].transfer;
            && t.id == id && t.from == (if t.kind.Pickup? then Producer else Logistics)
            && t.to == (if t.kind.Pickup? then Logistics else Retailer)
            && (t.batch == batch ==> t.quantity == BatchAt(s, batch).quantity)
            && (t.status.Offered? <==> PendingKey(t.batch) in s.pub && s.pub[PendingKey(t.batch)] == IdValue(id))
    ensures PendingKey(batch) in s.pub ==> s.pub[PendingKey(batch)].IdValue?
  {
    hide Receipted, ReceiptVersion, BatchAt;
    assert TransferOk(s, id);
    assert PendingKey(batch) in s.pub ==> PendingOk(s, batch);
  }

  /** What the ledger already decides of an acceptance. */
  ghost predicate AcceptSettled(s: State, c: Command, x: Execution, b: Batch) {
    match c.payload
    case HandoffInput(transfer, _) =>
      && b.id == c.batch && x.actor == CallerOf(c.name)
      && (PendingKey(c.batch) in s.pub ==> s.pub[PendingKey(c.batch)].IdValue?)
      && (TransferKey(transfer) in s.pub ==>
            match s.pub[TransferKey(transfer)]
            case TransferValue(t) =>
              && t.id == transfer && t.from == (if t.kind.Pickup? then Producer else Logistics)
              && t.to == (if t.kind.Pickup? then Logistics else Retailer)
              && (t.batch == c.batch ==> t.quantity == b.quantity)
              && (t.status.Offered?
                  <==> PendingKey(t.batch) in s.pub && s.pub[PendingKey(t.batch)] == IdValue(transfer))
            case _ => false)
      && (b.state.PickupPending? ==> b.custodian == Producer) && (b.state.DeliveryPending? ==> b.custodian == Logistics)
    case _ => false
  }

  lemma AcceptCodes(s: State, c: Command, x: Execution, st: Start, e: ErrorCode)
    requires IsAccept(c.name) && AcceptSettled(s, c, x, st.before) && AcceptArm(s, c, x, st) == Err(e)
    ensures AcceptReason(s, c, st.before, st.refs, e)
  {
  }

  lemma AcceptIsSettled(s: State, c: Command, x: Execution, st: Start)
    requires Transfers(s) && Admitted(s, c, x, st) && st.existing && IsAccept(c.name)
    requires BatchAt(s, c.batch) == st.before && LifecycleOk(c.batch, st.before, st.refs)
    ensures AcceptSettled(s, c, x, st.before)
  {
    hide ValidId, BatchAt, Receipted, ReceiptVersion;
    if PendingKey(c.batch) in s.pub {
      assert PendingOk(s, c.batch);
    }
    hide PendingOk, Transfers;
    if TransferKey(c.payload.transfer) in s.pub {
      NamedTransfer(s, c.payload.transfer, c.batch);
    }
  }

  lemma AcceptRefused(s: State, c: Command, x: Execution, st: Start, e: ErrorCode)
    requires Transfers(s) && Admitted(s, c, x, st) && st.existing && IsAccept(c.name)
    requires BatchAt(s, c.batch) == st.before && LifecycleOk(c.batch, st.before, st.refs)
    requires AcceptArm(s, c, x, st) == Err(e)
    ensures AcceptReason(s, c, st.before, st.refs, e)
  {
    hide Transfers, Admitted, BatchAt, LifecycleOk, AcceptArm, AcceptReason, AcceptSettled;
    AcceptIsSettled(s, c, x, st);
    AcceptCodes(s, c, x, st, e);
  }

  predicate FreightMoney(v: Verified) {
    0 <= v.freightTotal <= 1_000_000_000_000 && v.currency == Try && v.tax == ExcludingTax
  }

  /** What the ledger and the evidence already decide of a freight cost. */
  ghost predicate FreightSettled(c: Command, x: Execution, t: Transient, b: Batch, v: Verified) {
    && c.payload.FreightInput?
    && (b.state.InTransport? || b.state.DeliveryPending? ==> b.custodian == x.actor)
    && (v.quantity != b.quantity ==> OtherGrams(Submitted(c, t), b.quantity))
    && (v.quantity == b.quantity && !FreightMoney(v) ==> OtherMoney(Submitted(c, t), b.quantity))
  }

  lemma FreightCodes(s: State, c: Command, x: Execution, t: Transient, st: Start, v: Verified, e: ErrorCode)
    requires FreightSettled(c, x, t, st.before, v) && FreightArm(s, c, x, st, v) == Err(e)
    ensures FreightReason(s, c, t, st.before, st.refs, e)
  {
    hide OtherGrams, OtherMoney, Submitted;
  }

  lemma FreightBills(env: Env, s: State, c: Command, x: Execution, t: Transient, b: Batch, v: Verified)
    requires c.name.RecordFreightCost? && Gathered(env, s, c, x, t, b, v)
    ensures c.payload.FreightInput? && (v.quantity != b.quantity ==> OtherGrams(Submitted(c, t), b.quantity))
    ensures v.quantity == b.quantity && !FreightMoney(v) ==> OtherMoney(Submitted(c, t), b.quantity)
  {
    hide DocOk, Gathered, Submitted;
    var i := DocumentOf(env, s, c, x, t, b, v, FreightInvoice);
    var d := Submitted(c, t)[i];
    assert BilledGrams(d.body) == Some(v.quantity);
    assert MoneyProper(d.body) <==> FreightMoney(v);
  }

  lemma FreightRefused(env: Env, s: State, c: Command, x: Execution, t: Transient, st: Start, v: Verified,
                       e: ErrorCode)
    requires Admitted(s, c, x, st) && st.existing && c.name.RecordFreightCost?
    requires LifecycleOk(c.batch, st.before, st.refs) && Gathered(env, s, c, x, t, st.before, v)
    requires FreightArm(s, c, x, st, v) == Err(e)
    ensures FreightReason(s, c, t, st.before, st.refs, e)
  {
    hide Gathered, OtherGrams, OtherMoney, Submitted, FreightArm, FreightReason, EmptyRefs, ValidId;
    FreightBills(env, s, c, x, t, st.before, v);
    FreightCodes(s, c, x, t, st, v, e);
  }

  // ------------------------------------------------------------------ report

  /** The submitted report is one: a time, a salt, a price. */
  predicate RetailGiven(env: Env, t: Transient) {
    && RetailReportField in t && t[RetailReportField].RetailField?
    && env.dateTime(t[RetailReportField].retail.reportedAt) && HexId(t[RetailReportField].retail.salt)
  }

  /** The reasons for which a retail report is refused, once its fields are the right ones. */
  ghost predicate ReportReason(env: Env, s: State, c: Command, t: Transient, b: Batch, r: Refs, e: ErrorCode) {
    match c.payload
    case ReportInput(report, lot, policy) =>
      || (e == InvalidSchema && !RetailGiven(env, t))
      || (e == PrivateDataUnavailable && (b.state.Created? || r.freight == NO_ID))
      || (e == SourceBindingMismatch
          && RetailGiven(env, t) && !(t[RetailReportField].retail.currency == Try
             && t[RetailReportField].retail.tax == ExcludingTax))
      || (e == InvalidStateTransition && !b.state.Received?)
      || (e == LotAlreadyExists && LotKey(lot) in s.pub)
      || (e == ReportAlreadyExists && ReportRefKey(report) in s.pub)
      || (e == InvalidMoney && RetailGiven(env, t) && !(0 <= t[RetailReportField].retail.price <= 1_000_000_000))
      || (e == PolicyMismatch && (LoadConfig(s).Err? || policy != LoadConfig(s).value.policy))
    case _ => false
  }

  /** The purchase and the freight record of a batch are there exactly when its slots name them, and are proper. */
  ghost predicate RecordsStored(s: State, b: Batch, r: Refs) {
    && (r.purchase == NO_ID <==> b.state.Created?)
    && (if r.purchase == NO_ID then LoadPurchase(s, r.purchase) == Err(PrivateDataUnavailable)
        else PurchaseStored(s, r.purchase, b.quantity))
    && (if r.freight == NO_ID then LoadCost(s, r.freight) == Err(PrivateDataUnavailable)
        else CostStored(s, r.freight, b.id, b.quantity))
  }

  lemma NothingUnnamed(s: State)
    requires Guarded(s) && References(s) && KeysNamed(s)
    ensures LoadPurchase(s, NO_ID) == Err(PrivateDataUnavailable) && LoadCost(s, NO_ID) == Err(PrivateDataUnavailable)
  {
    hide BatchAt, RefsAt, Referred, ReviewGuarded;
    assert OpeningKey(TradeCollection, NO_ID) !in s.priv && CostKey(NO_ID) !in s.priv;
  }

  lemma RecordsOfBatch(s: State, id: Id)
    requires Sound(s) && BatchKey(id) in s.pub
    ensures RecordsStored(s, BatchAt(s, id), RefsAt(s, id))
  {
    hide Configured, Indexed, History, Transfers, References, Evaluations, Consumed, Slots, Analysed, Versioned,
         Replays, Trail, SourcesStored, KeysNamed, Guarded;
    hide BatchAt, RefsAt, LoadPurchase, LoadCost, PurchaseOk;
    NothingUnnamed(s);
    assert RecordOk(s, id) && Opened(s, id);
  }

  /** What the stored records already decide of a report's money. */
  lemma RecordsClear(s: State, b: Batch, r: Refs)
    requires RecordsStored(s, b, r)
    ensures match LoadPurchase(s, r.purchase)
            case Ok(p) =>
              p.PurchaseBody? && p.quantity == b.quantity && p.currency == Try && p.tax == ExcludingTax
            case Err(code) => code == PrivateDataUnavailable && b.state.Created?
    ensures match LoadCost(s, r.freight)
            case Ok(k) => k.batch == b.id && k.quantity == b.quantity && k.currency == Try && k.tax == ExcludingTax
            case Err(code) => code == PrivateDataUnavailable && r.freight == NO_ID
  {
    hide LoadPurchase, LoadCost;
  }

  lemma TakeReportRefused(env: Env, s: State, c: Command, x: Execution, t: Transient, b: Batch, r: Refs, policy: Id,
                          v: Verified, e: ErrorCode)
    requires RecordsStored(s, b, r) && c.payload.ReportInput?
    requires TakeReport(env, s, c, x, t, b, r, policy, v) == Err(e)
    ensures ReportReason(env, s, c, t, b, r, e)
  {
    hide RecordsStored, LoadPurchase, LoadCost, HexId, LoadConfig;
    RecordsClear(s, b, r);
  }

  /** What is known of the evidence of a report that was taken. */
  ghost predicate ReportSettled(s: State, c: Command, x: Execution, t: Transient, st: Start, v: Verified) {
    var b, r := st.before, st.refs;
    && c.payload.ReportInput?
    && (b.state.Received? ==>
          && b.owner == x.actor && b.custodian == x.actor && r.purchase != NO_ID && r.freight != NO_ID
          && r.report == NO_ID && b.lot == NO_ID && v.quantity == b.quantity && ValidPurchase(v))
    && Get(t, RetailReportField).RetailField? && Get(t, RetailReportField).retail.price == v.retailPrice
    && (match LoadConfig(s)
        case Ok(cfg) => v.policy == cfg.policy
        case Err(_) => true)
  }

  lemma ReportCodes(env: Env, s: State, c: Command, x: Execution, t: Transient, st: Start, v: Verified, e: ErrorCode)
    requires ReportSettled(s, c, x, t, st, v) && RetailGiven(env, t) && ReportArm(s, c, x, st, v) == Err(e)
    ensures ReportReason(env, s, c, t, st.before, st.refs, e)
  {
    hide ValidPurchase, LoadConfig, HexId;
  }

  lemma TakenSettled(env: Env, s: State, c: Command, x: Execution, t: Transient, st: Start, cfg: Configuration,
                     v: Verified)
    requires Admitted(s, c, x, st) && st.existing && c.name.ReportRetailPrice? && LoadConfig(s) == Ok(cfg)
    requires LifecycleOk(c.batch, st.before, st.refs) && RecordsStored(s, st.before, st.refs)
    requires TakeReport(env, s, c, x, t, st.before, st.refs, cfg.policy, NOTHING) == Ok(v)
    ensures ReportSettled(s, c, x, t, st, v) && RetailGiven(env, t)
  {
    hide ValidId, HexId, LoadPurchase, LoadCost, LoadConfig, PurchaseOk, ValidPurchase, EmptyRefs;
    if st.before.state.Received? {
      var p := LoadPurchase(s, st.refs.purchase).value;
      PurchaseShape(p, st.before.quantity);
      StoredPurchaseValid(p, v, st.before.quantity);
    }
  }

  lemma ReportRefused(env: Env, s: State, c: Command, x: Execution, t: Transient, st: Start, cfg: Configuration,
                      e: ErrorCode)
    requires Admitted(s, c, x, st) && st.existing && c.name.ReportRetailPrice? && LoadConfig(s) == Ok(cfg)
    requires LifecycleOk(c.batch, st.before, st.refs) && RecordsStored(s, st.before, st.refs)
    requires Decided(s, c, x, st.before, st.refs,
                     TakeReport(env, s, c, x, t, st.before, st.refs, cfg.policy, NOTHING)) == Err(e)
    ensures ReportReason(env, s, c, t, st.before, st.refs, e)
  {
    hide Admitted, LifecycleOk, RecordsStored, TakeReport, ReportArm, ReportReason, ReportSettled, RetailGiven,
         LoadConfig, CreateArm, OfferArm, AcceptArm, FreightArm, AnalysisArm;
    PayloadOfName(s, c, x, st);
    match TakeReport(env, s, c, x, t, st.before, st.refs, cfg.policy, NOTHING)
    case Err(_) => TakeReportRefused(env, s, c, x, t, st.before, st.refs, cfg.policy, NOTHING, e);
    case Ok(v) =>
      TakenSettled(env, s, c, x, t, st, cfg, v);
      ReportCodes(env, s, c, x, t, st, v, e);
  }

  // ---------------------------------------------------------------- analysis

  /** The reasons for which an evaluation is refused. */
  ghost predicate EvaluationReason(s: State, c: Command, t: Transient, b: Batch, r: Refs, e: ErrorCode) {
    match c.payload
    case EvaluateInput(anomaly, report) =>
      || (e == InvalidStateTransition && !b.state.RetailReported?)
      || (e == InvalidSchema
          && (|t| != 2 || !(ProposedField in t && t[ProposedField].ScoreField?) || !SaltGiven(t, RecordSaltField)))
      || (e == SourceBindingMismatch && report != r.report)
      || (e == AnomalyAlreadyExists && (EvaluationKey(c.batch) in s.pub || AnomalyRefKey(anomaly) in s.pub))
      || (e == AnomalyResultMismatch
          && ProposedField in t && t[ProposedField].ScoreField? && TheScore(s, r) != Ok(t[ProposedField].score))
    case _ => false
  }

  /** The records of a reported batch pass every check of the evaluation, and give the ledger's score. */
  ghost predicate EvaluationClear(s: State, b: Batch, r: Refs) {
    && r.report != NO_ID && r.purchase != NO_ID && r.freight != NO_ID
    && (match (LoadPurchase(s, r.purchase), LoadReport(s, r.report), LoadCost(s, r.freight), LoadConfig(s))
        case (Ok(p), Ok(x), Ok(k), Ok(cfg)) =>
          && p.PurchaseBody? && SubjectOk(b, r, p, x, k) && x.policy == cfg.policy && MoneyClear(p, x, k)
          && PriceScore(p.price, x.input.price, cfg.threshold).Ok?
          && TheScore(s, r) == PriceScore(p.price, x.input.price, cfg.threshold)
        case _ => false)
  }

  lemma ConsistentClear(s: State, b: Batch, r: Refs)
    requires Consistent(s, b, r)
    ensures EvaluationClear(s, b, r)
  {
    hide LoadPurchase, LoadReport, LoadCost, LoadConfig, PriceScore;
    ScoreDefined(LoadPurchase(s, r.purchase).value.price, LoadReport(s, r.report).value.input.price,
                 LoadConfig(s).value.threshold);
  }

  lemma EvaluationRefused(s: State, c: Command, x: Execution, t: Transient, b: Batch, r: Refs, e: ErrorCode)
    requires EvaluationClear(s, b, r) && c.payload.EvaluateInput? && b.id == c.batch
    requires Evaluate(s, c, x, t, b, r) == Err(e)
    ensures EvaluationReason(s, c, t, b, r, e)
  {
    hide LoadPurchase, LoadReport, LoadCost, LoadConfig, HexId, PriceScore, SubjectOk, MoneyClear, TheScore;
  }

  /** A review step's inputs: of its kind, with a reviewer, an outcome with an explanation, and fresh salts. */
  predicate ReviewProper(env: Env, name: CommandName, t: Transient, recordSalt: string) {
    && |t| == 2 && ReviewActionField in t && SaltGiven(t, ReviewSaltField) && t[ReviewSaltField].text != recordSalt
    && match (name, t[ReviewActionField])
       case (OpenReview, OpenField(reviewer, salt)) =>
         ValidId(reviewer, "REV") && HexId(salt) && salt != t[ReviewSaltField].text
       case (ResolveReview, ResolveField(input)) =>
         && ValidId(input.reviewer, "REV") && HexId(input.salt) && input.salt != t[ReviewSaltField].text
         && input.outcome in {"EXPLAINED", "FOLLOW_UP_RECOMMENDED", "INSUFFICIENT_EVIDENCE"}
         && env.explanation(input.explanation)
       case _ => false
  }

  /** The record of this anomaly, if the batch was evaluated with it. */
  function AnomalyOf(s: State, batch: Id, anomaly: Id): Option<AnomalyRecord> {
    if EvaluationKey(batch) in s.pub && s.pub[EvaluationKey(batch)].EvaluationValue?
       && s.pub[EvaluationKey(batch)].evaluation.anomaly == anomaly
       && AnomalyKey(anomaly) in s.priv && s.priv[AnomalyKey(anomaly)].AnomalyValue?
    then Some(s.priv[AnomalyKey(anomaly)].anomaly) else None
  }

  /** The reasons for which a review step is refused. */
  ghost predicate ReviewReason(env: Env, s: State, c: Command, t: Transient, b: Batch, e: ErrorCode) {
    match c.payload
    case ReviewTarget(anomaly) =>
      var found := AnomalyOf(s, c.batch, anomaly);
      || (e == InvalidStateTransition && !b.state.RetailReported?)
      || (e == InvalidSchema
          && (|t| != 2 || (found.Some? && !ReviewProper(env, c.name, t, found.value.salt))))
      || (e == InvalidReviewTransition
          && (found.None? || found.value.review != (if c.name.OpenReview? then Open else InReview)))
    case _ => false
  }

  /** An evaluation has its record, and a record asks for no review exactly when there is no signal. */
  ghost predicate RecordKept(s: State, id: Id) {
    EvaluationKey(id) in s.pub ==>
      match s.pub[EvaluationKey(id)]
      case EvaluationValue(v) =>
        AnomalyKey(v.anomaly) in s.priv
        && (match s.priv[AnomalyKey(v.anomaly)]
            case AnomalyValue(a) => a.score.verdict.NoSignal? ==> a.review.NotRequired?
            case _ => false)
      case _ => false
  }

  lemma RecordIsKept(s: State, id: Id)
    requires Analysed(s)
    ensures RecordKept(s, id)
  {
    hide Derived, ReviewsOf;
    if EvaluationKey(id) in s.pub {
      assert Scored(s, id);
    }
  }

  lemma ReviewRefused(env: Env, s: State, c: Command, x: Execution, t: Transient, b: Batch, e: ErrorCode)
    requires IsReview(c.name) && RecordKept(s, c.batch) && b.id == c.batch && c.payload.ReviewTarget?
    requires Review(env, s, c, x, t, b) == Err(e)
    ensures ReviewReason(env, s, c, t, b, e)
  {
    hide HexId, ValidId;
  }

  // -------------------------------------------------------------- the theorem

  /** The reasons for which an admitted command is refused. */
  ghost predicate CommandReason(env: Env, s: State, c: Command, x: Execution, t: Transient, b: Batch, r: Refs,
                                e: ErrorCode) {
    match c.name
    case CreateBatch => EvidenceReason(env, s, c, x, t, b, e)
    case OfferPickup | OfferDelivery => EvidenceReason(env, s, c, x, t, b, e) || OfferReason(s, c, t, b, e)
    case AcceptPickup | AcceptDelivery => EvidenceReason(env, s, c, x, t, b, e) || AcceptReason(s, c, b, r, e)
    case RecordFreightCost => EvidenceReason(env, s, c, x, t, b, e) || FreightReason(s, c, t, b, r, e)
    case ReportRetailPrice => EvidenceReason(env, s, c, x, t, b, e) || ReportReason(env, s, c, t, b, r, e)
    case EvaluatePrice => EvaluationReason(s, c, t, b, r, e)
    case OpenReview | ResolveReview => ReviewReason(env, s, c, t, b, e)
  }

  lemma PayloadOfName(s: State, c: Command, x: Execution, st: Start)
    requires Admitted(s, c, x, st)
    ensures match c.name
            case CreateBatch => c.payload.CreateInput?
            case OfferPickup | AcceptPickup | OfferDelivery | AcceptDelivery => c.payload.HandoffInput?
            case RecordFreightCost => c.payload.FreightInput?
            case ReportRetailPrice => c.payload.ReportInput?
            case EvaluatePrice => c.payload.EvaluateInput?
            case OpenReview | ResolveReview => c.payload.ReviewTarget?
  {
    hide ValidId;
  }

  /** Where the refusal of an admitted command comes from. */
  lemma AfterAdmission(env: Env, s: State, c: Command, x: Execution, t: Transient, st: Start, e: ErrorCode)
    requires Admit(env, s, c, x) == Ok(st) && Apply(env, s, c, x, t) == Err(e)
    ensures match Prepare(env, s, c, x, t, st.before, st.refs)
            case Err(code) => code == e
            case Ok(v) => RunArm(s, c, x, st, v) == Err(e)
  {
    hide Admit, Prepare, RunArm, Finish;
  }

  lemma DocumentsRefused(env: Env, s: State, c: Command, x: Execution, t: Transient, st: Start, e: ErrorCode)
    requires Sound(s) && Admitted(s, c, x, st) && LoadConfig(s).Ok? && !IsAnalysis(c.name)
    requires Prepare(env, s, c, x, t, st.before, st.refs) == Err(e) && !c.name.ReportRetailPrice?
    ensures EvidenceReason(env, s, c, x, t, st.before, e)
  {
    hide Configured, Records, Indexed, History, Transfers, References, Evaluations, Consumed, Slots, Privates, Analysed,
         Versioned, Named, Replays, Trail, EvidenceReason, GatherDocuments, LoadConfig, Admitted, TakeReport, Evaluate,
         Review;
    PayloadOfName(s, c, x, st);
    EvidenceRefused(env, s, c, x, t, st.before, e);
  }

  lemma ReportFieldsRefused(env: Env, s: State, c: Command, x: Execution, t: Transient, b: Batch, r: Refs, e: ErrorCode)
    requires c.name.ReportRetailPrice? && LoadConfig(s).Ok? && FieldsOk(c, t).Err?
    requires Prepare(env, s, c, x, t, b, r) == Err(e)
    ensures EvidenceReason(env, s, c, x, t, b, e)
  {
    hide FieldsOk, LoadConfig, TakeReport, Evaluate, Review, SomeDocument, FieldsOf;
    FieldsRefused(c, t, e);
  }

  /** An admitted command starts from the stored batch, or from none. */
  lemma StartOf(s: State, c: Command, x: Execution, st: Start)
    requires Inv(s) && Admitted(s, c, x, st)
    ensures BatchAt(s, c.batch) == st.before && RefsAt(s, c.batch) == st.refs
    ensures if c.name.CreateBatch? then st == Start(false, ZERO_BATCH, EmptyRefs(c.batch))
            else st.existing && BatchKey(c.batch) in s.pub && LifecycleOk(c.batch, st.before, st.refs)
                             && st.before.id == c.batch
  {
    hide Configured, Indexed, History, Transfers, References, Evaluations, Consumed, Slots, Privates, Analysed,
         Versioned, PayloadFits, RequiredCaller;
    if st.existing {
      assert RecordOk(s, c.batch);
    }
  }

  /** The reasons of the commands with documents, and of the handoffs. */
  lemma SuppliedRefused(env: Env, s: State, c: Command, x: Execution, t: Transient, st: Start, e: ErrorCode)
    requires Sound(s) && Admitted(s, c, x, st) && LoadConfig(s).Ok?
    requires !IsAnalysis(c.name) && !c.name.ReportRetailPrice?
    requires BatchAt(s, c.batch) == st.before
    requires !c.name.CreateBatch? ==> st.existing && LifecycleOk(c.batch, st.before, st.refs)
    requires match Prepare(env, s, c, x, t, st.before, st.refs)
             case Err(code) => code == e
             case Ok(v) => RunArm(s, c, x, st, v) == Err(e)
    ensures CommandReason(env, s, c, x, t, st.before, st.refs, e)
  {
    hide Configured, Records, Indexed, History, Transfers, References, Evaluations, Consumed, Slots, Privates, Analysed,
         Versioned, Named, Replays, Trail, EvidenceReason, OfferReason, AcceptReason, FreightReason, Prepare, Admitted,
         CreateArm, OfferArm, AcceptArm, FreightArm, ReportArm, LoadConfig, LifecycleOk, Gathered, BatchAt;
    match Prepare(env, s, c, x, t, st.before, st.refs)
    case Err(_) => DocumentsRefused(env, s, c, x, t, st, e);
    case Ok(v) =>
      EvidenceTaken(env, s, c, x, t, st.before, st.refs, v);
      match c.name
      case CreateBatch => CreateDecided(env, s, c, x, t, st, v);
      case OfferPickup | OfferDelivery => OfferRefused(env, s, c, x, t, st, v, e);
      case AcceptPickup | AcceptDelivery => AcceptRefused(s, c, x, st, e);
      case _ => FreightRefused(env, s, c, x, t, st, v, e);
  }

  lemma ReportedRefused(env: Env, s: State, c: Command, x: Execution, t: Transient, st: Start, e: ErrorCode)
    requires Sound(s) && Admitted(s, c, x, st) && LoadConfig(s).Ok? && c.name.ReportRetailPrice?
    requires st == Start(true, BatchAt(s, c.batch), RefsAt(s, c.batch)) && BatchKey(c.batch) in s.pub
    requires LifecycleOk(c.batch, st.before, st.refs)
    requires match Prepare(env, s, c, x, t, st.before, st.refs)
             case Err(code) => code == e
             case Ok(v) => RunArm(s, c, x, st, v) == Err(e)
    ensures CommandReason(env, s, c, x, t, st.before, st.refs, e)
  {
    hide Sound, EvidenceReason, ReportReason, Prepare, Admitted, RunArm, LoadConfig, LifecycleOk, BatchAt, RefsAt,
         RecordsStored, FieldsOk, TakeReport;
    var cfg := LoadConfig(s).value;
    ReportPrepared(env, s, c, x, t, st.before, st.refs, cfg);
    if FieldsOk(c, t).Err? {
      ReportFieldsRefused(env, s, c, x, t, st.before, st.refs, e);
    } else {
      RecordsOfBatch(s, c.batch);
      ReportRefused(env, s, c, x, t, st, cfg, e);
    }
  }

  lemma AnalysisRefused(env: Env, s: State, c: Command, x: Execution, t: Transient, st: Start, e: ErrorCode)
    requires Inv(s) && Admitted(s, c, x, st) && IsAnalysis(c.name)
    requires st == Start(true, BatchAt(s, c.batch), RefsAt(s, c.batch)) && BatchKey(c.batch) in s.pub
    requires st.before.id == c.batch
    requires match Prepare(env, s, c, x, t, st.before, st.refs)
             case Err(code) => code == e
             case Ok(v) => RunArm(s, c, x, st, v) == Err(e)
    ensures CommandReason(env, s, c, x, t, st.before, st.refs, e)
  {
    hide Configured, Records, Indexed, History, Transfers, References, Evaluations, Consumed, Slots, Privates, Analysed,
         Versioned, Admitted, BatchAt, RefsAt, Evaluate, Review, GatherDocuments, TakeReport, LoadConfig, Consistent,
         CreateArm, OfferArm, AcceptArm, FreightArm, ReportArm, ReviewProper, TheScore, AnomalyOf, EvaluationClear,
         RecordKept;
    PayloadOfName(s, c, x, st);
    if st.before.state.RetailReported? {
      if c.name.EvaluatePrice? {
        ReportedConsistent(s, c.batch);
        ConsistentClear(s, st.before, st.refs);
        if Evaluate(s, c, x, t, st.before, st.refs) == Err(e) {
          EvaluationRefused(s, c, x, t, st.before, st.refs, e);
        }
      } else if Review(env, s, c, x, t, st.before) == Err(e) {
        RecordIsKept(s, c.batch);
        ReviewRefused(env, s, c, x, t, st.before, e);
      }
    }
  }

  /** On every sound ledger, a refused command is refused for the reason that its error code stands for. */
  lemma RefusedForReason(env: Env, s: State, c: Command, x: Execution, t: Transient, e: ErrorCode)
    requires Sound(s) && Apply(env, s, c, x, t) == Err(e)
    ensures AdmissionReason(env, s, c, x, e)
            || CommandReason(env, s, c, x, t, BatchAt(s, c.batch), RefsAt(s, c.batch), e)
  {
    hide Inv, Named, Replays, Trail, Apply, Admit, Prepare, RunArm, Admitted, AdmissionReason, CommandReason, BatchAt,
         RefsAt, LifecycleOk, IsAnalysis, LoadConfig;
    match Admit(env, s, c, x)
    case Err(code) =>
      RefusedAtOnce(env, s, c, x, t, code);
      AdmissionRefused(env, s, c, x, code);
    case Ok(st) =>
      AdmitFacts(env, s, c, x, st);
      AdmittedLoads(env, s, c, x);
      StartOf(s, c, x, st);
      AfterAdmission(env, s, c, x, t, st, e);
      if IsAnalysis(c.name) {
        AnalysisNotCreation(c.name);
        AnalysisRefused(env, s, c, x, t, st, e);
      } else if c.name.ReportRetailPrice? {
        ReportedRefused(env, s, c, x, t, st, e);
      } else {
        SuppliedRefused(env, s, c, x, t, st, e);
      }
  }

  lemma AnalysisNotCreation(name: CommandName)
    ensures IsAnalysis(name) ==> !name.CreateBatch?
  {
  }

  lemma RefusedAtOnce(env: Env, s: State, c: Command, x: Execution, t: Transient, code: ErrorCode)
    requires Admit(env, s, c, x) == Err(code)
    ensures Apply(env, s, c, x, t) == Err(code)
  {
    hide Admit, Prepare, RunArm, Finish;
  }

  lemma AdmittedLoads(env: Env, s: State, c: Command, x: Execution)
    requires Admit(env, s, c, x).Ok?
    ensures LoadConfig(s).Ok?
  {
    hide Authorize, ValidId, ValidatePayload, ContextOk, LoadStart, LoadConfig;
  }

  /** After every run, a refusal is for the reason that its error code stands for. */
  lemma RunRefused(env: Env, rs: seq<Request>, c: Command, x: Execution, t: Transient, e: ErrorCode)
    requires Apply(env, Run(env, rs), c, x, t) == Err(e)
    ensures var s := Run(env, rs);
            AdmissionReason(env, s, c, x, e)
            || CommandReason(env, s, c, x, t, BatchAt(s, c.batch), RefsAt(s, c.batch), e)
  {
    hide *;
    RunSound(env, rs);
    RefusedForReason(env, Run(env, rs), c, x, t, e);
  }
}
