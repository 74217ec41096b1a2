/** No batch is ever stuck: its next command, its inputs and its evidence are exhibited, and accepted. */
module Liveness {
  import opened Types
  import opened Price
  import opened Evidence
  import opened Engine
  import opened Invariants
  import opened Preserve
  import opened Provenance
  import opened Runs
  import opened Guarantees
  import opened Origins
  import opened Progress

  // ------------------------------------------------------------ what is given

  /** What one document is issued under: its own id, its source document and a nonce. */
  datatype Paper = Paper(id: Id, original: Id, nonce: string)

  /** Unused ids, papers for three documents, fresh salts and admitted texts. */
  datatype Supply = Supply(op: Id, tx: string, time: TxTime, transfer: Id, cost: Id, report: Id, lot: Id, anomaly: Id,
                           reviewer: Id, first: Paper, second: Paper, third: Paper,
                           salt: string, otherSalt: string, date: string, moment: string, explanation: string)

  ghost predicate IdsUnused(s: State, u: Supply) {
    && ValidId(u.op, "OP") && (forall m {:trigger OperationKey(m, u.op)} :: OperationKey(m, u.op) !in s.pub)
    && ValidId(u.transfer, "TRF") && TransferKey(u.transfer) !in s.pub
    && ValidId(u.cost, "CST") && CostRefKey(u.cost) !in s.pub
    && ValidId(u.report, "RPT") && ReportRefKey(u.report) !in s.pub
    && ValidId(u.lot, "LOT") && LotKey(u.lot) !in s.pub
    && ValidId(u.anomaly, "ANM") && AnomalyRefKey(u.anomaly) !in s.pub
    && ValidId(u.reviewer, "REV")
  }

  /** Nothing on the ledger uses the paper. */
  ghost predicate PaperUnused(s: State, p: Paper) {
    && ValidId(p.id, "DOC") && DocumentKey(p.id) !in s.pub
    && ValidId(p.original, "DOC") && (forall n :: SourceUseKey(n, p.original) !in s.pub)
    && HexId(p.nonce) && (forall n :: NonceKey(n, p.nonce) !in s.pub)
  }

  /** Two papers with nothing in common, the first before the second. */
  predicate PapersDiffer(p: Paper, q: Paper) {
    Before(p.id.text, q.id.text) && p.original != q.original && p.nonce != q.nonce
  }

  /** Three papers in order, all distinct and none of them used. */
  ghost predicate DocumentsUnused(s: State, u: Supply) {
    && PaperUnused(s, u.first) && PaperUnused(s, u.second) && PaperUnused(s, u.third)
    && PapersDiffer(u.first, u.second) && PapersDiffer(u.first, u.third) && PapersDiffer(u.second, u.third)
  }

  /** Two different salts that no anomaly record holds, and texts that the calendar and the explanation rule admit. */
  ghost predicate TextsFit(env: Env, s: State, u: Supply) {
    && HexId(u.tx) && 0 <= u.time.seconds < INT64 && 0 <= u.time.nanos <= 999_999_999
    && HexId(u.salt) && HexId(u.otherSalt) && u.salt != u.otherSalt
    && (forall q {:trigger s.priv[q]} :: q in s.priv && s.priv[q].AnomalyValue? ==> s.priv[q].anomaly.salt != u.salt)
    && env.date(u.date) && env.dateTime(u.moment) && env.explanation(u.explanation)
  }

  ghost predicate Supplies(env: Env, s: State, u: Supply) {
    IdsUnused(s, u) && DocumentsUnused(s, u) && TextsFit(env, s, u)
  }

  /** Institutions can sign any header with their key, and commitments are digests. */
  ghost predicate Capable(env: Env, sign: (string, Header) -> string) {
    && (forall key, h {:trigger sign(key, h)} :: env.signed(key, h, sign(key, h)))
    && (forall body, salt {:trigger env.commit(body, salt)} :: HexId(env.commit(body, salt)))
  }

  // ------------------------------------------------------------- the documents

  /** The trust entries of the four sources. */
  datatype Trust = Trust(cks: SourceKey, efatura: SourceKey, hks: SourceKey, uetds: SourceKey)

  const NO_SOURCE := SourceKey("", OtherSystem(""), {}, "", "", false)

  /** The configured trust entries; without four sources there are none. */
  function TrustOf(s: State): Trust {
    match LoadConfig(s)
    case Ok(cfg) =>
      if |cfg.sources| == 4 then Trust(cfg.sources[0], cfg.sources[1], cfg.sources[2], cfg.sources[3])
      else Trust(NO_SOURCE, NO_SOURCE, NO_SOURCE, NO_SOURCE)
    case Err(_) => Trust(NO_SOURCE, NO_SOURCE, NO_SOURCE, NO_SOURCE)
  }

  function PolicyOf(s: State): Id {
    match LoadConfig(s)
    case Ok(cfg) => cfg.policy
    case Err(_) => NO_ID
  }

  ghost predicate Trusted(s: State, k: SourceKey, system: System) {
    SourceOk(k, system) && LoadSource(s, k.issuer, k.key) == Ok(k)
  }

  ghost predicate AllTrusted(s: State, ks: Trust) {
    && Trusted(s, ks.cks, Cks) && Trusted(s, ks.efatura, Efatura) && Trusted(s, ks.hks, Hks)
    && Trusted(s, ks.uetds, Uetds)
  }

  /** A document under this paper, issued and signed by the source with this trust entry. */
  function Issued(env: Env, sign: (string, Header) -> string, u: Supply, p: Paper, k: SourceKey, docType: DocType,
                  batch: Id, body: Body): Bundle {
    var h := Header(true, p.id, k.system, k.issuer, k.key, p.original, docType, batch, u.op, u.moment, p.nonce,
                    env.commit(body, u.salt));
    Bundle(Envelope(h, sign(k.publicKey, h)), body, u.salt)
  }

  /** The command requires a document of this type, from this system. */
  predicate Demands(name: CommandName, docType: DocType, system: System) {
    docType in RequiredTypes(name) && RequiredTypes(name)[docType] == system && docType in SystemTypes(system)
  }

  lemma IssuedOk(env: Env, sign: (string, Header) -> string, s: State, c: Command, u: Supply, p: Paper, k: SourceKey,
                 docType: DocType, system: System, body: Body)
    requires Capable(env, sign) && IdsUnused(s, u) && TextsFit(env, s, u) && PaperUnused(s, p) && Trusted(s, k, system)
    requires Demands(c.name, docType, system) && c.op == u.op && ValidId(c.batch, "BAT")
    ensures DocOk(env, s, c, Issued(env, sign, u, p, k, docType, c.batch, body))
  {
    hide ValidId, HexId, Reference, SystemTypes, RequiredTypes;
    var d := Issued(env, sign, u, p, k, docType, c.batch, body);
    var h := d.envelope.header;
    assert env.signed(k.publicKey, h, d.envelope.signature);
    assert HexId(env.commit(body, u.salt));
    assert ProperHeader(env, h);
    assert SignedBySource(env, s, d.envelope);
  }

  lemma IssuedDiffer(env: Env, sign: (string, Header) -> string, u: Supply, p: Paper, q: Paper, k: SourceKey,
                     l: SourceKey, docType: DocType, otherType: DocType, batch: Id, body: Body, otherBody: Body)
    requires PapersDiffer(p, q) && docType != otherType
    ensures DocsDiffer(Issued(env, sign, u, p, k, docType, batch, body),
                       Issued(env, sign, u, q, l, otherType, batch, otherBody))
  {
    hide Before;
    BeforeDiffers(p.id, q.id);
  }

  lemma BeforeDiffers(a: Id, b: Id)
    requires Before(a.text, b.text)
    ensures a != b
  {
    Ordering.BeforeIrreflexive(a.text);
  }

  /** An invoice at one lira per gram. */
  function Invoice(b: Batch, u: Supply): Body {
    PurchaseBody(b.producer, b.retailer, b.quantity, 1000, b.quantity, Try, ExcludingTax, u.salt, "application/pdf")
  }

  function Notification(b: Batch): Body {
    TradeBody(b.producer, b.retailer, b.product, b.quantity, true)
  }

  function Manifest(b: Batch, u: Supply): Body {
    ManifestBody(b.logistics, b.producer, b.retailer, b.product, b.quantity, u.moment)
  }

  function Freight(b: Batch, u: Supply): Body {
    FreightBody(b.logistics, b.retailer, b.quantity, 0, Try, ExcludingTax, u.salt, "application/pdf")
  }

  function PickupDocs(env: Env, sign: (string, Header) -> string, u: Supply, b: Batch, ks: Trust): seq<Bundle> {
    [Issued(env, sign, u, u.first, ks.efatura, PurchaseInvoice, b.id, Invoice(b, u)),
     Issued(env, sign, u, u.second, ks.hks, TradeNotification, b.id, Notification(b)),
     Issued(env, sign, u, u.third, ks.uetds, TransportManifest, b.id, Manifest(b, u))]
  }

  // --------------------------------------------------------- the next command

  /** Who submits the next command, and when. */
  function NextExecution(s: State, id: Id, u: Supply): Execution {
    var (actor, role) := RequiredCaller(NextName(s, id));
    Execution(actor, role, u.tx, u.time)
  }

  function StoredId(s: State, k: Key): Id {
    if k in s.pub && s.pub[k].IdValue? then s.pub[k].id else NO_ID
  }

  function StoredAnomaly(s: State, id: Id): Id {
    if EvaluationKey(id) in s.pub && s.pub[EvaluationKey(id)].EvaluationValue? then
      s.pub[EvaluationKey(id)].evaluation.anomaly
    else NO_ID
  }

  /** The payload: the supplied ids, and the ids and the quantity that the ledger holds. */
  function NextPayload(s: State, id: Id, u: Supply): Payload {
    match NextName(s, id)
    case AcceptPickup | AcceptDelivery => HandoffInput(StoredId(s, PendingKey(id)), BatchAt(s, id).quantity)
    case RecordFreightCost => FreightInput(u.cost)
    case ReportRetailPrice => ReportInput(u.report, u.lot, PolicyOf(s))
    case EvaluatePrice => EvaluateInput(u.anomaly, RefsAt(s, id).report)
    case OpenReview | ResolveReview => ReviewTarget(StoredAnomaly(s, id))
    case _ => HandoffInput(u.transfer, BatchAt(s, id).quantity)
  }

  function NextCommand(s: State, id: Id, u: Supply): Command {
    Command(NextName(s, id), u.op, id, BatchAt(s, id).version, NextPayload(s, id, u))
  }

  function Proposed(score: Result<Score>): Field {
    match score
    case Ok(v) => ScoreField(v)
    case Err(_) => BadField
  }

  /** The private inputs of the next command. */
  function NextInput(env: Env, sign: (string, Header) -> string, s: State, id: Id, u: Supply): Transient {
    var b, ks := BatchAt(s, id), TrustOf(s);
    match NextName(s, id)
    case OfferPickup => map[EvidenceField := Bundles(PickupDocs(env, sign, u, b, ks))]
    case RecordFreightCost =>
      map[EvidenceField := Bundles([Issued(env, sign, u, u.first, ks.efatura, FreightInvoice, id, Freight(b, u))]),
          RecordSaltField := Salt(u.salt)]
    case ReportRetailPrice => map[RetailReportField := RetailField(RetailInput(0, Try, ExcludingTax, u.moment, u.salt))]
    case EvaluatePrice => map[ProposedField := Proposed(TheScore(s, RefsAt(s, id))), RecordSaltField := Salt(u.salt)]
    case OpenReview => map[ReviewActionField := OpenField(u.reviewer, u.otherSalt), ReviewSaltField := Salt(u.salt)]
    case ResolveReview =>
      map[ReviewActionField := ResolveField(ReviewInput(u.reviewer, "EXPLAINED", u.explanation, u.otherSalt)),
          ReviewSaltField := Salt(u.salt)]
    case _ => map[]
  }

  // --------------------------------------------------------------- well posed

  lemma BatchNamed(s: State, id: Id)
    requires Records(s) && KeysNamed(s) && BatchKey(id) in s.pub
    ensures ValidId(id, "BAT") && LifecycleOk(id, BatchAt(s, id), RefsAt(s, id))
  {
    hide ValidId, LifecycleOk;
    assert KeyNamed(BatchKey(id));
    assert RecordOk(s, id);
  }

  lemma PendingNamed(s: State, id: Id)
    requires Transfers(s) && KeysNamed(s) && BatchKey(id) in s.pub && Pending(BatchAt(s, id).state)
    ensures PendingKey(id) in s.pub && s.pub[PendingKey(id)].IdValue? && ValidId(StoredId(s, PendingKey(id)), "TRF")
  {
    hide ValidId, BatchAt, TransferOk;
    assert PendingOk(s, id);
    assert KeyNamed(TransferKey(StoredId(s, PendingKey(id))));
  }

  lemma ReportNamed(s: State, id: Id)
    requires References(s) && KeysNamed(s) && BatchKey(id) in s.pub && RefsAt(s, id).report != NO_ID
    ensures ValidId(RefsAt(s, id).report, "RPT")
  {
    hide ValidId, BatchAt, RefsAt;
    assert ReferencesOf(s, id);
    assert KeyNamed(ReportRefKey(RefsAt(s, id).report));
  }

  lemma AnomalyNamed(s: State, id: Id)
    requires Evaluations(s) && KeysNamed(s) && EvaluationKey(id) in s.pub
    ensures ValidId(StoredAnomaly(s, id), "ANM")
  {
    hide ValidId, BatchAt, RefsAt;
    assert KeyNamed(AnomalyRefKey(StoredAnomaly(s, id)));
  }

  /** The ids that the ledger holds have their grammar. */
  lemma StoredNamed(s: State, id: Id)
    requires Sound(s) && BatchKey(id) in s.pub
    ensures ValidId(id, "BAT") && LifecycleOk(id, BatchAt(s, id), RefsAt(s, id))
    ensures Pending(BatchAt(s, id).state) ==> ValidId(StoredId(s, PendingKey(id)), "TRF")
    ensures BatchAt(s, id).state.RetailReported? ==> ValidId(RefsAt(s, id).report, "RPT")
    ensures EvaluationKey(id) in s.pub ==> ValidId(StoredAnomaly(s, id), "ANM")
  {
    hide Configured, Records, Indexed, History, Transfers, References, Evaluations, Consumed, Slots, Privates, Analysed,
         Versioned;
    hide KeysNamed, SourcesStored, Replays, Trail, ValidId, BatchAt, RefsAt, StoredId, StoredAnomaly;
    BatchNamed(s, id);
    if Pending(BatchAt(s, id).state) {
      PendingNamed(s, id);
    }
    if BatchAt(s, id).state.RetailReported? {
      ReportNamed(s, id);
    }
    if EvaluationKey(id) in s.pub {
      AnomalyNamed(s, id);
    }
  }

  /** A ledger that is configured, as every ledger with a batch is, trusts its four sources. */
  lemma ConfigStored(s: State, id: Id)
    requires Sound(s) && (ConfigKey in s.pub || BatchKey(id) in s.pub)
    ensures LoadConfig(s).Ok? && ValidId(PolicyOf(s), "CFG") && AllTrusted(s, TrustOf(s))
  {
    hide Records, Indexed, History, Transfers, References, Evaluations, Consumed, Slots, Privates, Analysed, Versioned;
    hide KeysNamed, Replays, Trail, ValidId, SourceOk, LoadSource;
    assert ConfigKey in s.pub && LoadConfig(s).Ok?;
    var cfg := LoadConfig(s).value;
    assert |cfg.sources| == 4;
    forall i | 0 <= i < 4 ensures Trusted(s, cfg.sources[i], SYSTEM_ORDER[i]) {
      assert LoadSource(s, cfg.sources[i].issuer, cfg.sources[i].key) == Ok(cfg.sources[i]);
    }
    assert Trusted(s, cfg.sources[0], Cks) && Trusted(s, cfg.sources[1], Efatura);
    assert Trusted(s, cfg.sources[2], Hks) && Trusted(s, cfg.sources[3], Uetds);
  }

  lemma PayloadValid(env: Env, s: State, id: Id, u: Supply)
    requires Sound(s) && BatchKey(id) in s.pub && IdsUnused(s, u) && !Done(s, id)
    ensures ValidatePayload(env, NextCommand(s, id, u)).Ok?
  {
    hide Sound, BatchAt, RefsAt, ValidId, LoadConfig, Done, StoredId, StoredAnomaly, UnderReview, TrustOf, PolicyOf,
         AllTrusted;
    StoredNamed(s, id);
    ConfigStored(s, id);
    var c := NextCommand(s, id, u);
    match BatchAt(s, id).state
    case Created => assert c.payload == HandoffInput(u.transfer, BatchAt(s, id).quantity);
    case PickupPending => assert c.payload == HandoffInput(StoredId(s, PendingKey(id)), BatchAt(s, id).quantity);
    case Received => assert c.payload == ReportInput(u.report, u.lot, PolicyOf(s));
    case _ =>
  }

  lemma NextReady(env: Env, s: State, id: Id, u: Supply)
    requires Sound(s) && BatchKey(id) in s.pub && Supplies(env, s, u) && !Done(s, id)
    ensures Ready(env, s, NextCommand(s, id, u), NextExecution(s, id, u))
  {
    hide Sound, BatchAt, RefsAt, ValidId, DocumentsUnused, LoadConfig, Done, ValidatePayload, LifecycleOk, NextName,
         NextPayload;
    StoredNamed(s, id);
    VersionKnown(s, id);
    PayloadValid(env, s, id, u);
    var c, x := NextCommand(s, id, u), NextExecution(s, id, u);
    assert OperationKey(x.actor, u.op) !in s.pub;
    NextCaller(s, id);
    assert Authorize(x.actor, x.role, c.name).Ok?;
  }

  lemma VersionKnown(s: State, id: Id)
    requires Sound(s) && BatchKey(id) in s.pub
    ensures 0 <= BatchAt(s, id).version <= MAX_VERSION
  {
    hide Inv, Named, Replays, Trail, BatchAt;
    VersionBounds(s, id);
  }

  lemma NextCaller(s: State, id: Id)
    ensures !NextName(s, id).CreateBatch? && !RequiredCaller(NextName(s, id)).0.Foreign?
  {
    hide BatchAt, RefsAt, LoadAnomaly;
  }

  // ---------------------------------------------------------- honest evidence

  lemma RequiredCounts()
    ensures |RequiredTypes(OfferPickup)| == 3 && |RequiredTypes(RecordFreightCost)| == 1
            && |RequiredTypes(CreateBatch)| == 1
    ensures RequiredTypes(OfferPickup) != map[] && RequiredTypes(RecordFreightCost) != map[]
            && RequiredTypes(CreateBatch) != map[]
  {
    assert RequiredTypes(OfferPickup).Keys == {PurchaseInvoice, TradeNotification, TransportManifest};
    assert RequiredTypes(RecordFreightCost).Keys == {FreightInvoice};
    assert RequiredTypes(CreateBatch).Keys == {ProducerEligibility};
  }

  lemma OneField(k: FieldName, f: Field)
    ensures |map[k := f]| == 1
  {
    assert map[k := f].Keys == {k};
  }

  lemma TwoFields(k: FieldName, f: Field, l: FieldName, g: Field)
    requires k != l
    ensures |map[k := f, l := g]| == 2
  {
    assert map[k := f, l := g].Keys == {k, l};
  }

  /** One document of the one required type, checked and fitting, is honest evidence. */
  lemma OneHonest(env: Env, s: State, c: Command, x: Execution, t: Transient, b: Batch, d: Bundle)
    requires |RequiredTypes(c.name)| == 1 && t.Keys == FieldsOf(c.name) && Get(t, EvidenceField) == Bundles([d])
    requires DocOk(env, s, c, d) && BodyFits(env, c, x, t, b, d) && d.envelope.header.document != NO_ID
    ensures Honest(env, s, c, x, t, b) && Submitted(c, t) == [d]
  {
    hide DocOk, BodyFits, FieldsOf, RequiredTypes, Get, DocsDiffer;
    assert [d][0] == d;
  }

  lemma LifecycleFacts(id: Id, b: Batch, r: Refs)
    requires LifecycleOk(id, b, r)
    ensures b.id == id && 0 < b.quantity <= 100_000_000 && b.producer == Producer && b.retailer == Retailer
  {
  }

  lemma ThreeHonest(env: Env, s: State, c: Command, x: Execution, t: Transient, b: Batch, d: Bundle, e: Bundle,
                    f: Bundle)
    requires c.name.OfferPickup? && t == map[EvidenceField := Bundles([d, e, f])] && Increasing([d, e, f])
    requires DocOk(env, s, c, d) && DocOk(env, s, c, e) && DocOk(env, s, c, f)
    requires BodyFits(env, c, x, t, b, d) && BodyFits(env, c, x, t, b, e) && BodyFits(env, c, x, t, b, f)
    requires DocsDiffer(d, e) && DocsDiffer(d, f) && DocsDiffer(e, f)
    ensures Honest(env, s, c, x, t, b) && Submitted(c, t) == [d, e, f]
  {
    hide DocOk, BodyFits, DocsDiffer, Increasing, RequiredTypes;
    OneField(EvidenceField, Bundles([d, e, f]));
    RequiredCounts();
  }

  /** The three documents of a pickup pass every check of the loop. */
  lemma PickupHonest(env: Env, sign: (string, Header) -> string, s: State, c: Command, x: Execution, t: Transient,
                     b: Batch, u: Supply, ks: Trust)
    requires Capable(env, sign) && Supplies(env, s, u) && AllTrusted(s, ks) && ValidId(b.id, "BAT")
    requires c.name.OfferPickup? && c.op == u.op && c.batch == b.id
    requires t == map[EvidenceField := Bundles(PickupDocs(env, sign, u, b, ks))]
    ensures Honest(env, s, c, x, t, b) && Submitted(c, t) == PickupDocs(env, sign, u, b, ks)
  {
    hide Capable, Trusted, ValidId, IdsUnused, PaperUnused, HexId, DocOk, Increasing, Honest, BodyFits;
    hide DocsDiffer, Issued;
    var docs := PickupDocs(env, sign, u, b, ks);
    PickupIncreasing(env, sign, s, u, b, ks);
    IssuedDiffer(env, sign, u, u.first, u.second, ks.efatura, ks.hks, PurchaseInvoice, TradeNotification, b.id,
                 Invoice(b, u), Notification(b));
    IssuedDiffer(env, sign, u, u.first, u.third, ks.efatura, ks.uetds, PurchaseInvoice, TransportManifest, b.id,
                 Invoice(b, u), Manifest(b, u));
    IssuedDiffer(env, sign, u, u.second, u.third, ks.hks, ks.uetds, TradeNotification, TransportManifest, b.id,
                 Notification(b), Manifest(b, u));
    IssuedOk(env, sign, s, c, u, u.first, ks.efatura, PurchaseInvoice, Efatura, Invoice(b, u));
    IssuedOk(env, sign, s, c, u, u.second, ks.hks, TradeNotification, Hks, Notification(b));
    IssuedOk(env, sign, s, c, u, u.third, ks.uetds, TransportManifest, Uetds, Manifest(b, u));
    PickupFitsBatch(env, sign, s, c, x, t, b, u, ks);
    ThreeHonest(env, s, c, x, t, b, docs[0], docs[1], docs[2]);
  }

  lemma PickupIncreasing(env: Env, sign: (string, Header) -> string, s: State, u: Supply, b: Batch, ks: Trust)
    requires DocumentsUnused(s, u)
    ensures Increasing(PickupDocs(env, sign, u, b, ks))
  {
    hide ValidId, Before, HexId, Invoice, Notification, Manifest;
    PrefixNotEmpty(u.first.id, "DOC");
    PrefixNotEmpty(u.second.id, "DOC");
    PrefixNotEmpty(u.third.id, "DOC");
  }

  lemma PickupFitsBatch(env: Env, sign: (string, Header) -> string, s: State, c: Command, x: Execution, t: Transient,
                        b: Batch, u: Supply, ks: Trust)
    requires TextsFit(env, s, u)
    ensures BodyFits(env, c, x, t, b, Issued(env, sign, u, u.first, ks.efatura, PurchaseInvoice, b.id, Invoice(b, u)))
    ensures BodyFits(env, c, x, t, b, Issued(env, sign, u, u.second, ks.hks, TradeNotification, b.id, Notification(b)))
    ensures BodyFits(env, c, x, t, b, Issued(env, sign, u, u.third, ks.uetds, TransportManifest, b.id, Manifest(b, u)))
  {
    hide HexId, ReadSalt;
  }

  lemma PickupPays(env: Env, sign: (string, Header) -> string, u: Supply, b: Batch, ks: Trust)
    requires 0 < b.quantity <= 100_000_000 && b.producer == Producer && b.retailer == Retailer
    ensures InvoiceFits(PickupDocs(env, sign, u, b, ks), b)
  {
    var docs := PickupDocs(env, sign, u, b, ks);
    assert docs[0].envelope.header.docType.PurchaseInvoice? && PurchaseOk(docs[0].body, b.quantity);
  }

  lemma FreightFields(c: Command, t: Transient, f: Field, salt: string)
    requires c.name.RecordFreightCost? && HexId(salt)
    requires t == map[EvidenceField := f, RecordSaltField := Salt(salt)]
    ensures t.Keys == FieldsOf(c.name) && Get(t, EvidenceField) == f && ReadSalt(t, RecordSaltField).Ok?
  {
    hide HexId;
    TwoFields(EvidenceField, f, RecordSaltField, Salt(salt));
  }

  /** The one invoice of a freight command passes every check of the loop. */
  lemma FreightHonest(env: Env, sign: (string, Header) -> string, s: State, c: Command, x: Execution, t: Transient,
                      b: Batch, u: Supply, k: SourceKey, d: Bundle)
    requires Capable(env, sign) && Supplies(env, s, u) && Trusted(s, k, Efatura) && ValidId(c.batch, "BAT")
    requires c.name.RecordFreightCost? && c.op == u.op && c.payload.FreightInput?
    requires d == Issued(env, sign, u, u.first, k, FreightInvoice, c.batch, Freight(b, u))
    requires t == map[EvidenceField := Bundles([d]), RecordSaltField := Salt(u.salt)]
    ensures Honest(env, s, c, x, t, b) && FreightBilled(Submitted(c, t), b.quantity)
  {
    hide Capable, Trusted, ValidId, HexId, DocOk, Honest, Submitted, FieldsOf, ReadSalt, Get;
    RequiredCounts();
    FreightFields(c, t, Bundles([d]), u.salt);
    PrefixNotEmpty(u.first.id, "DOC");
    IssuedOk(env, sign, s, c, u, u.first, k, FreightInvoice, Efatura, Freight(b, u));
    OneHonest(env, s, c, x, t, b, d);
    assert FreightBodyOk(Submitted(c, t)[0].body, b.quantity);
  }

  // ----------------------------------------------------------------- supplied

  /** The commands with documents. */
  lemma PickupSupplied(env: Env, sign: (string, Header) -> string, s: State, id: Id, u: Supply)
    requires Sound(s) && BatchKey(id) in s.pub && Supplies(env, s, u) && Capable(env, sign)
    requires NextName(s, id).OfferPickup?
    ensures Supplied(env, s, NextCommand(s, id, u), NextExecution(s, id, u), NextInput(env, sign, s, id, u),
                     BatchAt(s, id), RefsAt(s, id))
  {
    hide Sound, BatchAt, RefsAt, NextName, ValidId, Honest, InvoiceFits, LoadConfig, TrustOf, LifecycleOk;
    hide TextsFit, Submitted, Capable, AllTrusted, PickupDocs, DocumentsUnused, RequiredCaller;
    StoredNamed(s, id);
    ConfigStored(s, id);
    LifecycleFacts(id, BatchAt(s, id), RefsAt(s, id));
    PickupHonest(env, sign, s, NextCommand(s, id, u), NextExecution(s, id, u), NextInput(env, sign, s, id, u),
                 BatchAt(s, id), u, TrustOf(s));
    PickupPays(env, sign, u, BatchAt(s, id), TrustOf(s));
  }

  lemma FreightSupplied(env: Env, sign: (string, Header) -> string, s: State, id: Id, u: Supply)
    requires Sound(s) && BatchKey(id) in s.pub && Supplies(env, s, u) && Capable(env, sign)
    requires NextName(s, id).RecordFreightCost?
    ensures Supplied(env, s, NextCommand(s, id, u), NextExecution(s, id, u), NextInput(env, sign, s, id, u),
                     BatchAt(s, id), RefsAt(s, id))
  {
    hide Sound, BatchAt, RefsAt, NextName, ValidId, Honest, FreightBilled, LoadConfig, TrustOf, LifecycleOk;
    hide TextsFit, Submitted, Capable, Trusted, Issued, Freight, DocumentsUnused, RequiredCaller;
    StoredNamed(s, id);
    ConfigStored(s, id);
    var b, k := BatchAt(s, id), TrustOf(s).efatura;
    FreightHonest(env, sign, s, NextCommand(s, id, u), NextExecution(s, id, u), NextInput(env, sign, s, id, u), b, u, k,
                  Issued(env, sign, u, u.first, k, FreightInvoice, id, Freight(b, u)));
  }

  lemma OfferNext(s: State, id: Id)
    ensures NextName(s, id) in {AcceptPickup, AcceptDelivery} ==> Pending(BatchAt(s, id).state)
  {
    hide BatchAt, RefsAt, LoadAnomaly;
  }

  /** The handoffs without documents. */
  lemma HandoffSupplied(env: Env, sign: (string, Header) -> string, s: State, id: Id, u: Supply)
    requires Sound(s) && BatchKey(id) in s.pub && IdsUnused(s, u)
    requires NextName(s, id) in {AcceptPickup, AcceptDelivery, OfferDelivery}
    ensures Supplied(env, s, NextCommand(s, id, u), NextExecution(s, id, u), NextInput(env, sign, s, id, u),
                     BatchAt(s, id), RefsAt(s, id))
  {
    hide BatchAt, RefsAt, NextName, ValidId, TrustOf, PolicyOf, NextExecution, TheScore, Honest, FreshReport,
         ReviewGiven, ScoreProposed, FieldsOf, PickupDocs, Issued;
    hide Configured, Records, Indexed, History, Transfers, References, Evaluations, Consumed, Slots, Privates, Analysed,
         Versioned;
    hide KeysNamed, SourcesStored, Replays, Trail;
    OfferNext(s, id);
    if Pending(BatchAt(s, id).state) {
      PendingNamed(s, id);
    }
  }

  lemma ReportSupplied(env: Env, sign: (string, Header) -> string, s: State, id: Id, u: Supply)
    requires Sound(s) && BatchKey(id) in s.pub && Supplies(env, s, u) && NextName(s, id).ReportRetailPrice?
    ensures Supplied(env, s, NextCommand(s, id, u), NextExecution(s, id, u), NextInput(env, sign, s, id, u),
                     BatchAt(s, id), RefsAt(s, id))
  {
    hide Sound, NextName, LoadConfig, TrustOf, HexId, ValidId, DocumentsUnused, BatchAt, RefsAt, AllTrusted, Honest,
         NextExecution, TheScore, PickupDocs, Issued;
    ConfigStored(s, id);
    OneField(RetailReportField, RetailField(RetailInput(0, Try, ExcludingTax, u.moment, u.salt)));
  }

  lemma EvaluationSupplied(env: Env, sign: (string, Header) -> string, s: State, id: Id, u: Supply)
    requires Supplies(env, s, u) && NextName(s, id).EvaluatePrice?
    ensures Supplied(env, s, NextCommand(s, id, u), NextExecution(s, id, u), NextInput(env, sign, s, id, u),
                     BatchAt(s, id), RefsAt(s, id))
  {
    hide NextName, TrustOf, HexId, ValidId, DocumentsUnused, TheScore, RefsAt, BatchAt, NextExecution, Honest,
         PickupDocs, Issued, PolicyOf;
    TwoFields(ProposedField, Proposed(TheScore(s, RefsAt(s, id))), RecordSaltField, Salt(u.salt));
  }

  lemma ReviewSupplied(env: Env, sign: (string, Header) -> string, s: State, id: Id, u: Supply)
    requires Supplies(env, s, u) && IsReview(NextName(s, id))
    ensures Supplied(env, s, NextCommand(s, id, u), NextExecution(s, id, u), NextInput(env, sign, s, id, u),
                     BatchAt(s, id), RefsAt(s, id))
  {
    hide NextName, TrustOf, HexId, ValidId, DocumentsUnused, BatchAt, RefsAt, NextExecution, TheScore, Honest,
         PickupDocs, Issued, PolicyOf, FreshTransfer, FreshReport, NamesPending, FieldsOf, ReviewInputsOk;
    var c, t := NextCommand(s, id, u), NextInput(env, sign, s, id, u);
    var k := AnomalyKey(StoredAnomaly(s, id));
    if k in s.priv && s.priv[k].AnomalyValue? {
      ReviewFields(env, c, t, u, s.priv[k].anomaly.salt);
    }
  }

  lemma ReviewFields(env: Env, c: Command, t: Transient, u: Supply, stored: string)
    requires IsReview(c.name) && ValidId(u.reviewer, "REV") && HexId(u.salt) && HexId(u.otherSalt)
    requires u.salt != u.otherSalt && u.salt != stored && env.explanation(u.explanation)
    requires t == map[ReviewActionField := if c.name.OpenReview? then OpenField(u.reviewer, u.otherSalt) else
                      ResolveField(ReviewInput(u.reviewer, "EXPLAINED", u.explanation, u.otherSalt)),
                      ReviewSaltField := Salt(u.salt)]
    ensures ReviewInputsOk(env, c, t, stored)
  {
    hide HexId, ValidId;
    var input := if c.name.OpenReview? then OpenField(u.reviewer, u.otherSalt)
                 else ResolveField(ReviewInput(u.reviewer, "EXPLAINED", u.explanation, u.otherSalt));
    TwoFields(ReviewActionField, input, ReviewSaltField, Salt(u.salt));
  }

  /** The exhibited command and inputs are all that the next command needs. */
  lemma NextSupplied(env: Env, sign: (string, Header) -> string, s: State, id: Id, u: Supply)
    requires Sound(s) && BatchKey(id) in s.pub && Supplies(env, s, u) && Capable(env, sign)
    ensures Supplied(env, s, NextCommand(s, id, u), NextExecution(s, id, u), NextInput(env, sign, s, id, u),
                     BatchAt(s, id), RefsAt(s, id))
  {
    hide Sound, NextName, Supplied, NextCommand, NextExecution, NextInput, BatchAt, RefsAt, Capable, IdsUnused,
         DocumentsUnused, TextsFit;
    NextCaller(s, id);
    match NextName(s, id)
    case OfferPickup => PickupSupplied(env, sign, s, id, u);
    case RecordFreightCost => FreightSupplied(env, sign, s, id, u);
    case AcceptPickup | AcceptDelivery | OfferDelivery => HandoffSupplied(env, sign, s, id, u);
    case ReportRetailPrice => ReportSupplied(env, sign, s, id, u);
    case EvaluatePrice => EvaluationSupplied(env, sign, s, id, u);
    case OpenReview | ResolveReview => ReviewSupplied(env, sign, s, id, u);
    case CreateBatch =>
  }

  lemma SoundInv(s: State)
    requires Sound(s)
    ensures Inv(s)
  {
    hide Inv, Named, Replays, Trail;
  }

  // ---------------------------------------------------------------- theorems

  /**
   * No reachable batch is stuck. Given unused ids, fresh salts, admitted texts and
   * institutions that can sign, the command, inputs and evidence exhibited here
   * are accepted, for every stored batch that is not done.
   */
  lemma NeverStuck(env: Env, sign: (string, Header) -> string, rs: seq<Request>, id: Id, u: Supply)
    requires var s := Run(env, rs); BatchKey(id) in s.pub && !Done(s, id) && Supplies(env, s, u)
    requires Capable(env, sign)
    ensures var s := Run(env, rs);
            Apply(env, s, NextCommand(s, id, u), NextExecution(s, id, u), NextInput(env, sign, s, id, u)).Ok?
  {
    hide *;
    RunSound(env, rs);
    NextAccepted(env, sign, Run(env, rs), id, u);
  }

  lemma NextAccepted(env: Env, sign: (string, Header) -> string, s: State, id: Id, u: Supply)
    requires Sound(s) && BatchKey(id) in s.pub && !Done(s, id) && Supplies(env, s, u) && Capable(env, sign)
    ensures Apply(env, s, NextCommand(s, id, u), NextExecution(s, id, u), NextInput(env, sign, s, id, u)).Ok?
  {
    hide Sound, Done, Capable, Supplies, Ready, Supplied, NextName, NextInput, NextExecution, Apply, Inv, NextPayload,
         BatchAt, RefsAt;
    NextReady(env, s, id, u);
    NextSupplied(env, sign, s, id, u);
    SoundInv(s);
    Unstuck(env, s, NextCommand(s, id, u), NextExecution(s, id, u), NextInput(env, sign, s, id, u));
  }

  // ------------------------------------------------------------ a whole life

  function CreateCommand(id: Id, u: Supply): Command {
    Command(CreateBatch, u.op, id, 0, CreateInput("TOMATO", "STANDARD", 1, "01", u.date, Logistics, Retailer))
  }

  function CreateExecution(u: Supply): Execution {
    Execution(Producer, ProducerRole, u.tx, u.time)
  }

  function Eligibility(u: Supply): Body {
    EligibilityBody(Producer, "TOMATO", "STANDARD", 1, "01", u.date, true)
  }

  function CreateInputs(env: Env, sign: (string, Header) -> string, s: State, id: Id, u: Supply): Transient {
    map[EvidenceField := Bundles([Issued(env, sign, u, u.first, TrustOf(s).cks, ProducerEligibility, id,
                                         Eligibility(u))])]
  }

  lemma CreateHonest(env: Env, sign: (string, Header) -> string, s: State, id: Id, u: Supply)
    requires Trusted(s, TrustOf(s).cks, Cks) && Supplies(env, s, u) && Capable(env, sign) && ValidId(id, "BAT")
    ensures Honest(env, s, CreateCommand(id, u), CreateExecution(u), CreateInputs(env, sign, s, id, u), ZERO_BATCH)
  {
    hide TrustOf, ValidId, HexId, Capable, Trusted, DocOk, Honest, Submitted;
    var c, x, t := CreateCommand(id, u), CreateExecution(u), CreateInputs(env, sign, s, id, u);
    var d := Issued(env, sign, u, u.first, TrustOf(s).cks, ProducerEligibility, id, Eligibility(u));
    OneField(EvidenceField, Bundles([d]));
    RequiredCounts();
    assert t.Keys == FieldsOf(c.name) && Get(t, EvidenceField) == Bundles([d]);
    PrefixNotEmpty(u.first.id, "DOC");
    IssuedOk(env, sign, s, c, u, u.first, TrustOf(s).cks, ProducerEligibility, Cks, Eligibility(u));
    OneHonest(env, s, c, x, t, ZERO_BATCH, d);
  }

  /** Once configured, the ledger accepts a creation for every unused batch id. */
  lemma CanCreate(env: Env, sign: (string, Header) -> string, rs: seq<Request>, id: Id, u: Supply)
    requires var s := Run(env, rs);
             ConfigKey in s.pub && ValidId(id, "BAT") && BatchKey(id) !in s.pub && Supplies(env, s, u)
    requires Capable(env, sign)
    ensures var s := Run(env, rs);
            Apply(env, s, CreateCommand(id, u), CreateExecution(u), CreateInputs(env, sign, s, id, u)).Ok?
  {
    hide Run, Sound, LoadConfig, TrustOf, Capable, Apply, Inv, ValidId, HexId, CreateInputs, Honest, Trusted,
         DocumentsUnused;
    RunSound(env, rs);
    var s := Run(env, rs);
    ConfigStored(s, id);
    CreateHonest(env, sign, s, id, u);
    SoundInv(s);
    var c, x := CreateCommand(id, u), CreateExecution(u);
    assert RegionOk("01") && QuantityOk(1);
    assert WellPosed(env, c, x);
    CreateIff(env, s, c, x, CreateInputs(env, sign, s, id, u));
  }

  function NextRequest(env: Env, sign: (string, Header) -> string, s: State, id: Id, u: Supply): Request {
    Invoke(NextCommand(s, id, u), NextExecution(s, id, u), NextInput(env, sign, s, id, u))
  }

  /** Supplies for one next command after the other, until the batch is done. */
  ghost predicate Provided(env: Env, sign: (string, Header) -> string, rs: seq<Request>, id: Id, us: seq<Supply>)
    decreases us
  {
    us == [] || Done(Run(env, rs), id)
    || (var s := Run(env, rs);
        Supplies(env, s, us[0]) && Provided(env, sign, rs + [NextRequest(env, sign, s, id, us[0])], id, us[1..]))
  }

  lemma RunOne(env: Env, rs: seq<Request>, r: Request)
    ensures Run(env, rs + [r]) == Serve(env, Run(env, rs), r)
  {
    hide Serve;
    assert (rs + [r])[..|rs|] == rs;
  }

  /** The next request moves the batch on by one version. */
  lemma NextMoves(env: Env, sign: (string, Header) -> string, s: State, id: Id, u: Supply)
    requires Sound(s) && BatchKey(id) in s.pub && !Done(s, id) && Supplies(env, s, u) && Capable(env, sign)
    ensures var now := Serve(env, s, NextRequest(env, sign, s, id, u));
            BatchKey(id) in now.pub && VersionAt(now, id) == VersionAt(s, id) + 1
  {
    hide Sound, Inv, Done, Supplies, Capable, NextInput, NextExecution, NextPayload, NextName, BatchAt, Apply, Step,
         VersionAt;
    NextAccepted(env, sign, s, id, u);
    SoundInv(s);
    var c, x, t := NextCommand(s, id, u), NextExecution(s, id, u), NextInput(env, sign, s, id, u);
    VersionStep(env, s, c, x, t, id);
    VersionBoundsOf(s, id);
    VersionSome(Step(env, s, c, x, t), id);
  }

  lemma VersionBoundsOf(s: State, id: Id)
    requires Inv(s)
    ensures VersionAt(s, id) >= 0
  {
    hide Inv, VersionAt;
    VersionBounds(s, id);
  }

  lemma VersionSome(s: State, id: Id)
    ensures VersionAt(s, id) > 0 ==> BatchKey(id) in s.pub
  {
    hide BatchAt;
  }

  /** Every reachable batch can be led to its end, in at most as many commands as its version leaves below eleven. */
  lemma {:induction false} CanFinish(env: Env, sign: (string, Header) -> string, rs: seq<Request>, id: Id,
                                     us: seq<Supply>)
    returns (more: seq<Request>)
    requires Capable(env, sign) && BatchKey(id) in Run(env, rs).pub
    requires Provided(env, sign, rs, id, us) && VersionAt(Run(env, rs), id) + |us| > 10
    ensures Done(Run(env, rs + more), id) && |more| <= |us|
    decreases us
  {
    hide Capable, Done, Supplies, VersionAt, NextRequest, Run, Serve, Inv, Sound;
    if Done(Run(env, rs), id) {
      assert rs + [] == rs;
      return [];
    }
    RunSound(env, rs);
    SoundInv(Run(env, rs));
    VersionBounds(Run(env, rs), id);
    var r := NextRequest(env, sign, Run(env, rs), id, us[0]);
    NextMoves(env, sign, Run(env, rs), id, us[0]);
    RunOne(env, rs, r);
    var rest := CanFinish(env, sign, rs + [r], id, us[1..]);
    more := [r] + rest;
    assert rs + more == rs + [r] + rest;
  }
}
