/** Which keys a command reads, and that its outcome depends on nothing else. */
module Reads {
  import opened Types
  import opened Price
  import opened Evidence
  import opened Engine

  /** A cell of the ledger, public or private. */
  datatype Cell = Pub(key: Key) | Priv(privKey: PrivKey)

  /** Two states hold the same in every one of these cells. */
  ghost predicate Agree(s: State, u: State, cells: set<Cell>) {
    forall cell {:trigger cell in cells} :: cell in cells ==> SameCell(s, u, cell)
  }

  ghost predicate SameCell(s: State, u: State, cell: Cell) {
    match cell
    case Pub(k) => Kept(s.pub, u.pub, k)
    case Priv(q) => (q in u.priv <==> q in s.priv) && (q in s.priv ==> u.priv[q] == s.priv[q])
  }

  function AdmitReads(c: Command, x: Execution, existing: bool): set<Cell> {
    {Pub(ConfigKey), Pub(OperationKey(x.actor, c.op)), Pub(BatchKey(c.batch))}
    + if existing then {Pub(RefsKey(c.batch))} else {}
  }

  /** The trust registry entry and the three replay keys of one document. */
  function BundleReads(d: Bundle): set<Cell> {
    var h := d.envelope.header;
    {Pub(SourceKeyKey(h.issuer, h.key)), Pub(DocumentKey(h.document)), Pub(SourceUseKey(h.issuer, h.sourceDocument)),
     Pub(NonceKey(h.issuer, h.nonce))}
  }

  function DocumentReads(docs: seq<Bundle>, n: nat): set<Cell>
    requires n <= |docs|
  {
    if n == 0 then {} else DocumentReads(docs, n - 1) + BundleReads(docs[n - 1])
  }

  function PrepareReads(c: Command, t: Transient, b: Batch, refs: Refs): set<Cell> {
    match c.name
    case EvaluatePrice =>
      (if c.payload.EvaluateInput? then {Pub(AnomalyRefKey(c.payload.anomaly))} else {})
      + {Pub(EvaluationKey(b.id)), Priv(OpeningKey(TradeCollection, refs.purchase)), Priv(ReportKey(refs.report)),
         Priv(CostKey(refs.freight))}
    case OpenReview | ResolveReview =>
      (if c.payload.ReviewTarget? then {Priv(AnomalyKey(c.payload.anomaly))} else {}) + {Pub(EvaluationKey(b.id))}
    case ReportRetailPrice => {Priv(OpeningKey(TradeCollection, refs.purchase)), Priv(CostKey(refs.freight))}
    case _ => DocumentReads(Submitted(c, t), |Submitted(c, t)|)
  }

  function ArmReads(c: Command, b: Batch, v: Verified): set<Cell> {
    match c.name
    case CreateBatch => {Pub(DocRefKey(v.cks))}
    case OfferPickup | OfferDelivery =>
      (if c.payload.HandoffInput? then {Pub(TransferKey(c.payload.transfer))} else {}) + {Pub(PendingKey(b.id))}
      + if c.name.OfferPickup? then {Pub(DocRefKey(v.purchase)), Pub(DocRefKey(v.hks)), Pub(DocRefKey(v.manifest))}
        else {}
    case AcceptPickup | AcceptDelivery =>
      (if c.payload.HandoffInput? then {Pub(TransferKey(c.payload.transfer))} else {}) + {Pub(PendingKey(b.id))}
    case RecordFreightCost => if c.payload.FreightInput? then {Pub(CostRefKey(c.payload.cost))} else {}
    case ReportRetailPrice =>
      if c.payload.ReportInput? then {Pub(LotKey(c.payload.lot)), Pub(ReportRefKey(c.payload.report))} else {}
    case _ => {}
  }

  /** The read set of an accepted command. */
  function ReadSet(c: Command, x: Execution, t: Transient, st: Start, v: Verified): set<Cell> {
    AdmitReads(c, x, st.existing) + PrepareReads(c, t, st.before, st.refs) + ArmReads(c, st.before, v)
  }

  // ---------------------------------------------------------------- locality

  lemma PubAgrees(s: State, u: State, cells: set<Cell>, k: Key)
    requires Agree(s, u, cells) && Pub(k) in cells
    ensures Kept(s.pub, u.pub, k)
  {
    assert SameCell(s, u, Pub(k));
  }

  lemma PrivAgrees(s: State, u: State, cells: set<Cell>, q: PrivKey)
    requires Agree(s, u, cells) && Priv(q) in cells
    ensures (q in u.priv <==> q in s.priv) && (q in s.priv ==> u.priv[q] == s.priv[q])
  {
    assert SameCell(s, u, Priv(q));
  }

  lemma AdmitLocal(env: Env, s: State, u: State, c: Command, x: Execution)
    requires Admit(env, s, c, x).Ok? && Agree(s, u, AdmitReads(c, x, Admit(env, s, c, x).value.existing))
    ensures Admit(env, u, c, x) == Admit(env, s, c, x)
  {
    hide Agree, Authorize, ValidatePayload, ContextOk, ValidId;
    var cells := AdmitReads(c, x, Admit(env, s, c, x).value.existing);
    PubAgrees(s, u, cells, ConfigKey);
    PubAgrees(s, u, cells, OperationKey(x.actor, c.op));
    PubAgrees(s, u, cells, BatchKey(c.batch));
    if Admit(env, s, c, x).value.existing {
      PubAgrees(s, u, cells, RefsKey(c.batch));
    }
  }

  lemma TakeDocumentLocal(env: Env, s: State, u: State, c: Command, x: Execution, t: Transient, b: Batch, p: Progress,
                          d: Bundle)
    requires Agree(s, u, BundleReads(d))
    ensures TakeDocument(env, u, c, x, t, b, p, d) == TakeDocument(env, s, c, x, t, b, p, d)
  {
    hide VerifyBundle, ClaimAll, TakeBody, BundleReads, Agree;
    VerifyLocal(env, s, u, d);
    ClaimLocal(s, u, p.v.pub, d, x.tx);
  }

  lemma VerifyLocal(env: Env, s: State, u: State, d: Bundle)
    requires Agree(s, u, BundleReads(d))
    ensures VerifyBundle(env, u, d) == VerifyBundle(env, s, d)
  {
    hide Agree, WellFormed, HexId;
    PubAgrees(s, u, BundleReads(d), SourceKeyKey(d.envelope.header.issuer, d.envelope.header.key));
  }

  lemma ClaimLocal(s: State, u: State, pending: Plan, d: Bundle, tx: string)
    requires Agree(s, u, BundleReads(d))
    ensures ClaimAll(u, pending, d.envelope, tx) == ClaimAll(s, pending, d.envelope, tx)
  {
    hide Agree;
    var h := d.envelope.header;
    PubAgrees(s, u, BundleReads(d), DocumentKey(h.document));
    PubAgrees(s, u, BundleReads(d), SourceUseKey(h.issuer, h.sourceDocument));
    PubAgrees(s, u, BundleReads(d), NonceKey(h.issuer, h.nonce));
  }

  lemma {:induction false} TakeDocumentsLocal(env: Env, s: State, u: State, c: Command, x: Execution, t: Transient,
                                              b: Batch, docs: seq<Bundle>, n: nat)
    requires n <= |docs| && Agree(s, u, DocumentReads(docs, n))
    ensures TakeDocuments(env, u, c, x, t, b, docs, n) == TakeDocuments(env, s, c, x, t, b, docs, n)
  {
    hide TakeDocument, BundleReads, SameCell;
    if n > 0 {
      TakeDocumentsLocal(env, s, u, c, x, t, b, docs, n - 1);
      var r := TakeDocuments(env, s, c, x, t, b, docs, n - 1);
      if r.Ok? {
        TakeDocumentLocal(env, s, u, c, x, t, b, r.value, docs[n - 1]);
      }
    }
  }

  lemma GatherLocal(env: Env, s: State, u: State, c: Command, x: Execution, t: Transient, b: Batch)
    requires Agree(s, u, DocumentReads(Submitted(c, t), |Submitted(c, t)|)) && GatherDocuments(env, s, c, x, t, b).Ok?
    ensures GatherDocuments(env, u, c, x, t, b) == GatherDocuments(env, s, c, x, t, b)
  {
    hide TakeDocuments, FieldsOk, Agree, DocumentReads, Increasing;
    var docs := Submitted(c, t);
    TakeDocumentsLocal(env, s, u, c, x, t, b, docs, |docs|);
  }

  lemma EvaluateLocal(s: State, u: State, c: Command, x: Execution, t: Transient, b: Batch, refs: Refs)
    requires c.name.EvaluatePrice? && Evaluate(s, c, x, t, b, refs).Ok?
    requires Kept(s.pub, u.pub, ConfigKey) && Agree(s, u, PrepareReads(c, t, b, refs))
    ensures Evaluate(u, c, x, t, b, refs) == Evaluate(s, c, x, t, b, refs)
  {
    hide Agree, PriceScore, ReadSalt, HexId;
    var cells := PrepareReads(c, t, b, refs);
    PubAgrees(s, u, cells, EvaluationKey(b.id));
    PubAgrees(s, u, cells, AnomalyRefKey(c.payload.anomaly));
    PrivAgrees(s, u, cells, OpeningKey(TradeCollection, refs.purchase));
    PrivAgrees(s, u, cells, ReportKey(refs.report));
    PrivAgrees(s, u, cells, CostKey(refs.freight));
    hide PrepareReads;
    assert LoadPurchase(u, refs.purchase) == LoadPurchase(s, refs.purchase);
    assert LoadReport(u, refs.report) == LoadReport(s, refs.report);
    assert LoadCost(u, refs.freight) == LoadCost(s, refs.freight);
    assert LoadConfig(u) == LoadConfig(s);
    hide LoadPurchase, LoadReport, LoadCost, LoadConfig;
  }

  lemma ReviewLocal(env: Env, s: State, u: State, c: Command, x: Execution, t: Transient, b: Batch, refs: Refs)
    requires (c.name.OpenReview? || c.name.ResolveReview?) && Review(env, s, c, x, t, b).Ok?
    requires Agree(s, u, PrepareReads(c, t, b, refs))
    ensures Review(env, u, c, x, t, b) == Review(env, s, c, x, t, b)
  {
    var cells := PrepareReads(c, t, b, refs);
    PubAgrees(s, u, cells, EvaluationKey(b.id));
    PrivAgrees(s, u, cells, AnomalyKey(c.payload.anomaly));
    hide Agree, PrepareReads, ReadSalt, HexId, ValidId, ReadReview;
  }

  lemma ReportLocal(env: Env, s: State, u: State, c: Command, x: Execution, t: Transient, b: Batch, refs: Refs,
                    policy: Id, v: Verified)
    requires c.name.ReportRetailPrice? && Agree(s, u, PrepareReads(c, t, b, refs))
    ensures TakeReport(env, u, c, x, t, b, refs, policy, v) == TakeReport(env, s, c, x, t, b, refs, policy, v)
  {
    var cells := PrepareReads(c, t, b, refs);
    PrivAgrees(s, u, cells, OpeningKey(TradeCollection, refs.purchase));
    PrivAgrees(s, u, cells, CostKey(refs.freight));
    hide Agree, PrepareReads, HexId;
    assert LoadPurchase(u, refs.purchase) == LoadPurchase(s, refs.purchase);
    assert LoadCost(u, refs.freight) == LoadCost(s, refs.freight);
    hide LoadPurchase, LoadCost;
  }

  lemma PrepareLocal(env: Env, s: State, u: State, c: Command, x: Execution, t: Transient, b: Batch, refs: Refs)
    requires Prepare(env, s, c, x, t, b, refs).Ok?
    requires Kept(s.pub, u.pub, ConfigKey) && Agree(s, u, PrepareReads(c, t, b, refs))
    ensures Prepare(env, u, c, x, t, b, refs) == Prepare(env, s, c, x, t, b, refs)
  {
    hide Evaluate, Review, TakeReport, GatherDocuments, Agree, LoadConfig, DocumentReads;
    assert LoadConfig(u) == LoadConfig(s) by {
      ConfigLocal(s, u);
    }
    if c.name.EvaluatePrice? {
      EvaluateLocal(s, u, c, x, t, b, refs);
    } else if IsAnalysis(c.name) {
      ReviewLocal(env, s, u, c, x, t, b, refs);
    } else if RequiredTypes(c.name) == map[] {
      Vacuous(s, u, []);
      GatherLocal(env, s, u, c, x, t, b);
      if c.name.ReportRetailPrice? {
        ReportLocal(env, s, u, c, x, t, b, refs, LoadConfig(s).value.policy, GatherDocuments(env, s, c, x, t, b).value);
      }
    } else {
      GatherLocal(env, s, u, c, x, t, b);
    }
  }

  lemma ConfigLocal(s: State, u: State)
    requires Kept(s.pub, u.pub, ConfigKey)
    ensures LoadConfig(u) == LoadConfig(s)
  {
  }

  lemma Vacuous(s: State, u: State, docs: seq<Bundle>)
    requires docs == []
    ensures Agree(s, u, DocumentReads(docs, 0))
  {
  }

  lemma ConsumeLocal(s: State, u: State, cells: set<Cell>, plan: Plan, document: Id, c: Command)
    requires Agree(s, u, cells) && Pub(DocRefKey(document)) in cells
    ensures Consume(u, plan, document, c) == Consume(s, plan, document, c)
  {
    hide Agree, ValidId;
    PubAgrees(s, u, cells, DocRefKey(document));
  }

  lemma PickupLocal(s: State, u: State, c: Command, st: Start, v: Verified, cells: set<Cell>)
    requires Agree(s, u, cells)
    requires Pub(DocRefKey(v.purchase)) in cells && Pub(DocRefKey(v.hks)) in cells
             && Pub(DocRefKey(v.manifest)) in cells
    ensures PickupDocuments(u, c, st, v) == PickupDocuments(s, c, st, v)
  {
    hide Agree, Consume, ValidPurchase;
    ConsumeLocal(s, u, cells, map[], v.purchase, c);
    var p1 := Consume(s, map[], v.purchase, c);
    if p1.Ok? {
      ConsumeLocal(s, u, cells, p1.value, v.hks, c);
      var p2 := Consume(s, p1.value, v.hks, c);
      if p2.Ok? {
        ConsumeLocal(s, u, cells, p2.value, v.manifest, c);
      }
    }
  }

  lemma ArmLocal(s: State, u: State, c: Command, x: Execution, st: Start, v: Verified)
    requires RunArm(s, c, x, st, v).Ok? && Agree(s, u, ArmReads(c, st.before, v))
    ensures RunArm(u, c, x, st, v) == RunArm(s, c, x, st, v)
  {
    hide Agree, ValidPurchase, ValidId, Consume, PickupDocuments;
    var cells := ArmReads(c, st.before, v);
    match c.name
    case CreateBatch => ConsumeLocal(s, u, cells, map[], v.cks, c);
    case OfferPickup =>
      PubAgrees(s, u, cells, TransferKey(c.payload.transfer));
      PubAgrees(s, u, cells, PendingKey(st.before.id));
      PickupLocal(s, u, c, st, v, cells);
    case OfferDelivery =>
      PubAgrees(s, u, cells, TransferKey(c.payload.transfer));
      PubAgrees(s, u, cells, PendingKey(st.before.id));
    case AcceptPickup | AcceptDelivery =>
      PubAgrees(s, u, cells, TransferKey(c.payload.transfer));
      PubAgrees(s, u, cells, PendingKey(st.before.id));
    case RecordFreightCost => PubAgrees(s, u, cells, CostRefKey(c.payload.cost));
    case ReportRetailPrice =>
      PubAgrees(s, u, cells, LotKey(c.payload.lot));
      PubAgrees(s, u, cells, ReportRefKey(c.payload.report));
    case _ =>
  }

  lemma AgreeOnPart(s: State, u: State, cells: set<Cell>, part: set<Cell>)
    requires Agree(s, u, cells) && part <= cells
    ensures Agree(s, u, part)
  {
    hide SameCell;
  }

  /** The read set of a command in a state, empty when the command is refused there. */
  function ReadsOf(env: Env, s: State, c: Command, x: Execution, t: Transient): set<Cell> {
    var st := Admit(env, s, c, x);
    if st.Err? then {}
    else
      var v := Prepare(env, s, c, x, t, st.value.before, st.value.refs);
      if v.Err? then {} else ReadSet(c, x, t, st.value, v.value)
  }

  /**
   * An accepted command has the same outcome, and the same read set, in every state
   * that agrees on the cells it read.
   */
  lemma ApplyLocal(env: Env, s: State, u: State, c: Command, x: Execution, t: Transient)
    requires Apply(env, s, c, x, t).Ok? && Agree(s, u, ReadsOf(env, s, c, x, t))
    ensures Apply(env, u, c, x, t) == Apply(env, s, c, x, t)
    ensures ReadsOf(env, u, c, x, t) == ReadsOf(env, s, c, x, t)
  {
    hide Admit, Prepare, RunArm, Finish, Agree, AdmitReads, PrepareReads, ArmReads;
    var st := Admit(env, s, c, x).value;
    var v := Prepare(env, s, c, x, t, st.before, st.refs).value;
    var cells := ReadsOf(env, s, c, x, t);
    AgreeOnPart(s, u, cells, AdmitReads(c, x, st.existing));
    AgreeOnPart(s, u, cells, PrepareReads(c, t, st.before, st.refs));
    AgreeOnPart(s, u, cells, ArmReads(c, st.before, v));
    AdmitLocal(env, s, u, c, x);
    assert Kept(s.pub, u.pub, ConfigKey) by {
      ConfigRead(c, x, st.existing);
      PubAgrees(s, u, AdmitReads(c, x, st.existing), ConfigKey);
    }
    PrepareLocal(env, s, u, c, x, t, st.before, st.refs);
    ArmLocal(s, u, c, x, st, v);
  }

  lemma ConfigRead(c: Command, x: Execution, existing: bool)
    ensures Pub(ConfigKey) in AdmitReads(c, x, existing)
    ensures Pub(OperationKey(x.actor, c.op)) in AdmitReads(c, x, existing)
    ensures Pub(BatchKey(c.batch)) in AdmitReads(c, x, existing)
  {
  }
}
