/** What one command does to the ledger, as a function of the state it reads. */
module Engine {
  import opened Types
  import opened Price
  import opened Evidence

  // ---------------------------------------------------------------- admission

  function RequiredCaller(name: CommandName): (Msp, Role) {
    match name
    case EvaluatePrice => (Regulator, OracleRole)
    case OpenReview | ResolveReview => (Regulator, ReviewerRole)
    case CreateBatch | OfferPickup => (Producer, ProducerRole)
    case AcceptPickup | RecordFreightCost | OfferDelivery => (Logistics, CarrierRole)
    case AcceptDelivery | ReportRetailPrice => (Retailer, RetailerRole)
  }

  function Authorize(actor: Msp, role: Role, name: CommandName): Result<()> {
    var (expected, expectedRole) := RequiredCaller(name);
    :- Need(!actor.Foreign?, UnauthorizedOrganization);
    :- Need(actor == expected, if name.AcceptPickup? || name.AcceptDelivery? then WrongTransferRecipient
                               else UnauthorizedOrganization);
    :- Need(role == expectedRole, UnauthorizedRole);
    Ok(())
  }

  /** Two characters read as a number from 1 to 81; a leading plus sign is read too. */
  predicate RegionOk(r: string) {
    && |r| == 2 && '0' <= r[1] <= '9'
    && (r[0] == '+' || '0' <= r[0] <= '9')
    && var tens := if r[0] == '+' then 0 else r[0] as int - '0' as int;
       1 <= 10 * tens + (r[1] as int - '0' as int) <= 81
  }

  predicate QuantityOk(q: int) {
    1 <= q <= 100_000_000
  }

  function ValidatePayload(env: Env, c: Command): Result<()> {
    match (c.name, c.payload)
    case (EvaluatePrice, EvaluateInput(anomaly, report)) =>
      :- Need(ValidId(anomaly, "ANM") && ValidId(report, "RPT"), InvalidIdentifier);
      Ok(())
    case (OpenReview, ReviewTarget(anomaly)) =>
      :- Need(ValidId(anomaly, "ANM"), InvalidIdentifier);
      Ok(())
    case (ResolveReview, ReviewTarget(anomaly)) =>
      :- Need(ValidId(anomaly, "ANM"), InvalidIdentifier);
      Ok(())
    case (CreateBatch, CreateInput(product, grade, quantity, region, harvest, logistics, retailer)) =>
      :- Need(QuantityOk(quantity), InvalidQuantity);
      :- Need(product == "TOMATO" && grade == "STANDARD" && logistics == Logistics
              && retailer == Retailer, InvalidSchema);
      :- Need(RegionOk(region), InvalidSchema);
      :- Need(env.date(harvest), InvalidSchema);
      Ok(())
    case (RecordFreightCost, FreightInput(cost)) =>
      :- Need(ValidId(cost, "CST"), InvalidIdentifier);
      Ok(())
    case (ReportRetailPrice, ReportInput(report, lot, policy)) =>
      :- Need(ValidId(report, "RPT") && ValidId(lot, "LOT") && ValidId(policy, "CFG"), InvalidIdentifier);
      Ok(())
    case (_, HandoffInput(transfer, quantity)) =>
      :- Need(IsOffer(c.name) || IsAccept(c.name), InvalidSchema);
      :- Need(ValidId(transfer, "TRF"), InvalidIdentifier);
      :- Need(QuantityOk(quantity), InvalidQuantity);
      Ok(())
    case _ => Err(InvalidSchema)
  }

  predicate IsOffer(name: CommandName) {
    name.OfferPickup? || name.OfferDelivery?
  }

  predicate IsAccept(name: CommandName) {
    name.AcceptPickup? || name.AcceptDelivery?
  }

  const MAX_VERSION := 2147483647

  const ZERO_BATCH := Batch(NO_ID, "", "", 0, "", "", Foreign(""), Foreign(""), Foreign(""), Foreign(""), Foreign(""),
                            Created, 0, NO_ID, "", "", TxTime(0, 0))

  function EmptyRefs(batch: Id): Refs {
    Refs(batch, NO_ID, NO_ID, NO_ID, NO_ID, NO_ID, NO_ID)
  }

  /** The batch and evidence slots a command starts from; `existing` is false only for a creation. */
  datatype Start = Start(existing: bool, before: Batch, refs: Refs)

  function LoadStart(s: State, c: Command): Result<Start> {
    if BatchKey(c.batch) !in s.pub then
      :- Need(c.name.CreateBatch?, BatchNotFound);
      :- Need(c.expected == 0, VersionConflict);
      Ok(Start(false, ZERO_BATCH, EmptyRefs(c.batch)))
    else
      :- Need(s.pub[BatchKey(c.batch)].BatchValue?, InternalError);
      var b := s.pub[BatchKey(c.batch)].batch;
      :- Need(!c.name.CreateBatch?, BatchAlreadyExists);
      :- Need(b.version == c.expected && b.version != MAX_VERSION, VersionConflict);
      if RefsKey(c.batch) !in s.pub then Ok(Start(true, b, EmptyRefs(c.batch)))
      else
        :- Need(s.pub[RefsKey(c.batch)].RefsValue?, InternalError);
        Ok(Start(true, b, s.pub[RefsKey(c.batch)].refs))
  }

  predicate ContextOk(x: Execution) {
    HexId(x.tx) && 0 <= x.time.seconds < INT64 && 0 <= x.time.nanos <= 999_999_999
  }

  /** Everything that is checked before the evidence is looked at. */
  function Admit(env: Env, s: State, c: Command, x: Execution): Result<Start> {
    var _ :- Authorize(x.actor, x.role, c.name);
    :- Need(ValidId(c.batch, "BAT") && ValidId(c.op, "OP"), InvalidIdentifier);
    :- Need(0 <= c.expected <= MAX_VERSION, VersionConflict);
    var _ :- ValidatePayload(env, c);
    var _ :- LoadConfig(s);
    :- Need(ContextOk(x), InternalError);
    :- Absent(s, OperationKey(x.actor, c.op), DuplicateTransaction);
    LoadStart(s, c)
  }

  // ------------------------------------------------------------ the ten arms

  /** The new batch, slots, extra writes and touched ids of one command. */
  datatype Arm = Arm(b: Batch, refs: Refs, plan: Plan, ids: seq<Id>, event: EventName)

  predicate ValidPurchase(v: Verified) {
    && 0 < v.quantity <= 100_000_000
    && 0 < v.purchasePrice <= 1_000_000_000
    && 0 < v.purchaseTotal <= 1_000_000_000_000
    && v.currency == Try && v.tax == ExcludingTax
    && Mul64(v.purchasePrice, v.quantity) == Mul64(v.purchaseTotal, 1000)
  }

  function Consume(s: State, plan: Plan, document: Id, c: Command): Result<Plan> {
    var k := DocRefKey(document);
    :- Need(ValidId(document, "DOC"), MissingEvidence);
    :- Need(k !in plan, DocumentAlreadyUsed);
    :- Absent(s, k, DocumentAlreadyUsed);
    Ok(plan[k := Some(DocRefValue(c.batch, c.op))])
  }

  function CreateArm(s: State, c: Command, x: Execution, st: Start, v: Verified): Result<Arm> {
    var p := c.payload;
    :- Need(p.CreateInput?, InvalidSchema);
    var b := Batch(c.batch, p.product, p.grade, p.quantity, p.region, p.harvest, x.actor, p.logistics, p.retailer,
                   x.actor, x.actor, Created, 0, NO_ID, x.tx, "", TxTime(0, 0));
    :- Need(v.quantity == b.quantity, SourceBindingMismatch);
    var plan :- Consume(s, map[], v.cks, c);
    Ok(Arm(b, st.refs.(cks := v.cks), plan, [c.batch, v.cks], BatchCreated))
  }

  function OfferArm(s: State, c: Command, x: Execution, st: Start, v: Verified): Result<Arm> {
    var b := st.before;
    var pickup := c.name.OfferPickup?;
    :- Need(c.payload.HandoffInput?, InvalidSchema);
    var p := c.payload;
    :- Need(b.state == (if pickup then Created else InTransport), InvalidStateTransition);
    :- Need(x.actor == b.custodian && (pickup ==> x.actor == b.owner), UnauthorizedOrganization);
    :- Need(p.quantity == b.quantity, InvalidQuantity);
    :- Absent(s, PendingKey(b.id), InvalidStateTransition);
    :- Absent(s, TransferKey(p.transfer), TransferAlreadyExists);
    var docs :- if pickup then PickupDocuments(s, c, st, v)
                else if st.refs.transport == NO_ID then Err(MissingEvidence)
                else Ok((map[], st.refs, []));
    var t := Transfer(p.transfer, b.id, if pickup then Pickup else Delivery, Offered, x.actor,
                      if pickup then b.logistics else b.retailer, b.quantity, c.op, NO_ID, x.tx, "");
    Ok(Arm(b.(state := if pickup then PickupPending else DeliveryPending), docs.1,
           docs.0[TransferKey(p.transfer) := Some(TransferValue(t))][PendingKey(b.id) := Some(IdValue(p.transfer))],
           [c.batch] + docs.2 + [p.transfer], if pickup then PickupOffered else DeliveryOffered))
  }

  function PickupDocuments(s: State, c: Command, st: Start, v: Verified): Result<(Plan, Refs, seq<Id>)> {
    var b := st.before;
    :- Need(st.refs.cks != NO_ID, MissingEvidence);
    :- Need(v.quantity == b.quantity, SourceBindingMismatch);
    :- Need(ValidPurchase(v), InvalidMoney);
    var p1 :- Consume(s, map[], v.purchase, c);
    var p2 :- Consume(s, p1, v.hks, c);
    var p3 :- Consume(s, p2, v.manifest, c);
    Ok((p3, st.refs.(purchase := v.purchase, hks := v.hks, transport := v.manifest), [v.purchase, v.hks, v.manifest]))
  }

  function AcceptArm(s: State, c: Command, x: Execution, st: Start): Result<Arm> {
    var b := st.before;
    var pickup := c.name.AcceptPickup?;
    :- Need(c.payload.HandoffInput?, InvalidSchema);
    var p := c.payload;
    :- Need(TransferKey(p.transfer) in s.pub, TransferNotFound);
    :- Need(s.pub[TransferKey(p.transfer)].TransferValue?, InternalError);
    var t := s.pub[TransferKey(p.transfer)].transfer;
    :- Need(t.batch == b.id, TransferNotFound);
    :- Need(t.to == x.actor, WrongTransferRecipient);
    :- Need(PendingKey(b.id) in s.pub ==> s.pub[PendingKey(b.id)].IdValue?, InternalError);
    :- Need(b.state == (if pickup then PickupPending else DeliveryPending) && t.status == Offered
            && t.kind == (if pickup then Pickup else Delivery)
            && PendingKey(b.id) in s.pub && s.pub[PendingKey(b.id)].id == t.id, InvalidStateTransition);
    :- Need(p.quantity == b.quantity && t.quantity == b.quantity, InvalidQuantity);
    :- Need(t.from == b.custodian, UnauthorizedOrganization);
    :- Need(pickup || st.refs.freight != NO_ID, MissingEvidence);
    var t' := t.(status := Accepted, acceptOp := c.op, acceptedTx := x.tx);
    Ok(Arm(b.(state := if pickup then InTransport else Received, custodian := x.actor,
              owner := if pickup then b.owner else x.actor),
           st.refs, map[TransferKey(t.id) := Some(TransferValue(t')), PendingKey(b.id) := None],
           [c.batch, p.transfer], if pickup then PickupAccepted else DeliveryAccepted))
  }

  function FreightArm(s: State, c: Command, x: Execution, st: Start, v: Verified): Result<Arm> {
    var b := st.before;
    :- Need(c.payload.FreightInput?, InvalidSchema);
    var cost := c.payload.cost;
    :- Need(b.state == InTransport || b.state == DeliveryPending, InvalidStateTransition);
    :- Need(b.custodian == x.actor, UnauthorizedOrganization);
    :- Need(st.refs.freight == NO_ID, CostAlreadyExists);
    :- Absent(s, CostRefKey(cost), CostAlreadyExists);
    :- Need(v.quantity == b.quantity, SourceBindingMismatch);
    :- Need(0 <= v.freightTotal <= 1_000_000_000_000 && v.currency == Try && v.tax == ExcludingTax, InvalidMoney);
    Ok(Arm(b, st.refs.(freight := cost), Put(CostRefKey(cost), IdValue(c.batch)), [c.batch, cost], FreightCostRecorded))
  }

  function ReportArm(s: State, c: Command, x: Execution, st: Start, v: Verified): Result<Arm> {
    var b := st.before;
    :- Need(c.payload.ReportInput?, InvalidSchema);
    var p := c.payload;
    :- Need(b.state == Received, InvalidStateTransition);
    :- Need(b.owner == x.actor && b.custodian == x.actor, UnauthorizedOrganization);
    :- Need(st.refs.purchase != NO_ID && st.refs.freight != NO_ID, MissingEvidence);
    :- Need(st.refs.report == NO_ID && b.lot == NO_ID, ReportAlreadyExists);
    :- Absent(s, LotKey(p.lot), LotAlreadyExists);
    :- Absent(s, ReportRefKey(p.report), ReportAlreadyExists);
    :- Need(v.quantity == b.quantity, SourceBindingMismatch);
    :- Need(ValidPurchase(v) && 0 <= v.retailPrice <= 1_000_000_000, InvalidMoney);
    :- Need(p.policy == v.policy, PolicyMismatch);
    var lot := Lot(p.lot, b.id, b.quantity, x.actor, p.report, x.tx);
    Ok(Arm(b.(lot := p.lot, state := RetailReported), st.refs.(report := p.report),
           map[LotKey(p.lot) := Some(LotValue(lot)), ReportRefKey(p.report) := Some(IdValue(c.batch))],
           [c.batch, p.report, p.lot, p.policy], RetailPriceReported))
  }

  function AnalysisArm(c: Command, st: Start): Result<Arm> {
    match c.payload
    case EvaluateInput(anomaly, report) =>
      Ok(Arm(st.before, st.refs, map[], [c.batch, anomaly, report], PriceEvaluated))
    case ReviewTarget(anomaly) => Ok(Arm(st.before, st.refs, map[], [c.batch, anomaly], ReviewUpdated))
    case _ => Err(InvalidSchema)
  }

  function RunArm(s: State, c: Command, x: Execution, st: Start, v: Verified): Result<Arm> {
    match c.name
    case CreateBatch => CreateArm(s, c, x, st, v)
    case OfferPickup | OfferDelivery => OfferArm(s, c, x, st, v)
    case AcceptPickup | AcceptDelivery => AcceptArm(s, c, x, st)
    case RecordFreightCost => FreightArm(s, c, x, st, v)
    case ReportRetailPrice => ReportArm(s, c, x, st, v)
    case EvaluatePrice | OpenReview | ResolveReview => AnalysisArm(c, st)
  }

  // ------------------------------------------------------------------ finish

  function Insert(id: Id, ids: seq<Id>): seq<Id> {
    if ids == [] then [id]
    else if id == ids[0] then ids
    else if Before(id.text, ids[0].text) then [id] + ids
    else [ids[0]] + Insert(id, ids[1..])
  }

  function SortedUnique(ids: seq<Id>): seq<Id> {
    if ids == [] then [] else Insert(ids[0], SortedUnique(ids[1..]))
  }

  /** A decided command: its receipt, its event, the public plan and the private writes. */
  datatype Outcome = Outcome(receipt: Receipt, event: Event, plan: Plan, priv: map<PrivKey, PrivValue>)

  function NewBatch(x: Execution, st: Start, arm: Arm): Batch {
    arm.b.(version := st.before.version + 1, updatedTx := x.tx, time := x.time)
  }

  function NewReceipt(c: Command, x: Execution, st: Start, arm: Arm): Receipt {
    Receipt(c.op, c.batch, c.name, x.actor, x.tx, x.time, st.before.version + 1, SortedUnique(arm.ids))
  }

  /** The writes that every command makes, and the index entries it drops. */
  function BasePlan(c: Command, x: Execution, st: Start, arm: Arm): Plan {
    var b, r := NewBatch(x, st, arm), NewReceipt(c, x, st, arm);
    var puts: Plan := map[
      BatchKey(c.batch) := Some(BatchValue(b)),
      RefsKey(c.batch) := Some(RefsValue(arm.refs)),
      OperationKey(x.actor, c.op) := Some(ReceiptValue(r)),
      HistoryKey(c.batch, b.version) := Some(ReceiptValue(r)),
      OwnerKey(b.owner, b.id) := Some(IdValue(b.id)),
      StateKey(b.state, b.id) := Some(IdValue(b.id))];
    var owners: Plan := if st.existing && st.before.owner != b.owner then map[OwnerKey(st.before.owner, b.id) := None]
      else map[];
    var states: Plan := if st.existing && st.before.state != b.state then map[StateKey(st.before.state, b.id) := None]
      else map[];
    puts + owners + states
  }

  function Finish(c: Command, x: Execution, st: Start, arm: Arm, v: Verified): Outcome {
    var b, r := NewBatch(x, st, arm), NewReceipt(c, x, st, arm);
    var previous := if st.existing then Some(st.before.state) else None;
    Outcome(r, Event(arm.event, c.op, c.batch, x.actor, x.tx, x.time, b.version, r.ids, previous, b.state),
            arm.plan + BasePlan(c, x, st, arm) + v.pub, v.priv)
  }

  // ------------------------------------------------------------------- apply

  /** Decide one command against a state. */
  function Apply(env: Env, s: State, c: Command, x: Execution, t: Transient): Result<Outcome> {
    var st :- Admit(env, s, c, x);
    var v :- Prepare(env, s, c, x, t, st.before, st.refs);
    var arm :- RunArm(s, c, x, st, v);
    Ok(Finish(c, x, st, arm, v))
  }

  /** The state after an accepted command. */
  function After(s: State, o: Outcome): State {
    State(Commit(s.pub, o.plan), s.priv + o.priv, s.events + [o.event])
  }

  /** One request against the ledger: an accepted command moves it, a refused one leaves it. */
  function Step(env: Env, s: State, c: Command, x: Execution, t: Transient): State {
    match Apply(env, s, c, x, t)
    case Ok(o) => After(s, o)
    case Err(_) => s
  }

  // --------------------------------------------------------------- bootstrap

  const SYSTEM_ORDER: seq<System> := [Cks, Efatura, Hks, Uetds]

  function SystemTypes(system: System): set<DocType> {
    match system
    case Cks => {ProducerEligibility}
    case Efatura => {FreightInvoice, PurchaseInvoice}
    case Hks => {TradeNotification}
    case Uetds => {TransportManifest}
    case OtherSystem(_) => {}
  }

  predicate SourceOk(k: SourceKey, system: System) {
    && k.system == system && k.enabled && k.docTypes == SystemTypes(system)
    && Reference(k.issuer) && Reference(k.key)
  }

  /** Four enabled sources, one per system in order, with distinct registry keys. */
  predicate SourcesOk(sources: seq<SourceKey>) {
    && |sources| == 4
    && (forall i :: 0 <= i < 4 ==> SourceOk(sources[i], SYSTEM_ORDER[i]))
    && (forall i, j :: 0 <= i < j < 4 ==>
          SourceKeyKey(sources[i].issuer, sources[i].key) != SourceKeyKey(sources[j].issuer, sources[j].key))
  }

  function SourcePlan(sources: seq<SourceKey>): Plan {
    if sources == [] then map[]
    else
      var k := sources[|sources| - 1];
      SourcePlan(sources[..|sources| - 1])[SourceKeyKey(k.issuer, k.key) := Some(SourceKeyValue(k))]
  }

  /** The one-time trust configuration. */
  function Bootstrap(s: State, actor: Msp, role: Role, cfg: Configuration): Result<Plan> {
    var sources := cfg.sources;
    :- Need(actor == Regulator, UnauthorizedOrganization);
    :- Need(role == AdminRole, UnauthorizedRole);
    :- Absent(s, ConfigKey, ConfigurationAlreadyExists);
    :- Need(ValidId(cfg.policy, "CFG") && ThresholdOk(cfg.threshold) && SourcesOk(sources), InvalidSchema);
    Ok(SourcePlan(sources)
       [ConfigKey := Some(ConfigValue(cfg))]
       [PolicyKey(cfg.policy) := Some(PolicyValue(cfg.threshold))])
  }

  // ==========================================================================
  // What an accepted command changes, key kind by key kind.

  /** The three stages of an accepted command. */
  ghost predicate Accepts(env: Env, s: State, c: Command, x: Execution, t: Transient, st: Start, v: Verified,
                          arm: Arm) {
    && Admit(env, s, c, x) == Ok(st)
    && Prepare(env, s, c, x, t, st.before, st.refs) == Ok(v)
    && RunArm(s, c, x, st, v) == Ok(arm)
  }

  lemma Decompose(env: Env, s: State, c: Command, x: Execution, t: Transient) returns (st: Start, v: Verified, arm: Arm)
    requires Apply(env, s, c, x, t).Ok?
    ensures Accepts(env, s, c, x, t, st, v, arm)
    ensures Apply(env, s, c, x, t) == Ok(Finish(c, x, st, arm, v))
  {
    hide Admit, Prepare, RunArm, Finish;
    st := Admit(env, s, c, x).value;
    v := Prepare(env, s, c, x, t, st.before, st.refs).value;
    arm := RunArm(s, c, x, st, v).value;
  }

  // --------------------------------------------------------------- admission

  predicate PayloadFits(c: Command) {
    match c.name
    case CreateBatch => c.payload.CreateInput? && QuantityOk(c.payload.quantity)
                        && c.payload.logistics == Logistics && c.payload.retailer == Retailer
    case OfferPickup | OfferDelivery | AcceptPickup | AcceptDelivery =>
      c.payload.HandoffInput? && ValidId(c.payload.transfer, "TRF")
    case RecordFreightCost => c.payload.FreightInput? && ValidId(c.payload.cost, "CST")
    case ReportRetailPrice => c.payload.ReportInput? && ValidId(c.payload.report, "RPT")
         && ValidId(c.payload.lot, "LOT")
                              && ValidId(c.payload.policy, "CFG")
    case EvaluatePrice => c.payload.EvaluateInput? && ValidId(c.payload.anomaly, "ANM")
    case OpenReview | ResolveReview => c.payload.ReviewTarget? && ValidId(c.payload.anomaly, "ANM")
  }

  /** What admission establishes. */
  ghost predicate Admitted(s: State, c: Command, x: Execution, st: Start) {
    && x.actor == RequiredCaller(c.name).0 && x.role == RequiredCaller(c.name).1
    && PayloadFits(c)
    && OperationKey(x.actor, c.op) !in s.pub
    && (st.existing <==> BatchKey(c.batch) in s.pub)
    && (c.name.CreateBatch? <==> !st.existing)
    && (st.existing ==> s.pub[BatchKey(c.batch)] == BatchValue(st.before))
    && (st.existing && RefsKey(c.batch) in s.pub ==> s.pub[RefsKey(c.batch)] == RefsValue(st.refs))
    && (st.existing ==> st.before.version == c.expected)
    && (!st.existing ==> st == Start(false, ZERO_BATCH, EmptyRefs(c.batch)))
  }

  lemma AdmitFacts(env: Env, s: State, c: Command, x: Execution, st: Start)
    requires Admit(env, s, c, x) == Ok(st)
    ensures Admitted(s, c, x, st)
    ensures ValidId(c.batch, "BAT") && ValidId(c.op, "OP")
  {
    hide ValidId, RegionOk, ContextOk, LoadConfig;
    assert LoadStart(s, c) == Ok(st);
    assert ValidatePayload(env, c).Ok?;
  }

  // -------------------------------------------------------------- key kinds

  predicate IsBaseKey(k: Key) {
    k.BatchKey? || k.RefsKey? || k.OperationKey? || k.HistoryKey? || k.OwnerKey? || k.StateKey?
  }

  predicate IsArmKey(k: Key) {
    k.PendingKey? || k.TransferKey? || k.DocRefKey? || k.CostRefKey? || k.LotKey? || k.ReportRefKey?
  }

  predicate IsProofKey(k: Key) {
    k.DocumentKey? || k.SourceUseKey? || k.NonceKey? || k.EvaluationKey? || k.AnomalyRefKey? || k.ReviewRefKey?
  }

  predicate IsConfigKey(k: Key) {
    k.ConfigKey? || k.PolicyKey? || k.SourceKeyKey?
  }

  /** After a plan: planned keys hold what was planned, the others what they held. */
  ghost predicate Planned(was: map<Key, Value>, now: map<Key, Value>, plan: Plan, k: Key) {
    if k in plan then
      if plan[k].Some? then k in now && now[k] == plan[k].value else k !in now
    else Kept(was, now, k)
  }

  ghost predicate Kept(was: map<Key, Value>, now: map<Key, Value>, k: Key) {
    (k in now <==> k in was) && (k in was ==> now[k] == was[k])
  }

  lemma ConsumeKinds(s: State, plan: Plan, document: Id, c: Command)
    requires forall k :: k in plan ==> k.DocRefKey? && plan[k].Some? && k !in s.pub
    requires Consume(s, plan, document, c).Ok?
    ensures var p := Consume(s, plan, document, c).value;
            forall k :: k in p ==> k.DocRefKey? && p[k].Some? && k !in s.pub
  {
    hide ValidId;
  }

  lemma ArmKinds(s: State, c: Command, x: Execution, st: Start, v: Verified)
    requires RunArm(s, c, x, st, v).Ok?
    ensures forall k :: k in RunArm(s, c, x, st, v).value.plan ==> IsArmKey(k)
  {
    hide ValidId, ValidPurchase;
    match c.name
    case CreateBatch => ConsumeKinds(s, map[], v.cks, c);
    case OfferPickup =>
      PickupKinds(s, c, st, v);
    case _ =>
  }

  lemma PickupKinds(s: State, c: Command, st: Start, v: Verified)
    requires PickupDocuments(s, c, st, v).Ok?
    ensures var p := PickupDocuments(s, c, st, v).value.0;
            forall k :: k in p ==> k.DocRefKey? && p[k].Some? && k !in s.pub
  {
    hide ValidPurchase, Consume;
    ConsumeKinds(s, map[], v.purchase, c);
    var p1 := Consume(s, map[], v.purchase, c).value;
    ConsumeKinds(s, p1, v.hks, c);
    var p2 := Consume(s, p1, v.hks, c).value;
    ConsumeKinds(s, p2, v.manifest, c);
  }

  predicate DocKeysOnly(p: Plan) {
    forall k :: k in p ==> p[k].Some? && (k.DocumentKey? || k.SourceUseKey? || k.NonceKey?)
  }

  lemma {:induction false} DocPlanKinds(docs: seq<Bundle>, n: nat, tx: string)
    requires n <= |docs|
    ensures DocKeysOnly(DocPlan(docs, n, tx))
  {
    if n > 0 {
      DocPlanKinds(docs, n - 1, tx);
      var p := DocPlan(docs, n - 1, tx);
      assert forall k :: k in p ==> p[k].Some?;
    }
  }

  /** The public writes of the provider: replay keys, or analysis references that were not there. */
  ghost predicate ProofPlan(s: State, c: Command, x: Execution, b: Batch, refs: Refs, v: Verified) {
    match c.name
    case EvaluatePrice =>
      && c.payload.EvaluateInput? && refs.report == c.payload.report && b.state.RetailReported?
      && EvaluationKey(b.id) !in s.pub && AnomalyRefKey(c.payload.anomaly) !in s.pub
      && var ref := EvaluationValue(Evaluation(b.id, c.payload.report, c.payload.anomaly, x.tx));
         && (forall k :: k in v.pub ==> k == EvaluationKey(b.id) || k == AnomalyRefKey(c.payload.anomaly))
         && EvaluationKey(b.id) in v.pub && v.pub[EvaluationKey(b.id)] == Some(ref)
         && AnomalyRefKey(c.payload.anomaly) in v.pub && v.pub[AnomalyRefKey(c.payload.anomaly)] == Some(ref)
    case OpenReview | ResolveReview =>
      && c.payload.ReviewTarget? && b.state.RetailReported?
      && EvaluationKey(b.id) in s.pub && s.pub[EvaluationKey(b.id)].EvaluationValue?
      && s.pub[EvaluationKey(b.id)].evaluation.anomaly == c.payload.anomaly
      && (forall k :: k in v.pub ==> k == ReviewRefKey(c.payload.anomaly, c.op))
      && ReviewRefKey(c.payload.anomaly, c.op) in v.pub
      && v.pub[ReviewRefKey(c.payload.anomaly, c.op)] == Some(IdValue(c.op))
    case _ => DocKeysOnly(v.pub)
  }

  lemma EvaluatePlanned(s: State, c: Command, x: Execution, t: Transient, b: Batch, refs: Refs, v: Verified)
    requires c.name.EvaluatePrice? && b.state.RetailReported? && Evaluate(s, c, x, t, b, refs) == Ok(v)
    ensures ProofPlan(s, c, x, b, refs, v)
  {
    hide LoadPurchase, LoadCost, LoadReport, LoadConfig, ReadSalt, Get, DocKeysOnly, SubjectOk, MoneyClear;
  }

  lemma ReviewPlanned(env: Env, s: State, c: Command, x: Execution, t: Transient, b: Batch, refs: Refs, v: Verified)
    requires (c.name.OpenReview? || c.name.ResolveReview?) && b.state.RetailReported?
             && Review(env, s, c, x, t, b) == Ok(v)
    ensures ProofPlan(s, c, x, b, refs, v)
  {
    hide ValidId, HexId, LoadAnomaly, ReadReview, ReadSalt;
  }

  lemma ReportKeepsPub(env: Env, s: State, c: Command, x: Execution, t: Transient, b: Batch, refs: Refs, policy: Id,
                       v: Verified)
    requires TakeReport(env, s, c, x, t, b, refs, policy, v).Ok?
    ensures TakeReport(env, s, c, x, t, b, refs, policy, v).value.pub == v.pub
  {
  }

  lemma GatheredPub(env: Env, s: State, c: Command, x: Execution, t: Transient, b: Batch, refs: Refs)
    requires !IsAnalysis(c.name) && Prepare(env, s, c, x, t, b, refs).Ok?
    ensures GatherDocuments(env, s, c, x, t, b).Ok?
    ensures Prepare(env, s, c, x, t, b, refs).value.pub == GatherDocuments(env, s, c, x, t, b).value.pub
  {
    hide GatherDocuments, TakeReport;
    if c.name.ReportRetailPrice? {
      ReportKeepsPub(env, s, c, x, t, b, refs, LoadConfig(s).value.policy, GatherDocuments(env, s, c, x, t, b).value);
    }
  }

  lemma ProofPlanned(env: Env, s: State, c: Command, x: Execution, t: Transient, b: Batch, refs: Refs, v: Verified)
    requires Prepare(env, s, c, x, t, b, refs) == Ok(v)
    ensures ProofPlan(s, c, x, b, refs, v)
  {
    hide ValidId, HexId, GatherDocuments, DocKeysOnly, Evaluate, Review, TakeReport, Gathered;
    if c.name.EvaluatePrice? {
      EvaluatePlanned(s, c, x, t, b, refs, v);
    } else if IsAnalysis(c.name) {
      ReviewPlanned(env, s, c, x, t, b, refs, v);
    } else {
      GatheredPub(env, s, c, x, t, b, refs);
      hide Prepare;
      GatherFacts(env, s, c, x, t, b);
      GatheredKinds(env, s, c, x, t, b, GatherDocuments(env, s, c, x, t, b).value);
    }
  }

  lemma GatheredKinds(env: Env, s: State, c: Command, x: Execution, t: Transient, b: Batch, v: Verified)
    requires Gathered(env, s, c, x, t, b, v)
    ensures DocKeysOnly(v.pub)
  {
    hide DocOk, DocUsed, DocsDiffer, PrivFrom, DocKeysOnly;
    var docs := Submitted(c, t);
    DocPlanKinds(docs, |docs|, x.tx);
  }

  lemma ProofKinds(s: State, c: Command, x: Execution, b: Batch, refs: Refs, v: Verified)
    requires ProofPlan(s, c, x, b, refs, v)
    ensures forall k :: k in v.pub ==> IsProofKey(k)
  {
  }

  // ----------------------------------------------------- the state afterwards

  /** The batch and its evidence slots. */
  ghost predicate RecordEffect(s: State, s': State, c: Command, x: Execution, st: Start, arm: Arm) {
    && BatchKey(c.batch) in s'.pub && s'.pub[BatchKey(c.batch)] == BatchValue(NewBatch(x, st, arm))
    && RefsKey(c.batch) in s'.pub && s'.pub[RefsKey(c.batch)] == RefsValue(arm.refs)
    && (forall id {:trigger BatchKey(id) in s'.pub} {:trigger s'.pub[BatchKey(id)]} ::
          id != c.batch ==>
            && (BatchKey(id) in s'.pub <==> BatchKey(id) in s.pub)
            && (BatchKey(id) in s.pub ==> s'.pub[BatchKey(id)] == s.pub[BatchKey(id)]))
    && (forall id {:trigger RefsKey(id) in s'.pub} {:trigger s'.pub[RefsKey(id)]} ::
          id != c.batch ==>
            && (RefsKey(id) in s'.pub <==> RefsKey(id) in s.pub)
            && (RefsKey(id) in s.pub ==> s'.pub[RefsKey(id)] == s.pub[RefsKey(id)]))
  }

  /** The receipt, stored under the operation and under the version. */
  ghost predicate ReceiptEffect(s: State, s': State, c: Command, x: Execution, st: Start, arm: Arm) {
    var b, r := NewBatch(x, st, arm), NewReceipt(c, x, st, arm);
    && OperationKey(x.actor, c.op) in s'.pub && s'.pub[OperationKey(x.actor, c.op)] == ReceiptValue(r)
    && HistoryKey(c.batch, b.version) in s'.pub && s'.pub[HistoryKey(c.batch, b.version)] == ReceiptValue(r)
    && (forall a, op {:trigger OperationKey(a, op) in s'.pub} {:trigger s'.pub[OperationKey(a, op)]} ::
          !(a == x.actor && op == c.op) ==>
            (OperationKey(a, op) in s'.pub <==> OperationKey(a, op) in s.pub)
            && (OperationKey(a, op) in s.pub ==> s'.pub[OperationKey(a, op)] == s.pub[OperationKey(a, op)]))
    && (forall id, n {:trigger HistoryKey(id, n) in s'.pub} {:trigger s'.pub[HistoryKey(id, n)]} ::
          !(id == c.batch && n == b.version) ==>
            (HistoryKey(id, n) in s'.pub <==> HistoryKey(id, n) in s.pub)
            && (HistoryKey(id, n) in s.pub ==> s'.pub[HistoryKey(id, n)] == s.pub[HistoryKey(id, n)]))
  }

  /** The owner and state entries: the new ones are there, the replaced ones are gone. */
  ghost predicate IndexEffect(s: State, s': State, x: Execution, st: Start, arm: Arm) {
    var b := NewBatch(x, st, arm);
    && OwnerKey(b.owner, b.id) in s'.pub && s'.pub[OwnerKey(b.owner, b.id)] == IdValue(b.id)
    && StateKey(b.state, b.id) in s'.pub && s'.pub[StateKey(b.state, b.id)] == IdValue(b.id)
    && (forall m, id {:trigger OwnerKey(m, id) in s'.pub} {:trigger s'.pub[OwnerKey(m, id)]} ::
          !(m == b.owner && id == b.id) ==>
          if st.existing && m == st.before.owner && id == b.id then OwnerKey(m, id) !in s'.pub
          else
            && (OwnerKey(m, id) in s'.pub <==> OwnerKey(m, id) in s.pub)
            && (OwnerKey(m, id) in s.pub ==> s'.pub[OwnerKey(m, id)] == s.pub[OwnerKey(m, id)]))
    && (forall l, id {:trigger StateKey(l, id) in s'.pub} {:trigger s'.pub[StateKey(l, id)]} ::
          !(l == b.state && id == b.id) ==>
          if st.existing && l == st.before.state && id == b.id then StateKey(l, id) !in s'.pub
          else
            && (StateKey(l, id) in s'.pub <==> StateKey(l, id) in s.pub)
            && (StateKey(l, id) in s.pub ==> s'.pub[StateKey(l, id)] == s.pub[StateKey(l, id)]))
  }

  ghost predicate ArmEffect(s: State, s': State, arm: Arm) {
    forall k {:trigger k in s'.pub} {:trigger s'.pub[k]} :: IsArmKey(k) ==>
            (k in arm.plan ==> if arm.plan[k].Some? then k in s'.pub && s'.pub[k] == arm.plan[k].value
             else k !in s'.pub)
            && (k !in arm.plan ==> (k in s'.pub <==> k in s.pub) && (k in s.pub ==> s'.pub[k] == s.pub[k]))
  }

  ghost predicate ProofEffect(s: State, s': State, v: Verified) {
    && (forall k {:trigger k in s'.pub} {:trigger s'.pub[k]} :: IsProofKey(k) ==>
            (k in v.pub ==> if v.pub[k].Some? then k in s'.pub && s'.pub[k] == v.pub[k].value else k !in s'.pub)
            && (k !in v.pub ==> (k in s'.pub <==> k in s.pub) && (k in s.pub ==> s'.pub[k] == s.pub[k])))
    && (forall k {:trigger k in s'.pub} {:trigger s'.pub[k]} :: IsConfigKey(k) ==>
            (k in s'.pub <==> k in s.pub) && (k in s.pub ==> s'.pub[k] == s.pub[k]))
    && s'.priv == s.priv + v.priv
  }

  lemma BaseEffectHolds(s: State, c: Command, x: Execution, st: Start, arm: Arm, v: Verified)
    requires forall k :: k in arm.plan ==> IsArmKey(k)
    requires forall k :: k in v.pub ==> IsProofKey(k)
    ensures var s' := After(s, Finish(c, x, st, arm, v));
            && RecordEffect(s, s', c, x, st, arm) && ReceiptEffect(s, s', c, x, st, arm)
            && IndexEffect(s, s', x, st, arm)
  {
    hide NewReceipt, NewBatch, BasePlan, RecordEffect, ReceiptEffect, IndexEffect;
    var s' := After(s, Finish(c, x, st, arm, v));
    forall k | IsBaseKey(k) ensures Planned(s.pub, s'.pub, BasePlan(c, x, st, arm), k) {
    }
    RecordPlanned(s, s', c, x, st, arm);
    ReceiptPlanned(s, s', c, x, st, arm);
    IndexPlanned(s, s', c, x, st, arm);
  }

  ghost predicate BasePlanned(s: State, s': State, c: Command, x: Execution, st: Start, arm: Arm) {
    forall k {:trigger k in s'.pub} {:trigger s'.pub[k]} ::
      IsBaseKey(k) ==> Planned(s.pub, s'.pub, BasePlan(c, x, st, arm), k)
  }

  /** What a plan says of a key: nothing, or what it is to hold. */
  function PlanAt(plan: Plan, k: Key): Option<Option<Value>> {
    if k in plan then Some(plan[k]) else None
  }

  lemma BaseRecords(c: Command, x: Execution, st: Start, arm: Arm)
    ensures var plan := BasePlan(c, x, st, arm);
            && (forall id :: PlanAt(plan, BatchKey(id))
                             == if id == c.batch then Some(Some(BatchValue(NewBatch(x, st, arm)))) else None)
            && forall id :: PlanAt(plan, RefsKey(id))
                            == if id == c.batch then Some(Some(RefsValue(arm.refs))) else None
  {
    hide NewReceipt, NewBatch;
  }

  lemma RecordPlanned(s: State, s': State, c: Command, x: Execution, st: Start, arm: Arm)
    requires BasePlanned(s, s', c, x, st, arm)
    ensures RecordEffect(s, s', c, x, st, arm)
  {
    hide NewReceipt, NewBatch, BasePlan;
    var plan := BasePlan(c, x, st, arm);
    BaseRecords(c, x, st, arm);
    forall id ensures Planned(s.pub, s'.pub, plan, BatchKey(id)) && Planned(s.pub, s'.pub, plan, RefsKey(id)) {
    }
    forall id | id != c.batch ensures Kept(s.pub, s'.pub, BatchKey(id)) && Kept(s.pub, s'.pub, RefsKey(id)) {
      assert PlanAt(plan, BatchKey(id)) == None && PlanAt(plan, RefsKey(id)) == None;
    }
    assert PlanAt(plan, BatchKey(c.batch)).Some? && PlanAt(plan, RefsKey(c.batch)).Some?;
  }

  lemma BaseReceipts(c: Command, x: Execution, st: Start, arm: Arm)
    ensures var plan, receipt := BasePlan(c, x, st, arm), Some(Some(ReceiptValue(NewReceipt(c, x, st, arm))));
            && (forall a, op :: PlanAt(plan, OperationKey(a, op))
                                == if a == x.actor && op == c.op then receipt else None)
            && forall id, n :: PlanAt(plan, HistoryKey(id, n))
                               == if id == c.batch && n == NewBatch(x, st, arm).version then receipt else None
  {
    hide NewReceipt, NewBatch;
  }

  lemma ReceiptPlanned(s: State, s': State, c: Command, x: Execution, st: Start, arm: Arm)
    requires BasePlanned(s, s', c, x, st, arm)
    ensures ReceiptEffect(s, s', c, x, st, arm)
  {
    hide NewReceipt, NewBatch, BasePlan;
    var b, plan := NewBatch(x, st, arm), BasePlan(c, x, st, arm);
    BaseReceipts(c, x, st, arm);
    forall a, op ensures Planned(s.pub, s'.pub, plan, OperationKey(a, op)) {
    }
    forall id, n ensures Planned(s.pub, s'.pub, plan, HistoryKey(id, n)) {
    }
    forall a, op | !(a == x.actor && op == c.op) ensures Kept(s.pub, s'.pub, OperationKey(a, op)) {
      assert PlanAt(plan, OperationKey(a, op)) == None;
    }
    forall id, n | !(id == c.batch && n == b.version) ensures Kept(s.pub, s'.pub, HistoryKey(id, n)) {
      assert PlanAt(plan, HistoryKey(id, n)) == None;
    }
    assert PlanAt(plan, OperationKey(x.actor, c.op)).Some? && PlanAt(plan, HistoryKey(c.batch, b.version)).Some?;
  }

  lemma BaseIndexes(c: Command, x: Execution, st: Start, arm: Arm)
    ensures var plan, b := BasePlan(c, x, st, arm), NewBatch(x, st, arm);
            && (forall m, id :: PlanAt(plan, OwnerKey(m, id))
                                == if m == b.owner && id == b.id then Some(Some(IdValue(b.id)))
                                   else if st.existing && m == st.before.owner && id == b.id then Some(None) else None)
            && forall l, id :: PlanAt(plan, StateKey(l, id))
                               == if l == b.state && id == b.id then Some(Some(IdValue(b.id)))
                                  else if st.existing && l == st.before.state && id == b.id then Some(None) else None
  {
    hide NewReceipt, NewBatch;
  }

  lemma IndexPlanned(s: State, s': State, c: Command, x: Execution, st: Start, arm: Arm)
    requires BasePlanned(s, s', c, x, st, arm)
    ensures IndexEffect(s, s', x, st, arm)
  {
    hide NewReceipt, NewBatch, BasePlan;
    var b, plan := NewBatch(x, st, arm), BasePlan(c, x, st, arm);
    BaseIndexes(c, x, st, arm);
    forall m, id
      ensures if m == b.owner && id == b.id then OwnerKey(m, id) in s'.pub && s'.pub[OwnerKey(m, id)] == IdValue(b.id)
              else if st.existing && m == st.before.owner && id == b.id then OwnerKey(m, id) !in s'.pub
              else Kept(s.pub, s'.pub, OwnerKey(m, id))
    {
      assert Planned(s.pub, s'.pub, plan, OwnerKey(m, id));
      assert PlanAt(plan, OwnerKey(m, id)).Some? <==> OwnerKey(m, id) in plan;
    }
    forall l, id
      ensures if l == b.state && id == b.id then StateKey(l, id) in s'.pub && s'.pub[StateKey(l, id)] == IdValue(b.id)
              else if st.existing && l == st.before.state && id == b.id then StateKey(l, id) !in s'.pub
              else Kept(s.pub, s'.pub, StateKey(l, id))
    {
      assert Planned(s.pub, s'.pub, plan, StateKey(l, id));
      assert PlanAt(plan, StateKey(l, id)).Some? <==> StateKey(l, id) in plan;
    }
  }

  lemma RestEffectHolds(s: State, c: Command, x: Execution, st: Start, arm: Arm, v: Verified)
    requires forall k :: k in arm.plan ==> IsArmKey(k)
    requires forall k :: k in v.pub ==> IsProofKey(k)
    ensures var s' := After(s, Finish(c, x, st, arm, v));
            ArmEffect(s, s', arm) && ProofEffect(s, s', v)
  {
    hide NewReceipt, NewBatch, BasePlan, Commit;
    BasePlanKinds(c, x, st, arm);
    ThreeParts(s, After(s, Finish(c, x, st, arm, v)).pub, arm, BasePlan(c, x, st, arm), v);
  }

  lemma ThreeParts(s: State, pub: map<Key, Value>, arm: Arm, base: Plan, v: Verified)
    requires forall k :: k in arm.plan ==> IsArmKey(k)
    requires forall k :: k in base ==> IsBaseKey(k)
    requires forall k :: k in v.pub ==> IsProofKey(k)
    requires pub == Commit(s.pub, arm.plan + base + v.pub)
    ensures forall k :: IsArmKey(k) ==> Planned(s.pub, pub, arm.plan, k)
    ensures forall k :: IsProofKey(k) ==> Planned(s.pub, pub, v.pub, k)
    ensures forall k :: IsConfigKey(k) ==> Kept(s.pub, pub, k)
  {
    hide Commit;
    var plan := arm.plan + base + v.pub;
    forall k ensures Planned(s.pub, pub, plan, k) {
      CommitAt(s.pub, plan, k);
    }
    forall k | IsArmKey(k) ensures Planned(s.pub, pub, arm.plan, k) {
      assert Planned(s.pub, pub, plan, k);
    }
    forall k | IsProofKey(k) ensures Planned(s.pub, pub, v.pub, k) {
      assert Planned(s.pub, pub, plan, k);
    }
    forall k | IsConfigKey(k) ensures Kept(s.pub, pub, k) {
      assert Planned(s.pub, pub, plan, k);
    }
  }

  lemma CommitAt(pub: map<Key, Value>, plan: Plan, k: Key)
    ensures Planned(pub, Commit(pub, plan), plan, k)
  {
  }

  lemma BasePlanKinds(c: Command, x: Execution, st: Start, arm: Arm)
    ensures forall k :: k in BasePlan(c, x, st, arm) ==> IsBaseKey(k)
  {
    hide NewReceipt;
  }
}
