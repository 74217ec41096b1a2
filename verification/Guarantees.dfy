/** What a reader of the ledger may rely on, whatever requests were served before. */
module Guarantees {
  import opened Types
  import opened Price
  import opened Evidence
  import opened Engine
  import opened Ordering
  import opened Invariants
  import opened Preserve
  import opened Provenance
  import opened Runs

  // ==========================================================================
  // What a ledger never loses: receipts, references, private records and a batch's identity.

  // ------------------------------------------------------------ the relation

  /** Fields no command changes, and fields that only move forward. */
  predicate SameIdentity(b: Batch, n: Batch) {
    && n.id == b.id && n.product == b.product && n.grade == b.grade && n.quantity == b.quantity
    && n.region == b.region && n.harvest == b.harvest
    && n.producer == b.producer && n.logistics == b.logistics && n.retailer == b.retailer && n.createdTx == b.createdTx
    && (b.lot != NO_ID ==> n.lot == b.lot)
    && Rank(b.state) <= Rank(n.state)
  }

  predicate SlotKept(was: Id, now: Id) {
    was != NO_ID ==> now == was
  }

  /** Evidence slots are written once. */
  predicate SlotsGrow(r: Refs, n: Refs) {
    && n.batch == r.batch
    && SlotKept(r.cks, n.cks) && SlotKept(r.purchase, n.purchase) && SlotKept(r.hks, n.hks)
    && SlotKept(r.transport, n.transport) && SlotKept(r.freight, n.freight) && SlotKept(r.report, n.report)
  }

  /** A private record is as it was, or an anomaly record with another review state and salt. */
  predicate SameRecord(w: PrivValue, n: PrivValue) {
    if w.AnomalyValue? then
      && n.AnomalyValue?
      && n.anomaly == w.anomaly.(review := n.anomaly.review, salt := n.anomaly.salt)
      && ReviewSteps(w.anomaly.review) <= ReviewSteps(n.anomaly.review)
    else n == w
  }

  ghost predicate Lasting(k: Key) {
    IsWriteOnce(k) || k.OperationKey? || k.HistoryKey? || IsConfigKey(k)
  }

  ghost predicate KeysLast(s: State, s': State) {
    forall k {:trigger k in s'.pub} {:trigger k in s.pub} ::
      Lasting(k) && k in s.pub ==> k in s'.pub && s'.pub[k] == s.pub[k]
  }

  ghost predicate BatchesLast(s: State, s': State) {
    forall id {:trigger BatchKey(id) in s'.pub} {:trigger BatchKey(id) in s.pub} :: BatchKey(id) in s.pub ==>
      && BatchKey(id) in s'.pub
      && SameIdentity(BatchAt(s, id), BatchAt(s', id)) && SlotsGrow(RefsAt(s, id), RefsAt(s', id))
      && BatchAt(s, id).version <= BatchAt(s', id).version
  }

  ghost predicate RecordsLast(s: State, s': State) {
    forall q {:trigger q in s'.priv} {:trigger q in s.priv} ::
      q in s.priv ==> q in s'.priv && SameRecord(s.priv[q], s'.priv[q])
  }

  /** Everything the later state still holds of the earlier one. */
  ghost predicate Extends(s: State, s': State) {
    KeysLast(s, s') && BatchesLast(s, s') && RecordsLast(s, s') && s.events <= s'.events
  }

  lemma ExtendsItself(s: State)
    ensures Extends(s, s)
  {
    hide BatchAt, RefsAt, Lasting;
  }

  lemma ExtendsOn(s: State, s1: State, s2: State)
    requires Extends(s, s1) && Extends(s1, s2)
    ensures Extends(s, s2)
  {
    hide KeysLast, BatchesLast, RecordsLast;
    KeysOn(s, s1, s2);
    BatchesOn(s, s1, s2);
    RecordsOn(s, s1, s2);
  }

  lemma KeysOn(s: State, s1: State, s2: State)
    requires KeysLast(s, s1) && KeysLast(s1, s2)
    ensures KeysLast(s, s2)
  {
    hide Lasting;
    forall k | Lasting(k) && k in s.pub ensures k in s2.pub && s2.pub[k] == s.pub[k] {
      assert k in s1.pub;
    }
  }

  lemma BatchesOn(s: State, s1: State, s2: State)
    requires BatchesLast(s, s1) && BatchesLast(s1, s2)
    ensures BatchesLast(s, s2)
  {
    hide BatchAt, RefsAt;
    forall id | BatchKey(id) in s.pub
      ensures BatchKey(id) in s2.pub && SameIdentity(BatchAt(s, id), BatchAt(s2, id))
              && SlotsGrow(RefsAt(s, id), RefsAt(s2, id))
              && BatchAt(s, id).version <= BatchAt(s2, id).version
    {
      assert BatchKey(id) in s1.pub;
    }
  }

  lemma RecordsOn(s: State, s1: State, s2: State)
    requires RecordsLast(s, s1) && RecordsLast(s1, s2)
    ensures RecordsLast(s, s2)
  {
    forall q | q in s.priv ensures q in s2.priv && SameRecord(s.priv[q], s2.priv[q]) {
      assert q in s1.priv;
    }
  }

  // ------------------------------------------------------------- one command

  lemma OfferIdentity(s: State, c: Command, x: Execution, st: Start, v: Verified, arm: Arm)
    requires IsOffer(c.name) && OfferArm(s, c, x, st, v) == Ok(arm) && LifecycleOk(c.batch, st.before, st.refs)
    ensures SameIdentity(st.before, arm.b) && SlotsGrow(st.refs, arm.refs)
  {
    hide PickupDocuments, ValidId;
    if c.name.OfferPickup? {
      PickupNotEmpty(s, c, st, v);
    }
  }

  lemma ArmIdentity(s: State, c: Command, x: Execution, st: Start, v: Verified, arm: Arm)
    requires Admitted(s, c, x, st) && RunArm(s, c, x, st, v) == Ok(arm) && st.existing
    requires LifecycleOk(c.batch, st.before, st.refs)
    ensures SameIdentity(st.before, arm.b) && SlotsGrow(st.refs, arm.refs)
  {
    hide OfferArm, ValidId, ValidPurchase, PayloadFits, CreateArm;
    if IsOffer(c.name) {
      OfferIdentity(s, c, x, st, v, arm);
    }
  }

  lemma StepKeys(s: State, s': State, c: Command, x: Execution, st: Start, v: Verified, arm: Arm, version: int)
    requires Permanent(s, s') && ProofEffect(s, s', v) && ReceiptsGrow(s, s', c, x, st.before.version + 1)
    requires ReceiptEffect(s, s', c, x, st, arm) && History(s)
    requires if st.existing then Started(s, c, st) else BatchKey(c.batch) !in s.pub
    ensures KeysLast(s, s')
  {
    hide NewReceipt, LifecycleOk, BatchAt, RefsAt;
    forall k | Lasting(k) && k in s.pub ensures k in s'.pub && s'.pub[k] == s.pub[k] {
      match k
      case OperationKey(a, op) => assert OperationKey(a, op) in s'.pub;
      case HistoryKey(id, n) => assert NewBatch(x, st, arm).version == st.before.version + 1;
      case _ =>
    }
  }

  lemma StepBatches(s: State, s': State, c: Command, x: Execution, st: Start, v: Verified, arm: Arm)
    requires Admitted(s, c, x, st) && RunArm(s, c, x, st, v) == Ok(arm)
    requires Getters(s, s', c.batch, NewBatch(x, st, arm), arm.refs)
    requires if st.existing then Started(s, c, st) else BatchKey(c.batch) !in s.pub
    ensures BatchesLast(s, s')
  {
    hide RunArm, Admitted, BatchAt, RefsAt, LifecycleOk;
    if st.existing {
      ArmIdentity(s, c, x, st, v, arm);
    }
  }

  lemma StepRecords(s: State, s': State, c: Command, x: Execution, st: Start, v: Verified)
    requires Sealed(s, s', c) && ProofEffect(s, s', v) && AnalysisWrites(s, c, st.before, st.refs, v)
    requires IsReview(c.name) <==> c.payload.ReviewTarget?
    ensures RecordsLast(s, s')
  {
    hide EvaluateWrites;
    forall q | q in s.priv ensures q in s'.priv && SameRecord(s.priv[q], s'.priv[q]) {
      if q.AnomalyKey? && c.payload.ReviewTarget? && q.anomaly == c.payload.anomaly {
        assert s'.priv[q] == v.priv[q];
      }
    }
  }

  lemma StepExtends(env: Env, s: State, c: Command, x: Execution, t: Transient)
    requires Inv(s)
    ensures Extends(s, Step(env, s, c, x, t))
  {
    hide Apply, After, Extends, Inv, Moved, Guards, KeysLast, BatchesLast, RecordsLast, Finish;
    var s' := Step(env, s, c, x, t);
    if Apply(env, s, c, x, t).Ok? {
      var st, v, arm := MovedBy(env, s, c, x, t);
      GuardsHold(env, s, s', c, x, t, st, v, arm);
      MovedExtends(env, s, s', c, x, t, st, v, arm);
      EventsGrow(s, Apply(env, s, c, x, t).value);
      Joined(s, s');
    } else {
      ExtendsItself(s);
    }
  }

  lemma EventsGrow(s: State, o: Outcome)
    ensures s.events <= After(s, o).events
  {
  }

  lemma Joined(s: State, s': State)
    requires KeysLast(s, s') && BatchesLast(s, s') && RecordsLast(s, s') && s.events <= s'.events
    ensures Extends(s, s')
  {
    hide KeysLast, BatchesLast, RecordsLast;
  }

  lemma MovedExtends(env: Env, s: State, s': State, c: Command, x: Execution, t: Transient, st: Start, v: Verified,
                     arm: Arm)
    requires Inv(s) && Moved(env, s, s', c, x, t, st, v, arm) && Guards(env, s, s', c, x, t, st, v, arm)
    ensures KeysLast(s, s') && BatchesLast(s, s') && RecordsLast(s, s')
  {
    hide Admit, Prepare, RunArm, Admitted, ProofPlan, RecordEffect, ReceiptEffect, IndexEffect, ArmEffect, ProofEffect;
    hide Configured, Records, Indexed, History, Transfers, References, Evaluations, Consumed, Slots, Analysed,
         Versioned, Privates;
    hide Fresh, Permanent, Sealed, PrivPlan, ReferencePlan, AnalysisWrites, ReceiptsGrow, Getters, NewBatch, Started;
    hide KeysLast, BatchesLast, RecordsLast, IsReview, RequiredCaller;
    StepKeys(s, s', c, x, st, v, arm, st.before.version + 1);
    StepBatches(s, s', c, x, st, v, arm);
    StepRecords(s, s', c, x, st, v);
  }

  lemma ConfigureExtends(s: State, actor: Msp, role: Role, cfg: Configuration)
    requires Inv(s) && Bootstrap(s, actor, role, cfg).Ok?
    ensures Extends(s, Bootstrapped(s, actor, role, cfg))
  {
    hide Inv, SourcesOk, SourcePlan, ValidId;
    BlankBefore(s);
    BootstrapFresh(s, actor, role, cfg, Bootstrap(s, actor, role, cfg).value);
  }

  /** Without a configuration there are no sources and policies either. */
  lemma BootstrapFresh(s: State, actor: Msp, role: Role, cfg: Configuration, plan: Plan)
    requires Inv(s) && Bootstrap(s, actor, role, cfg) == Ok(plan)
    ensures forall k :: k in s.pub ==> k !in plan
  {
    SourcePlanKinds(cfg.sources);
    hide SourcesOk, ValidId, SourcePlan;
    hide Records, Indexed, History, Transfers, References, Evaluations, Consumed, Slots, Analysed, Versioned, Privates;
    forall i, n ensures SourceKeyKey(i, n) !in s.pub && PolicyKey(cfg.policy) !in s.pub {
    }
  }

  lemma ServeExtends(env: Env, s: State, r: Request)
    requires Inv(s)
    ensures Extends(s, Serve(env, s, r))
  {
    hide Inv, Step, Bootstrap, Commit, Extends;
    match r
    case Configure(actor, role, config) =>
      if Bootstrap(s, actor, role, config).Ok? {
        ConfigureExtends(s, actor, role, config);
      } else {
        ExtendsItself(s);
      }
    case Invoke(c, x, t) => StepExtends(env, s, c, x, t);
  }

  // ==========================================================================
  // What a reader of the ledger may rely on, whatever requests were served before.

  // ------------------------------------------------------------- permanence

  /** Whatever is served later, the ledger keeps its receipts, references, records and batch identities. */
  lemma {:induction false} RunExtends(env: Env, rs: seq<Request>, more: seq<Request>)
    ensures Extends(Run(env, rs), Run(env, rs + more))
  {
    hide Inv, Extends, Serve;
    if more == [] {
      assert rs + more == rs;
      ExtendsItself(Run(env, rs));
    } else {
      var n := |more| - 1;
      assert (rs + more)[..|rs + more| - 1] == rs + more[..n];
      RunExtends(env, rs, more[..n]);
      RunInv(env, rs + more[..n]);
      ServeExtends(env, Run(env, rs + more[..n]), more[n]);
      ExtendsOn(Run(env, rs), Run(env, rs + more[..n]), Run(env, rs + more));
    }
  }

  /** The checks of a command that do not look at the ledger. */
  predicate WellPosed(env: Env, c: Command, x: Execution) {
    && Authorize(x.actor, x.role, c.name).Ok?
    && ValidId(c.batch, "BAT") && ValidId(c.op, "OP")
    && 0 <= c.expected <= MAX_VERSION
    && ValidatePayload(env, c).Ok?
    && ContextOk(x)
  }

  /** Who may call a command: one organization, in one role. */
  predicate CalledBy(name: CommandName, actor: Msp, role: Role) {
    match name
    case CreateBatch | OfferPickup => actor == Producer && role == ProducerRole
    case AcceptPickup | RecordFreightCost | OfferDelivery => actor == Logistics && role == CarrierRole
    case AcceptDelivery | ReportRetailPrice => actor == Retailer && role == RetailerRole
    case EvaluatePrice => actor == Regulator && role == OracleRole
    case OpenReview | ResolveReview => actor == Regulator && role == ReviewerRole
  }

  /** A region code is a number from 1 to 81 in two digits, or one digit after a plus sign. */
  predicate RegionNumber(region: string, n: int) {
    1 <= n <= 81
    && (region == [('0' as int + n / 10) as char, ('0' as int + n % 10) as char]
        || (n <= 9 && region == ['+', ('0' as int + n) as char]))
  }

  /** The payloads of a command that the chaincode admits. */
  ghost predicate PayloadProper(env: Env, name: CommandName, payload: Payload) {
    match (name, payload)
    case (CreateBatch, CreateInput(product, grade, quantity, region, harvest, logistics, retailer)) =>
      && product == "TOMATO" && grade == "STANDARD" && 1 <= quantity <= 100_000_000
      && (exists n :: RegionNumber(region, n)) && env.date(harvest) && logistics == Logistics && retailer == Retailer
    case (RecordFreightCost, FreightInput(cost)) => ValidId(cost, "CST")
    case (ReportRetailPrice, ReportInput(report, lot, policy)) =>
      ValidId(report, "RPT") && ValidId(lot, "LOT") && ValidId(policy, "CFG")
    case (EvaluatePrice, EvaluateInput(anomaly, report)) => ValidId(anomaly, "ANM") && ValidId(report, "RPT")
    case (OpenReview, ReviewTarget(anomaly)) => ValidId(anomaly, "ANM")
    case (ResolveReview, ReviewTarget(anomaly)) => ValidId(anomaly, "ANM")
    case (_, HandoffInput(transfer, quantity)) =>
      && name in {OfferPickup, AcceptPickup, OfferDelivery, AcceptDelivery}
      && ValidId(transfer, "TRF") && 1 <= quantity <= 100_000_000
    case _ => false
  }

  lemma RegionIff(region: string)
    ensures RegionOk(region) <==> exists n :: RegionNumber(region, n)
  {
    if RegionOk(region) {
      var tens := if region[0] == '+' then 0 else region[0] as int - '0' as int;
      var n := 10 * tens + (region[1] as int - '0' as int);
      assert n / 10 == tens && n % 10 == region[1] as int - '0' as int;
      assert RegionNumber(region, n);
    }
    if n :| RegionNumber(region, n) {
      assert 0 <= n / 10 <= 8 && 0 <= n % 10 <= 9;
    }
  }

  lemma PayloadIff(env: Env, c: Command)
    ensures ValidatePayload(env, c).Ok? <==> PayloadProper(env, c.name, c.payload)
  {
    hide ValidId, RegionOk, RegionNumber;
    if c.payload.CreateInput? {
      RegionIff(c.payload.region);
    }
  }

  lemma CallerIff(actor: Msp, role: Role, name: CommandName)
    ensures Authorize(actor, role, name).Ok? <==> CalledBy(name, actor, role)
  {
  }

  /** Exactly the commands that pass every check made without the ledger. */
  lemma WellPosedIff(env: Env, c: Command, x: Execution)
    ensures WellPosed(env, c, x) <==>
              && CalledBy(c.name, x.actor, x.role) && PayloadProper(env, c.name, c.payload)
              && ValidId(c.batch, "BAT") && ValidId(c.op, "OP") && 0 <= c.expected <= 2147483647
              && HexId(x.tx) && 0 <= x.time.seconds < 0x8000_0000_0000_0000 && 0 <= x.time.nanos <= 999_999_999
  {
    hide ValidId, HexId, CalledBy, PayloadProper, Authorize, ValidatePayload;
    CallerIff(x.actor, x.role, c.name);
    PayloadIff(env, c);
  }

  lemma ReplayIn(env: Env, s: State, c: Command, x: Execution, t: Transient)
    requires WellPosed(env, c, x) && LoadConfig(s).Ok? && OperationKey(x.actor, c.op) in s.pub
    ensures Apply(env, s, c, x, t) == Err(DuplicateTransaction)
  {
    hide ValidId, Authorize, ValidatePayload, ContextOk, LoadConfig, LoadStart, Prepare, RunArm, Finish;
  }

  lemma ConfiguredIn(s: State, a: Msp, op: Id)
    requires Configured(s) && History(s) && OperationKey(a, op) in s.pub
    ensures LoadConfig(s).Ok?
  {
    var r := s.pub[OperationKey(a, op)].receipt;
    assert HistoryKey(r.batch, r.version) in s.pub;
    assert BatchKey(r.batch) in s.pub;
  }

  /**
   * Replay is refused for ever: once an actor's operation was accepted, every
   * well-posed command of that actor under the same operation id is a duplicate,
   * whatever the command, its batch, role, transaction and inputs are.
   */
  lemma ReplayRefused(env: Env, rs: seq<Request>, more: seq<Request>, c: Command, x: Execution, t: Transient,
                      c2: Command, x2: Execution, t2: Transient)
    requires Apply(env, Run(env, rs), c, x, t).Ok?
    requires x2.actor == x.actor && c2.op == c.op && WellPosed(env, c2, x2)
    ensures Apply(env, Run(env, rs + [Invoke(c, x, t)] + more), c2, x2, t2) == Err(DuplicateTransaction)
  {
    hide Apply, WellPosed, Inv, Extends, Step, Moved;
    var served := rs + [Invoke(c, x, t)];
    assert served[..|served| - 1] == rs;
    var s, s1, s2 := Run(env, rs), Run(env, served), Run(env, served + more);
    assert s1 == Step(env, s, c, x, t);
    var st, v, arm := MovedBy(env, s, c, x, t);
    ReceiptStored(env, s, s1, c, x, t, st, v, arm);
    RunExtends(env, served, more);
    OperationLasts(s1, s2, x.actor, c.op);
    RunInv(env, served + more);
    ConfiguredInv(s2, x.actor, c.op);
    ReplayIn(env, s2, c2, x2, t2);
  }

  lemma ReceiptStored(env: Env, s: State, s': State, c: Command, x: Execution, t: Transient, st: Start, v: Verified,
                      arm: Arm)
    requires Moved(env, s, s', c, x, t, st, v, arm)
    ensures OperationKey(x.actor, c.op) in s'.pub
  {
    hide Accepts, Admitted, ProofPlan, RecordEffect, IndexEffect, ArmEffect, ProofEffect;
  }

  lemma OperationLasts(s: State, s': State, a: Msp, op: Id)
    requires Extends(s, s') && OperationKey(a, op) in s.pub
    ensures OperationKey(a, op) in s'.pub && s'.pub[OperationKey(a, op)] == s.pub[OperationKey(a, op)]
  {
    hide BatchesLast, RecordsLast;
  }

  lemma ConfiguredInv(s: State, a: Msp, op: Id)
    requires Inv(s) && OperationKey(a, op) in s.pub
    ensures LoadConfig(s).Ok?
  {
    hide Configured, History, LoadConfig;
    ConfiguredIn(s, a, op);
  }

  // ---------------------------------------------------------------- versions

  /** The commands accepted for one batch. */
  function AcceptedOn(env: Env, rs: seq<Request>, id: Id): nat {
    if rs == [] then 0
    else
      var before, last := rs[..|rs| - 1], rs[|rs| - 1];
      AcceptedOn(env, before, id) + Advances(env, Run(env, before), last, id)
  }

  /** One, if the request is an accepted command for this batch. */
  function Advances(env: Env, s: State, r: Request, id: Id): int {
    match r
    case Configure(_, _, _) => 0
    case Invoke(c, x, t) => if c.batch == id && Apply(env, s, c, x, t).Ok? then 1 else 0
  }

  /** The version of a batch; zero before it exists. */
  function VersionAt(s: State, id: Id): int {
    if BatchKey(id) in s.pub then BatchAt(s, id).version else 0
  }

  lemma VersionStep(env: Env, s: State, c: Command, x: Execution, t: Transient, id: Id)
    requires Inv(s) && Apply(env, s, c, x, t).Ok?
    ensures VersionAt(Step(env, s, c, x, t), id) == VersionAt(s, id) + (if c.batch == id then 1 else 0)
  {
    hide Apply, After, Moved, Inv, Step;
    hide Fresh, Permanent, Sealed, PrivPlan, ReferencePlan, AnalysisWrites, ReceiptsGrow, NewBatch, LifecycleOk;
    hide BatchAt, RefsAt, IsReview, RequiredCaller;
    var s' := Step(env, s, c, x, t);
    var st, v, arm := MovedBy(env, s, c, x, t);
    GuardsHold(env, s, s', c, x, t, st, v, arm);
    NewBatchFields(c, x, st, arm);
  }

  lemma ConfigureVersion(s: State, actor: Msp, role: Role, cfg: Configuration, plan: Plan, id: Id)
    requires Bootstrap(s, actor, role, cfg) == Ok(plan)
    ensures VersionAt(State(Commit(s.pub, plan), s.priv, s.events), id) == VersionAt(s, id)
  {
    SourcePlanKinds(cfg.sources);
    hide SourcesOk, ValidId;
  }

  lemma VersionSteps(env: Env, s: State, r: Request, id: Id)
    requires Inv(s)
    ensures VersionAt(Serve(env, s, r), id) == VersionAt(s, id) + Advances(env, s, r, id)
  {
    hide Inv, Bootstrap, Commit, Apply, VersionAt;
    match r
    case Configure(actor, role, config) =>
      if Bootstrap(s, actor, role, config).Ok? {
        ConfigureVersion(s, actor, role, config, Bootstrap(s, actor, role, config).value, id);
      }
    case Invoke(c, x, t) =>
      if Apply(env, s, c, x, t).Ok? {
        VersionStep(env, s, c, x, t, id);
      }
  }

  /** The version of a batch is the number of commands ever accepted for it, and there are at most ten. */
  lemma {:induction false} TenCommands(env: Env, rs: seq<Request>, id: Id)
    ensures AcceptedOn(env, rs, id) == VersionAt(Run(env, rs), id)
    ensures AcceptedOn(env, rs, id) <= 10
  {
    hide Inv, Serve, VersionAt, Apply;
    if rs == [] {
      NothingYet(id);
    } else {
      var before := rs[..|rs| - 1];
      TenCommands(env, before, id);
      RunInv(env, before);
      VersionSteps(env, Run(env, before), rs[|rs| - 1], id);
    }
    RunInv(env, rs);
    VersionBounds(Run(env, rs), id);
  }

  lemma NothingYet(id: Id)
    ensures VersionAt(EMPTY_STATE, id) == 0
  {
  }

  /**
   * The exact version law gives the bounds: at most ten, seven for a reported
   * batch that is not evaluated, and never the value at which a command would overflow.
   */
  lemma VersionBounds(s: State, id: Id)
    requires Inv(s)
    ensures 0 <= VersionAt(s, id) <= 10 < MAX_VERSION
    ensures BatchKey(id) in s.pub && BatchAt(s, id).state.RetailReported? && EvaluationKey(id) !in s.pub ==>
              VersionAt(s, id) == 7
  {
    hide Configured, Indexed, History, Transfers, References, Evaluations, Consumed, Slots, Analysed, Privates;
    if BatchKey(id) in s.pub {
      assert RecordOk(s, id);
      StepsBound(s, id);
      hide AnalysisSteps;
    }
  }

  lemma StepsBound(s: State, id: Id)
    ensures 0 <= AnalysisSteps(s, id) <= 3 && (EvaluationKey(id) !in s.pub ==> AnalysisSteps(s, id) == 0)
  {
    hide LoadAnomaly;
  }

  // -------------------------------------------------------------- transfers

  /** Two OFFERED transfers of one batch are one transfer. */
  ghost predicate OffersAlike(s: State, t1: Id, t2: Id) {
    && (TransferKey(t1) in s.pub ==> s.pub[TransferKey(t1)].TransferValue?)
    && (TransferKey(t2) in s.pub ==> s.pub[TransferKey(t2)].TransferValue?)
    && (TransferKey(t1) in s.pub && TransferKey(t2) in s.pub ==>
          var a, b := s.pub[TransferKey(t1)].transfer, s.pub[TransferKey(t2)].transfer;
          a.status.Offered? && b.status.Offered? && a.batch == b.batch ==> t1 == t2)
  }

  /** A batch has at most one OFFERED transfer, and it has one exactly while it waits for a recipient. */
  lemma OneOffer(env: Env, rs: seq<Request>, t1: Id, t2: Id)
    ensures OffersAlike(Run(env, rs), t1, t2)
  {
    hide Configured, Records, Indexed, History, References, Evaluations, Consumed, Slots, Analysed, Privates, Versioned,
         Run;
    var s := Run(env, rs);
    RunInv(env, rs);
  }

  lemma OfferIff(env: Env, rs: seq<Request>, id: Id)
    ensures var s := Run(env, rs);
            BatchKey(id) in s.pub ==>
              (Pending(BatchAt(s, id).state) <==> exists t :: OfferedFor(s, t, id))
  {
    var s := Run(env, rs);
    RunInv(env, rs);
    hide Configured, Indexed, History, References, Evaluations, Consumed, Slots, Analysed, Privates, Versioned, Run;
    if BatchKey(id) in s.pub {
      assert RecordOk(s, id);
      assert BatchAt(s, id).custodian == CustodianIn(BatchAt(s, id).state);
    }
    hide Records;
    if BatchKey(id) in s.pub && Pending(BatchAt(s, id).state) {
      assert PendingKey(id) in s.pub;
      var t := s.pub[PendingKey(id)].id;
      assert TransferKey(t) in s.pub && TransferOk(s, t);
      assert OfferedFor(s, t, id);
    } else if BatchKey(id) in s.pub {
      forall t ensures !OfferedFor(s, t, id) {
        assert TransferKey(t) in s.pub ==> TransferOk(s, t);
        assert PendingKey(id) !in s.pub;
      }
    }
  }

  /** An OFFERED transfer of the batch, with the batch's quantity, along the custody route of its state. */
  ghost predicate OfferedFor(s: State, t: Id, id: Id) {
    && TransferKey(t) in s.pub && s.pub[TransferKey(t)].TransferValue?
    && var r := s.pub[TransferKey(t)].transfer;
       && r.status.Offered? && r.batch == id && r.quantity == BatchAt(s, id).quantity
       && r.from == BatchAt(s, id).custodian
       && (BatchAt(s, id).state.PickupPending? ==> r.kind.Pickup? && r.to == Logistics)
       && (BatchAt(s, id).state.DeliveryPending? ==> r.kind.Delivery? && r.to == Retailer)
  }

  /** An ACCEPTED transfer has the receipts of its offer and of its acceptance, of two parties and in this order. */
  ghost predicate TwiceReceipted(s: State, id: Id) {
    TransferKey(id) in s.pub && s.pub[TransferKey(id)].TransferValue?
      && s.pub[TransferKey(id)].transfer.status.Accepted? ==>
      var t := s.pub[TransferKey(id)].transfer;
      && t.from != t.to
      && OperationKey(t.from, t.offerOp) in s.pub && s.pub[OperationKey(t.from, t.offerOp)].ReceiptValue?
      && OperationKey(t.to, t.acceptOp) in s.pub && s.pub[OperationKey(t.to, t.acceptOp)].ReceiptValue?
      && var o, a := s.pub[OperationKey(t.from, t.offerOp)].receipt,
         s.pub[OperationKey(t.to, t.acceptOp)].receipt;
         && o.batch == t.batch == a.batch && o.actor == t.from && a.actor == t.to
         && o.tx == t.offeredTx && a.tx == t.acceptedTx && o.version < a.version
  }

  /** An accepted transfer was offered and accepted by two parties, under two receipts, in that order. */
  lemma TwoReceipts(env: Env, rs: seq<Request>, id: Id)
    ensures TwiceReceipted(Run(env, rs), id)
  {
    hide Configured, Records, Indexed, References, Evaluations, Consumed, Slots, Analysed, Privates, Versioned, Run;
    var s := Run(env, rs);
    RunInv(env, rs);
    if TransferKey(id) in s.pub {
      assert TransferOk(s, id);
    }
  }

  // ------------------------------------------------------- indexes, references

  /** The owner and state entries are exactly the batches with that owner and state. */
  lemma IndexesExact(env: Env, rs: seq<Request>, m: Msp, l: Lifecycle, id: Id)
    ensures var s := Run(env, rs);
            && (OwnerKey(m, id) in s.pub <==> BatchKey(id) in s.pub && BatchAt(s, id).owner == m)
            && (StateKey(l, id) in s.pub <==> BatchKey(id) in s.pub && BatchAt(s, id).state == l)
  {
    RunInv(env, rs);
    hide Configured, Records, Transfers, History, References, Evaluations, Consumed, Slots, Analysed, Privates,
         Versioned, Run, BatchAt;
  }

  /** The n-th history entry is there exactly up to the version, and holds the receipt of its operation key. */
  ghost predicate HistoryAt(s: State, id: Id, n: int) {
    && (HistoryKey(id, n) in s.pub <==> BatchKey(id) in s.pub && 1 <= n <= BatchAt(s, id).version)
    && (HistoryKey(id, n) in s.pub ==>
          && s.pub[HistoryKey(id, n)].ReceiptValue?
          && var r := s.pub[HistoryKey(id, n)].receipt;
             r.batch == id && r.version == n && OperationKey(r.actor, r.op) in s.pub
             && s.pub[OperationKey(r.actor, r.op)] == ReceiptValue(r))
  }

  /** The history of a batch is its versions 1 to v, and a receipt has one home under each of its two keys. */
  lemma HistoryComplete(env: Env, rs: seq<Request>, id: Id, n: int)
    ensures HistoryAt(Run(env, rs), id, n)
  {
    RunInv(env, rs);
    hide Configured, Records, Transfers, Indexed, References, Evaluations, Consumed, Slots, Analysed, Privates,
         Versioned, Run, BatchAt;
  }

  /** The references under k lead to this batch exactly when its fields name k. */
  ghost predicate LeadBack(s: State, k: Id, id: Id) {
    && (CostRefKey(k) in s.pub && s.pub[CostRefKey(k)] == IdValue(id)
        <==> BatchKey(id) in s.pub && RefsAt(s, id).freight == k)
    && (ReportRefKey(k) in s.pub && s.pub[ReportRefKey(k)] == IdValue(id)
        <==> BatchKey(id) in s.pub && RefsAt(s, id).report == k)
    && (LotKey(k) in s.pub && s.pub[LotKey(k)].LotValue? && s.pub[LotKey(k)].lot.batch == id
        <==> BatchKey(id) in s.pub && BatchAt(s, id).lot == k)
    && (AnomalyRefKey(k) in s.pub && s.pub[AnomalyRefKey(k)].EvaluationValue?
        && s.pub[AnomalyRefKey(k)].evaluation.batch == id <==>
          && EvaluationKey(id) in s.pub && s.pub[EvaluationKey(id)].EvaluationValue?
          && s.pub[EvaluationKey(id)].evaluation.anomaly == k)
  }

  /** Lot, cost, report and anomaly references are the inverses of the fields that name them. */
  lemma ReferencesInverse(env: Env, rs: seq<Request>, k: Id, id: Id)
    requires k != NO_ID
    ensures LeadBack(Run(env, rs), k, id)
  {
    hide Configured, Records, Transfers, Indexed, History, Consumed, Slots, Analysed, Privates, Versioned, Run;
    hide BatchAt, RefsAt;
    RunInv(env, rs);
    var s := Run(env, rs);
    if BatchKey(id) in s.pub {
      assert ReferencesOf(s, id);
    }
  }

  /** The grams of the batch are those of everything that refers to it. */
  ghost predicate SameGrams(s: State, id: Id, tid: Id) {
    BatchKey(id) in s.pub ==>
      var b, r := BatchAt(s, id), RefsAt(s, id);
      && 1 <= b.quantity <= 100_000_000
      && (b.lot != NO_ID ==>
            && LotKey(b.lot) in s.pub && s.pub[LotKey(b.lot)].LotValue?
            && s.pub[LotKey(b.lot)].lot.quantity == b.quantity)
      && (TransferKey(tid) in s.pub && s.pub[TransferKey(tid)].TransferValue?
          && s.pub[TransferKey(tid)].transfer.batch == id ==>
            s.pub[TransferKey(tid)].transfer.quantity == b.quantity)
      && (r.purchase != NO_ID ==> PurchaseStored(s, r.purchase, b.quantity))
      && (r.freight != NO_ID ==> CostStored(s, r.freight, id, b.quantity))
      && (r.report != NO_ID ==> ReportStored(s, r.report, b, r))
  }

  /** A batch's grams are its lot's, its transfer's, its purchase's, its freight's and its report's. */
  lemma GramsConserved(env: Env, rs: seq<Request>, id: Id, tid: Id)
    ensures SameGrams(Run(env, rs), id, tid)
  {
    hide Configured, Indexed, History, Consumed, Slots, Analysed, Versioned, Run, Evaluations, PurchaseStored,
         CostStored, ReportStored, Guarded;
    RunInv(env, rs);
    var s := Run(env, rs);
    if BatchKey(id) in s.pub {
      assert RecordOk(s, id) && ReferencesOf(s, id) && Opened(s, id);
      hide BatchAt, RefsAt;
    }
  }

  /** The stored purchase of the batch pays price times grams. */
  ghost predicate PaysExactly(s: State, id: Id) {
    BatchKey(id) in s.pub && RefsAt(s, id).purchase != NO_ID ==>
      && LoadPurchase(s, RefsAt(s, id).purchase).Ok?
      && var p := LoadPurchase(s, RefsAt(s, id).purchase).value;
         p.PurchaseBody? && p.price * BatchAt(s, id).quantity == p.total * 1000
         && Fits64(p.price * p.quantity) && Fits64(p.total * 1000)
  }

  /** Money: a stored purchase pays exactly price times grams, and both products fit 64 bits. */
  lemma PurchaseConserved(env: Env, rs: seq<Request>, id: Id)
    ensures PaysExactly(Run(env, rs), id)
  {
    GramsConserved(env, rs, id, NO_ID);
    var s := Run(env, rs);
    hide Run, BatchAt, RefsAt, CostStored, ReportStored, LoadPurchase;
    if BatchKey(id) in s.pub && RefsAt(s, id).purchase != NO_ID {
      var p := LoadPurchase(s, RefsAt(s, id).purchase).value;
      PurchaseFits(p, BatchAt(s, id).quantity);
    }
  }

  lemma PurchaseFits(p: Body, quantity: int)
    requires PurchaseOk(p, quantity) && 0 < quantity <= 100_000_000
    ensures p.price * quantity == p.total * 1000 && Fits64(p.price * p.quantity) && Fits64(p.total * 1000)
  {
    MulRange(p.price, p.quantity, 1_000_000_000, 100_000_000);
  }

  // ---------------------------------------------------------------- evidence

  /** Stored documents under two ids share neither source document nor nonce of one issuer. */
  ghost predicate StoredApart(s: State, d: Id, e: Id) {
    DocumentKey(d) in s.pub && DocumentKey(e) in s.pub ==>
      && s.pub[DocumentKey(d)].EnvelopeValue? && s.pub[DocumentKey(e)].EnvelopeValue?
      && var h1, h2 := s.pub[DocumentKey(d)].envelope.header, s.pub[DocumentKey(e)].envelope.header;
         && h1.document == d && h2.document == e
         && (h1.issuer == h2.issuer && (h1.sourceDocument == h2.sourceDocument || h1.nonce == h2.nonce) ==>
             d == e)
  }

  /** Stored documents are injective in their issuer's document id and in their issuer's nonce. */
  lemma EvidenceOnce(env: Env, rs: seq<Request>, d: Id, e: Id)
    ensures StoredApart(Run(env, rs), d, e)
  {
    RunInv(env, rs);
    var s := Run(env, rs);
    hide Configured, Records, Transfers, Indexed, History, References, Evaluations, Slots, Analysed, Privates,
         Versioned, Run;
    if DocumentKey(d) in s.pub && DocumentKey(e) in s.pub {
      assert EnvelopeOk(s, d) && EnvelopeOk(s, e);
    }
  }

  /** A stored document has its public reference and the receipt of the operation that consumed it. */
  ghost predicate ConsumedUnder(s: State, d: Id) {
    DocumentKey(d) in s.pub ==>
      && s.pub[DocumentKey(d)].EnvelopeValue?
      && var h := s.pub[DocumentKey(d)].envelope.header;
         && (h.docType.FreightInvoice? <==> DocRefKey(d) !in s.pub)
         && var k := OperationKey(ConsumerOf(h.docType).0, h.op);
            k in s.pub && s.pub[k].ReceiptValue? && s.pub[k].receipt.batch == h.batch
            && s.pub[k].receipt.command == ConsumerOf(h.docType).1
  }

  /** Each stored document was consumed by the committed operation it is bound to. */
  lemma EvidenceBound(env: Env, rs: seq<Request>, d: Id)
    ensures ConsumedUnder(Run(env, rs), d)
  {
    RunInv(env, rs);
    var s := Run(env, rs);
    hide Configured, Records, Transfers, Indexed, History, References, Evaluations, Analysed, Privates, Versioned, Run;
    if DocumentKey(d) in s.pub {
      assert EnvelopeOk(s, d);
      assert Referenced(s, d);
    }
  }

  // ---------------------------------------------------------------- analysis

  /** The batch's anomaly record is the price rule on the stored records, with the exact verdict. */
  ghost predicate ScoredExactly(s: State, id: Id) {
    EvaluationKey(id) in s.pub ==>
      && s.pub[EvaluationKey(id)].EvaluationValue?
      && LoadAnomaly(s, s.pub[EvaluationKey(id)].evaluation.anomaly).Ok?
      && var a := LoadAnomaly(s, s.pub[EvaluationKey(id)].evaluation.anomaly).value;
         && Derived(s, BatchAt(s, id), RefsAt(s, id), a)
         && a.purchase > 0
         && a.score.increase == (a.retail - a.purchase) * 10000 / a.purchase
         && (!a.review.NotRequired? <==>
               (a.retail - a.purchase) as real / a.purchase as real > a.threshold as real / 10000.0)
  }

  /**
   * A stored anomaly record is the price rule applied to the purchase opening,
   * the retail report and the configuration that are still stored, and a review
   * is called for exactly when the real increase exceeds the real threshold.
   */
  lemma AnomalyExact(env: Env, rs: seq<Request>, id: Id)
    ensures ScoredExactly(Run(env, rs), id)
  {
    hide Inv, Run, ScoredExactly;
    RunInv(env, rs);
    AnalysedExactly(Run(env, rs), id);
  }

  lemma AnalysedExactly(s: State, id: Id)
    requires Inv(s)
    ensures ScoredExactly(s, id)
  {
    hide Configured, Records, Transfers, Indexed, History, References, Consumed, Slots, Versioned, Evaluations,
         Privates, Derived, BatchAt, RefsAt, LoadAnomaly, ReviewsOf;
    if EvaluationKey(id) in s.pub {
      assert Scored(s, id);
      DerivedExact(s, BatchAt(s, id), RefsAt(s, id), LoadAnomaly(s, s.pub[EvaluationKey(id)].evaluation.anomaly).value);
    }
  }

  lemma DerivedExact(s: State, b: Batch, r: Refs, a: AnomalyRecord)
    requires Derived(s, b, r, a)
    ensures a.purchase > 0 && a.score.increase == (a.retail - a.purchase) * 10000 / a.purchase
    ensures a.score.verdict.ReviewRequired?
            <==> (a.retail - a.purchase) as real / a.purchase as real > a.threshold as real / 10000.0
  {
    hide LoadPurchase, LoadReport, LoadCost, LoadConfig;
    assert PriceScore(a.purchase, a.retail, a.threshold) == Ok(a.score);
    PriceBounds(a.purchase, a.retail, a.threshold);
    hide PriceScore;
    ExactRatio(a.purchase, a.retail, a.threshold);
    ScoreMeaning(a.purchase, a.retail, a.threshold);
  }

  lemma PriceBounds(purchase: int, retail: int, threshold: int)
    requires PriceScore(purchase, retail, threshold).Ok?
    ensures MoneyOk(purchase, retail) && ThresholdOk(threshold) && purchase > 0
  {
  }

  // --------------------------------------------------------- state and events

  /**
   * The state determines owner, custodian, lot and filled slots; Logistics never
   * owns; filled slots name stored documents.
   */
  lemma StateDetermines(env: Env, rs: seq<Request>, id: Id)
    ensures var s := Run(env, rs);
            BatchKey(id) in s.pub ==>
              && LifecycleOk(id, BatchAt(s, id), RefsAt(s, id)) && SlotsOf(s, id)
              && BatchAt(s, id).owner != Logistics
  {
    hide Configured, Transfers, Indexed, History, References, Evaluations, Consumed, Analysed, Privates, Versioned, Run;
    RunInv(env, rs);
    var s := Run(env, rs);
    if BatchKey(id) in s.pub {
      assert RecordOk(s, id) && SlotsOf(s, id);
      hide SlotsOf, BatchAt, RefsAt;
    }
  }

  /** An accepted command's event repeats its receipt and tells the batch's states before and after. */
  lemma EventTells(env: Env, s: State, c: Command, x: Execution, t: Transient, o: Outcome)
    requires Inv(s) && Apply(env, s, c, x, t) == Ok(o)
    ensures var s', e, r := Step(env, s, c, x, t), o.event, o.receipt;
            && e.op == r.op == c.op && e.batch == r.batch == c.batch && e.actor == r.actor == x.actor
            && e.tx == r.tx == x.tx && e.time == r.time == x.time && r.command == c.name
            && e.version == r.version == VersionAt(s, c.batch) + 1 == VersionAt(s', c.batch)
            && e.ids == r.ids && Ascending(r.ids) && c.batch in r.ids
            && e.previous == (if BatchKey(c.batch) in s.pub then Some(BatchAt(s, c.batch).state) else None)
            && e.next == BatchAt(s', c.batch).state
  {
    hide Apply, After, Moved, Inv, Step;
    hide Fresh, Permanent, Sealed, PrivPlan, ReferencePlan, AnalysisWrites, ReceiptsGrow, LifecycleOk, SortedUnique;
    hide BatchAt, RefsAt, IsReview, RequiredCaller, BasePlan;
    var s' := Step(env, s, c, x, t);
    var st, v, arm := MovedBy(env, s, c, x, t);
    GuardsHold(env, s, s', c, x, t, st, v, arm);
    TouchesBatch(env, s, s', c, x, t, st, v, arm);
    SortedUniqueFacts(arm.ids);
  }

  lemma OfferTouches(s: State, c: Command, x: Execution, st: Start, v: Verified, arm: Arm)
    requires OfferArm(s, c, x, st, v) == Ok(arm)
    ensures |arm.ids| > 0 && arm.ids[0] == c.batch
  {
    hide PickupDocuments;
  }

  lemma TouchesBatch(env: Env, s: State, s': State, c: Command, x: Execution, t: Transient, st: Start, v: Verified,
                     arm: Arm)
    requires Moved(env, s, s', c, x, t, st, v, arm)
    ensures c.batch in arm.ids
  {
    hide Admit, Prepare, Admitted, ProofPlan, RecordEffect, ReceiptEffect, IndexEffect, ArmEffect, ProofEffect;
    hide ValidPurchase, PickupDocuments, Consume, OfferArm;
    assert RunArm(s, c, x, st, v) == Ok(arm);
    if IsOffer(c.name) {
      OfferTouches(s, c, x, st, v, arm);
    }
    assert arm.ids[0] == c.batch;
  }
}
