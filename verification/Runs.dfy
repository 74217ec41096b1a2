/** The invariant holds of every ledger that any run of requests can reach. */
module Runs {
  import opened Types
  import opened Price
  import opened Evidence
  import opened Engine
  import opened Invariants
  import opened Preserve
  import opened Provenance

  // ---------------------------------------------------------------- requests

  datatype Request =
    | Configure(actor: Msp, role: Role, config: Configuration)
    | Invoke(c: Command, x: Execution, t: Transient)

  function Bootstrapped(s: State, actor: Msp, role: Role, cfg: Configuration): State {
    match Bootstrap(s, actor, role, cfg)
    case Ok(p) => State(Commit(s.pub, p), s.priv, s.events)
    case Err(_) => s
  }

  function Serve(env: Env, s: State, r: Request): State {
    match r
    case Configure(actor, role, config) => Bootstrapped(s, actor, role, config)
    case Invoke(c, x, t) => Step(env, s, c, x, t)
  }

  /** The ledger after serving the requests one after the other. */
  function Run(env: Env, rs: seq<Request>): State {
    if rs == [] then EMPTY_STATE
    else
      var before, last := rs[..|rs| - 1], rs[|rs| - 1];
      Serve(env, Run(env, before), last)
  }

  // ------------------------------------------------------------ one command

  /** An accepted command and everything known of how it moved the ledger. */
  ghost predicate Moved(env: Env, s: State, s': State, c: Command, x: Execution, t: Transient, st: Start, v: Verified,
                        arm: Arm) {
    && Accepts(env, s, c, x, t, st, v, arm) && Admitted(s, c, x, st)
    && ProofPlan(s, c, x, st.before, st.refs, v)
    && RecordEffect(s, s', c, x, st, arm) && ReceiptEffect(s, s', c, x, st, arm) && IndexEffect(s, s', x, st, arm)
    && ArmEffect(s, s', arm) && ProofEffect(s, s', v)
  }

  lemma MovedBy(env: Env, s: State, c: Command, x: Execution, t: Transient) returns (st: Start, v: Verified, arm: Arm)
    requires Apply(env, s, c, x, t).Ok?
    ensures Moved(env, s, Step(env, s, c, x, t), c, x, t, st, v, arm)
    ensures Apply(env, s, c, x, t) == Ok(Finish(c, x, st, arm, v))
  {
    hide Admit, Prepare, RunArm, Apply, Finish, Admitted, ProofPlan, After;
    hide RecordEffect, ReceiptEffect, IndexEffect, ArmEffect, ProofEffect;
    st, v, arm := Decompose(env, s, c, x, t);
    AdmitFacts(env, s, c, x, st);
    ArmKinds(s, c, x, st, v);
    ProofPlanned(env, s, c, x, t, st.before, st.refs, v);
    ProofKinds(s, c, x, st.before, st.refs, v);
    BaseEffectHolds(s, c, x, st, arm, v);
    RestEffectHolds(s, c, x, st, arm, v);
  }

  lemma CoreKept(env: Env, s: State, s': State, c: Command, x: Execution, t: Transient, st: Start, v: Verified,
                 arm: Arm)
    requires Inv(s) && Moved(env, s, s', c, x, t, st, v, arm)
    ensures Records(s') && Indexed(s') && History(s') && Transfers(s') && References(s') && Evaluations(s')
  {
    hide Admit, Prepare, RunArm, Admitted, ProofPlan, RecordEffect, ReceiptEffect, IndexEffect, ArmEffect, ProofEffect;
    hide Configured, Records, Indexed, History, Transfers, References, Evaluations, Consumed, Slots, Privates, Analysed,
         Versioned;
    RecordsKept(s, s', c, x, st, v, arm);
    IndexedKept(s, s', c, x, st, v, arm);
    HistoryKept(s, s', c, x, st, v, arm);
    TransfersKept(s, s', c, x, st, v, arm);
    ReferencesKept(s, s', c, x, st, v, arm);
    EvaluationsKept(s, s', c, x, st, v, arm);
  }

  /** The facts about freshness and private writes that an accepted command rests on. */
  ghost predicate Guards(env: Env, s: State, s': State, c: Command, x: Execution, t: Transient, st: Start, v: Verified,
                         arm: Arm) {
    && Fresh(s, v.pub) && Permanent(s, s') && Sealed(s, s', c)
    && PrivPlan(c, v) && ReferencePlan(s, c, st, arm) && AnalysisWrites(s, c, st.before, st.refs, v)
    && ReceiptsGrow(s, s', c, x, st.before.version + 1)
    && Getters(s, s', c.batch, NewBatch(x, st, arm), arm.refs)
    && (if st.existing then Started(s, c, st) && st.before.id == c.batch
        else st == Start(false, ZERO_BATCH, EmptyRefs(c.batch)) && c.name.CreateBatch? && BatchKey(c.batch) !in s.pub)
    && (c.name.CreateBatch? <==> !st.existing)
    && (IsReview(c.name) <==> c.payload.ReviewTarget?)
    && x.actor == RequiredCaller(c.name).0
  }

  lemma GuardsHold(env: Env, s: State, s': State, c: Command, x: Execution, t: Transient, st: Start, v: Verified,
                   arm: Arm)
    requires Inv(s) && Moved(env, s, s', c, x, t, st, v, arm)
    ensures Guards(env, s, s', c, x, t, st, v, arm)
  {
    hide Admit, Prepare, RunArm, ProofPlan, RecordEffect, ReceiptEffect, IndexEffect, ArmEffect, ProofEffect;
    hide Configured, Records, Indexed, History, Transfers, References, Evaluations, Consumed, Slots, Analysed,
         Versioned;
    hide Guarded, Fresh, Permanent, Sealed, PrivPlan, ReferencePlan, AnalysisWrites, ReceiptsGrow, Getters, NewBatch,
         LifecycleOk;
    hide ArmIsFresh, ValidId;
    ProofIsFresh(env, s, c, x, t, st.before, st.refs, v);
    ArmFresh(s, c, x, st, v, arm);
    PermanentKept(s, s', arm, v);
    PrivPlanned(env, s, c, x, t, st.before, st.refs, v);
    ReferencePlanned(s, c, x, st, v, arm);
    SealedKept(s, s', c, x, st, arm, v);
    AnalysisWritten(env, s, c, x, t, st.before, st.refs, v);
    ReceiptsGrown(s, s', c, x, st, arm);
    GettersAfter(s, s', c, x, st, v, arm);
    StartedId(s, c, st);
  }

  // --------------------------------------------------------------- evidence

  lemma DocsOf(env: Env, s: State, c: Command, x: Execution, t: Transient, b: Batch, refs: Refs, v: Verified)
    requires Prepare(env, s, c, x, t, b, refs) == Ok(v)
    ensures NewDocs(s, c, Submitted(c, t), v.pub) && SlotDocs(c, v, Submitted(c, t))
  {
    hide GatherDocuments, Evaluate, Review, TakeReport, Gathered, NewDocs, SlotDocs, LoadConfig;
    if c.name.CreateBatch? || c.name.OfferPickup? || c.name.RecordFreightCost? {
      GatherFacts(env, s, c, x, t, b);
      NewDocsFrom(env, s, c, x, t, b, v);
      SlotDocsFrom(env, s, c, x, t, b, v);
    } else {
      NoDocs(env, s, c, x, t, b, refs, v);
    }
  }

  lemma NoDocs(env: Env, s: State, c: Command, x: Execution, t: Transient, b: Batch, refs: Refs, v: Verified)
    requires Prepare(env, s, c, x, t, b, refs) == Ok(v) && RequiredTypes(c.name) == map[]
    ensures NewDocs(s, c, Submitted(c, t), v.pub) && SlotDocs(c, v, Submitted(c, t))
  {
    hide Prepare, NewDocs, SlotDocs, ProofPlan, GatherDocuments, Gathered;
    if IsAnalysis(c.name) {
      ProofPlanned(env, s, c, x, t, b, refs, v);
      AnalysisHasNoDocs(s, c, x, b, refs, v);
    } else {
      GatheredPub(env, s, c, x, t, b, refs);
      GatherFacts(env, s, c, x, t, b);
    }
    EmptyNewDocs(s, c, v);
  }

  lemma AnalysisHasNoDocs(s: State, c: Command, x: Execution, b: Batch, refs: Refs, v: Verified)
    requires IsAnalysis(c.name) && ProofPlan(s, c, x, b, refs, v)
    ensures forall k :: k in v.pub ==> !k.DocumentKey? && !k.SourceUseKey? && !k.NonceKey?
  {
  }

  lemma EmptyNewDocs(s: State, c: Command, v: Verified)
    requires forall k :: k in v.pub ==> !k.DocumentKey? && !k.SourceUseKey? && !k.NonceKey?
    requires RequiredTypes(c.name) == map[]
    ensures NewDocs(s, c, [], v.pub) && SlotDocs(c, v, [])
  {
  }

  lemma EvidenceKept(env: Env, s: State, s': State, c: Command, x: Execution, t: Transient, st: Start, v: Verified,
                     arm: Arm)
    requires Inv(s) && Moved(env, s, s', c, x, t, st, v, arm) && Guards(env, s, s', c, x, t, st, v, arm)
    ensures Consumed(s') && Slots(s')
  {
    hide Admit, Prepare, RunArm, Admitted, ProofPlan, RecordEffect, ReceiptEffect, IndexEffect, ArmEffect, ProofEffect;
    hide Configured, Records, Indexed, History, Transfers, References, Evaluations, Consumed, Slots, Analysed,
         Versioned;
    hide Guarded, Fresh, Permanent, Sealed, PrivPlan, ReferencePlan, AnalysisWrites, ReceiptsGrow, Getters, NewBatch,
         LifecycleOk;
    hide NewDocs, SlotDocs, DocRefPlan, Submitted, Started;
    DocsOf(env, s, c, x, t, st.before, st.refs, v);
    DocRefPlanned(s, c, x, st, v, arm);
    ConsumedKept(s, s', c, x, st.before.version + 1, v, Submitted(c, t));
    SlotsKept(s, s', c, x, st, v, Submitted(c, t), arm, NewBatch(x, st, arm));
  }

  // ---------------------------------------------------------------- private

  lemma NewBatchFields(c: Command, x: Execution, st: Start, arm: Arm)
    ensures var b := NewBatch(x, st, arm);
            b.lot == arm.b.lot && b.quantity == arm.b.quantity && b.state == arm.b.state
              && b.version == st.before.version + 1
  {
  }

  lemma AllOpened(env: Env, s: State, s': State, c: Command, x: Execution, t: Transient, st: Start, v: Verified,
                  arm: Arm)
    requires Inv(s) && Moved(env, s, s', c, x, t, st, v, arm) && Guards(env, s, s', c, x, t, st, v, arm)
    ensures forall id {:trigger BatchKey(id) in s'.pub} :: BatchKey(id) in s'.pub ==> Opened(s', id)
  {
    hide Admit, Prepare, RunArm, Admitted, ProofPlan, RecordEffect, ReceiptEffect, IndexEffect, ArmEffect, ProofEffect;
    hide Configured, Records, Indexed, History, Transfers, References, Evaluations, Consumed, Slots, Analysed,
         Versioned;
    hide Guarded, Fresh, Permanent, Sealed, PrivPlan, ReferencePlan, AnalysisWrites, ReceiptsGrow, Getters, NewBatch,
         LifecycleOk;
    hide ReviewWrites, Opened, Started, IsReview, IsAnalysis, RequiredCaller;
    NewBatchFields(c, x, st, arm);
    if st.existing {
      SameQuantity(s, c, st, arm);
    }
    OpenedKept(env, s, s', c, x, t, st, v, arm, NewBatch(x, st, arm));
  }

  lemma PrivatesKept(env: Env, s: State, s': State, c: Command, x: Execution, t: Transient, st: Start, v: Verified,
                     arm: Arm)
    requires Inv(s) && Moved(env, s, s', c, x, t, st, v, arm) && Guards(env, s, s', c, x, t, st, v, arm)
    ensures Privates(s')
  {
    hide Admit, Prepare, RunArm, Admitted, ProofPlan, RecordEffect, ReceiptEffect, IndexEffect, ArmEffect, ProofEffect;
    hide Configured, Records, Indexed, History, Transfers, References, Evaluations, Consumed, Slots, Analysed,
         Versioned;
    hide Guarded, Fresh, Permanent, Sealed, PrivPlan, ReferencePlan, AnalysisWrites, ReceiptsGrow, Getters, NewBatch,
         LifecycleOk;
    hide ReviewWrites, Opened, Started, RequiredCaller;
    AllOpened(env, s, s', c, x, t, st, v, arm);
    if IsReview(c.name) {
      WrittenReview(env, s, c, x, t, st.before, st.refs, v);
    }
    GuardedKept(s, s', c, x, st, arm, v, st.before.version + 1);
  }

  lemma WrittenReview(env: Env, s: State, c: Command, x: Execution, t: Transient, b: Batch, refs: Refs, v: Verified)
    requires IsReview(c.name) && Prepare(env, s, c, x, t, b, refs) == Ok(v)
    ensures ReviewWrites(c, x, v)
  {
    hide Review, ReviewWrites;
    ReviewWritten(env, s, c, x, t, b, v);
  }

  lemma SameQuantity(s: State, c: Command, st: Start, arm: Arm)
    requires ReferencePlan(s, c, st, arm) && st.existing
    ensures arm.b.quantity == st.before.quantity
  {
  }

  // ---------------------------------------------------------------- analysis

  lemma StepOfAnalysis(env: Env, s: State, s': State, c: Command, x: Execution, t: Transient, st: Start, v: Verified,
                       arm: Arm)
    requires Inv(s) && Moved(env, s, s', c, x, t, st, v, arm) && Guards(env, s, s', c, x, t, st, v, arm)
    ensures AnalysisStep(s, s', c, x, st, v, arm, NewBatch(x, st, arm))
  {
    hide Admit, Prepare, RunArm, Admitted, ProofPlan, RecordEffect, ReceiptEffect, IndexEffect, ArmEffect, ProofEffect;
    hide Configured, Records, Indexed, History, Transfers, References, Evaluations, Consumed, Slots, Analysed,
         Versioned;
    hide Guarded, Fresh, Permanent, Sealed, PrivPlan, ReferencePlan, AnalysisWrites, ReceiptsGrow, Getters, NewBatch,
         LifecycleOk;
    NewBatchFields(c, x, st, arm);
    if st.existing && (st.before.state.RetailReported? || IsAnalysis(c.name)) {
      FinalState(s, c, x, st, v, arm);
    }
  }

  lemma AnalysisKept(env: Env, s: State, s': State, c: Command, x: Execution, t: Transient, st: Start, v: Verified,
                     arm: Arm)
    requires Inv(s) && Moved(env, s, s', c, x, t, st, v, arm) && Guards(env, s, s', c, x, t, st, v, arm)
    ensures Analysed(s') && Versioned(s') && Configured(s')
  {
    hide Admit, Prepare, RunArm, Admitted, ProofPlan, RecordEffect, ReceiptEffect, IndexEffect, ArmEffect, ProofEffect;
    hide Configured, Records, Indexed, History, Transfers, References, Evaluations, Consumed, Slots, Analysed,
         Versioned;
    hide Guarded, Fresh, Permanent, Sealed, PrivPlan, ReferencePlan, AnalysisWrites, ReceiptsGrow, Getters, NewBatch,
         LifecycleOk;
    hide AnalysisStep, RankPlan, Started;
    NewBatchFields(c, x, st, arm);
    StepOfAnalysis(env, s, s', c, x, t, st, v, arm);
    var b := NewBatch(x, st, arm);
    AnalysedKept(s, s', c, x, st, v, arm, b);
    RankPlanned(s, c, x, st, v, arm);
    VersionedKept(s, s', c, x, st, v, arm, b);
    ConfiguredKept(env, s, s', c, x, st, v, b, arm.refs);
  }

  /** One command, accepted or refused, keeps the whole invariant. */
  lemma StepKeepsInv(env: Env, s: State, c: Command, x: Execution, t: Transient)
    requires Inv(s)
    ensures Inv(Step(env, s, c, x, t))
  {
    hide Apply, Moved, Guards, After, Inv;
    if Apply(env, s, c, x, t).Ok? {
      var st, v, arm := MovedBy(env, s, c, x, t);
      var s' := Step(env, s, c, x, t);
      GuardsHold(env, s, s', c, x, t, st, v, arm);
      CoreKept(env, s, s', c, x, t, st, v, arm);
      EvidenceKept(env, s, s', c, x, t, st, v, arm);
      PrivatesKept(env, s, s', c, x, t, st, v, arm);
      AnalysisKept(env, s, s', c, x, t, st, v, arm);
      Assemble(s');
    }
  }

  lemma Assemble(s: State)
    requires Configured(s) && Records(s) && Indexed(s) && History(s) && Transfers(s) && References(s) && Evaluations(s)
    requires Consumed(s) && Slots(s) && Privates(s) && Analysed(s) && Versioned(s)
    ensures Inv(s)
  {
    hide Configured, Records, Indexed, History, Transfers, References, Evaluations, Consumed, Slots, Privates, Analysed,
         Versioned;
  }

  // --------------------------------------------------------------- bootstrap

  /** Before the trust configuration is stored, nothing else can be. */
  ghost predicate Blank(s: State) {
    && s.priv == map[]
    && forall k {:trigger k in s.pub} :: k in s.pub ==> IsConfigKey(k) || k.SourceUseKey? || k.NonceKey?
  }

  lemma BlankBefore(s: State)
    requires Inv(s) && ConfigKey !in s.pub
    ensures Blank(s)
  {
    hide Records, Indexed, History, Transfers, References, Evaluations, Consumed, Slots, Guarded, Opened, Analysed,
         Versioned, SourcesOk;
    assert forall id :: BatchKey(id) !in s.pub;
    BlankHistory(s);
    BlankRest(s);
    forall k | k in s.pub ensures IsConfigKey(k) || k.SourceUseKey? || k.NonceKey? {
      match k
      case RefsKey(id) => RefsBlank(s, id);
      case OwnerKey(_, id) => IndexBlank(s, k, id);
      case StateKey(_, id) => IndexBlank(s, k, id);
      case _ =>
    }
    forall q ensures q !in s.priv {
      PrivBlank(s, q);
    }
    assert s.priv == map[];
  }

  lemma RefsBlank(s: State, id: Id)
    requires Records(s) && RefsKey(id) in s.pub
    ensures BatchKey(id) in s.pub
  {
  }

  lemma IndexBlank(s: State, k: Key, id: Id)
    requires Indexed(s) && k in s.pub && ((k.OwnerKey? && k.batch == id) || (k.StateKey? && k.batch == id))
    ensures BatchKey(id) in s.pub
  {
  }

  lemma BlankHistory(s: State)
    requires History(s) && forall id :: BatchKey(id) !in s.pub
    ensures forall id, n :: HistoryKey(id, n) !in s.pub
    ensures forall a, op :: OperationKey(a, op) !in s.pub
  {
    forall id, n ensures HistoryKey(id, n) !in s.pub {
      assert HistoryKey(id, n) in s.pub ==> BatchKey(id) in s.pub;
    }
    forall a, op ensures OperationKey(a, op) !in s.pub {
      assert OperationKey(a, op) in s.pub ==>
        SameReceipt(s, HistoryKey(s.pub[OperationKey(a, op)].receipt.batch, s.pub[OperationKey(a, op)].receipt.version),
                    s.pub[OperationKey(a, op)].receipt);
    }
  }

  lemma BlankRest(s: State)
    requires Transfers(s) && References(s) && Evaluations(s) && Consumed(s) && Slots(s)
    requires forall id :: BatchKey(id) !in s.pub
    requires forall a, op :: OperationKey(a, op) !in s.pub
    requires Guarded(s)
    ensures forall k :: k in s.pub ==>
              !k.TransferKey? && !k.PendingKey? && !k.CostRefKey? && !k.LotKey? && !k.ReportRefKey?
    ensures forall k :: k in s.pub ==>
              !k.EvaluationKey? && !k.AnomalyRefKey? && !k.DocumentKey? && !k.DocRefKey? && !k.ReviewRefKey?
  {
    forall id ensures TransferKey(id) !in s.pub && PendingKey(id) !in s.pub {
      hide Evaluations, Consumed, Slots, Guarded, References;
      assert TransferKey(id) in s.pub ==> TransferOk(s, id);
      assert PendingKey(id) in s.pub ==> PendingOk(s, id);
    }
    forall id ensures CostRefKey(id) !in s.pub && ReportRefKey(id) !in s.pub && LotKey(id) !in s.pub {
      hide Evaluations, Consumed, Slots, Guarded, Transfers;
    }
    hide Transfers, References;
    forall id ensures EvaluationKey(id) !in s.pub {
      assert EvaluationKey(id) in s.pub ==> BatchKey(id) in s.pub;
    }
    forall a ensures AnomalyRefKey(a) !in s.pub {
    }
    hide Evaluations;
    forall d ensures DocumentKey(d) !in s.pub && DocRefKey(d) !in s.pub {
      assert DocumentKey(d) in s.pub ==> EnvelopeOk(s, d);
      assert Referenced(s, d);
    }
    forall a, op ensures ReviewRefKey(a, op) !in s.pub {
      assert ReviewRefKey(a, op) in s.pub ==> OperationKey(Regulator, op) in s.pub;
    }
  }

  lemma PrivBlank(s: State, q: PrivKey)
    requires Guarded(s)
    requires forall k :: k in s.pub ==> IsConfigKey(k) || k.SourceUseKey? || k.NonceKey?
    ensures q !in s.priv
  {
  }

  lemma {:induction false} SourcePlanKinds(sources: seq<SourceKey>)
    ensures forall k :: k in SourcePlan(sources) ==>
              k.SourceKeyKey? && SourcePlan(sources)[k].Some? && SourcePlan(sources)[k].value.SourceKeyValue?
  {
    if sources != [] {
      SourcePlanKinds(sources[..|sources| - 1]);
    }
  }

  lemma BootstrapKeepsInv(s: State, actor: Msp, role: Role, cfg: Configuration)
    requires Inv(s) && Bootstrap(s, actor, role, cfg).Ok?
    ensures Inv(Bootstrapped(s, actor, role, cfg))
  {
    hide SourcesOk, ValidId;
    var s' := Bootstrapped(s, actor, role, cfg);
    BlankBefore(s);
    SourcePlanKinds(cfg.sources);
    ConfiguredBlank(s, s', actor, role, cfg);
    assert Blank(s') by {
      hide Inv;
    }
    hide Bootstrap, Commit, SourcePlan, Inv;
    BlankInv(s');
  }

  lemma ConfiguredBlank(s: State, s': State, actor: Msp, role: Role, cfg: Configuration)
    requires Blank(s) && Configured(s) && Bootstrap(s, actor, role, cfg).Ok?
    requires s' == Bootstrapped(s, actor, role, cfg)
    ensures Configured(s')
  {
    hide SourcesOk, ValidId;
    SourcePlanKinds(cfg.sources);
    assert s'.pub[ConfigKey] == ConfigValue(cfg);
  }

  lemma BlankCore(s: State)
    requires Blank(s)
    ensures Records(s) && Indexed(s) && History(s) && Transfers(s)
  {
    forall id
      ensures BatchKey(id) !in s.pub && RefsKey(id) !in s.pub && TransferKey(id) !in s.pub && PendingKey(id) !in s.pub
    {
    }
    forall m, l, id, n, op
      ensures OwnerKey(m, id) !in s.pub && StateKey(l, id) !in s.pub && HistoryKey(id, n) !in s.pub
              && OperationKey(m, op) !in s.pub
    {
    }
    hide Blank;
  }

  lemma BlankLookups(s: State)
    requires Blank(s)
    ensures References(s) && Evaluations(s) && Consumed(s) && Analysed(s) && Versioned(s)
  {
    forall id
      ensures BatchKey(id) !in s.pub && CostRefKey(id) !in s.pub && ReportRefKey(id) !in s.pub && LotKey(id) !in s.pub
    {
    }
    forall id ensures EvaluationKey(id) !in s.pub && AnomalyRefKey(id) !in s.pub && DocumentKey(id) !in s.pub {
    }
    hide Blank;
  }

  lemma BlankSlots(s: State)
    requires Blank(s)
    ensures Slots(s) && Privates(s)
  {
    forall d ensures Referenced(s, d) {
      assert DocRefKey(d) !in s.pub && DocumentKey(d) !in s.pub;
    }
  }

  lemma BlankInv(s: State)
    requires Blank(s) && Configured(s)
    ensures Inv(s)
  {
    hide *;
    BlankCore(s);
    BlankLookups(s);
    BlankSlots(s);
    Assemble(s);
  }

  // -------------------------------------------------------------------- runs

  lemma ServeKeepsInv(env: Env, s: State, r: Request)
    requires Inv(s)
    ensures Inv(Serve(env, s, r))
  {
    hide Inv, Step, Bootstrap, Commit;
    match r
    case Configure(actor, role, config) =>
      if Bootstrap(s, actor, role, config).Ok? {
        BootstrapKeepsInv(s, actor, role, config);
      }
    case Invoke(c, x, t) => StepKeepsInv(env, s, c, x, t);
  }

  /** The joint invariant of all key families holds after every run of requests. */
  lemma {:induction false} RunInv(env: Env, rs: seq<Request>)
    ensures Inv(Run(env, rs))
  {
    hide Inv, Serve;
    if rs == [] {
      BlankInv(EMPTY_STATE);
    } else {
      RunInv(env, rs[..|rs| - 1]);
      ServeKeepsInv(env, Run(env, rs[..|rs| - 1]), rs[|rs| - 1]);
    }
  }

  // ==========================================================================
  // A peer as clients see it: its ledger moves on between any two queries, and a query may stay
  // unanswered.

  class Peer {
    const env: Env
    /** While true, every query is answered. */
    const reachable: bool
    var now: State
    ghost var served: seq<Request>

    constructor (env: Env, reachable: bool)
      ensures Valid() && served == [] && this.env == env && this.reachable == reachable
    {
      hide Serve;
      this.env, this.reachable, now, served := env, reachable, EMPTY_STATE, [];
    }

    ghost predicate Valid()
      reads this
    {
      now == Run(env, served)
    }

    /** Any clients' requests are served. */
    method Elapse()
      requires Valid()
      modifies this
      ensures Valid() && old(served) <= served
    {
      hide Serve;
      var requests: nat := *;
      while requests > 0
        invariant Valid() && old(served) <= served
      {
        requests := requests - 1;
        var r: Request := *;
        assert (served + [r])[..|served + [r]| - 1] == served;
        now := Serve(env, now, r);
        served := served + [r];
      }
    }

    /** One query; None is a refusal or no answer. The ledger moves on before it is answered. */
    method Query<T>(read: State -> Result<T>) returns (r: Option<T>)
      requires Valid()
      modifies this
      ensures Valid() && old(served) <= served && Answers(r, read(now), reachable)
    {
      hide Run;
      Elapse();
      var silent: bool := *;
      var answer := read(now);
      r := if answer.Err? || (silent && !reachable) then None else Some(answer.value);
    }
  }

  /** An answer is the truth at the time; a reachable peer always gives one that there is. */
  predicate Answers<T(==)>(r: Option<T>, read: Result<T>, reachable: bool) {
    match r
    case Some(value) => read == Ok(value)
    case None => reachable ==> read.Err?
  }
}
