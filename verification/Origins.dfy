/** Where replay keys and review actions come from, on every ledger that a run can produce. */
module Origins {
  import opened Types
  import opened Price
  import opened Evidence
  import opened Engine
  import opened Invariants
  import opened Preserve
  import opened Provenance
  import opened Runs
  import opened Guarantees

  // ==========================================================================
  // Every id under which something is stored has its grammar, and the configured sources are
  // stored.

  /** The id in a key has the grammar of its kind. */
  predicate KeyNamed(k: Key) {
    match k
    case BatchKey(id) => ValidId(id, "BAT")
    case OperationKey(_, op) => ValidId(op, "OP")
    case TransferKey(id) => ValidId(id, "TRF")
    case DocRefKey(d) => ValidId(d, "DOC")
    case DocumentKey(d) => ValidId(d, "DOC")
    case CostRefKey(id) => ValidId(id, "CST")
    case LotKey(id) => ValidId(id, "LOT")
    case ReportRefKey(id) => ValidId(id, "RPT")
    case AnomalyRefKey(id) => ValidId(id, "ANM")
    case _ => true
  }

  ghost predicate KeysNamed(s: State) {
    forall k {:trigger k in s.pub} :: k in s.pub ==> KeyNamed(k)
  }

  /** The configuration has a well-formed policy id and four proper sources, each stored under its own key. */
  ghost predicate SourcesStored(s: State) {
    ConfigKey in s.pub && s.pub[ConfigKey].ConfigValue? ==>
      var cfg := s.pub[ConfigKey].config;
      && ValidId(cfg.policy, "CFG") && SourcesOk(cfg.sources)
      && forall i {:trigger cfg.sources[i]} :: 0 <= i < 4 ==>
           LoadSource(s, cfg.sources[i].issuer, cfg.sources[i].key) == Ok(cfg.sources[i])
  }

  ghost predicate Named(s: State) {
    KeysNamed(s) && SourcesStored(s)
  }

  // ------------------------------------------------------------- one command

  ghost predicate PlanNamed(p: Plan) {
    forall k :: k in p ==> KeyNamed(k)
  }

  lemma ConsumeNamed(s: State, plan: Plan, document: Id, c: Command)
    requires PlanNamed(plan) && Consume(s, plan, document, c).Ok?
    ensures PlanNamed(Consume(s, plan, document, c).value)
  {
    hide ValidId;
  }

  lemma PickupNamed(s: State, c: Command, st: Start, v: Verified)
    requires PickupDocuments(s, c, st, v).Ok?
    ensures PlanNamed(PickupDocuments(s, c, st, v).value.0)
  {
    hide ValidPurchase, Consume, ValidId;
    ConsumeNamed(s, map[], v.purchase, c);
    var p1 := Consume(s, map[], v.purchase, c).value;
    ConsumeNamed(s, p1, v.hks, c);
    var p2 := Consume(s, p1, v.hks, c).value;
    ConsumeNamed(s, p2, v.manifest, c);
  }

  lemma OfferNamed(s: State, c: Command, x: Execution, st: Start, v: Verified)
    requires IsOffer(c.name) && PayloadFits(c) && OfferArm(s, c, x, st, v).Ok?
    ensures PlanNamed(OfferArm(s, c, x, st, v).value.plan)
  {
    hide ValidId, PickupDocuments;
    if c.name.OfferPickup? {
      PickupNamed(s, c, st, v);
    }
  }

  lemma AcceptNamed(s: State, c: Command, x: Execution, st: Start)
    requires IsAccept(c.name) && KeysNamed(s) && Transfers(s) && AcceptArm(s, c, x, st).Ok?
    ensures PlanNamed(AcceptArm(s, c, x, st).value.plan)
  {
    hide TransferOk, KeyNamed, Pending, BatchAt, IsAccept;
    assert TransferOk(s, c.payload.transfer);
  }

  /** Whatever an arm plans has its grammar. */
  lemma ArmNamed(s: State, c: Command, x: Execution, st: Start, v: Verified)
    requires KeysNamed(s) && Transfers(s) && PayloadFits(c) && RunArm(s, c, x, st, v).Ok?
    ensures PlanNamed(RunArm(s, c, x, st, v).value.plan)
  {
    hide ValidId, OfferArm, AcceptArm, ValidPurchase, Transfers, KeysNamed;
    match c.name
    case CreateBatch => ConsumeNamed(s, map[], v.cks, c);
    case OfferPickup | OfferDelivery => OfferNamed(s, c, x, st, v);
    case AcceptPickup | AcceptDelivery => AcceptNamed(s, c, x, st);
    case _ =>
  }

  lemma {:induction false} DocPlanNamed(env: Env, s: State, c: Command, docs: seq<Bundle>, n: nat, tx: string)
    requires n <= |docs| && forall i :: 0 <= i < n ==> DocOk(env, s, c, docs[i])
    ensures PlanNamed(DocPlan(docs, n, tx))
  {
    hide DocOk, ValidId;
    if n > 0 {
      DocPlanNamed(env, s, c, docs, n - 1, tx);
      DocNamed(env, s, c, docs[n - 1]);
    }
  }

  lemma DocNamed(env: Env, s: State, c: Command, d: Bundle)
    requires DocOk(env, s, c, d)
    ensures ValidId(d.envelope.header.document, "DOC")
  {
    hide ValidId, HexId, Reference;
  }

  lemma GatheredNamed(env: Env, s: State, c: Command, x: Execution, t: Transient, b: Batch, v: Verified)
    requires Gathered(env, s, c, x, t, b, v)
    ensures PlanNamed(v.pub)
  {
    hide DocUsed, DocsDiffer, PrivFrom, DocOk, HasType;
    var docs := Submitted(c, t);
    DocPlanNamed(env, s, c, docs, |docs|, x.tx);
  }

  /** Whatever the provider plans has its grammar. */
  lemma ProofNamed(env: Env, s: State, c: Command, x: Execution, t: Transient, b: Batch, refs: Refs, v: Verified)
    requires Prepare(env, s, c, x, t, b, refs) == Ok(v) && PayloadFits(c)
    ensures PlanNamed(v.pub)
  {
    hide Prepare, ProofPlan, PlanNamed, PayloadFits, GatherDocuments, Gathered;
    if IsAnalysis(c.name) {
      ProofPlanned(env, s, c, x, t, b, refs, v);
      AnalysisNamed(s, c, x, b, refs, v);
    } else {
      GatheredPub(env, s, c, x, t, b, refs);
      GatherFacts(env, s, c, x, t, b);
      GatheredNamed(env, s, c, x, t, b, GatherDocuments(env, s, c, x, t, b).value);
    }
  }

  lemma AnalysisNamed(s: State, c: Command, x: Execution, b: Batch, refs: Refs, v: Verified)
    requires IsAnalysis(c.name) && ProofPlan(s, c, x, b, refs, v) && PayloadFits(c)
    ensures PlanNamed(v.pub)
  {
    hide ValidId;
  }

  lemma NamedKept(s: State, s': State, c: Command, x: Execution, st: Start, v: Verified, arm: Arm)
    requires Named(s) && ValidId(c.batch, "BAT") && ValidId(c.op, "OP") && PlanNamed(arm.plan) && PlanNamed(v.pub)
    requires RecordEffect(s, s', c, x, st, arm) && ReceiptEffect(s, s', c, x, st, arm)
    requires ArmEffect(s, s', arm) && ProofEffect(s, s', v)
    ensures Named(s')
  {
    hide ValidId, NewBatch, NewReceipt, SourcesStored;
    forall k | k in s'.pub ensures KeyNamed(k) {
      match k
      case BatchKey(id) =>
      case OperationKey(a, op) =>
      case _ =>
        assert IsArmKey(k) || IsProofKey(k) || KeyNamed(k);
    }
    SourcesKept(s, s', v);
  }

  lemma SourcesKept(s: State, s': State, v: Verified)
    requires SourcesStored(s) && ProofEffect(s, s', v)
    ensures SourcesStored(s')
  {
    hide ValidId, SourceOk;
    if ConfigKey in s'.pub && s'.pub[ConfigKey].ConfigValue? {
      assert s'.pub[ConfigKey] == s.pub[ConfigKey];
      var sources := s.pub[ConfigKey].config.sources;
      forall i | 0 <= i < 4 ensures LoadSource(s', sources[i].issuer, sources[i].key) == Ok(sources[i]) {
        assert LoadSource(s, sources[i].issuer, sources[i].key) == Ok(sources[i]);
      }
    }
  }

  lemma StepNamed(env: Env, s: State, c: Command, x: Execution, t: Transient)
    requires Inv(s) && Named(s)
    ensures Named(Step(env, s, c, x, t))
  {
    hide Apply, After, Named, Inv, Moved, Finish;
    if Apply(env, s, c, x, t).Ok? {
      var st, v, arm := MovedBy(env, s, c, x, t);
      MovedNamed(env, s, Step(env, s, c, x, t), c, x, t, st, v, arm);
    }
  }

  lemma MovedNamed(env: Env, s: State, s': State, c: Command, x: Execution, t: Transient, st: Start, v: Verified,
                   arm: Arm)
    requires Inv(s) && Named(s) && Moved(env, s, s', c, x, t, st, v, arm)
    ensures Named(s')
  {
    hide Admit, Prepare, RunArm, Admitted, ProofPlan, RecordEffect, ReceiptEffect, IndexEffect, ArmEffect, ProofEffect;
    hide Configured, Records, Indexed, History, Transfers, References, Evaluations, Consumed, Slots, Analysed,
         Versioned, Privates;
    hide KeysNamed, SourcesStored, PlanNamed, ValidId, PayloadFits;
    AdmitFacts(env, s, c, x, st);
    PayloadOf(s, c, x, st);
    ArmNamed(s, c, x, st, v);
    ProofNamed(env, s, c, x, t, st.before, st.refs, v);
    NamedKept(s, s', c, x, st, v, arm);
  }

  lemma PayloadOf(s: State, c: Command, x: Execution, st: Start)
    requires Admitted(s, c, x, st)
    ensures PayloadFits(c)
  {
    hide PayloadFits;
  }

  // --------------------------------------------------------------- bootstrap

  lemma {:induction false} SourcePlanHas(sources: seq<SourceKey>, n: nat)
    requires n <= |sources|
    requires forall i, j :: 0 <= i < j < |sources| ==>
               SourceKeyKey(sources[i].issuer, sources[i].key) != SourceKeyKey(sources[j].issuer, sources[j].key)
    ensures forall i :: 0 <= i < n ==>
              && SourceKeyKey(sources[i].issuer, sources[i].key) in SourcePlan(sources[..n])
              && SourcePlan(sources[..n])[SourceKeyKey(sources[i].issuer, sources[i].key)]
                 == Some(SourceKeyValue(sources[i]))
  {
    if n > 0 {
      SourcePlanHas(sources, n - 1);
      assert sources[..n][..n - 1] == sources[..n - 1];
    }
  }

  lemma BootstrapNamed(s: State, actor: Msp, role: Role, cfg: Configuration)
    requires Inv(s) && Named(s) && Bootstrap(s, actor, role, cfg).Ok?
    ensures Named(Bootstrapped(s, actor, role, cfg))
  {
    hide Inv, ValidId, SourceOk, SourcePlan;
    var plan, s' := Bootstrap(s, actor, role, cfg).value, Bootstrapped(s, actor, role, cfg);
    SourcePlanKinds(cfg.sources);
    SourcePlanHas(cfg.sources, 4);
    assert cfg.sources[..4] == cfg.sources;
    forall k | k in s'.pub ensures KeyNamed(k) {
      assert k in s.pub || k in plan;
    }
    assert s'.pub[ConfigKey] == ConfigValue(cfg);
    forall i | 0 <= i < 4 ensures LoadSource(s', cfg.sources[i].issuer, cfg.sources[i].key) == Ok(cfg.sources[i]) {
      var k := SourceKeyKey(cfg.sources[i].issuer, cfg.sources[i].key);
      assert k in plan && plan[k] == Some(SourceKeyValue(cfg.sources[i]));
      assert k in s'.pub && s'.pub[k] == SourceKeyValue(cfg.sources[i]);
    }
  }

  // -------------------------------------------------------------------- runs

  /** After any run, every id under which something is stored has the grammar of its kind. */
  lemma {:induction false} RunNamed(env: Env, rs: seq<Request>)
    ensures Named(Run(env, rs))
  {
    hide Inv, Serve, ValidId;
    if rs != [] {
      var before := rs[..|rs| - 1];
      RunNamed(env, before);
      RunInv(env, before);
      ServeNamed(env, Run(env, before), rs[|rs| - 1]);
    }
  }

  lemma ServeNamed(env: Env, s: State, r: Request)
    requires Inv(s) && Named(s)
    ensures Named(Serve(env, s, r))
  {
    hide Inv, Named, Step, Bootstrap, Commit;
    match r
    case Configure(actor, role, config) =>
      if Bootstrap(s, actor, role, config).Ok? {
        BootstrapNamed(s, actor, role, config);
      }
    case Invoke(c, x, t) => StepNamed(env, s, c, x, t);
  }

  // ==========================================================================
  // Where replay keys and review actions come from, on every ledger that a run can produce.

  // -------------------------------------------------------------- replay keys

  /** Some stored document has this issuer and source document. */
  ghost predicate SourceHeld(s: State, issuer: string, source: Id) {
    exists d {:trigger DocumentKey(d) in s.pub} ::
      && DocumentKey(d) in s.pub && s.pub[DocumentKey(d)].EnvelopeValue?
      && s.pub[DocumentKey(d)].envelope.header.issuer == issuer
      && s.pub[DocumentKey(d)].envelope.header.sourceDocument == source
  }

  /** Some stored document has this issuer and nonce. */
  ghost predicate NonceHeld(s: State, issuer: string, nonce: string) {
    exists d {:trigger DocumentKey(d) in s.pub} ::
      && DocumentKey(d) in s.pub && s.pub[DocumentKey(d)].EnvelopeValue?
      && s.pub[DocumentKey(d)].envelope.header.issuer == issuer
      && s.pub[DocumentKey(d)].envelope.header.nonce == nonce
  }

  /** Every replay key belongs to a stored document. */
  ghost predicate Replays(s: State) {
    && (forall i, d {:trigger SourceUseKey(i, d) in s.pub} :: SourceUseKey(i, d) in s.pub ==> SourceHeld(s, i, d))
    && (forall i, n {:trigger NonceKey(i, n) in s.pub} :: NonceKey(i, n) in s.pub ==> NonceHeld(s, i, n))
  }

  /** The replay keys of a plan are those of its documents. */
  ghost predicate ReplayPlan(docs: seq<Bundle>, p: Plan) {
    && (forall i, d {:trigger SourceUseKey(i, d) in p} :: SourceUseKey(i, d) in p ==>
          exists j :: 0 <= j < |docs| && docs[j].envelope.header.issuer == i
            && docs[j].envelope.header.sourceDocument == d)
    && (forall i, n {:trigger NonceKey(i, n) in p} :: NonceKey(i, n) in p ==>
          exists j :: 0 <= j < |docs| && docs[j].envelope.header.issuer == i && docs[j].envelope.header.nonce == n)
  }

  lemma {:induction false} SourceOrigin(docs: seq<Bundle>, n: nat, tx: string, i: string, d: Id)
    requires n <= |docs| && SourceUseKey(i, d) in DocPlan(docs, n, tx)
    ensures exists j :: 0 <= j < n && docs[j].envelope.header.issuer == i && docs[j].envelope.header.sourceDocument == d
  {
    var h := docs[n - 1].envelope.header;
    if h.issuer != i || h.sourceDocument != d {
      SourceOrigin(docs, n - 1, tx, i, d);
    }
  }

  lemma {:induction false} NonceOrigin(docs: seq<Bundle>, n: nat, tx: string, i: string, nonce: string)
    requires n <= |docs| && NonceKey(i, nonce) in DocPlan(docs, n, tx)
    ensures exists j :: 0 <= j < n && docs[j].envelope.header.issuer == i && docs[j].envelope.header.nonce == nonce
  {
    var h := docs[n - 1].envelope.header;
    if h.issuer != i || h.nonce != nonce {
      NonceOrigin(docs, n - 1, tx, i, nonce);
    }
  }

  lemma DocPlanReplays(docs: seq<Bundle>, tx: string)
    ensures ReplayPlan(docs, DocPlan(docs, |docs|, tx))
  {
    hide DocPlan;
    var p := DocPlan(docs, |docs|, tx);
    forall i, d | SourceUseKey(i, d) in p
      ensures exists j ::
                0 <= j < |docs| && docs[j].envelope.header.issuer == i && docs[j].envelope.header.sourceDocument == d
    {
      SourceOrigin(docs, |docs|, tx, i, d);
    }
    forall i, n | NonceKey(i, n) in p
      ensures exists j :: 0 <= j < |docs| && docs[j].envelope.header.issuer == i && docs[j].envelope.header.nonce == n
    {
      NonceOrigin(docs, |docs|, tx, i, n);
    }
  }

  lemma GatheredReplays(env: Env, s: State, c: Command, x: Execution, t: Transient, b: Batch, v: Verified)
    requires Gathered(env, s, c, x, t, b, v)
    ensures NewDocs(s, c, Submitted(c, t), v.pub) && ReplayPlan(Submitted(c, t), v.pub)
  {
    hide DocUsed, PrivFrom, DocOk, DocsDiffer, DocPlan, HasType, NewDocs, ReplayPlan;
    NewDocsFrom(env, s, c, x, t, b, v);
    DocPlanReplays(Submitted(c, t), x.tx);
  }

  /** The documents a command writes, and the replay keys that come with them; none for an analysis. */
  lemma ProvedReplays(env: Env, s: State, c: Command, x: Execution, t: Transient, b: Batch, refs: Refs, v: Verified)
    returns (docs: seq<Bundle>)
    requires Prepare(env, s, c, x, t, b, refs) == Ok(v)
    ensures !IsAnalysis(c.name) ==> NewDocs(s, c, docs, v.pub)
    ensures ReplayPlan(docs, v.pub)
  {
    hide Prepare, GatherDocuments, Gathered, NewDocs, DocPlan, ProofPlan, ReplayPlan;
    docs := Submitted(c, t);
    if IsAnalysis(c.name) {
      ProofPlanned(env, s, c, x, t, b, refs, v);
      NoReplays(s, c, x, b, refs, v, docs);
    } else {
      GatheredPub(env, s, c, x, t, b, refs);
      GatherFacts(env, s, c, x, t, b);
      GatheredReplays(env, s, c, x, t, b, GatherDocuments(env, s, c, x, t, b).value);
    }
  }

  lemma NoReplays(s: State, c: Command, x: Execution, b: Batch, refs: Refs, v: Verified, docs: seq<Bundle>)
    requires IsAnalysis(c.name) && ProofPlan(s, c, x, b, refs, v)
    ensures ReplayPlan(docs, v.pub)
  {
  }

  lemma SourceLasts(s: State, s': State, issuer: string, source: Id)
    requires SourceHeld(s, issuer, source) && Permanent(s, s')
    ensures SourceHeld(s', issuer, source)
  {
    var d :| DocumentKey(d) in s.pub && s.pub[DocumentKey(d)].EnvelopeValue?
             && s.pub[DocumentKey(d)].envelope.header.issuer == issuer
             && s.pub[DocumentKey(d)].envelope.header.sourceDocument == source;
    assert DocumentKey(d) in s'.pub;
  }

  lemma NonceLasts(s: State, s': State, issuer: string, nonce: string)
    requires NonceHeld(s, issuer, nonce) && Permanent(s, s')
    ensures NonceHeld(s', issuer, nonce)
  {
    var d :| DocumentKey(d) in s.pub && s.pub[DocumentKey(d)].EnvelopeValue?
             && s.pub[DocumentKey(d)].envelope.header.issuer == issuer
             && s.pub[DocumentKey(d)].envelope.header.nonce == nonce;
    assert DocumentKey(d) in s'.pub;
  }

  lemma DocumentHeld(s: State, s': State, c: Command, v: Verified, docs: seq<Bundle>, j: nat)
    requires NewDocs(s, c, docs, v.pub) && ProofEffect(s, s', v) && j < |docs|
    ensures SourceHeld(s', docs[j].envelope.header.issuer, docs[j].envelope.header.sourceDocument)
    ensures NonceHeld(s', docs[j].envelope.header.issuer, docs[j].envelope.header.nonce)
  {
    hide DocsDiffer;
    var d := docs[j].envelope.header.document;
    assert DocumentKey(d) in s'.pub && s'.pub[DocumentKey(d)] == EnvelopeValue(docs[j].envelope);
  }

  lemma ReplaysKept(s: State, s': State, c: Command, v: Verified, docs: seq<Bundle>)
    requires Replays(s) && Permanent(s, s') && ProofEffect(s, s', v) && ReplayPlan(docs, v.pub)
    requires IsAnalysis(c.name) ==> DocsNone(v.pub)
    requires !IsAnalysis(c.name) ==> NewDocs(s, c, docs, v.pub)
    ensures Replays(s')
  {
    hide NewDocs, Permanent, SourceHeld, NonceHeld;
    forall i, d | SourceUseKey(i, d) in s'.pub ensures SourceHeld(s', i, d) {
      if SourceUseKey(i, d) in s.pub {
        SourceLasts(s, s', i, d);
      } else {
        assert SourceUseKey(i, d) in v.pub;
        var j :| 0 <= j < |docs| && docs[j].envelope.header.issuer == i && docs[j].envelope.header.sourceDocument == d;
        DocumentHeld(s, s', c, v, docs, j);
      }
    }
    forall i, n | NonceKey(i, n) in s'.pub ensures NonceHeld(s', i, n) {
      if NonceKey(i, n) in s.pub {
        NonceLasts(s, s', i, n);
      } else {
        assert NonceKey(i, n) in v.pub;
        var j :| 0 <= j < |docs| && docs[j].envelope.header.issuer == i && docs[j].envelope.header.nonce == n;
        DocumentHeld(s, s', c, v, docs, j);
      }
    }
  }

  ghost predicate DocsNone(p: Plan) {
    forall k :: k in p ==> !k.SourceUseKey? && !k.NonceKey?
  }

  lemma AnalysisDocsNone(s: State, c: Command, x: Execution, b: Batch, refs: Refs, v: Verified)
    requires IsAnalysis(c.name) && ProofPlan(s, c, x, b, refs, v)
    ensures DocsNone(v.pub)
  {
  }

  // ------------------------------------------------------------ review actions

  /**
   * A review action is the Regulator's, of the command its receipt names: the
   * opening at version nine of the anomaly's batch, the resolution at version ten.
   */
  ghost predicate ReviewTraced(s: State, a: Id, op: Id) {
    && ActionKey(a, op) in s.priv && s.priv[ActionKey(a, op)].ActionValue?
    && AnomalyRefKey(a) in s.pub && s.pub[AnomalyRefKey(a)].EvaluationValue?
    && var action := s.priv[ActionKey(a, op)].action;
       && IsReview(action.command)
       && Receipted(s, Regulator, op, s.pub[AnomalyRefKey(a)].evaluation.batch, action.command, action.tx)
       && ReceiptVersion(s, Regulator, op) == (if action.command.OpenReview? then 9 else 10)
  }

  ghost predicate Trail(s: State) {
    forall a, op {:trigger ReviewRefKey(a, op) in s.pub} :: ReviewRefKey(a, op) in s.pub ==> ReviewTraced(s, a, op)
  }

  lemma TraceLasts(s: State, s': State, c: Command, x: Execution, version: int, a: Id, op: Id)
    requires ReviewTraced(s, a, op) && Permanent(s, s') && Sealed(s, s', c) && ReceiptsGrow(s, s', c, x, version)
    ensures ReviewTraced(s', a, op)
  {
    assert AnomalyRefKey(a) in s'.pub;
    assert ActionKey(a, op) in s'.priv;
    assert OperationKey(Regulator, op) in s'.pub;
  }

  /** A review is accepted at version eight when it opens, at version nine when it resolves. */
  lemma ReviewVersion(s: State, c: Command, x: Execution, st: Start, v: Verified)
    requires Versioned(s) && IsReview(c.name) && ProofPlan(s, c, x, st.before, st.refs, v) && ReviewMoves(s, c, v)
    requires Started(s, c, st) && st.before.id == c.batch
    ensures st.before.version == (if c.name.OpenReview? then 8 else 9)
  {
    hide BatchAt, RefsAt, LoadAnomaly;
    assert BatchAt(s, c.batch).version == VersionOf(s, c.batch);
  }

  lemma NewTrace(s: State, s': State, c: Command, x: Execution, st: Start, v: Verified)
    requires Evaluations(s) && Permanent(s, s') && ProofEffect(s, s', v)
             && ReceiptsGrow(s, s', c, x, st.before.version + 1)
    requires IsReview(c.name) && x.actor == Regulator && ProofPlan(s, c, x, st.before, st.refs, v)
             && ReviewWrites(c, x, v)
    requires st.before.id == c.batch && st.before.version == (if c.name.OpenReview? then 8 else 9)
    ensures ReviewTraced(s', c.payload.anomaly, c.op)
  {
    var a := c.payload.anomaly;
    assert EvaluationKey(c.batch) in s.pub;
    assert AnomalyRefKey(a) in s.pub && s.pub[AnomalyRefKey(a)] == s.pub[EvaluationKey(c.batch)];
    assert AnomalyRefKey(a) in s'.pub && s'.pub[AnomalyRefKey(a)] == s.pub[AnomalyRefKey(a)];
    assert ActionKey(a, c.op) in s'.priv && s'.priv[ActionKey(a, c.op)] == v.priv[ActionKey(a, c.op)];
    hide Permanent, Evaluations, ProofEffect;
  }

  lemma NoNewReview(s: State, c: Command, x: Execution, b: Batch, refs: Refs, v: Verified, a: Id, op: Id)
    requires ProofPlan(s, c, x, b, refs, v) && ReviewRefKey(a, op) in v.pub
    ensures IsReview(c.name) && a == c.payload.anomaly && op == c.op
  {
  }

  lemma TrailKept(s: State, s': State, c: Command, x: Execution, st: Start, v: Verified)
    requires Trail(s) && Versioned(s) && Evaluations(s)
    requires Permanent(s, s') && Sealed(s, s', c) && ProofEffect(s, s', v)
             && ReceiptsGrow(s, s', c, x, st.before.version + 1)
    requires ProofPlan(s, c, x, st.before, st.refs, v)
    requires IsReview(c.name) ==>
               Started(s, c, st) && st.before.id == c.batch && ReviewMoves(s, c, v) && ReviewWrites(c, x, v)
                                  && x.actor == Regulator
    ensures Trail(s')
  {
    hide Versioned, Evaluations, Permanent, Sealed, ReceiptsGrow, ProofPlan, Started, ReviewMoves, ReviewWrites,
         ReviewTraced;
    forall a, op | ReviewRefKey(a, op) in s'.pub ensures ReviewTraced(s', a, op) {
      if ReviewRefKey(a, op) in s.pub {
        TraceLasts(s, s', c, x, st.before.version + 1, a, op);
      } else {
        NoNewReview(s, c, x, st.before, st.refs, v, a, op);
        ReviewVersion(s, c, x, st, v);
        NewTrace(s, s', c, x, st, v);
      }
    }
  }

  // ------------------------------------------------------------- one command

  /** Everything that holds of a reachable ledger. */
  ghost predicate Sound(s: State) {
    Inv(s) && Named(s) && Replays(s) && Trail(s)
  }

  lemma MovedOrigins(env: Env, s: State, s': State, c: Command, x: Execution, t: Transient, st: Start, v: Verified,
                     arm: Arm)
    requires Inv(s) && Replays(s) && Trail(s)
    requires Moved(env, s, s', c, x, t, st, v, arm) && Guards(env, s, s', c, x, t, st, v, arm)
    ensures Replays(s') && Trail(s')
  {
    hide Admit, Prepare, RunArm, Admitted, ProofPlan, RecordEffect, ReceiptEffect, IndexEffect, ArmEffect, ProofEffect;
    hide Configured, Records, Indexed, History, Transfers, References, Evaluations, Consumed, Slots, Analysed,
         Versioned, Privates;
    hide Fresh, Permanent, Sealed, PrivPlan, ReferencePlan, ReceiptsGrow, Getters, NewBatch, Started, Replays, Trail;
    hide ReviewMoves, EvaluateWrites, ReviewWrites, NewDocs, ReplayPlan;
    hide DocsNone;
    var docs := ProvedReplays(env, s, c, x, t, st.before, st.refs, v);
    if IsAnalysis(c.name) {
      AnalysisDocsNone(s, c, x, st.before, st.refs, v);
    }
    ReplaysKept(s, s', c, v, docs);
    if IsReview(c.name) {
      WrittenReview(env, s, c, x, t, st.before, st.refs, v);
    }
    TrailKept(s, s', c, x, st, v);
  }

  lemma StepSound(env: Env, s: State, c: Command, x: Execution, t: Transient)
    requires Sound(s)
    ensures Sound(Step(env, s, c, x, t))
  {
    hide Apply, After, Named, Replays, Trail, Moved, Guards, Inv;
    if Apply(env, s, c, x, t).Ok? {
      var s' := Step(env, s, c, x, t);
      var st, v, arm := MovedBy(env, s, c, x, t);
      GuardsHold(env, s, s', c, x, t, st, v, arm);
      MovedOrigins(env, s, s', c, x, t, st, v, arm);
      StepKeepsInv(env, s, c, x, t);
      StepNamed(env, s, c, x, t);
    }
  }

  // --------------------------------------------------------------- bootstrap

  lemma BootstrapOrigins(s: State, actor: Msp, role: Role, cfg: Configuration)
    requires Inv(s) && Replays(s) && Bootstrap(s, actor, role, cfg).Ok?
    ensures Replays(Bootstrapped(s, actor, role, cfg)) && Trail(Bootstrapped(s, actor, role, cfg))
  {
    hide Inv, ValidId, SourcesOk, SourcePlan;
    hide Blank, Replays;
    BlankBefore(s);
    BlankReplays(s);
    SourcePlanKinds(cfg.sources);
    var s' := Bootstrapped(s, actor, role, cfg);
    forall i, d, n ensures SourceUseKey(i, d) !in s'.pub && NonceKey(i, n) !in s'.pub {
    }
    assert Replays(s') by {
      hide *;
      NoReplayKeys(s');
    }
    assert Trail(s');
  }

  lemma NoReplayKeys(s: State)
    requires forall i, d :: SourceUseKey(i, d) !in s.pub
    requires forall i, n :: NonceKey(i, n) !in s.pub
    ensures Replays(s)
  {
  }

  /** Without documents there are no replay keys either. */
  lemma BlankReplays(s: State)
    requires Blank(s) && Replays(s)
    ensures forall k :: k in s.pub ==> IsConfigKey(k)
  {
    forall d ensures DocumentKey(d) !in s.pub {
    }
    NothingHeld(s);
    hide SourceHeld, NonceHeld;
  }

  lemma NothingHeld(s: State)
    requires forall d :: DocumentKey(d) !in s.pub
    ensures forall i, d :: !SourceHeld(s, i, d)
    ensures forall i, n :: !NonceHeld(s, i, n)
  {
  }

  // -------------------------------------------------------------------- runs

  lemma ServeSound(env: Env, s: State, r: Request)
    requires Sound(s)
    ensures Sound(Serve(env, s, r))
  {
    hide Inv, Named, Replays, Trail, Step, Bootstrap, Commit;
    match r
    case Configure(actor, role, config) =>
      if Bootstrap(s, actor, role, config).Ok? {
        BootstrapKeepsInv(s, actor, role, config);
        BootstrapNamed(s, actor, role, config);
        BootstrapOrigins(s, actor, role, config);
      }
    case Invoke(c, x, t) => StepSound(env, s, c, x, t);
  }

  /** Every run leaves a sound ledger. */
  lemma NothingSound(env: Env)
    ensures Sound(EMPTY_STATE)
  {
    hide Inv, Named, Serve;
    RunInv(env, []);
    RunNamed(env, []);
    NoReplayKeys(EMPTY_STATE);
    assert Trail(EMPTY_STATE);
  }

  lemma {:induction false} RunSound(env: Env, rs: seq<Request>)
    ensures Sound(Run(env, rs))
  {
    hide Sound, Serve;
    if rs == [] {
      NothingSound(env);
    } else {
      RunSound(env, rs[..|rs| - 1]);
      ServeSound(env, Run(env, rs[..|rs| - 1]), rs[|rs| - 1]);
    }
  }

  /** Before the configuration is stored there is nothing at all on the ledger. */
  lemma {:induction false} NothingBefore(env: Env, rs: seq<Request>)
    ensures ConfigKey !in Run(env, rs).pub ==> Run(env, rs) == EMPTY_STATE
  {
    hide Serve, Inv, Extends;
    if rs != [] {
      var before := rs[..|rs| - 1];
      NothingBefore(env, before);
      RunInv(env, before);
      ServeExtends(env, Run(env, before), rs[|rs| - 1]);
      ConfigLasts(Run(env, before), Run(env, rs));
      if ConfigKey !in Run(env, before).pub {
        NothingServed(env, Run(env, before), rs[|rs| - 1]);
      }
    }
  }

  lemma ConfigLasts(s: State, s': State)
    requires Extends(s, s')
    ensures ConfigKey in s.pub ==> ConfigKey in s'.pub
  {
    hide BatchesLast, RecordsLast;
    assert Lasting(ConfigKey);
  }

  lemma BootstrapConfigures(s: State, actor: Msp, role: Role, cfg: Configuration)
    ensures ConfigKey !in Bootstrapped(s, actor, role, cfg).pub ==> Bootstrapped(s, actor, role, cfg) == s
  {
    hide ValidId, SourcesOk, SourcePlan;
  }

  lemma NothingServed(env: Env, s: State, r: Request)
    requires ConfigKey !in s.pub
    ensures ConfigKey !in Serve(env, s, r).pub ==> Serve(env, s, r) == s
  {
    hide ValidId, SourcesOk, SourcePlan, Apply, After, Commit;
    match r
    case Configure(actor, role, config) => BootstrapConfigures(s, actor, role, config);
    case Invoke(c, x, t) =>
      if Apply(env, s, c, x, t).Ok? {
        AcceptedConfigured(env, s, c, x, t);
      }
  }

  lemma AcceptedConfigured(env: Env, s: State, c: Command, x: Execution, t: Transient)
    requires Apply(env, s, c, x, t).Ok?
    ensures ConfigKey in s.pub
  {
    hide Apply, Admit, Prepare, RunArm, Finish;
    var st, v, arm := Decompose(env, s, c, x, t);
    AdmittedConfigured(env, s, c, x);
  }

  lemma AdmittedConfigured(env: Env, s: State, c: Command, x: Execution)
    requires Admit(env, s, c, x).Ok?
    ensures ConfigKey in s.pub
  {
    hide Authorize, ValidId, ValidatePayload, ContextOk, LoadStart;
  }

  /** What a reader may rely on about replay keys: each belongs to a stored document of its issuer. */
  lemma ReplaysBelong(env: Env, rs: seq<Request>, issuer: string, source: Id, nonce: string)
    ensures var s := Run(env, rs);
            && (SourceUseKey(issuer, source) in s.pub <==> SourceHeld(s, issuer, source))
            && (NonceKey(issuer, nonce) in s.pub <==> NonceHeld(s, issuer, nonce))
  {
    hide Run, Named, Trail, Configured, Records, Indexed, History, Transfers, References, Evaluations, Slots, Privates,
         Analysed, Versioned;
    RunSound(env, rs);
    var s := Run(env, rs);
    if SourceHeld(s, issuer, source) {
      var d :| DocumentKey(d) in s.pub && s.pub[DocumentKey(d)].EnvelopeValue?
               && s.pub[DocumentKey(d)].envelope.header.issuer == issuer
               && s.pub[DocumentKey(d)].envelope.header.sourceDocument == source;
      assert EnvelopeOk(s, d);
    }
    if NonceHeld(s, issuer, nonce) {
      var d :| DocumentKey(d) in s.pub && s.pub[DocumentKey(d)].EnvelopeValue?
               && s.pub[DocumentKey(d)].envelope.header.issuer == issuer
               && s.pub[DocumentKey(d)].envelope.header.nonce == nonce;
      assert EnvelopeOk(s, d);
    }
  }

  // ---------------------------------------------------------- review history

  /** The stored action of this operation is of this command, with the batch's receipt at this version. */
  ghost predicate ActionAt(s: State, id: Id, a: Id, op: Id, command: CommandName, version: int) {
    && ActionKey(a, op) in s.priv && s.priv[ActionKey(a, op)].ActionValue?
    && s.priv[ActionKey(a, op)].action.command == command
    && Receipted(s, Regulator, op, id, command, s.priv[ActionKey(a, op)].action.tx)
    && ReceiptVersion(s, Regulator, op) == version
  }

  /** Two receipts of one batch at one version are one. */
  lemma OneAtVersion(s: State, id: Id, op: Id, op2: Id, command: CommandName, command2: CommandName, tx: string,
                     tx2: string)
    requires History(s)
    requires Receipted(s, Regulator, op, id, command, tx) && Receipted(s, Regulator, op2, id, command2, tx2)
    requires ReceiptVersion(s, Regulator, op) == ReceiptVersion(s, Regulator, op2)
    ensures op == op2
  {
    assert OperationKey(Regulator, op) in s.pub && OperationKey(Regulator, op2) in s.pub;
  }

  lemma VersionReached(s: State, id: Id, op: Id, command: CommandName, tx: string)
    requires History(s) && Receipted(s, Regulator, op, id, command, tx)
    ensures BatchKey(id) in s.pub && ReceiptVersion(s, Regulator, op) <= BatchAt(s, id).version
  {
    assert OperationKey(Regulator, op) in s.pub;
    var r := s.pub[OperationKey(Regulator, op)].receipt;
    assert HistoryKey(r.batch, r.version) in s.pub;
    hide BatchAt;
  }

  /** An action of an evaluated batch is its opening or its resolution. */
  /** The batch is evaluated, by this anomaly. */
  ghost predicate Evaluates(s: State, id: Id, a: Id) {
    && EvaluationKey(id) in s.pub && s.pub[EvaluationKey(id)].EvaluationValue?
    && s.pub[EvaluationKey(id)].evaluation.anomaly == a
  }

  lemma ActionOf(s: State, id: Id, a: Id, op: Id)
    requires Trail(s) && Evaluations(s) && Evaluates(s, id, a) && op in ReviewsOf(s, a)
    ensures ActionAt(s, id, a, op, OpenReview, 9) || ActionAt(s, id, a, op, ResolveReview, 10)
  {
    hide BatchAt, RefsAt;
    hide ReviewsOf;
    InReviews(s, a, op);
    assert ReviewTraced(s, a, op);
    assert AnomalyRefKey(a) in s.pub;
  }

  lemma EvaluatedVersion(s: State, id: Id) returns (a: Id, record: AnomalyRecord)
    requires Inv(s) && EvaluationKey(id) in s.pub
    ensures Evaluates(s, id, a) && LoadAnomaly(s, a) == Ok(record)
    ensures BatchAt(s, id).version == 8 + ReviewSteps(record.review) && |ReviewsOf(s, a)| == ReviewSteps(record.review)
  {
    hide Configured, Indexed, History, Transfers, References, Consumed, Slots, Privates;
    hide LoadAnomaly, Derived, ReviewsOf, BatchAt, RefsAt;
    assert Scored(s, id);
    assert RecordOk(s, id);
    assert BatchAt(s, id).version == VersionOf(s, id);
    a := s.pub[EvaluationKey(id)].evaluation.anomaly;
    record := LoadAnomaly(s, a).value;
  }

  lemma OneElement<T>(s: set<T>) returns (x: T)
    requires |s| == 1
    ensures s == {x}
  {
    x :| x in s;
    assert |s - {x}| == 0;
  }

  lemma TwoElements<T>(s: set<T>) returns (x: T, y: T)
    requires |s| == 2
    ensures s == {x, y} && x != y
  {
    x :| x in s;
    y := OneElement(s - {x});
    assert s == (s - {x}) + {x};
  }

  /** The review actions of a batch, as its anomaly's state tells them. */
  ghost predicate ReviewHistory(s: State, id: Id, a: Id, review: ReviewState) {
    match review
    case NotRequired | Open => ReviewsOf(s, a) == {}
    case InReview => exists op :: ReviewsOf(s, a) == {op} && ActionAt(s, id, a, op, OpenReview, 9)
    case Resolved =>
      exists op, op2 :: op != op2 && ReviewsOf(s, a) == {op, op2}
                        && ActionAt(s, id, a, op, OpenReview, 9) && ActionAt(s, id, a, op2, ResolveReview, 10)
  }

  lemma FirstReview(s: State, id: Id, a: Id)
    requires Sound(s) && Evaluates(s, id, a) && |ReviewsOf(s, a)| == 1 && BatchAt(s, id).version == 9
    ensures ReviewHistory(s, id, a, InReview)
  {
    hide Configured, Records, Indexed, Transfers, References, Consumed, Slots, Privates, Analysed, Versioned, Named,
         Replays;
    hide History, Evaluations, Trail, ReviewsOf, BatchAt;
    var op := OneElement(ReviewsOf(s, a));
    ActionOf(s, id, a, op);
    if ActionAt(s, id, a, op, ResolveReview, 10) {
      VersionReached(s, id, op, ResolveReview, s.priv[ActionKey(a, op)].action.tx);
    }
    hide Receipted, ReceiptVersion;
  }

  lemma BothReviews(s: State, id: Id, a: Id)
    requires Sound(s) && Evaluates(s, id, a) && |ReviewsOf(s, a)| == 2
    ensures ReviewHistory(s, id, a, Resolved)
  {
    hide Configured, Records, Indexed, Transfers, References, Consumed, Slots, Privates, Analysed, Versioned, Named,
         Replays;
    hide History, Evaluations, Trail, ReviewsOf, Receipted, ReceiptVersion;
    var op, op2 := TwoElements(ReviewsOf(s, a));
    ActionOf(s, id, a, op);
    ActionOf(s, id, a, op2);
    if ActionAt(s, id, a, op, OpenReview, 9) && ActionAt(s, id, a, op2, OpenReview, 9) {
      OneAtVersion(s, id, op, op2, OpenReview, OpenReview, s.priv[ActionKey(a, op)].action.tx,
                   s.priv[ActionKey(a, op2)].action.tx);
    } else if ActionAt(s, id, a, op, ResolveReview, 10) && ActionAt(s, id, a, op2, ResolveReview, 10) {
      OneAtVersion(s, id, op, op2, ResolveReview, ResolveReview, s.priv[ActionKey(a, op)].action.tx,
                   s.priv[ActionKey(a, op2)].action.tx);
    } else if ActionAt(s, id, a, op, ResolveReview, 10) {
      assert ReviewsOf(s, a) == {op2, op};
    }
  }

  /**
   * The review history of an evaluated batch is told by its state: nothing, one
   * opening at version nine, or that and one resolution at version ten.
   */
  lemma ReviewsTraced(env: Env, rs: seq<Request>, id: Id)
    ensures ReviewTold(Run(env, rs), id)
  {
    hide *;
    RunSound(env, rs);
    SoundTraced(Run(env, rs), id);
  }

  /** An evaluated batch has an anomaly record, whose review state tells its review history. */
  ghost predicate ReviewTold(s: State, id: Id) {
    EvaluationKey(id) in s.pub ==>
      && s.pub[EvaluationKey(id)].EvaluationValue?
      && var a := s.pub[EvaluationKey(id)].evaluation.anomaly;
         LoadAnomaly(s, a).Ok? && ReviewHistory(s, id, a, LoadAnomaly(s, a).value.review)
  }

  lemma SoundTraced(s: State, id: Id)
    requires Sound(s)
    ensures ReviewTold(s, id)
  {
    hide Inv, Named, Replays, Trail, LoadAnomaly, BatchAt;
    if EvaluationKey(id) in s.pub {
      var a, record := EvaluatedVersion(s, id);
      match record.review
      case InReview => FirstReview(s, id, a);
      case Resolved => BothReviews(s, id, a);
      case _ =>
        hide ReviewsOf;
        assert |ReviewsOf(s, a)| == 0;
    }
  }
}
