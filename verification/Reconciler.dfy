/** The worker that asks for the evaluation of every projected, unevaluated batch. */
module Reconciler {
  import opened Types
  import opened Price
  import opened Evidence
  import opened Engine
  import opened Invariants
  import opened Preserve
  import opened Provenance
  import opened Runs
  import opened Guarantees
  import opened Origins
  import opened Progress
  import opened Liveness
  import N = Network
  import J = Journal
  import opened W = Workflow
  import P = Projection

  // ==========================================================================
  // The backend's part in an evaluation: the proposal it computes and the command it derives from
  // what it reads.

  // ------------------------------------------------------------------ queries

  function ReadBatch(s: State, id: Id): Result<Batch> {
    if !ValidId(id, "BAT") then Err(InvalidIdentifier)
    else if BatchKey(id) !in s.pub then Err(BatchNotFound)
    else match s.pub[BatchKey(id)]
      case BatchValue(b) => Ok(b)
      case _ => Err(InternalError)
  }

  /** The slots that the private queries go through; a batch without any has empty ones. */
  function ReadSlots(s: State, id: Id): Result<Refs> {
    var _ :- ReadBatch(s, id);
    :- Need(RefsKey(id) in s.pub ==> s.pub[RefsKey(id)].RefsValue?, InternalError);
    Ok(RefsAt(s, id))
  }

  function ReadPurchase(s: State, id: Id): Result<Body> {
    var r :- ReadSlots(s, id);
    LoadPurchase(s, r.purchase)
  }

  function ReadFreight(s: State, id: Id): Result<CostRecord> {
    var r :- ReadSlots(s, id);
    LoadCost(s, r.freight)
  }

  function ReadReport(s: State, id: Id): Result<RetailRecord> {
    var r :- ReadSlots(s, id);
    LoadReport(s, r.report)
  }

  /** GetAnomaly, as far as the reconciler looks at it: is the evaluation still pending? */
  function ReadPending(s: State, id: Id): Result<bool> {
    var _ :- ReadBatch(s, id);
    if EvaluationKey(id) !in s.pub then Ok(true)
    else
      :- Need(s.pub[EvaluationKey(id)].EvaluationValue?, InternalError);
      var _ :- LoadAnomaly(s, s.pub[EvaluationKey(id)].evaluation.anomaly);
      Ok(false)
  }

  // ------------------------------------------------------------ the proposal

  /** The configured percentage in basis points: a decimal number with at most two decimals, in range. */
  function ConfiguredThreshold(percent: Option<real>): Result<int> {
    match percent
    case None => Err(PolicyMismatch)
    case Some(value) =>
      var points := value * 100.0;
      if points.Floor as real == points && ThresholdOk(points.Floor) then Ok(points.Floor) else Err(PolicyMismatch)
  }

  /** The threshold is the configured percentage with two decimals, from 0 to 1000 per cent; all else is refused. */
  lemma ThresholdConfigured(percent: Option<real>, n: int)
    ensures ConfiguredThreshold(percent) == Ok(n)
            <==> 0 <= n <= 100_000 && percent == Some(n as real / 100.0)
    ensures ConfiguredThreshold(percent).Err? ==> ConfiguredThreshold(percent) == Err(PolicyMismatch)
  {
    match percent
    case None =>
    case Some(value) =>
      if value == n as real / 100.0 {
        assert value * 100.0 == n as real;
      }
      if ConfiguredThreshold(percent) == Ok(n) {
        assert value * 100.0 == n as real;
      }
  }

  /** What the three records have in common. */
  datatype Terms = Terms(currency: Currency, tax: Tax, quantity: int)

  predicate TermsOk(t: Terms, quantity: int) {
    t.currency == Try && t.tax == ExcludingTax && t.quantity == quantity
  }

  function TermsOf(p: Body, r: RetailRecord, k: CostRecord): seq<Terms>
    requires p.PurchaseBody?
  {
    [Terms(p.currency, p.tax, p.quantity), Terms(r.input.currency, r.input.tax, r.quantity),
     Terms(k.currency, k.tax, k.quantity)]
  }

  /** The proposed score from the four records, each as it was read. */
  function Proposal(percent: Option<real>, cfg: Configuration, p: Body, r: RetailRecord, k: CostRecord): Result<Score>
    requires p.PurchaseBody?
  {
    var configured :- ConfiguredThreshold(percent);
    :- Need(cfg.threshold == configured && r.policy == cfg.policy, PolicyMismatch);
    :- Need(forall t :: t in TermsOf(p, r, k) ==> TermsOk(t, r.quantity), SourceBindingMismatch);
    :- Need(k.total >= 0, InvalidMoney);
    BackendScore(p.price, r.input.price, cfg.threshold)
  }

  /** When the backend proposes a score: its percentage and policy are the ledger's, and the records agree. */
  predicate Proposes(percent: Option<real>, cfg: Configuration, p: Body, r: RetailRecord, k: CostRecord, score: Score) {
    && percent == Some(cfg.threshold as real / 100.0) && r.policy == cfg.policy
    && p.PurchaseBody?
    && p.currency == Try && r.input.currency == Try && k.currency == Try
    && p.tax == ExcludingTax && r.input.tax == ExcludingTax && k.tax == ExcludingTax
    && p.quantity == r.quantity == k.quantity && k.total >= 0
    && PriceScore(p.price, r.input.price, cfg.threshold) == Ok(score)
  }

  /** A proposed score is the ledger's own price rule on agreeing records, and is proposed for every such records. */
  lemma ProposalIff(percent: Option<real>, cfg: Configuration, p: Body, r: RetailRecord, k: CostRecord, score: Score)
    requires p.PurchaseBody?
    ensures Proposal(percent, cfg, p, r, k) == Ok(score) <==> Proposes(percent, cfg, p, r, k, score)
  {
    hide ConfiguredThreshold, PriceScore, BackendScore;
    ThresholdConfigured(percent, cfg.threshold);
    ScoreRefused(p.price, r.input.price, cfg.threshold);
    ImplementationsAgree(p.price, r.input.price, cfg.threshold);
    var a, b, c := Terms(p.currency, p.tax, p.quantity), Terms(r.input.currency, r.input.tax, r.quantity),
                   Terms(k.currency, k.tax, k.quantity);
    assert TermsOf(p, r, k) == [a, b, c];
    assert a in [a, b, c] && b in [a, b, c] && c in [a, b, c];
  }

  /** The check of the three records, one after the other. */
  method CheckTerms(terms: seq<Terms>, quantity: int) returns (ok: bool)
    ensures ok <==> forall t :: t in terms ==> TermsOk(t, quantity)
  {
    for i := 0 to |terms|
      invariant forall t :: t in terms[..i] ==> TermsOk(t, quantity)
    {
      assert terms[i] in terms;
      if !TermsOk(terms[i], quantity) {
        return false;
      }
      assert terms[..i + 1] == terms[..i] + [terms[i]];
    }
    assert terms[..|terms|] == terms;
    ok := true;
  }

  /** The proposal as the backend computes it from the four answers, check by check. */
  method ComputeProposal(percent: Option<real>, cfg: Configuration, p: Body, r: RetailRecord, k: CostRecord)
    returns (proposed: Result<Score>)
    requires p.PurchaseBody?
    ensures proposed == Proposal(percent, cfg, p, r, k)
    ensures forall score :: proposed == Ok(score) <==> Proposes(percent, cfg, p, r, k, score)
  {
    hide BackendScore, Proposes;
    forall score
      ensures Proposal(percent, cfg, p, r, k) == Ok(score) <==> Proposes(percent, cfg, p, r, k, score)
    {
      ProposalIff(percent, cfg, p, r, k, score);
    }
    var configured := ConfiguredThreshold(percent);
    if configured.Err? || cfg.threshold != configured.value || r.policy != cfg.policy {
      return Err(PolicyMismatch);
    }
    var ok := CheckTerms(TermsOf(p, r, k), r.quantity);
    if !ok {
      return Err(SourceBindingMismatch);
    }
    if k.total < 0 {
      return Err(InvalidMoney);
    }
    proposed := BackendScore(p.price, r.input.price, cfg.threshold);
  }

  // ------------------------------------------------------- records that stand

  /** The batch is reported. */
  ghost predicate Reported(s: State, id: Id) {
    BatchKey(id) in s.pub && BatchAt(s, id).state.RetailReported?
  }

  /** A later sound ledger. */
  ghost predicate Follows(s: State, s': State) {
    Sound(s') && Extends(s, s')
  }

  /** A sound ledger keeps the invariant, and its batch ids are well formed. */
  lemma SoundParts(s: State, id: Id)
    requires Sound(s)
    ensures Inv(s) && (BatchKey(id) in s.pub ==> ValidId(id, "BAT"))
  {
    hide Inv, Replays, Trail, ValidId, SourcesStored;
    assert BatchKey(id) in s.pub ==> KeyNamed(BatchKey(id));
  }

  /** The two ledgers give the same records for this batch. */
  ghost predicate SameRecords(s: State, s': State, id: Id) {
    var r, r' := RefsAt(s, id), RefsAt(s', id);
    && r'.purchase == r.purchase && r'.freight == r.freight && r'.report == r.report
    && BatchAt(s', id).quantity == BatchAt(s, id).quantity
    && LoadConfig(s') == LoadConfig(s) && LoadPurchase(s', r.purchase) == LoadPurchase(s, r.purchase)
    && LoadCost(s', r.freight) == LoadCost(s, r.freight) && LoadReport(s', r.report) == LoadReport(s, r.report)
  }

  lemma LoadsLast(s: State, s': State, purchase: Id, freight: Id, report: Id)
    requires Extends(s, s')
    ensures LoadConfig(s).Ok? ==> LoadConfig(s') == LoadConfig(s)
    ensures LoadPurchase(s, purchase).Ok? ==> LoadPurchase(s', purchase) == LoadPurchase(s, purchase)
    ensures LoadCost(s, freight).Ok? ==> LoadCost(s', freight) == LoadCost(s, freight)
    ensures LoadReport(s, report).Ok? ==> LoadReport(s', report) == LoadReport(s, report)
  {
    hide BatchesLast;
    assert Lasting(ConfigKey);
    var p, k, x := OpeningKey(TradeCollection, purchase), CostKey(freight), ReportKey(report);
    assert p in s.priv ==> SameRecord(s.priv[p], s'.priv[p]);
    assert k in s.priv ==> SameRecord(s.priv[k], s'.priv[k]);
    assert x in s.priv ==> SameRecord(s.priv[x], s'.priv[x]);
  }

  /** From its report on, a batch stays reported and its records stay as they are. */
  lemma RecordsStand(s: State, s': State, id: Id)
    requires Sound(s) && Follows(s, s') && Reported(s, id)
    ensures Reported(s', id) && SameRecords(s, s', id) && Consistent(s', BatchAt(s', id), RefsAt(s', id))
  {
    hide Sound;
    hide Inv, Extends, LoadConfig, LoadPurchase, LoadCost, LoadReport, BatchAt, RefsAt;
    SoundParts(s, id);
    SoundParts(s', id);
    ReportedConsistent(s, id);
    var r := RefsAt(s, id);
    LoadsLast(s, s', r.purchase, r.freight, r.report);
    StaysReported(s, s', id);
    ReportedConsistent(s', id);
  }

  lemma StaysReported(s: State, s': State, id: Id)
    requires Extends(s, s') && Reported(s, id)
    ensures Reported(s', id)
    ensures SlotsGrow(RefsAt(s, id), RefsAt(s', id)) && BatchAt(s', id).quantity == BatchAt(s, id).quantity
  {
    hide KeysLast, RecordsLast, BatchAt, RefsAt;
  }

  /** On a reported batch every query answers. */
  lemma ReadsAnswer(s: State, id: Id)
    requires Sound(s) && Reported(s, id)
    ensures var r := RefsAt(s, id);
            && ReadBatch(s, id) == Ok(BatchAt(s, id)) && ReadPurchase(s, id) == LoadPurchase(s, r.purchase)
            && ReadFreight(s, id) == LoadCost(s, r.freight) && ReadReport(s, id) == LoadReport(s, r.report)
            && LoadPurchase(s, r.purchase).Ok? && LoadCost(s, r.freight).Ok? && LoadReport(s, r.report).Ok?
            && ReadPending(s, id) == Ok(EvaluationKey(id) !in s.pub)
  {
    hide Sound, LoadConfig, LoadPurchase, LoadCost, LoadReport, LoadAnomaly, ValidId, MoneyOk;
    hide Configured, Records, Indexed, History, Transfers, References, Evaluations, Consumed, Slots, Privates, Analysed,
         Versioned;
    SoundParts(s, id);
    ReportedConsistent(s, id);
    StoredRecords(s, id);
  }

  lemma StoredRecords(s: State, id: Id)
    requires Records(s) && Analysed(s) && BatchKey(id) in s.pub
    ensures s.pub[BatchKey(id)].BatchValue? && RefsKey(id) in s.pub && s.pub[RefsKey(id)].RefsValue?
    ensures EvaluationKey(id) in s.pub ==>
              s.pub[EvaluationKey(id)].EvaluationValue?
                && LoadAnomaly(s, s.pub[EvaluationKey(id)].evaluation.anomaly).Ok?
  {
    hide LifecycleOk, LoadAnomaly, Derived, ReviewsOf;
    assert RecordOk(s, id);
    if EvaluationKey(id) in s.pub {
      assert Scored(s, id);
    }
  }

  /**
   * The proposal from consistent records is the ledger's one score, or a policy
   * mismatch of the configured percentage.
   */
  lemma ProposalDecided(percent: Option<real>, s: State, b: Batch, r: Refs)
    requires Consistent(s, b, r)
    ensures Proposal(percent, LoadConfig(s).value, LoadPurchase(s, r.purchase).value, LoadReport(s, r.report).value,
                     LoadCost(s, r.freight).value)
            == if percent == Some(LoadConfig(s).value.threshold as real / 100.0) then TheScore(s, r)
              else Err(PolicyMismatch)
    ensures TheScore(s, r).Ok?
  {
    hide LoadPurchase, LoadReport, LoadCost, LoadConfig, PriceScore, BackendScore, ConfiguredThreshold;
    ThresholdConfigured(percent, LoadConfig(s).value.threshold);
    var p, x, k, threshold := LoadPurchase(s, r.purchase).value, LoadReport(s, r.report).value,
      LoadCost(s, r.freight).value, LoadConfig(s).value.threshold;
    ImplementationsAgree(p.price, x.input.price, threshold);
    ScoreDefined(p.price, x.input.price, threshold);
  }

  /** A proposal made of reads at any four times after the report. */
  function ProposalAt(percent: Option<real>, s1: State, s2: State, s3: State, s4: State, id: Id): Result<Score> {
    var cfg :- LoadConfig(s1);
    var p :- ReadPurchase(s2, id);
    :- Need(p.PurchaseBody?, InvalidSchema);
    var r :- ReadReport(s3, id);
    var k :- ReadFreight(s4, id);
    Proposal(percent, cfg, p, r, k)
  }

  predicate Invoiced(p: Result<Body>) {
    match p
    case Ok(body) => body.PurchaseBody?
    case Err(_) => false
  }

  /** The configured percentage is the ledger's threshold, which counts hundredths of a per cent. */
  predicate PercentFits(percent: Option<real>, s: State) {
    match LoadConfig(s)
    case Ok(cfg) => percent == Some(cfg.threshold as real / 100.0)
    case Err(_) => false
  }

  /** The score the ledger demands of an evaluation, if the configured percentage is its own. */
  function Due(percent: Option<real>, s: State, id: Id): Result<Score> {
    if PercentFits(percent, s) then TheScore(s, RefsAt(s, id)) else Err(PolicyMismatch)
  }

  /** What is read of a reported batch is what was there when it was reported. */
  lemma ReadsStand(s: State, u: State, id: Id)
    requires Sound(s) && Reported(s, id) && Follows(s, u)
    ensures var r := RefsAt(s, id);
            && ReadPurchase(u, id) == LoadPurchase(s, r.purchase) && LoadPurchase(s, r.purchase).Ok?
            && ReadFreight(u, id) == LoadCost(s, r.freight) && LoadCost(s, r.freight).Ok?
            && ReadReport(u, id) == LoadReport(s, r.report) && LoadReport(s, r.report).Ok?
            && LoadConfig(u) == LoadConfig(s) && LoadConfig(s).Ok?
            && Invoiced(LoadPurchase(s, r.purchase))
            && TheScore(u, RefsAt(u, id)) == TheScore(s, r) && TheScore(s, r).Ok?
  {
    hide Sound, Inv, Extends, LoadConfig, LoadPurchase, LoadCost, LoadReport, BatchAt, RefsAt, PriceScore;
    hide ReadPurchase, ReadReport, ReadFreight, ReadBatch, ReadPending;
    SoundParts(s, id);
    ReportedConsistent(s, id);
    ScoreStored(s, BatchAt(s, id), RefsAt(s, id));
    RecordsStand(s, u, id);
    ReadsAnswer(u, id);
  }

  /**
   * Once a batch is reported, a proposal has one value, whenever its four reads
   * are made and whatever ledger it will meet: the score that ledger demands, or
   * a policy mismatch exactly when the configured percentage is not the ledger's.
   */
  lemma ProposalStands(percent: Option<real>, s: State, s1: State, s2: State, s3: State, s4: State, s': State, id: Id)
    requires Sound(s) && Reported(s, id)
    requires Follows(s, s1) && Follows(s, s2) && Follows(s, s3) && Follows(s, s4) && Follows(s, s')
    ensures TheScore(s', RefsAt(s', id)).Ok? && ProposalAt(percent, s1, s2, s3, s4, id) == Due(percent, s', id)
  {
    hide Follows, Sound, Inv, LoadConfig, LoadPurchase, LoadCost, LoadReport, BatchAt, RefsAt, Proposal, PriceScore,
         Consistent;
    hide ReadPurchase, ReadReport, ReadFreight;
    SoundParts(s, id);
    ReadsStand(s, s1, id);
    ReadsStand(s, s2, id);
    ReadsStand(s, s3, id);
    ReadsStand(s, s4, id);
    ReadsStand(s, s', id);
    ReportedConsistent(s, id);
    ProposalDecided(percent, s, BatchAt(s, id), RefsAt(s, id));
  }

  // --------------------------------------------------------- derived commands

  /** The digest of a batch id and a version, as the reconciler puts it into ids, and the size of a request's text. */
  datatype Naming = Naming(suffix: (Id, int) -> string, size: Command -> nat)

  function EvaluationOf(names: Naming, id: Id, version: int, report: Id): Command {
    var suffix := names.suffix(id, version);
    Command(EvaluatePrice, Id("OP-" + suffix), id, version, EvaluateInput(Id("ANM-" + suffix), report))
  }

  /** The command derived for one batch from three reads made one after the other; none when an evaluation was found. */
  function DerivedAt(names: Naming, s1: State, s2: State, s3: State, id: Id): Result<Option<Command>> {
    var pending :- ReadPending(s1, id);
    if !pending then Ok(None)
    else
      var b :- ReadBatch(s2, id);
      var r :- ReadReport(s3, id);
      Ok(Some(EvaluationOf(names, id, b.version, r.report)))
  }

  lemma ReportNamed(s: State, report: Id)
    requires Guarded(s) && References(s) && LoadReport(s, report).Ok?
    ensures report != NO_ID
  {
    hide BatchAt, RefsAt, Referred;
    assert Counterpart(s, ReportKey(report));
  }

  /** A report record under its own id. */
  predicate ReportsItself(record: Result<RetailRecord>, report: Id) {
    match record
    case Ok(r) => r.report == report
    case Err(_) => false
  }

  lemma StoredReport(s: State, id: Id)
    requires Opened(s, id) && RefsAt(s, id).report != NO_ID
    ensures ReportsItself(LoadReport(s, RefsAt(s, id).report), RefsAt(s, id).report)
  {
    hide PurchaseStored, CostStored, BatchAt, RefsAt, LoadConfig, LoadReport;
  }

  /** A report that can be read is the batch's own, and makes the batch a reported one. */
  lemma ReportRead(s: State, id: Id)
    requires Inv(s) && ReadReport(s, id).Ok?
    ensures Reported(s, id) && ValidId(id, "BAT") && ReadReport(s, id) == LoadReport(s, RefsAt(s, id).report)
    ensures ReportsItself(LoadReport(s, RefsAt(s, id).report), RefsAt(s, id).report)
  {
    hide Configured, Indexed, History, Transfers, References, Evaluations, Consumed, Slots, Analysed, Versioned,
         Guarded, Opened;
    hide ValidId, BatchAt, RefsAt, LoadReport;
    ReportNamed(s, RefsAt(s, id).report);
    StoredReport(s, id);
    assert RecordOk(s, id);
  }

  /** The command names the batch's own report. */
  predicate NamesReport(s: State, c: Command) {
    match c.payload
    case EvaluateInput(_, report) => report == RefsAt(s, c.batch).report
    case _ => false
  }

  /** An accepted evaluation finds its batch at version seven, unevaluated, and names its report. */
  lemma EvaluationAccepted(env: Env, s: State, c: Command, x: Execution, t: Transient)
    requires Inv(s) && Apply(env, s, c, x, t).Ok? && c.name.EvaluatePrice?
    ensures c.expected == 7 && Reported(s, c.batch) && EvaluationKey(c.batch) !in s.pub && NamesReport(s, c)
  {
    hide Inv, Apply, TheScore, WellPosed, ReadSalt;
    AcceptedReady(env, s, c, x, t);
    EvaluateIff(env, s, c, x, t);
    VersionBounds(s, c.batch);
  }

  lemma AcceptedReady(env: Env, s: State, c: Command, x: Execution, t: Transient)
    requires Inv(s) && Apply(env, s, c, x, t).Ok? && !c.name.CreateBatch?
    ensures Ready(env, s, c, x) && LifecycleOk(c.batch, BatchAt(s, c.batch), RefsAt(s, c.batch))
  {
    hide Apply, Admit, Prepare, RunArm, WellPosed, LifecycleOk, After, ProofPlan, RecordEffect, ReceiptEffect,
         IndexEffect, ArmEffect, ProofEffect;
    hide Configured, Indexed, History, Transfers, References, Evaluations, Consumed, Slots, Privates, Analysed,
         Versioned;
    var st, v, arm := MovedBy(env, s, c, x, t);
    AdmittedPosed(env, s, c, x);
    assert RecordOk(s, c.batch);
  }

  lemma AdmittedPosed(env: Env, s: State, c: Command, x: Execution)
    requires Admit(env, s, c, x).Ok?
    ensures WellPosed(env, c, x)
  {
    hide Authorize, ValidId, ValidatePayload, ContextOk, LoadConfig, LoadStart;
  }

  /** Version seven is exactly: reported and not evaluated. */
  lemma SevenMeans(s: State, id: Id)
    requires Inv(s) && BatchKey(id) in s.pub
    ensures BatchAt(s, id).version == 7 <==> Reported(s, id) && EvaluationKey(id) !in s.pub
  {
    hide Configured, Indexed, History, Transfers, References, Evaluations, Consumed, Slots, Analysed, Privates;
    hide BatchAt, RefsAt, AnalysisSteps, LifecycleOk;
    StepsBound(s, id);
    if EvaluationKey(id) in s.pub {
      EvaluationCounts(s, id);
      EvaluatedIsReported(s, id);
    }
    assert RecordOk(s, id);
    SevenIs(id, BatchAt(s, id), RefsAt(s, id), AnalysisSteps(s, id), EvaluationKey(id) in s.pub);
  }

  lemma SevenIs(id: Id, b: Batch, r: Refs, steps: int, evaluated: bool)
    requires LifecycleOk(id, b, r) && b.version == Rank(b.state) + (if r.freight != NO_ID then 1 else 0) + steps
    requires if evaluated then steps >= 1 && b.state.RetailReported? else steps == 0
    ensures b.version == 7 <==> b.state.RetailReported? && !evaluated
  {
  }

  lemma EvaluationCounts(s: State, id: Id)
    requires Evaluations(s) && EvaluationKey(id) in s.pub
    ensures AnalysisSteps(s, id) >= 1
  {
    hide LoadAnomaly, BatchAt, RefsAt;
  }

  /** Three successive reads led to this command. */
  ghost predicate Derives(names: Naming, s1: State, s2: State, s3: State, id: Id, c: Command) {
    Sound(s1) && Follows(s1, s2) && Follows(s2, s3) && DerivedAt(names, s1, s2, s3, id) == Ok(Some(c))
  }

  /**
   * The three reads may straddle anything. The derived command is the one
   * canonical evaluation of the batch exactly when the batch was read reported
   * and unevaluated.
   */
  lemma DerivedCanonical(names: Naming, s1: State, s2: State, s3: State, id: Id, c: Command)
    requires Derives(names, s1, s2, s3, id, c)
    ensures c.name.EvaluatePrice? && c.batch == id && c.payload.EvaluateInput? && Sound(s3) && Reported(s3, id)
    ensures c.expected == 7 <==> Reported(s2, id) && EvaluationKey(id) !in s2.pub
    ensures c == EvaluationOf(names, id, c.expected, RefsAt(s3, id).report)
  {
    hide Sound, Inv, Extends, BatchAt, RefsAt, ReadReport, ReadPending, ValidId;
    SoundParts(s2, id);
    SoundParts(s3, id);
    ReportRead(s3, id);
    BatchRead(s2, id);
    SevenMeans(s2, id);
  }

  lemma BatchRead(s: State, id: Id)
    requires ReadBatch(s, id).Ok?
    ensures BatchKey(id) in s.pub && ReadBatch(s, id).value == BatchAt(s, id)
  {
    hide ValidId;
  }

  /** Any other derived command is refused by every later ledger, whoever submits it with whatever inputs. */
  lemma OthersRefused(env: Env, names: Naming, s1: State, s2: State, s3: State, id: Id, c: Command,
                      s: State, x: Execution, t: Transient)
    requires Derives(names, s1, s2, s3, id, c) && Follows(s3, s) && !(Reported(s2, id) && EvaluationKey(id) !in s2.pub)
    ensures Apply(env, s, c, x, t).Err?
  {
    hide Sound, Inv, Extends, Apply, Derives, Reported, BatchAt, RefsAt, EvaluationOf, ValidId;
    DerivedCanonical(names, s1, s2, s3, id, c);
    SoundParts(s, id);
    if Apply(env, s, c, x, t).Ok? {
      EvaluationAccepted(env, s, c, x, t);
    }
  }

  /** The race is real: reads on the two sides of any accepted evaluation derive a command for version eight. */
  lemma StraddledReads(env: Env, names: Naming, s: State, c: Command, x: Execution, t: Transient)
    requires Sound(s) && Apply(env, s, c, x, t).Ok? && c.name.EvaluatePrice?
    ensures var s' := Step(env, s, c, x, t);
            && Derives(names, s, s', s', c.batch, EvaluationOf(names, c.batch, 8, RefsAt(s', c.batch).report))
            && EvaluationKey(c.batch) in s'.pub
  {
    hide Apply, Sound, Inv, Extends, Step, BatchAt, RefsAt, ReadPending, ReadBatch, ReadReport, LoadReport,
         LoadPurchase, LoadCost;
    var s', id := Step(env, s, c, x, t), c.batch;
    StepSound(env, s, c, x, t);
    SoundParts(s, id);
    SoundParts(s', id);
    StepExtends(env, s, c, x, t);
    EvaluationAccepted(env, s, c, x, t);
    AcceptedVersion(env, s, c, x, t);
    VersionStep(env, s, c, x, t, id);
    RecordsStand(s, s', id);
    ReadsAnswer(s, id);
    ReadsAnswer(s', id);
    ReportRead(s', id);
    ExtendsItself(s');
    SevenMeans(s', id);
  }

  /**
   * Whatever reconciliation passes derive for one batch, at whatever times: all that
   * can be accepted is one command.
   */
  lemma OneCommand(names: Naming, a1: State, a2: State, a3: State, c: Command, b1: State, b2: State, b3: State,
                   d: Command, id: Id)
    requires Derives(names, a1, a2, a3, id, c) && Derives(names, b1, b2, b3, id, d) && Follows(a3, b3)
    requires Reported(a2, id) && EvaluationKey(id) !in a2.pub && Reported(b2, id) && EvaluationKey(id) !in b2.pub
    ensures c == d
  {
    hide Sound, Inv, Extends, DerivedAt, Reported, EvaluationOf;
    DerivedCanonical(names, a1, a2, a3, id, c);
    DerivedCanonical(names, b1, b2, b3, id, d);
    RecordsStand(a3, b3, id);
  }

  /** After one accepted evaluation every other evaluation of the batch is refused for ever. */
  lemma EvaluatedOnce(env: Env, rs: seq<Request>, more: seq<Request>, c: Command, x: Execution, t: Transient,
                      c2: Command, x2: Execution, t2: Transient)
    requires c.name.EvaluatePrice? && c2.name.EvaluatePrice? && c2.batch == c.batch
    requires Apply(env, Run(env, rs), c, x, t).Ok?
    ensures Apply(env, Run(env, rs + [Invoke(c, x, t)] + more), c2, x2, t2).Err?
  {
    hide Apply, Inv, Extends, Step, BatchAt, VersionAt;
    var served := rs + [Invoke(c, x, t)];
    assert served[..|served| - 1] == rs;
    var s, s1, s2 := Run(env, rs), Run(env, served), Run(env, served + more);
    assert s1 == Step(env, s, c, x, t);
    RunInv(env, rs);
    RunInv(env, served + more);
    EvaluationAccepted(env, s, c, x, t);
    VersionStep(env, s, c, x, t, c.batch);
    VersionGrows(env, served, more, c.batch);
    if Apply(env, s2, c2, x2, t2).Ok? {
      EvaluationAccepted(env, s2, c2, x2, t2);
      AcceptedVersion(env, s2, c2, x2, t2);
      AcceptedVersion(env, s, c, x, t);
    }
  }

  lemma AcceptedVersion(env: Env, s: State, c: Command, x: Execution, t: Transient)
    requires Inv(s) && Apply(env, s, c, x, t).Ok? && !c.name.CreateBatch?
    ensures VersionAt(s, c.batch) == c.expected
  {
    hide Inv, Apply, WellPosed, BatchAt, LifecycleOk;
    AcceptedReady(env, s, c, x, t);
  }

  lemma VersionGrows(env: Env, rs: seq<Request>, more: seq<Request>, id: Id)
    ensures VersionAt(Run(env, rs), id) <= VersionAt(Run(env, rs + more), id)
  {
    hide Inv, Run, KeysLast, RecordsLast, BatchAt, RefsAt;
    RunExtends(env, rs, more);
    RunInv(env, rs + more);
    VersionBounds(Run(env, rs + more), id);
  }

  /** The ids a derived command would use are well formed and free, and it is submitted by the oracle. */
  ghost predicate Submittable(s: State, c: Command, x: Execution) {
    && x.actor == Regulator && x.role == OracleRole && ContextOk(x)
    && ValidId(c.op, "OP") && OperationKey(Regulator, c.op) !in s.pub
    && (c.payload.EvaluateInput? ==> ValidId(c.payload.anomaly, "ANM") && AnomalyRefKey(c.payload.anomaly) !in s.pub)
  }

  /** The suffix that a digest gives: its first twenty-four digits in upper case. */
  predicate SuffixOk(suffix: string) {
    |suffix| == 24 && forall i :: 0 <= i < 24 ==> '0' <= suffix[i] <= '9' || 'A' <= suffix[i] <= 'F'
  }

  /** Ids made of such a suffix have their grammar. */
  lemma SuffixNamed(suffix: string, prefix: string)
    requires SuffixOk(suffix)
    ensures ValidId(Id(prefix + "-" + suffix), prefix)
  {
    var text := prefix + "-" + suffix;
    assert text[..|prefix|] == prefix;
    forall i | |prefix| < i < |text| ensures text[i] == suffix[i - |prefix| - 1] {
    }
  }

  lemma DerivedNamed(names: Naming, id: Id, version: int, report: Id)
    requires SuffixOk(names.suffix(id, version))
    ensures var c := EvaluationOf(names, id, version, report); ValidId(c.op, "OP") && ValidId(c.payload.anomaly, "ANM")
  {
    var suffix := names.suffix(id, version);
    SuffixNamed(suffix, "OP");
    SuffixNamed(suffix, "ANM");
    assert "OP" + "-" + suffix == "OP-" + suffix && "ANM" + "-" + suffix == "ANM-" + suffix;
    hide ValidId;
  }

  /** An evaluation of this batch under the derived ids, whose report id has its grammar. */
  predicate Canonical(names: Naming, id: Id, c: Command) {
    match c.payload
    case EvaluateInput(_, report) =>
      c == EvaluationOf(names, id, c.expected, report) && ValidId(id, "BAT") && ValidId(report, "RPT")
    case _ => false
  }

  /** A derived command names stored ids, and a version that the ledger has. */
  lemma DerivedIds(names: Naming, s1: State, s2: State, s3: State, id: Id, c: Command)
    requires Derives(names, s1, s2, s3, id, c)
    ensures c.name.EvaluatePrice? && c.batch == id && c.payload.EvaluateInput? && 0 <= c.expected <= 10
    ensures Canonical(names, id, c)
  {
    hide Sound, Inv, Extends, BatchAt, RefsAt, ReadReport, ReadPending, ValidId, LifecycleOk, StoredId, StoredAnomaly;
    DerivedCanonical(names, s1, s2, s3, id, c);
    SoundParts(s2, id);
    BatchRead(s2, id);
    VersionBounds(s2, id);
    StoredNamed(s3, id);
  }

  /**
   * The derived command, with a proposal made of reads at any times, is accepted
   * by a later ledger exactly as long as the batch is not evaluated, given unused
   * ids and the configured percentage of the ledger.
   */
  lemma ReconciledAccepted(env: Env, names: Naming, percent: Option<real>, a1: State, a2: State, a3: State, c: Command,
                           s1: State, s2: State, s3: State, s4: State, s: State, id: Id, x: Execution, salt: string)
    requires Derives(names, a1, a2, a3, id, c) && Reported(a2, id) && EvaluationKey(id) !in a2.pub
    requires Follows(a3, s) && Follows(a3, s1) && Follows(a3, s2) && Follows(a3, s3) && Follows(a3, s4)
    requires SuffixOk(names.suffix(id, 7)) && x.actor == Regulator && x.role == OracleRole && ContextOk(x)
             && HexId(salt)
    requires OperationKey(Regulator, c.op) !in s.pub && AnomalyRefKey(Id("ANM-" + names.suffix(id, 7))) !in s.pub
    ensures match ProposalAt(percent, s1, s2, s3, s4, id)
            case Ok(score) =>
              && PercentFits(percent, s)
              && (Apply(env, s, c, x, DerivedInput(score, salt)).Ok? <==> EvaluationKey(id) !in s.pub)
            case Err(e) => !PercentFits(percent, s) && e == PolicyMismatch
  {
    hide Sound, Inv, Extends, Apply, Derives, BatchAt, RefsAt, ProposalAt, ValidId, HexId, PercentFits;
    hide DerivedInput, Reported, ContextOk, TheScore, SuffixOk;
    DerivedCanonical(names, a1, a2, a3, id, c);
    DerivedNamed(names, id, 7, RefsAt(a3, id).report);
    ProposalStands(percent, a3, s1, s2, s3, s4, s, id);
    match ProposalAt(percent, s1, s2, s3, s4, id)
    case Ok(score) =>
      RecordsStand(a3, s, id);
      ScoreDecides(env, s, c, x, score, salt);
    case Err(_) =>
  }

  /** The inputs of a derived command. */
  function DerivedInput(score: Score, salt: string): (t: Transient)
    ensures |t| == 2
  {
    var t: Transient := map[ProposedField := ScoreField(score), RecordSaltField := Salt(salt)];
    assert t.Keys == {ProposedField, RecordSaltField};
    t
  }

  /** The oracle's command on a reported batch is well posed. */
  lemma OraclePosed(env: Env, s: State, c: Command, x: Execution)
    requires Sound(s) && Reported(s, c.batch) && Submittable(s, c, x)
    requires c.name.EvaluatePrice? && c.expected == 7 && NamesReport(s, c)
    ensures WellPosed(env, c, x)
  {
    hide Sound, BatchAt, RefsAt, ValidId, ContextOk, LifecycleOk, StoredId, StoredAnomaly;
    StoredNamed(s, c.batch);
    assert ValidatePayload(env, c).Ok?;
    assert Authorize(x.actor, x.role, c.name).Ok?;
  }

  lemma ScoreDecides(env: Env, s: State, c: Command, x: Execution, score: Score, salt: string)
    requires Sound(s) && Reported(s, c.batch) && Submittable(s, c, x) && HexId(salt)
    requires c.name.EvaluatePrice? && c.expected == 7 && NamesReport(s, c)
    requires TheScore(s, RefsAt(s, c.batch)) == Ok(score)
    ensures Apply(env, s, c, x, DerivedInput(score, salt)).Ok? <==> EvaluationKey(c.batch) !in s.pub
  {
    hide Sound, Inv, Apply, WellPosed, BatchAt, RefsAt, TheScore, HexId, ReadSalt, ValidId, ContextOk;
    var t := DerivedInput(score, salt);
    SoundParts(s, c.batch);
    if EvaluationKey(c.batch) !in s.pub {
      OraclePosed(env, s, c, x);
      SevenMeans(s, c.batch);
      IdOf(s, c.batch);
      SaltRead(t, salt);
      EvaluateIff(env, s, c, x, t);
    } else if Apply(env, s, c, x, t).Ok? {
      EvaluationAccepted(env, s, c, x, t);
    }
  }

  lemma SaltRead(t: Transient, salt: string)
    requires RecordSaltField in t && t[RecordSaltField] == Salt(salt) && HexId(salt)
    ensures ReadSalt(t, RecordSaltField).Ok?
  {
  }

  lemma IdOf(s: State, id: Id)
    requires Inv(s) && BatchKey(id) in s.pub
    ensures BatchAt(s, id).id == id
  {
    hide Configured, Indexed, History, Transfers, References, Evaluations, Consumed, Slots, Analysed, Privates,
         Versioned, BatchAt, RefsAt;
    assert RecordOk(s, id);
  }

  // ==========================================================================
  // The worker that asks for the evaluation of every projected, unevaluated batch.

  const ORACLE := N.Caller(Regulator, OracleRole)

  // ------------------------------------------------------------- derivations

  /** One derived command, with the requests served by each of its three reads. */
  datatype Derivation = Derivation(first: seq<Runs.Request>, second: seq<Runs.Request>, third: seq<Runs.Request>,
                                   command: Command)

  ghost predicate Faithful(env: Env, names: Naming, served: seq<Runs.Request>, d: Derivation) {
    && d.first <= d.second <= d.third <= served
    && Derives(names, Run(env, d.first), Run(env, d.second), Run(env, d.third), d.command.batch, d.command)
  }

  lemma PrefixFollows(env: Env, served: seq<Runs.Request>, more: seq<Runs.Request>)
    requires served <= more
    ensures Sound(Run(env, served)) && Follows(Run(env, served), Run(env, more))
  {
    hide Sound, Extends, Run;
    assert served + more[|served|..] == more;
    RunExtends(env, served, more[|served|..]);
    RunSound(env, served);
    RunSound(env, more);
  }

  function RequestOf(names: Naming, c: Command): J.Request {
    J.Request(c.name, c.op, c.batch, c.expected, c.payload, W.SCHEMA, "NORMAL", J.NoInput, names.size(c))
  }

  /** The digest gives a proper suffix, and the request's text is within the backend's limit. */
  predicate Postable(names: Naming, c: Command) {
    SuffixOk(names.suffix(c.batch, c.expected)) && names.size(c) <= 65536
  }

  /** A derived request passes the backend's checks. */
  lemma DerivedValid(env: Env, names: Naming, served: seq<Runs.Request>, d: Derivation)
    requires Faithful(env, names, served, d) && Postable(names, d.command)
    ensures W.Validate(ORACLE, d.command.name, Some(d.command.batch), d.command.op, RequestOf(names, d.command)).None?
  {
    hide Derives, Run, SuffixOk, ValidId;
    hide EvaluationOf, W.Validate;
    var c := d.command;
    DerivedIds(names, Run(env, d.first), Run(env, d.second), Run(env, d.third), c.batch, c);
    DerivedNamed(names, c.batch, c.expected, c.payload.report);
    W.AllPass(ORACLE, c.name, Some(c.batch), c.op, RequestOf(names, c));
  }

  /** Every derived command that can be posted has its row in the journal. */
  ghost predicate Posted(names: Naming, log: seq<Derivation>, now: map<J.RowKey, J.Row>) {
    forall d :: d in log && Postable(names, d.command) ==> (ORACLE, d.command.op) in now
  }

  lemma PostedOn(names: Naming, log: seq<Derivation>, was: map<J.RowKey, J.Row>, now: map<J.RowKey, J.Row>,
                 d: Derivation)
    requires Posted(names, log, was) && (Postable(names, d.command) ==> (ORACLE, d.command.op) in now)
    requires forall key :: key in was ==> key in now
    ensures Posted(names, log + [d], now)
  {
    hide Postable;
  }

  /** A row of the journal is as it was, or it is that of a derived command; a new one holds the derived request. */
  ghost predicate RowFrom(names: Naming, log: seq<Derivation>, ops: map<J.RowKey, J.Row>, now: map<J.RowKey, J.Row>,
                          key: J.RowKey)
    requires key in now
  {
    || (key in ops && now[key] == ops[key])
    || (exists d :: d in log && key == (ORACLE, d.command.op)
          && (key !in ops ==> now[key].request == RequestOf(names, d.command)))
  }

  ghost predicate RowsFrom(names: Naming, log: seq<Derivation>, ops: map<J.RowKey, J.Row>, now: map<J.RowKey, J.Row>) {
    && (forall key {:trigger key in ops} :: key in ops ==> key in now)
    && (forall key {:trigger key in now} :: key in now ==> RowFrom(names, log, ops, now, key))
  }

  lemma RowsFromOn(names: Naming, log: seq<Derivation>, ops: map<J.RowKey, J.Row>, was: map<J.RowKey, J.Row>,
                   now: map<J.RowKey, J.Row>, d: Derivation)
    requires RowsFrom(names, log, ops, was)
    requires var key := (ORACLE, d.command.op);
             && OthersKept(was, now, key) && (key in was ==> key in now && now[key].request == was[key].request)
             && (key in now && key !in was ==> now[key].request == RequestOf(names, d.command))
    ensures RowsFrom(names, log + [d], ops, now)
  {
    forall key | key in now ensures RowFrom(names, log + [d], ops, now, key) {
      if key == (ORACLE, d.command.op) {
        assert d in log + [d];
        if key in was {
          assert RowFrom(names, log, ops, was, key);
        }
      } else {
        assert key in was && RowFrom(names, log, ops, was, key);
        if !(key in ops && now[key] == ops[key]) {
          var e :| e in log && key == (ORACLE, e.command.op)
            && (key !in ops ==> was[key].request == RequestOf(names, e.command));
          assert e in log + [d];
        }
      }
    }
  }

  // --------------------------------------------------------------- the worker

  class Worker {
    const peer: Peer
    const workflow: W.Workflow
    const names: Naming

    constructor (peer: Peer, workflow: W.Workflow, names: Naming)
      ensures this.peer == peer && this.workflow == workflow && this.names == names
    {
      this.peer, this.workflow, this.names := peer, workflow, names;
    }

    /** Derive the command of one batch, unless it was found evaluated or a read failed. */
    method Derive(id: Id) returns (c: Option<Command>, ghost d: Derivation)
      requires peer.Valid()
      modifies peer
      ensures peer.Valid() && old(peer.served) <= peer.served
      ensures c.Some? ==> c.value == d.command && d.command.batch == id && Faithful(peer.env, names, peer.served, d)
      ensures peer.reachable && c.None? && Reported(old(peer.now), id) ==> EvaluationKey(id) in peer.now.pub
    {
      hide Run, Sound, Extends, ReadPending, ReadBatch, ReadReport, Reported;
      ghost var began := peer.served;
      c, d := None, Derivation([], [], [], EvaluationOf(names, id, 0, NO_ID));
      var pending := peer.Query(s => ReadPending(s, id));
      ghost var first := peer.served;
      Standing(peer.env, began, first, id);
      if pending != Some(true) {
        return;
      }
      var b := peer.Query(s => ReadBatch(s, id));
      ghost var second := peer.served;
      Standing(peer.env, began, second, id);
      if b.None? {
        return;
      }
      var r := peer.Query(s => ReadReport(s, id));
      ghost var third := peer.served;
      Standing(peer.env, began, third, id);
      if r.None? {
        return;
      }
      PrefixFollows(peer.env, first, second);
      PrefixFollows(peer.env, second, third);
      var command := EvaluationOf(names, id, b.value.version, r.value.report);
      c, d := Some(command), Derivation(first, second, third, command);
    }

    /**
     * The proposal for an evaluation, from four reads with the ledger moving on
     * between them. For a batch that was reported before, its value is what the
     * ledger now demands, or a policy mismatch of the configured percentage.
     */
    method Propose(id: Id, percent: Option<real>) returns (r: Option<Result<Score>>)
      requires peer.Valid()
      modifies peer
      ensures peer.Valid() && old(peer.served) <= peer.served
      ensures Reported(old(peer.now), id) ==>
                Demanded(peer.now, id) && (peer.reachable ==> r.Some?)
                  && (r.Some? ==> r.value == Due(percent, peer.now, id))
    {
      hide Run, Sound, Extends, Reported, Demanded, Due, Proposal, ReadPurchase, ReadReport, ReadFreight;
      ghost var began := peer.served;
      var cfg := peer.Query(s => LoadConfig(s));
      ghost var served1 := peer.served;
      Standing(peer.env, began, served1, id);
      if cfg.None? {
        return None;
      }
      var p := peer.Query(s => ReadPurchase(s, id));
      ghost var served2 := peer.served;
      Standing(peer.env, began, served2, id);
      if p.None? || !p.value.PurchaseBody? {
        return if p.None? then None else Some(Err(InvalidSchema));
      }
      var x := peer.Query(s => ReadReport(s, id));
      ghost var served3 := peer.served;
      Standing(peer.env, began, served3, id);
      if x.None? {
        return None;
      }
      var k := peer.Query(s => ReadFreight(s, id));
      ghost var served4 := peer.served;
      Standing(peer.env, began, served4, id);
      if k.None? {
        return None;
      }
      var proposed := ComputeProposal(percent, cfg.value, p.value, x.value, k.value);
      PrefixOn(began, served1, served2);
      PrefixOn(began, served2, served3);
      PrefixOn(began, served3, served4);
      ProposalDue(peer.env, began, served1, served2, served3, served4, id, percent);
      r := Some(proposed);
    }

    ghost predicate Valid()
      reads this, peer, workflow, workflow.store, workflow.network
    {
      peer.Valid() && workflow.Valid()
    }

    /** One pass over the projected batches; an error on one batch leaves the others to be tried. */
    method Reconcile(batches: seq<Id>) returns (alive: bool, ghost log: seq<Derivation>)
      requires Valid()
      modifies peer, workflow`sends, workflow.store, workflow.network`now, workflow.network`told
      ensures Valid() && old(peer.served) <= peer.served && WorldLasts(old(workflow.WorldNow()), workflow.WorldNow())
      ensures AllFaithful(peer.env, names, peer.served, batches, log)
      ensures RowsFrom(names, log, old(workflow.store.operations), workflow.store.operations)
      ensures Posted(names, log, workflow.store.operations)
      ensures alive && peer.reachable ==> forall id :: id in batches ==> Asked(old(peer.now), peer.now, log, id)
    {
      hide Run, Sound, Extends, WorldOk, WorldLasts, Reported, Derives, Asked, OthersKept, Postable, W.Validate,
           AllFaithful, RowsFrom, Posted, Faithful;
      NoneYet(peer.env, names, peer.served, batches, workflow.store.operations);
      ghost var world, start, began := workflow.WorldNow(), peer.now, peer.served;
      LastsItself(world);
      log := [];
      for n := 0 to |batches|
        invariant Valid() && began <= peer.served && WorldLasts(world, workflow.WorldNow())
        invariant AllFaithful(peer.env, names, peer.served, batches, log)
        invariant RowsFrom(names, log, world.ops, workflow.store.operations)
        invariant Posted(names, log, workflow.store.operations)
        invariant peer.reachable ==> forall id :: id in batches[..n] ==> Asked(start, peer.now, log, id)
      {
        var id := batches[n];
        ghost var served, here, asked := peer.served, peer.now, log;
        var c, d := Derive(id);
        PrefixFollows(peer.env, began, served);
        PrefixFollows(peer.env, served, peer.served);
        FaithfulOn(peer.env, names, served, peer.served, batches, log);
        if c.Some? {
          ghost var was := workflow.WorldNow();
          var reply, _ := workflow.Submit(ORACLE, c.value.name, Some(id), c.value.op, RequestOf(names, c.value));
          LastsOn(world, was, workflow.WorldNow());
          if Postable(names, d.command) {
            DerivedValid(peer.env, names, peer.served, d);
          }
          RowsOn(names, log, world.ops, was, workflow.WorldNow(), d);
          FaithfulToo(peer.env, names, peer.served, batches, log, d);
          log := log + [d];
          if reply.Died? {
            return false, log;
          }
        }
        if peer.reachable {
          AskedOn(start, here, peer.now, asked, log, batches[..n]);
          assert c.Some? ==> d in log;
          AskedNow(start, here, peer.now, log, id, c.Some?);
        }
      }
      alive := true;
    }
  }

  lemma RowsKept(w: W.World, v: W.World)
    requires WorldLasts(w, v)
    ensures forall key :: key in w.ops ==> key in v.ops
  {
  }

  /** One more derived command, submitted. */
  lemma RowsOn(names: Naming, log: seq<Derivation>, ops: map<J.RowKey, J.Row>, was: W.World, now: W.World,
               d: Derivation)
    requires RowsFrom(names, log, ops, was.ops) && Posted(names, log, was.ops) && WorldLasts(was, now)
    requires var key := (ORACLE, d.command.op);
             && OthersKept(was.ops, now.ops, key)
             && (key in now.ops && key !in was.ops ==> now.ops[key].request == RequestOf(names, d.command))
             && (Postable(names, d.command) ==> key in now.ops)
    ensures RowsFrom(names, log + [d], ops, now.ops) && Posted(names, log + [d], now.ops)
  {
    hide RowsFrom, Posted, WorldLasts, OthersKept, Postable;
    if (ORACLE, d.command.op) in was.ops {
      RequestLasts(was, now, (ORACLE, d.command.op));
    }
    RowsFromOn(names, log, ops, was.ops, now.ops, d);
    RowsKept(was, now);
    PostedOn(names, log, was.ops, now.ops, d);
  }

  lemma FaithfulToo(env: Env, names: Naming, served: seq<Runs.Request>, batches: seq<Id>, log: seq<Derivation>,
                    d: Derivation)
    requires AllFaithful(env, names, served, batches, log) && Faithful(env, names, served, d)
    requires d.command.batch in batches
    ensures AllFaithful(env, names, served, batches, log + [d])
  {
    hide Faithful;
  }

  /** At the start of a pass nothing is derived and nothing has changed. */
  lemma NoneYet(env: Env, names: Naming, served: seq<Runs.Request>, batches: seq<Id>, ops: map<J.RowKey, J.Row>)
    ensures AllFaithful(env, names, served, batches, []) && RowsFrom(names, [], ops, ops) && Posted(names, [], ops)
  {
    hide Faithful;
  }

  ghost predicate AllFaithful(env: Env, names: Naming, served: seq<Runs.Request>, batches: seq<Id>,
                              log: seq<Derivation>) {
    forall d :: d in log ==> Faithful(env, names, served, d) && d.command.batch in batches
  }

  /** A batch that was reported by then is evaluated by now, or its evaluation was asked for in this pass. */
  ghost predicate Asked(s: State, s': State, log: seq<Derivation>, id: Id) {
    Reported(s, id) ==> EvaluationKey(id) in s'.pub || exists d :: d in log && d.command.batch == id
  }

  lemma FaithfulOn(env: Env, names: Naming, served: seq<Runs.Request>, more: seq<Runs.Request>, batches: seq<Id>,
                   log: seq<Derivation>)
    requires AllFaithful(env, names, served, batches, log) && served <= more
    ensures AllFaithful(env, names, more, batches, log)
  {
    hide Derives, Run;
  }

  lemma EvaluationLasts(s: State, s': State, id: Id)
    requires Extends(s, s') && EvaluationKey(id) in s.pub
    ensures EvaluationKey(id) in s'.pub
  {
    hide BatchesLast, RecordsLast;
    assert Lasting(EvaluationKey(id));
  }

  lemma AskedOn(s: State, here: State, now: State, asked: seq<Derivation>, log: seq<Derivation>, done: seq<Id>)
    requires Follows(here, now) && asked <= log
    requires forall id :: id in done ==> Asked(s, here, asked, id)
    ensures forall id :: id in done ==> Asked(s, now, log, id)
  {
    hide Sound, Extends, Reported;
    forall id | id in done ensures Asked(s, now, log, id) {
      assert Asked(s, here, asked, id);
      if EvaluationKey(id) in here.pub {
        EvaluationLasts(here, now, id);
      }
    }
  }

  /** This batch's turn: reported at the start of the pass, it is still reported when its queries are made. */
  lemma AskedNow(s: State, here: State, now: State, log: seq<Derivation>, id: Id, derived: bool)
    requires Sound(s) && Follows(s, here)
    requires derived ==> exists d :: d in log && d.command.batch == id
    requires !derived && Reported(here, id) ==> EvaluationKey(id) in now.pub
    ensures Asked(s, now, log, id)
  {
    hide Sound, Extends, Reported;
    if Reported(s, id) {
      StaysReported(s, here, id);
    }
  }

  /** The ledger demands one score of an evaluation of this batch. */
  ghost predicate Demanded(s: State, id: Id) {
    LoadConfig(s).Ok? && TheScore(s, RefsAt(s, id)).Ok?
  }

  /** Every query about the batch is answered. */
  ghost predicate Stands(s: State, id: Id) {
    && ReadPending(s, id) == Ok(EvaluationKey(id) !in s.pub) && ReadBatch(s, id).Ok?
    && Demanded(s, id) && LoadConfig(s).Ok? && Invoiced(ReadPurchase(s, id))
    && ReadReport(s, id).Ok? && ReadFreight(s, id).Ok?
  }

  lemma StandsOn(s: State, u: State, id: Id)
    requires Sound(s) && Follows(s, u) && Reported(s, id)
    ensures Stands(u, id)
  {
    hide Sound, Extends, ReadPending, ReadBatch, ReadPurchase, ReadReport, ReadFreight, LoadConfig, LoadPurchase,
         LoadReport, LoadCost, TheScore, RefsAt;
    RecordsStand(s, u, id);
    ReadsAnswer(u, id);
    ReadsStand(s, u, id);
  }

  /** On the ledger that these requests led to, every record of a batch reported before them can be read. */
  lemma Standing(env: Env, began: seq<Runs.Request>, served: seq<Runs.Request>, id: Id)
    requires began <= served
    ensures Reported(Run(env, began), id) ==> Stands(Run(env, served), id)
  {
    hide Run, Sound, Extends, Reported, Stands;
    PrefixFollows(env, began, served);
    if Reported(Run(env, began), id) {
      StandsOn(Run(env, began), Run(env, served), id);
    }
  }

  lemma PrefixOn<T>(a: seq<T>, b: seq<T>, c: seq<T>)
    requires a <= b <= c
    ensures a <= c
  {
  }

  lemma ProposalDue(env: Env, began: seq<Runs.Request>, r1: seq<Runs.Request>, r2: seq<Runs.Request>,
                    r3: seq<Runs.Request>, r4: seq<Runs.Request>, id: Id, percent: Option<real>)
    requires began <= r1 && began <= r2 && began <= r3 && began <= r4
    ensures Reported(Run(env, began), id) ==>
              ProposalAt(percent, Run(env, r1), Run(env, r2), Run(env, r3), Run(env, r4), id)
                == Due(percent, Run(env, r4), id)
  {
    hide Run, Sound, Extends, Reported, ProposalAt, Due, TheScore;
    if Reported(Run(env, began), id) {
      PrefixFollows(env, began, r1);
      PrefixFollows(env, began, r2);
      PrefixFollows(env, began, r3);
      PrefixFollows(env, began, r4);
      ProposalStands(percent, Run(env, began), Run(env, r1), Run(env, r2), Run(env, r3), Run(env, r4), Run(env, r4),
                     id);
    }
  }

  // ----------------------------------------------------------------- theorems

  /**
   * In all passes together, one batch has one derived command that can be accepted,
   * so one request and one journal row.
   */
  lemma OneRequest(env: Env, names: Naming, served: seq<Runs.Request>, d: Derivation, e: Derivation)
    requires Faithful(env, names, served, d) && Faithful(env, names, served, e) && d.command.batch == e.command.batch
    requires d.command.expected == 7 && e.command.expected == 7
    ensures d.command == e.command && RequestOf(names, d.command) == RequestOf(names, e.command)
  {
    hide Derives, Sound, Extends, Run;
    if |d.third| <= |e.third| {
      InOrder(env, names, served, d, e);
    } else {
      InOrder(env, names, served, e, d);
    }
  }

  lemma InOrder(env: Env, names: Naming, served: seq<Runs.Request>, d: Derivation, e: Derivation)
    requires Faithful(env, names, served, d) && Faithful(env, names, served, e) && d.command.batch == e.command.batch
    requires d.command.expected == 7 && e.command.expected == 7 && d.third <= e.third
    ensures d.command == e.command
  {
    hide Derives, Sound, Extends, Run, Reported;
    var id := d.command.batch;
    PrefixFollows(env, d.third, e.third);
    DerivedCanonical(names, Run(env, d.first), Run(env, d.second), Run(env, d.third), id, d.command);
    DerivedCanonical(names, Run(env, e.first), Run(env, e.second), Run(env, e.third), id, e.command);
    OneCommand(names, Run(env, d.first), Run(env, d.second), Run(env, d.third), d.command,
               Run(env, e.first), Run(env, e.second), Run(env, e.third), e.command, id);
  }

  /** A command derived across a concurrent evaluation is refused by the ledger for ever. */
  lemma StrayRefused(env: Env, names: Naming, served: seq<Runs.Request>, d: Derivation, more: seq<Runs.Request>,
                     x: Execution, t: Transient)
    requires Faithful(env, names, served, d) && d.command.expected != 7
    ensures Apply(env, Run(env, served + more), d.command, x, t).Err?
  {
    hide Derives, Sound, Extends, Run, Reported, Apply;
    var all := served + more;
    PrefixFollows(env, d.third, all);
    var s1, s2, s3 := Run(env, d.first), Run(env, d.second), Run(env, d.third);
    DerivedCanonical(names, s1, s2, s3, d.command.batch, d.command);
    OthersRefused(env, names, s1, s2, s3, d.command.batch, d.command, Run(env, all), x, t);
  }

  /** A command is derived only for a batch that is reported, then and from then on. */
  lemma DerivedReported(env: Env, names: Naming, served: seq<Runs.Request>, d: Derivation)
    requires Faithful(env, names, served, d)
    ensures Reported(Run(env, served), d.command.batch) && d.command.name.EvaluatePrice?
  {
    hide Derives, Run, Sound, Extends, Reported;
    PrefixFollows(env, d.third, served);
    DerivedCanonical(names, Run(env, d.first), Run(env, d.second), Run(env, d.third),
                     d.command.batch, d.command);
    StaysReported(Run(env, d.third), Run(env, served), d.command.batch);
  }

  /** A batch whose projected view has a lot is reported on the ledger, so the projected rows are worth asking about. */
  lemma LotReported(env: Env, rs: seq<Runs.Request>, feed: seq<P.ChainEvent>, k: nat, id: Id)
    requires P.FeedOf(Run(env, rs), feed) && k <= |feed| && HasLot(P.Fold(Run(env, rs), feed, k), id)
    ensures Reported(Run(env, rs), id)
  {
    hide Sound, Extends, Run, BatchAt, P.Fold;
    var u := P.PrefixAgrees(env, rs, feed, k);
    LotMeans(u, id, P.Fold(Run(env, rs), feed, k));
    StaysReported(u, Run(env, rs), id);
  }

  predicate HasLot(views: map<Id, P.View>, id: Id) {
    id in views && views[id].lot.Some?
  }

  lemma LotMeans(u: State, id: Id, views: map<Id, P.View>)
    requires Inv(u) && P.AllAgree(u, views) && HasLot(views, id)
    ensures Reported(u, id)
  {
    hide Configured, Indexed, History, Transfers, References, Evaluations, Consumed, Slots, Privates, Analysed,
         Versioned;
    hide BatchAt, RefsAt, P.HistoryOk, P.SourcesFor;
    assert P.Agrees(u, id, views[id]);
    assert RecordOk(u, id);
  }
}
