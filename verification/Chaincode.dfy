/** The chaincode as it runs: a store it reads and writes, and the engine that decides a command against it. */
module Chaincode {
  import opened Types
  import opened Price
  import opened Evidence
  import opened Engine
  import opened Ordering
  import opened Reads

  // -------------------------------------------------------------------- store

  lemma NothingPlanned(pub: map<Key, Value>)
    ensures Commit(pub, map[]) == pub
  {
  }

  /** Planning one key more is one write or one removal more. */
  lemma PlannedNext(pub: map<Key, Value>, plan: Plan, k: Key, v: Option<Value>)
    requires k !in plan
    ensures Commit(pub, plan[k := v]) == if v.Some? then Commit(pub, plan)[k := v.value] else Commit(pub, plan) - {k}
  {
  }

  /** These of the writes are made, and nothing else has changed. */
  ghost predicate Written<K(!new), V>(was: map<K, V>, writes: map<K, V>, done: set<K>, now: map<K, V>) {
    forall k {:trigger k in now} :: (k in now <==> k in was || (k in done && k in writes))
      && (k in now ==> now[k] == if k in done && k in writes then writes[k] else was[k])
  }

  lemma WrittenNext<K(!new), V>(was: map<K, V>, writes: map<K, V>, done: set<K>, now: map<K, V>, k: K)
    requires Written(was, writes, done, now) && k in writes
    ensures Written(was, writes, done + {k}, now[k := writes[k]])
  {
  }

  lemma WrittenAll<K(!new), V>(was: map<K, V>, writes: map<K, V>, now: map<K, V>)
    requires Written(was, writes, writes.Keys, now)
    ensures now == was + writes
  {
    assert now.Keys == (was + writes).Keys;
  }

  /** The peer's view during one invocation: world state, private collections, events, and what was read. */
  class Store {
    var pub: map<Key, Value>
    var priv: map<PrivKey, PrivValue>
    var events: seq<Event>
    var seen: set<Cell>

    constructor ()
      ensures Contents() == EMPTY_STATE && seen == {}
    {
      pub, priv, events, seen := map[], map[], [], {};
    }

    ghost function Contents(): State
      reads this`pub, this`priv, this`events
    {
      State(pub, priv, events)
    }

    method Read(k: Key) returns (v: Option<Value>)
      modifies this`seen
      ensures v == if k in pub then Some(pub[k]) else None
      ensures seen == old(seen) + {Pub(k)}
    {
      seen := seen + {Pub(k)};
      v := if k in pub then Some(pub[k]) else None;
    }

    method ReadPrivate(q: PrivKey) returns (v: Option<PrivValue>)
      modifies this`seen
      ensures v == if q in priv then Some(priv[q]) else None
      ensures seen == old(seen) + {Priv(q)}
    {
      seen := seen + {Priv(q)};
      v := if q in priv then Some(priv[q]) else None;
    }

    /** Refuse with `code` when the key is taken. */
    method CheckAbsent(k: Key, code: ErrorCode) returns (g: Guard)
      modifies this`seen
      ensures g == Absent(Contents(), k, code)
      ensures seen == old(seen) + {Pub(k)}
    {
      var v := Read(k);
      g := if v.Some? then Fail(code) else Pass;
    }

    /** Write every planned key, or remove it, one at a time in any order. */
    method WriteAll(plan: Plan)
      modifies this`pub
      ensures pub == Commit(old(pub), plan)
    {
      ghost var was := pub;
      ghost var done: Plan := map[];
      NothingPlanned(was);
      hide Commit;
      var left := plan.Keys;
      while left != {}
        invariant left <= plan.Keys && done.Keys == plan.Keys - left
        invariant forall k :: k in done ==> done[k] == plan[k]
        invariant pub == Commit(was, done)
        decreases |left|
      {
        var k :| k in left;
        left := left - {k};
        PlannedNext(was, done, k, plan[k]);
        if plan[k].None? {
          pub := pub - {k};
        } else {
          pub := pub[k := plan[k].value];
        }
        done := done[k := plan[k]];
      }
      assert done == plan;
    }

    /** The writes of a decided command, and its one event. */
    method Flush(plan: Plan, event: Event)
      modifies this`pub, this`events
      ensures pub == Commit(old(pub), plan)
      ensures events == old(events) + [event]
    {
      hide Commit;
      WriteAll(plan);
      events := events + [event];
    }

    /** The private writes, one record at a time. */
    method WritePrivate(writes: map<PrivKey, PrivValue>)
      modifies this`priv
      ensures priv == old(priv) + writes
    {
      ghost var was := priv;
      var left := writes.Keys;
      while left != {}
        invariant left <= writes.Keys
        invariant Written(was, writes, writes.Keys - left, priv)
        decreases |left|
      {
        var q :| q in left;
        WrittenNext(was, writes, writes.Keys - left, priv, q);
        left := left - {q};
        priv := priv[q := writes[q]];
        assert writes.Keys - left == writes.Keys - (left + {q}) + {q};
      }
      WrittenAll(was, writes, priv);
    }
  }

  // ---------------------------------------------------------- evidence checks

  lemma {:induction false} LoopFailed(env: Env, s: State, c: Command, x: Execution, t: Transient, b: Batch,
                                      docs: seq<Bundle>, i: nat, n: nat)
    requires i <= n <= |docs| && TakeDocuments(env, s, c, x, t, b, docs, i).Err?
    ensures TakeDocuments(env, s, c, x, t, b, docs, n) == TakeDocuments(env, s, c, x, t, b, docs, i)
  {
    hide TakeDocument;
    if i < n {
      LoopFailed(env, s, c, x, t, b, docs, i, n - 1);
    }
  }

  /** Reads recorded one after the other. */
  lemma SeenJoined<T>(seen: set<T>, p: set<T>, q: set<T>, a: set<T>, b: set<T>, c: set<T>, d: set<T>, e: set<T>,
                      f: set<T>)
    requires p + q == a + b + c + d + e + f
    ensures seen + p + q == seen + a + b + c + d + e + f
  {
    assert seen + p + q == seen + (p + q);
  }

  lemma ScoreReads(c: Command, t: Transient, b: Batch, refs: Refs)
    requires c.name.EvaluatePrice? && c.payload.EvaluateInput?
    ensures PrepareReads(c, t, b, refs) + {Pub(ConfigKey)}
            == {Pub(EvaluationKey(b.id))} + {Pub(AnomalyRefKey(c.payload.anomaly))} + {Pub(ConfigKey)}
               + {Priv(OpeningKey(TradeCollection, refs.purchase))} + {Priv(ReportKey(refs.report))}
                 + {Priv(CostKey(refs.freight))}
  {
  }

  /** Reads the private inputs of a command and checks them against the store. */
  class Provider {
    const store: Store
    const env: Env

    constructor (store: Store, env: Env)
      ensures this.store == store && this.env == env
    {
      this.store, this.env := store, env;
    }

    method GetConfig() returns (r: Result<Configuration>)
      modifies store`seen
      ensures r == LoadConfig(store.Contents())
      ensures store.seen == old(store.seen) + {Pub(ConfigKey)}
    {
      var v := store.Read(ConfigKey);
      match v {
        case None => return Err(ConfigurationRequired);
        case Some(ConfigValue(cfg)) => return Ok(cfg);
        case _ => return Err(InternalError);
      }
    }

    method Verify(d: Bundle) returns (r: Result<()>)
      modifies store`seen
      ensures r == VerifyBundle(env, store.Contents(), d)
      ensures r.Ok? ==>
                store.seen == old(store.seen) + {Pub(SourceKeyKey(d.envelope.header.issuer, d.envelope.header.key))}
    {
      hide WellFormed, HexId;
      var h := d.envelope.header;
      :- Need(WellFormed(env, h), InvalidSchema);
      var v := store.Read(SourceKeyKey(h.issuer, h.key));
      :- Need(v.Some?, UntrustedSourceKey);
      :- Need(v.value.SourceKeyValue?, InternalError);
      var k := v.value.source;
      :- Need(k.enabled && k.system == h.system, UntrustedSourceKey);
      :- Need(h.docType in k.docTypes, UntrustedSourceKey);
      :- Need(env.signed(k.publicKey, h, d.envelope.signature), InvalidSourceSignature);
      :- Need(HexId(d.salt), InvalidSchema);
      :- Need(env.commit(d.body, d.salt) == h.commitment, DocumentHashMismatch);
      r := Ok(());
    }

    /** A replay key is free when it is unused so far in this command, and unused on the ledger. */
    method CheckFree(pending: Plan, k: Key, code: ErrorCode) returns (g: Guard)
      modifies store`seen
      ensures g == if k in pending || k in store.pub then Fail(code) else Pass
      ensures g.Pass? ==> store.seen == old(store.seen) + {Pub(k)}
    {
      if k in pending {
        return Fail(code);
      }
      g := store.CheckAbsent(k, code);
    }

    /** The three replay keys of a document; the first then holds the envelope itself. */
    method Reserve(pending: Plan, e: Envelope, tx: string) returns (r: Result<Plan>)
      modifies store`seen
      ensures r == ClaimAll(store.Contents(), pending, e, tx)
      ensures r.Ok? ==> store.seen == old(store.seen) + {Pub(DocumentKey(e.header.document)),
                Pub(SourceUseKey(e.header.issuer, e.header.sourceDocument)),
                  Pub(NonceKey(e.header.issuer, e.header.nonce))}
    {
      var h, plan := e.header, pending;
      var use := UseValue(h.batch, h.op, tx);
      var g := CheckFree(plan, DocumentKey(h.document), DocumentAlreadyUsed);
      :- g;
      plan := plan[DocumentKey(h.document) := Some(use)];
      g := CheckFree(plan, SourceUseKey(h.issuer, h.sourceDocument), DocumentAlreadyUsed);
      :- g;
      plan := plan[SourceUseKey(h.issuer, h.sourceDocument) := Some(use)];
      g := CheckFree(plan, NonceKey(h.issuer, h.nonce), SourceNonceAlreadyUsed);
      :- g;
      plan := plan[NonceKey(h.issuer, h.nonce) := Some(use)];
      plan := plan[DocumentKey(h.document) := Some(EnvelopeValue(e))];
      r := Ok(plan);
    }

    /** The required number of documents, in order of id, and nothing else in the transient fields. */
    method CheckDocuments(c: Command, x: Execution, t: Transient, b: Batch) returns (r: Result<Verified>)
      modifies store`seen
      ensures r == GatherDocuments(env, store.Contents(), c, x, t, b)
      ensures r.Ok? ==> store.seen == old(store.seen) + DocumentReads(Submitted(c, t), |Submitted(c, t)|)
    {
      hide FieldsOk, TakeDocuments, Increasing, DocumentReads;
      var required := RequiredTypes(c.name);
      var _ :- FieldsOk(c, t);
      var docs := [];
      if required != map[] {
        docs :- DecodeBundles(Get(t, EvidenceField));
      }
      :- Need(|docs| == |required|, MissingEvidence);
      var p :- DocumentLoop(c, x, t, b, docs);
      r := Ok(p.v);
    }

    /** The document loop: each document uses up one required type, is verified, and claims its replay keys. */
    method DocumentLoop(c: Command, x: Execution, t: Transient, b: Batch, docs: seq<Bundle>)
      returns (r: Result<Progress>)
      modifies store`seen
      ensures r == TakeDocuments(env, store.Contents(), c, x, t, b, docs, |docs|)
      ensures r.Ok? ==> store.seen == old(store.seen) + DocumentReads(docs, |docs|)
    {
      hide TakeDocument, BundleReads, RequiredTypes;
      ghost var s := store.Contents();
      var required, v := RequiredTypes(c.name), NOTHING;
      var i := 0;
      while i < |docs|
        invariant 0 <= i <= |docs| && store.Contents() == s
        invariant TakeDocuments(env, s, c, x, t, b, docs, i) == Ok(Progress(required, v))
        invariant store.seen == old(store.seen) + DocumentReads(docs, i)
      {
        var step := CheckDocument(c, x, t, b, Progress(required, v), docs[i]);
        if step.Err? {
          LoopFailed(env, s, c, x, t, b, docs, i + 1, |docs|);
          return Err(step.error);
        }
        required, v := step.value.required, step.value.v;
        i := i + 1;
      }
      r := Ok(Progress(required, v));
    }

    /** One turn of the loop. */
    method CheckDocument(c: Command, x: Execution, t: Transient, b: Batch, p: Progress, d: Bundle)
      returns (r: Result<Progress>)
      modifies store`seen
      ensures r == TakeDocument(env, store.Contents(), c, x, t, b, p, d)
      ensures r.Ok? ==> store.seen == old(store.seen) + BundleReads(d)
    {
      hide VerifyBundle, ClaimAll, TakeBody;
      var h, required, v := d.envelope.header, p.required, p.v;
      :- Need(h.docType in required && required[h.docType] == h.system, SourceBindingMismatch);
      required := required - {h.docType};
      var _ :- Verify(d);
      :- Need(h.batch == c.batch && h.op == c.op, SourceBindingMismatch);
      var pub :- Reserve(v.pub, d.envelope, x.tx);
      v :- TakeBody(env, c, x, t, b, v.(pub := pub), d);
      r := Ok(Progress(required, v));
    }

    // ------------------------------------------------------ private records

    method FetchPurchase(document: Id) returns (r: Result<Body>)
      modifies store`seen
      ensures r == LoadPurchase(store.Contents(), document)
      ensures store.seen == old(store.seen) + {Priv(OpeningKey(TradeCollection, document))}
    {
      var v := store.ReadPrivate(OpeningKey(TradeCollection, document));
      match v {
        case None => return Err(PrivateDataUnavailable);
        case Some(OpeningValue(body, _)) => return if body.PurchaseBody? then Ok(body) else Err(InvalidSchema);
        case _ => return Err(InternalError);
      }
    }

    method FetchCost(cost: Id) returns (r: Result<CostRecord>)
      modifies store`seen
      ensures r == LoadCost(store.Contents(), cost)
      ensures store.seen == old(store.seen) + {Priv(CostKey(cost))}
    {
      var v := store.ReadPrivate(CostKey(cost));
      match v {
        case None => return Err(PrivateDataUnavailable);
        case Some(CostValue(record)) => return Ok(record);
        case _ => return Err(InternalError);
      }
    }

    method FetchReport(report: Id) returns (r: Result<RetailRecord>)
      modifies store`seen
      ensures r == LoadReport(store.Contents(), report)
      ensures store.seen == old(store.seen) + {Priv(ReportKey(report))}
    {
      var v := store.ReadPrivate(ReportKey(report));
      match v {
        case None => return Err(PrivateDataUnavailable);
        case Some(ReportValue(record)) => return Ok(record);
        case _ => return Err(InternalError);
      }
    }

    method FetchAnomaly(anomaly: Id) returns (r: Result<AnomalyRecord>)
      modifies store`seen
      ensures r == LoadAnomaly(store.Contents(), anomaly)
      ensures store.seen == old(store.seen) + {Priv(AnomalyKey(anomaly))}
    {
      var v := store.ReadPrivate(AnomalyKey(anomaly));
      match v {
        case None => return Err(PrivateDataUnavailable);
        case Some(AnomalyValue(record)) => return Ok(record);
        case _ => return Err(InternalError);
      }
    }

    /** The retail report, bound to the stored purchase and freight cost. */
    method CheckReport(c: Command, x: Execution, t: Transient, b: Batch, refs: Refs, policy: Id, v: Verified)
      returns (r: Result<Verified>)
      modifies store`seen
      ensures r == TakeReport(env, store.Contents(), c, x, t, b, refs, policy, v)
      ensures r.Ok? ==>
                store.seen == old(store.seen)
                              + {Priv(OpeningKey(TradeCollection, refs.purchase)), Priv(CostKey(refs.freight))}
    {
      hide LoadPurchase, LoadCost, HexId;
      var field := Get(t, RetailReportField);
      :- Need(field.RetailField?, InvalidSchema);
      var input := field.retail;
      :- Need(env.dateTime(input.reportedAt) && HexId(input.salt), InvalidSchema);
      var p :- FetchPurchase(refs.purchase);
      :- Need(p.PurchaseBody?, InvalidSchema);
      var cost :- FetchCost(refs.freight);
      :- Need(cost.batch == b.id && cost.quantity == b.quantity && cost.currency == input.currency
              && cost.tax == input.tax && p.currency == input.currency && p.tax == input.tax, SourceBindingMismatch);
      :- Need(c.payload.ReportInput?, InvalidSchema);
      var w := v;
      w := w.(quantity := p.quantity, purchasePrice := p.price, purchaseTotal := p.total);
      w := w.(retailPrice := input.price, currency := input.currency, tax := input.tax, policy := policy);
      var record := RetailRecord(c.payload.report, c.batch, c.payload.lot, b.quantity, x.actor, input, refs.purchase,
                                 refs.freight, c.payload.policy, c.op, x.tx);
      w := w.(priv := w.priv[ReportKey(c.payload.report) := ReportValue(record)]);
      r := Ok(w);
    }

    /** The price evaluation: recompute the score and compare it with the proposal. */
    method Score(c: Command, x: Execution, t: Transient, b: Batch, refs: Refs) returns (r: Result<Verified>)
      requires c.name.EvaluatePrice?
      modifies store`seen
      ensures r == Evaluate(store.Contents(), c, x, t, b, refs)
      ensures r.Ok? ==> store.seen == old(store.seen) + PrepareReads(c, t, b, refs) + {Pub(ConfigKey)}
    {
      hide LoadConfig, LoadPurchase, LoadReport, LoadCost, HexId, PriceScore, ReadSalt, PrepareReads, SubjectOk,
           MoneyClear, Get;
      var input := c.payload;
      if input.EvaluateInput? {
        ScoreReads(c, t, b, refs);
        SeenJoined(store.seen, PrepareReads(c, t, b, refs), {Pub(ConfigKey)}, {Pub(EvaluationKey(b.id))},
                   {Pub(AnomalyRefKey(input.anomaly))}, {Pub(ConfigKey)},
                   {Priv(OpeningKey(TradeCollection, refs.purchase))}, {Priv(ReportKey(refs.report))},
                   {Priv(CostKey(refs.freight))});
      }
      :- Need(|t| == 2, InvalidSchema);
      :- Need(input.EvaluateInput?, InvalidSchema);
      :- Need(refs.report != NO_ID && refs.purchase != NO_ID && refs.freight != NO_ID, MissingEvidence);
      :- Need(input.report == refs.report, SourceBindingMismatch);
      var g := store.CheckAbsent(EvaluationKey(b.id), AnomalyAlreadyExists);
      :- g;
      g := store.CheckAbsent(AnomalyRefKey(input.anomaly), AnomalyAlreadyExists);
      :- g;
      var cfg :- GetConfig();
      var p :- FetchPurchase(refs.purchase);
      :- Need(p.PurchaseBody?, InvalidSchema);
      var report :- FetchReport(refs.report);
      var cost :- FetchCost(refs.freight);
      :- Need(SubjectOk(b, refs, p, report, cost), SourceBindingMismatch);
      :- Need(report.policy == cfg.policy, PolicyMismatch);
      :- Need(MoneyClear(p, report, cost), InvalidMoney);
      var score :- PriceScore(p.price, report.input.price, cfg.threshold);
      var proposed := Get(t, ProposedField);
      :- Need(proposed.ScoreField?, InvalidSchema);
      :- Need(proposed.score == score, AnomalyResultMismatch);
      var salt :- ReadSalt(t, RecordSaltField);
      var state := NotRequired;
      if score.verdict.ReviewRequired? {
        state := Open;
      }
      var record :=
        AnomalyRecord(input.anomaly, b.id, input.report, cfg.policy, p.price, report.input.price, cost.total,
                                  b.quantity, score, cfg.threshold, state, salt, c.op, x.tx);
      var ref := EvaluationValue(Evaluation(b.id, input.report, input.anomaly, x.tx));
      r := Ok(NOTHING.(pub := map[EvaluationKey(b.id) := Some(ref), AnomalyRefKey(input.anomaly) := Some(ref)],
                       priv := map[AnomalyKey(input.anomaly) := AnomalyValue(record)]));
    }

    /** One review step. */
    method ReviewStep(c: Command, x: Execution, t: Transient, b: Batch, refs: Refs) returns (r: Result<Verified>)
      requires c.name.OpenReview? || c.name.ResolveReview?
      modifies store`seen
      ensures r == Review(env, store.Contents(), c, x, t, b)
      ensures r.Ok? ==> store.seen == old(store.seen) + PrepareReads(c, t, b, refs)
    {
      hide LoadAnomaly, HexId, ReadSalt, ReadReview, ValidId;
      :- Need(|t| == 2, InvalidSchema);
      :- Need(c.payload.ReviewTarget?, InvalidSchema);
      var anomaly := c.payload.anomaly;
      var found := store.Read(EvaluationKey(b.id));
      :- Need(found.Some?, InvalidReviewTransition);
      :- Need(found.value.EvaluationValue?, InternalError);
      :- Need(found.value.evaluation.anomaly == anomaly, InvalidReviewTransition);
      var a :- FetchAnomaly(anomaly);
      :- Need(a.score.verdict.ReviewRequired?, InvalidReviewTransition);
      var input :- ReadReview(c.name, t);
      :- Need(ValidId(input.reviewer, "REV") && HexId(input.salt), InvalidSchema);
      var salt :- ReadSalt(t, ReviewSaltField);
      :- Need(salt != input.salt && salt != a.salt, InvalidSchema);
      if c.name.OpenReview? {
        :- Need(a.review == Open, InvalidReviewTransition);
        a := a.(review := InReview);
      } else {
        :- Need(a.review == InReview, InvalidReviewTransition);
        :- Need(input.outcome in {"EXPLAINED", "FOLLOW_UP_RECOMMENDED", "INSUFFICIENT_EVIDENCE"}
                && env.explanation(input.explanation), InvalidSchema);
        a := a.(review := Resolved);
      }
      a := a.(salt := salt);
      r := Ok(NOTHING.(pub := map[ReviewRefKey(anomaly, c.op) := Some(IdValue(c.op))],
                       priv := map[ActionKey(anomaly, c.op) :=
                                     ActionValue(ReviewAction(c.op, anomaly, c.name, input, x.tx)),
                                   AnomalyKey(anomaly) := AnomalyValue(a)]));
    }

    method Prepare(c: Command, x: Execution, t: Transient, b: Batch, refs: Refs) returns (r: Result<Verified>)
      modifies store`seen
      ensures r == Evidence.Prepare(env, store.Contents(), c, x, t, b, refs)
      ensures r.Ok? ==>
                store.seen + {Pub(ConfigKey)} == old(store.seen) + PrepareReads(c, t, b, refs) + {Pub(ConfigKey)}
      ensures r.Ok? ==> old(store.seen) <= store.seen
    {
      hide Evaluate, Review, GatherDocuments, TakeReport, LoadConfig;
      if IsAnalysis(c.name) {
        :- Need(b.state == RetailReported, InvalidStateTransition);
        if c.name.EvaluatePrice? {
          r := Score(c, x, t, b, refs);
        } else {
          r := ReviewStep(c, x, t, b, refs);
        }
      } else {
        var cfg :- GetConfig();
        var v :- CheckDocuments(c, x, t, b);
        if c.name.ReportRetailPrice? {
          r := CheckReport(c, x, t, b, refs, cfg.policy, v);
        } else {
          r := Ok(v);
        }
      }
    }
  }

  // -------------------------------------------------------------------- engine

  // ------------------------------------------------------------ trust sources

  function SystemName(system: System): string {
    match system
    case Cks => "CKS"
    case Efatura => "EFATURA"
    case Hks => "HKS"
    case Uetds => "UETDS"
    case OtherSystem(name) => name
  }

  function RegistryKey(k: SourceKey): Key {
    SourceKeyKey(k.issuer, k.key)
  }

  /** What is checked of one source by itself. */
  predicate SourceAlone(k: SourceKey) {
    !k.system.OtherSystem? && SourceOk(k, k.system)
  }

  /** Where a system's name stands among the four. */
  function Standing(system: System): int {
    match system
    case Cks => 0
    case Efatura => 1
    case Hks => 2
    case Uetds => 3
    case OtherSystem(_) => 4
  }

  lemma NameOrder(a: System, b: System)
    requires !a.OtherSystem? && !b.OtherSystem?
    ensures Before(SystemName(a), SystemName(b)) <==> Standing(a) < Standing(b)
    ensures Before("", SystemName(a))
  {
    BeforeIrreflexive(SystemName(a));
  }

  /** The first i sources passed: each alone, in order, under the distinct keys taken so far. */
  ghost predicate Checked(sources: seq<SourceKey>, i: nat, last: string, taken: set<Key>, plan: Plan)
    requires i <= |sources|
  {
    && last == (if i == 0 then "" else SystemName(sources[i - 1].system))
    && (forall k :: k in taken <==> exists j :: 0 <= j < i && k == RegistryKey(sources[j]))
    && (forall j :: 0 <= j < i ==> SourceAlone(sources[j]))
    && (forall j :: 1 <= j < i ==> Before(SystemName(sources[j - 1].system), SystemName(sources[j].system)))
    && (forall j, k :: 0 <= j < k < i ==> RegistryKey(sources[j]) != RegistryKey(sources[k]))
    && plan == SourcePlan(sources[..i])
  }

  lemma NoneChecked(sources: seq<SourceKey>)
    ensures Checked(sources, 0, "", {}, map[])
  {
  }

  lemma NextChecked(sources: seq<SourceKey>, i: nat, last: string, taken: set<Key>, plan: Plan)
    requires i < |sources| && Checked(sources, i, last, taken, plan)
    requires RegistryKey(sources[i]) !in taken && SourceAlone(sources[i]) && Before(last, SystemName(sources[i].system))
    ensures Checked(sources, i + 1, SystemName(sources[i].system), taken + {RegistryKey(sources[i])},
                    plan[RegistryKey(sources[i]) := Some(SourceKeyValue(sources[i]))])
  {
    hide SourceAlone, Before, SystemName;
    assert sources[..i + 1][..i] == sources[..i];
  }

  lemma NotChecked(sources: seq<SourceKey>, i: nat, last: string, taken: set<Key>, plan: Plan)
    requires |sources| == 4 && i < 4 && Checked(sources, i, last, taken, plan)
    requires RegistryKey(sources[i]) in taken || !SourceAlone(sources[i])
             || !Before(last, SystemName(sources[i].system))
    ensures !SourcesOk(sources)
  {
    hide SourceAlone, Before, SystemName, SourcesOk, SourcePlan;
    NotSources(sources, i, last);
  }

  lemma AllChecked(sources: seq<SourceKey>, last: string, taken: set<Key>, plan: Plan)
    requires |sources| == 4 && Checked(sources, 4, last, taken, plan)
    ensures SourcesOk(sources) && plan == SourcePlan(sources)
  {
    hide SourceAlone, Before, SystemName, SourcesOk, SourcePlan;
    FourSystems(sources);
    assert sources[..4] == sources;
  }

  /** Four known systems in strictly ascending order of name are all four of them. */
  lemma FourSystems(sources: seq<SourceKey>)
    requires |sources| == 4 && forall j :: 0 <= j < 4 ==> SourceAlone(sources[j])
    requires forall j :: 1 <= j < 4 ==> Before(SystemName(sources[j - 1].system), SystemName(sources[j].system))
    requires forall j, k :: 0 <= j < k < 4 ==> RegistryKey(sources[j]) != RegistryKey(sources[k])
    ensures SourcesOk(sources)
  {
    hide Reference, Before, SystemName;
    NameOrder(sources[0].system, sources[1].system);
    NameOrder(sources[1].system, sources[2].system);
    NameOrder(sources[2].system, sources[3].system);
    assert Before(SystemName(sources[1 - 1].system), SystemName(sources[1].system));
    assert Before(SystemName(sources[2 - 1].system), SystemName(sources[2].system));
    assert Before(SystemName(sources[3 - 1].system), SystemName(sources[3].system));
    forall i | 0 <= i < 4 ensures SourceOk(sources[i], SYSTEM_ORDER[i]) {
      assert SourceAlone(sources[i]) && Standing(sources[i].system) == i;
    }
  }

  /** A source that fails a check of the loop is not part of an admitted list. */
  lemma NotSources(sources: seq<SourceKey>, i: nat, last: string)
    requires |sources| == 4 && i < 4
    requires last == if i == 0 then "" else SystemName(sources[i - 1].system)
    requires || (exists j :: 0 <= j < i && RegistryKey(sources[i]) == RegistryKey(sources[j]))
             || !SourceAlone(sources[i]) || !Before(last, SystemName(sources[i].system))
    ensures !SourcesOk(sources)
  {
    hide Reference, Before, SystemName;
    if SourcesOk(sources) {
      assert SourceOk(sources[i], SYSTEM_ORDER[i]);
      if i > 0 {
        assert SourceOk(sources[i - 1], SYSTEM_ORDER[i - 1]);
        NameOrder(sources[i - 1].system, sources[i].system);
      } else {
        NameOrder(sources[0].system, Uetds);
      }
      assert false;
    }
  }

  lemma PlanOrder(plan: Plan, records: Plan, owners: Plan, states: Plan)
    ensures plan + (records + owners + states) == plan + records + owners + states
    ensures plan + records + map[] == plan + records && plan + records + owners + map[] == plan + records + owners
    ensures plan + records + map[] + states == plan + records + states
  {
  }

  /** Decides one command at a time; all reads come before all writes. */
  class Contract {
    const store: Store
    const evidence: Provider

    ghost predicate Valid() {
      evidence.store == store
    }

    constructor (env: Env)
      ensures Valid() && fresh(store) && store.Contents() == EMPTY_STATE && evidence.env == env
    {
      var s := new Store();
      store := s;
      evidence := new Provider(s, env);
    }

    /** Everything that is checked before the evidence is looked at. */
    method Admit(c: Command, x: Execution) returns (r: Result<Start>)
      requires Valid()
      modifies store`seen
      ensures r == Engine.Admit(evidence.env, store.Contents(), c, x)
      ensures r.Ok? ==> store.seen == old(store.seen) + AdmitReads(c, x, r.value.existing)
    {
      hide Authorize, ValidId, ValidatePayload, ContextOk, LoadConfig;
      var _ :- Authorize(x.actor, x.role, c.name);
      :- Need(ValidId(c.batch, "BAT") && ValidId(c.op, "OP"), InvalidIdentifier);
      :- Need(0 <= c.expected <= MAX_VERSION, VersionConflict);
      var _ :- ValidatePayload(evidence.env, c);
      var _ :- evidence.GetConfig();
      :- Need(ContextOk(x), InternalError);
      var g := store.CheckAbsent(OperationKey(x.actor, c.op), DuplicateTransaction);
      :- g;
      var found := store.Read(BatchKey(c.batch));
      if found.None? {
        :- Need(c.name.CreateBatch?, BatchNotFound);
        :- Need(c.expected == 0, VersionConflict);
        return Ok(Start(false, ZERO_BATCH, EmptyRefs(c.batch)));
      }
      :- Need(found.value.BatchValue?, InternalError);
      var b := found.value.batch;
      :- Need(!c.name.CreateBatch?, BatchAlreadyExists);
      :- Need(b.version == c.expected && b.version != MAX_VERSION, VersionConflict);
      var refs := EmptyRefs(c.batch);
      var slots := store.Read(RefsKey(c.batch));
      if slots.Some? {
        :- Need(slots.value.RefsValue?, InternalError);
        refs := slots.value.refs;
      }
      r := Ok(Start(true, b, refs));
    }

    /** Take the public reference of a document. */
    method ConsumeDocument(plan: Plan, document: Id, c: Command) returns (g: Guard, after: Plan)
      modifies store`seen
      ensures var r := Consume(store.Contents(), plan, document, c);
              if r.Ok? then g.Pass? && after == r.value else g == Fail(r.error)
      ensures g.Pass? ==> store.seen == old(store.seen) + {Pub(DocRefKey(document))}
    {
      hide ValidId;
      after := plan;
      if !ValidId(document, "DOC") {
        return Fail(MissingEvidence), plan;
      }
      if DocRefKey(document) in plan {
        return Fail(DocumentAlreadyUsed), plan;
      }
      g := store.CheckAbsent(DocRefKey(document), DocumentAlreadyUsed);
      after := after[DocRefKey(document) := Some(DocRefValue(c.batch, c.op))];
    }

    method Create(c: Command, x: Execution, st: Start, v: Verified) returns (r: Result<Arm>)
      modifies store`seen
      ensures r == CreateArm(store.Contents(), c, x, st, v)
      ensures r.Ok? ==> store.seen == old(store.seen) + {Pub(DocRefKey(v.cks))}
    {
      hide Consume;
      :- Need(c.payload.CreateInput?, InvalidSchema);
      var p, refs := c.payload, st.refs;
      var b := ZERO_BATCH.(id := c.batch, product := p.product, grade := p.grade, quantity := p.quantity,
                           region := p.region, harvest := p.harvest, producer := x.actor, logistics := p.logistics,
                           retailer := p.retailer, owner := x.actor, custodian := x.actor, createdTx := x.tx);
      :- Need(v.quantity == b.quantity, SourceBindingMismatch);
      var g, plan := ConsumeDocument(map[], v.cks, c);
      :- g;
      refs := refs.(cks := v.cks);
      r := Ok(Arm(b, refs, plan, [c.batch, v.cks], BatchCreated));
    }

    /** The three documents of a pickup, consumed one after the other. */
    method PickupEvidence(c: Command, st: Start, v: Verified) returns (g: Guard, plan: Plan)
      modifies store`seen
      ensures var r := PickupDocuments(store.Contents(), c, st, v);
              if r.Ok? then g.Pass? && r.value
                 == (plan, st.refs.(purchase := v.purchase, hks := v.hks, transport := v.manifest),
                                                   [v.purchase, v.hks, v.manifest])
              else g == Fail(r.error)
      ensures g.Pass? ==>
                store.seen == old(store.seen)
                  + {Pub(DocRefKey(v.purchase)), Pub(DocRefKey(v.hks)), Pub(DocRefKey(v.manifest))}
    {
      hide Consume, ValidPurchase;
      plan := map[];
      if st.refs.cks == NO_ID {
        return Fail(MissingEvidence), plan;
      }
      if v.quantity != st.before.quantity {
        return Fail(SourceBindingMismatch), plan;
      }
      if !ValidPurchase(v) {
        return Fail(InvalidMoney), plan;
      }
      g, plan := ConsumeDocument(plan, v.purchase, c);
      if g.Pass? {
        g, plan := ConsumeDocument(plan, v.hks, c);
      }
      if g.Pass? {
        g, plan := ConsumeDocument(plan, v.manifest, c);
      }
    }

    method Offer(c: Command, x: Execution, st: Start, v: Verified) returns (r: Result<Arm>)
      requires IsOffer(c.name)
      modifies store`seen
      ensures r == OfferArm(store.Contents(), c, x, st, v)
      ensures r.Ok? ==> store.seen == old(store.seen) + ArmReads(c, st.before, v)
    {
      hide PickupDocuments;
      var b, refs, ids := st.before, st.refs, [c.batch];
      :- Need(c.payload.HandoffInput?, InvalidSchema);
      var p := c.payload;
      var state, next, kind, to := Created, PickupPending, Pickup, b.logistics;
      if c.name.OfferDelivery? {
        state, next, kind, to := InTransport, DeliveryPending, Delivery, b.retailer;
      }
      :- Need(b.state == state, InvalidStateTransition);
      :- Need(x.actor == b.custodian && (kind.Pickup? ==> x.actor == b.owner), UnauthorizedOrganization);
      :- Need(p.quantity == b.quantity, InvalidQuantity);
      var g := store.CheckAbsent(PendingKey(b.id), InvalidStateTransition);
      :- g;
      g := store.CheckAbsent(TransferKey(p.transfer), TransferAlreadyExists);
      :- g;
      var plan: Plan := map[];
      if kind.Pickup? {
        g, plan := PickupEvidence(c, st, v);
        :- g;
        ids := ids + [v.purchase, v.hks, v.manifest];
        refs := refs.(purchase := v.purchase, hks := v.hks, transport := v.manifest);
      } else {
        :- Need(refs.transport != NO_ID, MissingEvidence);
        assert ids + [] == ids;
      }
      var t := Transfer(p.transfer, b.id, kind, Offered, x.actor, to, b.quantity, c.op, NO_ID, x.tx, "");
      plan := plan[TransferKey(t.id) := Some(TransferValue(t))];
      plan := plan[PendingKey(b.id) := Some(IdValue(p.transfer))];
      b := b.(state := next);
      ids := ids + [p.transfer];
      r := Ok(Arm(b, refs, plan, ids, if kind.Pickup? then PickupOffered else DeliveryOffered));
    }

    method Accept(c: Command, x: Execution, st: Start, v: Verified) returns (r: Result<Arm>)
      requires IsAccept(c.name)
      modifies store`seen
      ensures r == AcceptArm(store.Contents(), c, x, st)
      ensures r.Ok? ==> store.seen == old(store.seen) + ArmReads(c, st.before, v)
    {
      var b := st.before;
      :- Need(c.payload.HandoffInput?, InvalidSchema);
      var p := c.payload;
      var found := store.Read(TransferKey(p.transfer));
      :- Need(found.Some?, TransferNotFound);
      :- Need(found.value.TransferValue?, InternalError);
      var t := found.value.transfer;
      :- Need(t.batch == b.id, TransferNotFound);
      :- Need(t.to == x.actor, WrongTransferRecipient);
      var state, next, kind := PickupPending, InTransport, Pickup;
      if c.name.AcceptDelivery? {
        state, next, kind := DeliveryPending, Received, Delivery;
      }
      var pending := store.Read(PendingKey(b.id));
      :- Need(pending.Some? ==> pending.value.IdValue?, InternalError);
      :- Need(b.state == state && t.status == Offered && t.kind == kind && pending.Some? && pending.value.id == t.id,
              InvalidStateTransition);
      :- Need(p.quantity == b.quantity && t.quantity == b.quantity, InvalidQuantity);
      :- Need(t.from == b.custodian, UnauthorizedOrganization);
      :- Need(kind.Pickup? || st.refs.freight != NO_ID, MissingEvidence);
      t := t.(status := Accepted, acceptOp := c.op, acceptedTx := x.tx);
      b := b.(state := next, custodian := x.actor);
      var event := PickupAccepted;
      if kind.Delivery? {
        b := b.(owner := x.actor);
        event := DeliveryAccepted;
      }
      r := Ok(Arm(b, st.refs, map[TransferKey(t.id) := Some(TransferValue(t)), PendingKey(b.id) := None],
                  [c.batch, p.transfer], event));
    }

    method RecordFreight(c: Command, x: Execution, st: Start, v: Verified) returns (r: Result<Arm>)
      requires c.name.RecordFreightCost?
      modifies store`seen
      ensures r == FreightArm(store.Contents(), c, x, st, v)
      ensures r.Ok? ==> store.seen == old(store.seen) + ArmReads(c, st.before, v)
    {
      var b, refs := st.before, st.refs;
      :- Need(c.payload.FreightInput?, InvalidSchema);
      var cost := c.payload.cost;
      :- Need(b.state == InTransport || b.state == DeliveryPending, InvalidStateTransition);
      :- Need(b.custodian == x.actor, UnauthorizedOrganization);
      :- Need(refs.freight == NO_ID, CostAlreadyExists);
      var g := store.CheckAbsent(CostRefKey(cost), CostAlreadyExists);
      :- g;
      :- Need(v.quantity == b.quantity, SourceBindingMismatch);
      :- Need(0 <= v.freightTotal <= 1_000_000_000_000 && v.currency == Try && v.tax == ExcludingTax, InvalidMoney);
      refs := refs.(freight := cost);
      r := Ok(Arm(b, refs, Put(CostRefKey(cost), IdValue(c.batch)), [c.batch, cost], FreightCostRecorded));
    }

    method Report(c: Command, x: Execution, st: Start, v: Verified) returns (r: Result<Arm>)
      requires c.name.ReportRetailPrice?
      modifies store`seen
      ensures r == ReportArm(store.Contents(), c, x, st, v)
      ensures r.Ok? ==> store.seen == old(store.seen) + ArmReads(c, st.before, v)
    {
      hide ValidPurchase;
      var b, refs := st.before, st.refs;
      :- Need(c.payload.ReportInput?, InvalidSchema);
      var p := c.payload;
      :- Need(b.state == Received, InvalidStateTransition);
      :- Need(b.owner == x.actor && b.custodian == x.actor, UnauthorizedOrganization);
      :- Need(refs.purchase != NO_ID && refs.freight != NO_ID, MissingEvidence);
      :- Need(refs.report == NO_ID && b.lot == NO_ID, ReportAlreadyExists);
      var g := store.CheckAbsent(LotKey(p.lot), LotAlreadyExists);
      :- g;
      g := store.CheckAbsent(ReportRefKey(p.report), ReportAlreadyExists);
      :- g;
      :- Need(v.quantity == b.quantity, SourceBindingMismatch);
      :- Need(ValidPurchase(v) && 0 <= v.retailPrice <= 1_000_000_000, InvalidMoney);
      :- Need(p.policy == v.policy, PolicyMismatch);
      refs := refs.(report := p.report);
      b := b.(lot := p.lot, state := RetailReported);
      var lot := Lot(p.lot, b.id, b.quantity, x.actor, p.report, x.tx);
      r := Ok(Arm(b, refs, map[LotKey(p.lot) := Some(LotValue(lot)), ReportRefKey(p.report) := Some(IdValue(c.batch))],
                  [c.batch, p.report, p.lot, p.policy], RetailPriceReported));
    }

    /** The switch over the ten commands. */
    method Decide(c: Command, x: Execution, st: Start, v: Verified) returns (r: Result<Arm>)
      modifies store`seen
      ensures r == RunArm(store.Contents(), c, x, st, v)
      ensures r.Ok? ==> store.seen == old(store.seen) + ArmReads(c, st.before, v)
    {
      hide CreateArm, OfferArm, AcceptArm, FreightArm, ReportArm;
      match c.name {
        case EvaluatePrice | OpenReview | ResolveReview => r := AnalysisArm(c, st);
        case CreateBatch => r := Create(c, x, st, v);
        case OfferPickup | OfferDelivery => r := Offer(c, x, st, v);
        case AcceptPickup | AcceptDelivery => r := Accept(c, x, st, v);
        case RecordFreightCost => r := RecordFreight(c, x, st, v);
        case ReportRetailPrice => r := Report(c, x, st, v);
      }
    }

    /** The writes common to every command, put into the plan one by one, and the dropped index entries. */
    method PlanRecords(c: Command, x: Execution, st: Start, arm: Arm, b: Batch, receipt: Receipt) returns (plan: Plan)
      requires b == NewBatch(x, st, arm) && receipt == NewReceipt(c, x, st, arm)
      ensures plan == arm.plan + BasePlan(c, x, st, arm)
    {
      hide NewBatch, NewReceipt;
      var records: Plan := map[
        BatchKey(c.batch) := Some(BatchValue(b)),
        RefsKey(c.batch) := Some(RefsValue(arm.refs)),
        OperationKey(x.actor, c.op) := Some(ReceiptValue(receipt)),
        HistoryKey(c.batch, b.version) := Some(ReceiptValue(receipt)),
        OwnerKey(b.owner, b.id) := Some(IdValue(b.id)),
        StateKey(b.state, b.id) := Some(IdValue(b.id))];
      plan := arm.plan + records;
      var owners: Plan, states: Plan := map[], map[];
      if st.existing && st.before.owner != b.owner {
        owners := map[OwnerKey(st.before.owner, b.id) := None];
        plan := plan + owners;
      }
      if st.existing && st.before.state != b.state {
        states := map[StateKey(st.before.state, b.id) := None];
        plan := plan + states;
      }
      PlanOrder(arm.plan, records, owners, states);
    }

    /**
     * One command. Accepted, the store moves by exactly the decided writes and
     * one event, and what was read is the command's read set; refused, the
     * public state, the private state and the events are as before.
     */
    method Apply(c: Command, x: Execution, t: Transient) returns (r: Result<Receipt>)
      requires Valid()
      modifies store
      ensures var o := Engine.Apply(evidence.env, old(store.Contents()), c, x, t);
              if o.Ok? then
                && r == Ok(o.value.receipt)
                && store.Contents() == After(old(store.Contents()), o.value)
                && store.seen == ReadsOf(evidence.env, old(store.Contents()), c, x, t)
              else r == Err(o.error) && store.Contents() == old(store.Contents())
    {
      hide Engine.Admit, Evidence.Prepare, RunArm, BasePlan, AdmitReads, PrepareReads, ArmReads, Commit;
      store.seen := {};
      var st :- Admit(c, x);
      var v :- evidence.Prepare(c, x, t, st.before, st.refs);
      var arm :- Decide(c, x, st, v);
      var b := arm.b.(version := st.before.version + 1, updatedTx := x.tx, time := x.time);
      var ids := UniqueIds(arm.ids);
      var receipt := Receipt(c.op, c.batch, c.name, x.actor, x.tx, x.time, b.version, ids);
      var plan := PlanRecords(c, x, st, arm, b, receipt);
      var previous := if st.existing then Some(st.before.state) else None;
      var event := Event(arm.event, c.op, c.batch, x.actor, x.tx, x.time, b.version, ids, previous, b.state);
      plan := plan + v.pub;
      ConfigRead(c, x, st.existing);
      store.WritePrivate(v.priv);
      store.Flush(plan, event);
      r := Ok(receipt);
    }

    /** The one-time trust configuration: no events, no private data, nothing read but its own key. */
    method Bootstrap(actor: Msp, role: Role, config: Configuration) returns (r: Result<Configuration>)
      requires Valid()
      modifies store
      ensures var o := Engine.Bootstrap(old(store.Contents()), actor, role, config);
              if o.Ok? then
                && r == Ok(config) && store.seen == {Pub(ConfigKey)}
                && store.Contents() == State(Commit(old(store.pub), o.value), old(store.priv), old(store.events))
              else r == Err(o.error) && store.Contents() == old(store.Contents())
    {
      hide ValidId, SourcesOk, SourcePlan, Commit;
      store.seen := {};
      :- Need(actor == Regulator, UnauthorizedOrganization);
      :- Need(role == AdminRole, UnauthorizedRole);
      var g := store.CheckAbsent(ConfigKey, ConfigurationAlreadyExists);
      :- g;
      :- Need(ValidId(config.policy, "CFG") && ThresholdOk(config.threshold), InvalidSchema);
      var ok, plan := CheckSources(config.sources);
      :- Need(ok, InvalidSchema);
      plan := plan[ConfigKey := Some(ConfigValue(config))];
      plan := plan[PolicyKey(config.policy) := Some(PolicyValue(config.threshold))];
      store.WriteAll(plan);
      r := Ok(config);
    }

    /** Four sources, each known, enabled and of its own system, in order of the system's name, under distinct keys. */
    method CheckSources(sources: seq<SourceKey>) returns (ok: bool, plan: Plan)
      ensures ok <==> SourcesOk(sources)
      ensures ok ==> plan == SourcePlan(sources)
    {
      plan := map[];
      if |sources| != 4 {
        return false, plan;
      }
      var last, taken, i := "", {}, 0;
      NoneChecked(sources);
      while i < 4
        invariant 0 <= i <= 4 && Checked(sources, i, last, taken, plan)
      {
        hide Checked, SourceAlone, Before, SourcesOk;
        var k := sources[i];
        if RegistryKey(k) in taken || !SourceAlone(k) || !Before(last, SystemName(k.system)) {
          NotChecked(sources, i, last, taken, plan);
          return false, plan;
        }
        NextChecked(sources, i, last, taken, plan);
        taken := taken + {RegistryKey(k)};
        plan := plan[RegistryKey(k) := Some(SourceKeyValue(k))];
        last := SystemName(k.system);
        i := i + 1;
      }
      AllChecked(sources, last, taken, plan);
      ok := true;
    }
  }
}
