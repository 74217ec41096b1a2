/** The backend's public projection: a replayed event stream folded into views, across crashes and restarts. */
module Projection {
  import opened Types
  import opened Evidence
  import opened Engine
  import opened Ordering
  import opened Invariants
  import opened Preserve
  import opened Provenance
  import opened Runs
  import opened Guarantees

  // ==========================================================================
  // The public view of a batch: the fold of its committed events, and its agreement with the
  // ledger.

  // ----------------------------------------------------------------- the view

  /** One entry of the public history. */
  datatype Milestone = Milestone(event: EventName, time: TxTime, tx: string)

  datatype View = View(batch: Id, product: string, grade: string, quantity: int, region: string, harvest: string,
                       state: Lifecycle, version: int, updatedTx: string, block: nat,
                       history: seq<Milestone>, sources: seq<System>, lot: Option<Id>)

  datatype ChainEvent = ChainEvent(event: Event, block: nat)

  /** The empty view of a batch: its id and the fields that never change. */
  function NewView(id: Id, b: Batch): View {
    View(id, b.product, b.grade, b.quantity, b.region, b.harvest, Created, 0, "", 0, [], [], None)
  }

  predicate IsMilestone(name: EventName) {
    name.BatchCreated? || name.PickupAccepted? || name.DeliveryAccepted?
  }

  function SourcesOf(name: EventName): seq<System> {
    match name
    case BatchCreated => [Cks]
    case PickupOffered => [Efatura, Hks, Uetds]
    case _ => []
  }

  predicate IsLot(id: Id) {
    |id.text| >= 4 && id.text[..4] == "LOT-"
  }

  /** The last lot id among the touched ids. */
  function LotIn(ids: seq<Id>): Option<Id> {
    if ids == [] then None
    else if IsLot(ids[|ids| - 1]) then Some(ids[|ids| - 1])
    else LotIn(ids[..|ids| - 1])
  }

  /** One event applied to a view. */
  function Update(v: View, e: ChainEvent): View {
    var n := e.event.name;
    var moved := v.(state := e.event.next, version := e.event.version, updatedTx := e.event.tx, block := e.block);
    var told := if IsMilestone(n) then moved.(history := v.history + [Milestone(n, e.event.time, e.event.tx)])
      else moved;
    var sourced := told.(sources := v.sources + SourcesOf(n));
    var lot := if n.RetailPriceReported? then LotIn(e.event.ids) else None;
    if lot.Some? then sourced.(lot := lot) else sourced
  }

  function ViewBefore(views: map<Id, View>, id: Id, b: Batch): View {
    if id in views then views[id] else NewView(id, b)
  }

  /** The fold of the first n events; the fields that never change are read from the ledger. */
  function Fold(s: State, feed: seq<ChainEvent>, n: nat): map<Id, View> {
    if n == 0 then map[]
    else if n > |feed| then Fold(s, feed, n - 1)
    else
      var views, e := Fold(s, feed, n - 1), feed[n - 1];
      views[e.event.batch := Update(ViewBefore(views, e.event.batch, BatchAt(s, e.event.batch)), e)]
  }

  // ----------------------------------------------------------------- one lot

  lemma LotStarts(id: Id)
    requires IsLot(id)
    ensures id.text[..3] == "LOT"
  {
    assert id.text[..4][..3] == id.text[..3];
  }

  lemma LotPrefix(id: Id, prefix: string)
    requires ValidId(id, prefix) && |prefix| == 3
    ensures IsLot(id) <==> prefix == "LOT"
  {
    assert id.text[..4] == id.text[..3] + [id.text[3]];
    if IsLot(id) {
      LotStarts(id);
    }
  }

  /** With one lot id among them, the ids name that lot. */
  lemma {:induction false} OneLot(ids: seq<Id>, lot: Id)
    requires lot in ids && IsLot(lot) && forall id :: id in ids && IsLot(id) ==> id == lot
    ensures LotIn(ids) == Some(lot)
  {
    var n := |ids| - 1;
    if !IsLot(ids[n]) {
      assert ids == ids[..n] + [ids[n]];
      OneLot(ids[..n], lot);
    }
  }

  // --------------------------------------------------------------- agreement

  function EventOf(name: CommandName): EventName {
    match name
    case CreateBatch => BatchCreated
    case OfferPickup => PickupOffered
    case AcceptPickup => PickupAccepted
    case RecordFreightCost => FreightCostRecorded
    case OfferDelivery => DeliveryOffered
    case AcceptDelivery => DeliveryAccepted
    case ReportRetailPrice => RetailPriceReported
    case EvaluatePrice => PriceEvaluated
    case OpenReview | ResolveReview => ReviewUpdated
  }

  function SourcesFor(state: Lifecycle): seq<System> {
    if state.Created? then [Cks] else [Cks, Efatura, Hks, Uetds]
  }

  /** The public milestones a batch in this state has passed: never more than three. */
  function MilestonesFor(state: Lifecycle): seq<CommandName> {
    match state
    case Created | PickupPending => [CreateBatch]
    case InTransport | DeliveryPending => [CreateBatch, AcceptPickup]
    case Received | RetailReported => [CreateBatch, AcceptPickup, AcceptDelivery]
  }

  /** A milestone repeats a committed receipt of the batch. */
  ghost predicate MilestoneOk(s: State, id: Id, m: Milestone, command: CommandName) {
    && m.event == EventOf(command)
    && exists n {:trigger HistoryKey(id, n)} :: HistoryKey(id, n) in s.pub && s.pub[HistoryKey(id, n)].ReceiptValue?
         && var r := s.pub[HistoryKey(id, n)].receipt; r.command == command && r.tx == m.tx && r.time == m.time
  }

  ghost predicate HistoryOk(s: State, id: Id, history: seq<Milestone>, state: Lifecycle) {
    && |history| == |MilestonesFor(state)|
    && forall i :: 0 <= i < |history| ==> MilestoneOk(s, id, history[i], MilestonesFor(state)[i])
  }

  /** A view agrees with the batch it shows. */
  ghost predicate Agrees(s: State, id: Id, v: View) {
    var b := BatchAt(s, id);
    && v.batch == id && v.product == b.product && v.grade == b.grade && v.quantity == b.quantity
    && v.region == b.region && v.harvest == b.harvest
    && v.state == b.state && v.version == b.version && v.updatedTx == b.updatedTx
    && v.lot == (if b.lot == NO_ID then None else Some(b.lot))
    && v.sources == SourcesFor(b.state)
    && HistoryOk(s, id, v.history, b.state)
  }

  /** Every batch has a view, every view has a batch, and they agree. */
  ghost predicate AllAgree(s: State, views: map<Id, View>) {
    && (forall id {:trigger id in views} {:trigger BatchKey(id) in s.pub} :: id in views <==> BatchKey(id) in s.pub)
    && (forall id {:trigger views[id]} :: id in views ==> Agrees(s, id, views[id]))
  }

  /** The chain's events with the blocks they are in. */
  ghost predicate FeedOf(s: State, feed: seq<ChainEvent>) {
    |feed| == |s.events| && forall i :: 0 <= i < |feed| ==> feed[i].event == s.events[i]
  }

  // ------------------------------------------------------------------ stability

  /** The events of the first n name batches of the state. */
  ghost predicate Known(s: State, feed: seq<ChainEvent>, n: nat) {
    forall i :: 0 <= i < n && i < |feed| ==> BatchKey(feed[i].event.batch) in s.pub
  }

  /** The fold does not depend on when the ledger is read for the fields that never change. */
  lemma {:induction false} FoldStable(s: State, u: State, feed: seq<ChainEvent>, n: nat)
    requires n <= |feed| && Known(s, feed, n) && BatchesLast(s, u)
    ensures Fold(u, feed, n) == Fold(s, feed, n)
  {
    hide BatchAt, RefsAt, Update;
    if n > 0 {
      FoldStable(s, u, feed, n - 1);
      var id := feed[n - 1].event.batch;
      assert BatchKey(id) in s.pub;
      assert SameIdentity(BatchAt(s, id), BatchAt(u, id));
    }
  }

  /** Events that come later do not change the fold of the earlier ones. */
  lemma {:induction false} FoldPrefix(s: State, feed: seq<ChainEvent>, more: seq<ChainEvent>, n: nat)
    requires n <= |feed| && feed <= more
    ensures Fold(s, more, n) == Fold(s, feed, n)
  {
    hide Update, BatchAt, ViewBefore;
    if n > 0 {
      FoldPrefix(s, feed, more, n - 1);
    }
  }

  // ----------------------------------------------------------------- one step

  lemma ArmEvent(s: State, c: Command, x: Execution, st: Start, v: Verified, arm: Arm)
    requires Admitted(s, c, x, st) && RunArm(s, c, x, st, v) == Ok(arm)
    ensures arm.event == EventOf(c.name)
  {
    hide ValidId, ValidPurchase, Consume, PickupDocuments;
  }

  /** How the command moved the fields that the public sees. */
  ghost predicate Visible(c: Command, st: Start, arm: Arm) {
    && (c.name.CreateBatch? ==> arm.b.state == Created && arm.b.lot == NO_ID)
    && (!c.name.CreateBatch? ==>
          && arm.b.product == st.before.product && arm.b.grade == st.before.grade
          && arm.b.quantity == st.before.quantity
          && arm.b.region == st.before.region && arm.b.harvest == st.before.harvest
          && (if c.name.ReportRetailPrice? then
                c.payload.ReportInput? && st.before.lot == NO_ID && arm.b.lot == c.payload.lot && arm.b.lot != NO_ID
                && arm.ids == [c.batch, c.payload.report, c.payload.lot, c.payload.policy]
              else arm.b.lot == st.before.lot)
          && MilestonesFor(arm.b.state)
             == MilestonesFor(st.before.state) + (if IsMilestone(EventOf(c.name)) then [c.name] else [])
          && SourcesFor(arm.b.state) == SourcesFor(st.before.state) + SourcesOf(EventOf(c.name)))
  }

  lemma ReportVisible(s: State, c: Command, x: Execution, st: Start, v: Verified, arm: Arm)
    requires c.name.ReportRetailPrice? && PayloadFits(c) && ReportArm(s, c, x, st, v) == Ok(arm)
    ensures Visible(c, st, arm)
  {
    hide ValidId, ValidPurchase;
    PrefixNotEmpty(c.payload.lot, "LOT");
  }

  lemma OfferVisible(s: State, c: Command, x: Execution, st: Start, v: Verified, arm: Arm)
    requires IsOffer(c.name) && OfferArm(s, c, x, st, v) == Ok(arm)
    ensures Visible(c, st, arm)
  {
    hide PickupDocuments;
  }

  lemma FreightVisible(s: State, c: Command, x: Execution, st: Start, v: Verified, arm: Arm)
    requires Admitted(s, c, x, st) && FreightArm(s, c, x, st, v) == Ok(arm) && c.name.RecordFreightCost?
    ensures Visible(c, st, arm)
  {
    hide ValidId, PayloadFits;
  }

  lemma ArmVisible(s: State, c: Command, x: Execution, st: Start, v: Verified, arm: Arm)
    requires Admitted(s, c, x, st) && RunArm(s, c, x, st, v) == Ok(arm)
    ensures Visible(c, st, arm)
  {
    hide ValidId, PayloadFits, OfferArm, ReportArm, Consume, FreightArm;
    match c.name
    case OfferPickup | OfferDelivery => OfferVisible(s, c, x, st, v, arm);
    case ReportRetailPrice => ReportVisible(s, c, x, st, v, arm);
    case RecordFreightCost => FreightVisible(s, c, x, st, v, arm);
    case _ =>
  }

  /** The report's ids name exactly its lot. */
  lemma ReportNamesLot(c: Command, ids: seq<Id>)
    requires c.name.ReportRetailPrice? && PayloadFits(c) && ValidId(c.batch, "BAT")
    requires ids == SortedUnique([c.batch, c.payload.report, c.payload.lot, c.payload.policy])
    ensures LotIn(ids) == Some(c.payload.lot)
  {
    hide ValidId, IsLot, SortedUnique;
    var touched := [c.batch, c.payload.report, c.payload.lot, c.payload.policy];
    SortedUniqueFacts(touched);
    LotPrefix(c.batch, "BAT");
    LotPrefix(c.payload.report, "RPT");
    LotPrefix(c.payload.lot, "LOT");
    LotPrefix(c.payload.policy, "CFG");
    assert touched[2] == c.payload.lot;
    assert c.payload.lot in touched;
    forall id | id in ids && IsLot(id) ensures id == c.payload.lot {
      assert id in touched;
    }
    OneLot(ids, c.payload.lot);
  }

  /** A receipt that stays keeps the milestones that repeat it. */
  lemma MilestoneStays(s: State, s': State, id: Id, m: Milestone, command: CommandName)
    requires KeysLast(s, s') && MilestoneOk(s, id, m, command)
    ensures MilestoneOk(s', id, m, command)
  {
    var n :| HistoryKey(id, n) in s.pub && s.pub[HistoryKey(id, n)].ReceiptValue?
             && var r := s.pub[HistoryKey(id, n)].receipt; r.command == command && r.tx == m.tx && r.time == m.time;
    assert HistoryKey(id, n) in s'.pub;
  }

  lemma HistoryStays(s: State, s': State, id: Id, history: seq<Milestone>, state: Lifecycle)
    requires KeysLast(s, s') && HistoryOk(s, id, history, state)
    ensures HistoryOk(s', id, history, state)
  {
    hide KeysLast, MilestoneOk;
    forall i | 0 <= i < |history| ensures MilestoneOk(s', id, history[i], MilestonesFor(state)[i]) {
      MilestoneStays(s, s', id, history[i], MilestonesFor(state)[i]);
    }
  }

  lemma AgreesElsewhere(s: State, s': State, id: Id, v: View)
    requires KeysLast(s, s') && Agrees(s, id, v) && BatchAt(s', id) == BatchAt(s, id)
    ensures Agrees(s', id, v)
  {
    hide KeysLast, BatchAt, HistoryOk;
    HistoryStays(s, s', id, v.history, BatchAt(s, id).state);
  }

  /** The event of an accepted command. */
  ghost predicate EventFor(c: Command, x: Execution, st: Start, arm: Arm, e: Event) {
    && e.name == EventOf(c.name) && e.batch == c.batch && e.tx == x.tx && e.time == x.time
    && e.version == st.before.version + 1 && e.next == arm.b.state && e.ids == SortedUnique(arm.ids)
  }

  /** The event of a report names its lot. */
  predicate LotTold(c: Command, e: Event) {
    c.name.ReportRetailPrice? && c.payload.ReportInput? ==> LotIn(e.ids) == Some(c.payload.lot)
  }

  /** The milestone a command adds repeats the receipt the command stored. */
  lemma NewMilestone(s: State, s': State, c: Command, x: Execution, st: Start, arm: Arm, e: Event)
    requires ReceiptEffect(s, s', c, x, st, arm) && EventFor(c, x, st, arm, e)
    ensures MilestoneOk(s', c.batch, Milestone(e.name, e.time, e.tx), c.name)
  {
    hide NewBatch, SortedUnique;
    var k := HistoryKey(c.batch, NewBatch(x, st, arm).version);
    assert k in s'.pub && s'.pub[k] == ReceiptValue(NewReceipt(c, x, st, arm));
  }

  lemma HistoryGrows(s: State, s': State, c: Command, history: seq<Milestone>, was: Lifecycle, now: Lifecycle,
                     m: Milestone)
    requires HistoryOk(s', c.batch, history, was) && MilestoneOk(s', c.batch, m, c.name)
    requires MilestonesFor(now) == MilestonesFor(was) + [c.name]
    ensures HistoryOk(s', c.batch, history + [m], now)
  {
    hide MilestoneOk, MilestonesFor;
  }

  lemma UpdateFields(v: View, e: ChainEvent)
    ensures var u, n := Update(v, e), e.event.name;
            && u.batch == v.batch && u.product == v.product && u.grade == v.grade && u.quantity == v.quantity
            && u.region == v.region && u.harvest == v.harvest
            && u.state == e.event.next && u.version == e.event.version && u.updatedTx == e.event.tx
            && u.block == e.block
            && u.sources == v.sources + SourcesOf(n)
            && u.history == v.history + (if IsMilestone(n) then [Milestone(n, e.event.time, e.event.tx)] else [])
            && u.lot == if n.RetailPriceReported? && LotIn(e.event.ids).Some? then LotIn(e.event.ids) else v.lot
  {
  }

  /** The view of the command's batch, updated by its event, agrees with the new batch. */
  lemma AgreesHere(s: State, s': State, c: Command, x: Execution, st: Start, arm: Arm, v: View, e: ChainEvent)
    requires st.existing && Agrees(s, c.batch, v) && BatchAt(s, c.batch) == st.before && !c.name.CreateBatch?
    requires BatchAt(s', c.batch) == NewBatch(x, st, arm) && Visible(c, st, arm) && EventFor(c, x, st, arm, e.event)
    requires KeysLast(s, s') && ReceiptEffect(s, s', c, x, st, arm)
    requires LotTold(c, e.event)
    ensures Agrees(s', c.batch, Update(v, e))
  {
    hide KeysLast, ReceiptEffect, BatchAt, HistoryOk, LotIn, MilestonesFor, SourcesFor, SourcesOf, SortedUnique;
    hide Update;
    UpdateFields(v, e);
    NewMilestone(s, s', c, x, st, arm, e.event);
    HistoryStays(s, s', c.batch, v.history, st.before.state);
    if IsMilestone(e.event.name) {
      HistoryGrows(s, s', c, v.history, st.before.state, arm.b.state,
                   Milestone(e.event.name, e.event.time, e.event.tx));
    } else {
      assert v.history + [] == v.history;
      SameHistory(s', c.batch, v.history, st.before.state, arm.b.state);
    }
  }

  lemma SameHistory(s: State, id: Id, history: seq<Milestone>, was: Lifecycle, now: Lifecycle)
    requires HistoryOk(s, id, history, was) && MilestonesFor(now) == MilestonesFor(was) + []
    ensures HistoryOk(s, id, history, now)
  {
    hide MilestoneOk;
    assert MilestonesFor(was) + [] == MilestonesFor(was);
  }

  /** A creation starts a view that agrees with the new batch. */
  lemma AgreesNew(s: State, s': State, c: Command, x: Execution, st: Start, arm: Arm, e: ChainEvent)
    requires c.name.CreateBatch? && st.before.version == 0
    requires BatchAt(s', c.batch) == NewBatch(x, st, arm) && Visible(c, st, arm) && EventFor(c, x, st, arm, e.event)
    requires ReceiptEffect(s, s', c, x, st, arm)
    ensures Agrees(s', c.batch, Update(NewView(c.batch, BatchAt(s', c.batch)), e))
  {
    hide ReceiptEffect, BatchAt, LotIn, SortedUnique, MilestoneOk;
    NewMilestone(s, s', c, x, st, arm, e.event);
  }

  lemma FinishEvent(c: Command, x: Execution, st: Start, arm: Arm, v: Verified)
    requires arm.event == EventOf(c.name)
    ensures EventFor(c, x, st, arm, Finish(c, x, st, arm, v).event)
  {
    hide BasePlan, SortedUnique;
  }

  lemma StepVisible(env: Env, s: State, c: Command, x: Execution, t: Transient, st: Start, v: Verified, arm: Arm)
    requires Accepts(env, s, c, x, t, st, v, arm) && Admitted(s, c, x, st)
    ensures Visible(c, st, arm) && EventFor(c, x, st, arm, Finish(c, x, st, arm, v).event)
    ensures LotTold(c, Finish(c, x, st, arm, v).event)
  {
    hide Admit, Prepare, RunArm, LotIn, MilestonesFor, SourcesFor, SortedUnique, Finish, ValidId;
    ArmVisible(s, c, x, st, v, arm);
    ArmEvent(s, c, x, st, v, arm);
    FinishEvent(c, x, st, arm, v);
    if c.name.ReportRetailPrice? {
      AdmitFacts(env, s, c, x, st);
      ReportNamesLot(c, Finish(c, x, st, arm, v).event.ids);
    }
  }

  /** One accepted command: its event, applied to the views, keeps them in agreement with the ledger. */
  lemma AgreeStep(env: Env, s: State, c: Command, x: Execution, t: Transient, o: Outcome, views: map<Id, View>,
                  block: nat)
    requires Inv(s) && AllAgree(s, views) && Apply(env, s, c, x, t) == Ok(o)
    ensures var s', e := Step(env, s, c, x, t), ChainEvent(o.event, block);
            && s'.events == s.events + [o.event] && o.event.batch == c.batch && BatchKey(c.batch) in s'.pub
            && AllAgree(s', views[c.batch := Update(ViewBefore(views, c.batch, BatchAt(s', c.batch)), e)])
  {
    hide Apply, Step, Inv, Finish, Agrees, Update, Guards, KeysLast, BatchesLast, RecordsLast, BatchAt,
         Accepts, Admitted, ProofPlan, RecordEffect, ReceiptEffect, IndexEffect, ArmEffect, ProofEffect;
    var s' := Step(env, s, c, x, t);
    var st, v, arm := MovedBy(env, s, c, x, t);
    GuardsHold(env, s, s', c, x, t, st, v, arm);
    MovedExtends(env, s, s', c, x, t, st, v, arm);
    StepVisible(env, s, c, x, t, st, v, arm);
    StepEvents(env, s, c, x, t, o);
    AgreeMoved(env, s, s', c, x, t, st, v, arm, views, ChainEvent(o.event, block));
  }

  lemma StepEvents(env: Env, s: State, c: Command, x: Execution, t: Transient, o: Outcome)
    requires Apply(env, s, c, x, t) == Ok(o)
    ensures Step(env, s, c, x, t).events == s.events + [o.event]
  {
    hide Apply, Commit;
  }

  lemma AgreeMoved(env: Env, s: State, s': State, c: Command, x: Execution, t: Transient, st: Start, v: Verified,
                   arm: Arm, views: map<Id, View>, e: ChainEvent)
    requires AllAgree(s, views) && Moved(env, s, s', c, x, t, st, v, arm) && Guards(env, s, s', c, x, t, st, v, arm)
    requires KeysLast(s, s') && Visible(c, st, arm) && EventFor(c, x, st, arm, e.event)
    requires LotTold(c, e.event)
    ensures AllAgree(s', views[c.batch := Update(ViewBefore(views, c.batch, BatchAt(s', c.batch)), e)])
  {
    hide Accepts, Admitted, ProofPlan, RecordEffect, ReceiptEffect, IndexEffect, ArmEffect, ProofEffect;
    hide Fresh, Permanent, Sealed, PrivPlan, ReferencePlan, AnalysisWrites, ReceiptsGrow, NewBatch, LifecycleOk;
    hide BatchAt, RefsAt, KeysLast, Visible, EventFor, LotIn, Agrees, Update, IsReview, RequiredCaller;
    if st.existing {
      AgreesHere(s, s', c, x, st, arm, views[c.batch], e);
    } else {
      AgreesNew(s, s', c, x, st, arm, e);
    }
    var after := views[c.batch := Update(ViewBefore(views, c.batch, BatchAt(s', c.batch)), e)];
    forall id | id in after ensures Agrees(s', id, after[id]) {
      if id != c.batch {
        AgreesElsewhere(s, s', id, views[id]);
      }
    }
    forall id ensures id in after <==> BatchKey(id) in s'.pub {
    }
  }

  lemma AgreeConfigure(s: State, actor: Msp, role: Role, cfg: Configuration, plan: Plan, views: map<Id, View>)
    requires Inv(s) && AllAgree(s, views) && Bootstrap(s, actor, role, cfg) == Ok(plan)
    ensures AllAgree(State(Commit(s.pub, plan), s.priv, s.events), views)
  {
    hide Inv, SourcesOk, ValidId, SourcePlan, Agrees;
    BlankBefore(s);
    SourcePlanKinds(cfg.sources);
    forall id ensures id !in views {
      assert BatchKey(id) !in s.pub;
    }
  }

  // -------------------------------------------------------------------- runs

  /** The fold of the whole feed agrees with the ledger, and all its events name stored batches. */
  ghost predicate Shows(s: State, feed: seq<ChainEvent>) {
    Known(s, feed, |feed|) && AllAgree(s, Fold(s, feed, |feed|))
  }

  /**
   * The fold of all committed events agrees with the ledger, batch by batch:
   * state, version, lot, sources and the at most three milestones.
   */
  lemma {:induction false} RunAgrees(env: Env, rs: seq<Request>, feed: seq<ChainEvent>)
    requires FeedOf(Run(env, rs), feed)
    ensures Shows(Run(env, rs), feed)
  {
    hide Inv, Serve, Extends, BatchAt, Update;
    if rs == [] {
    } else {
      var s, r := Run(env, rs[..|rs| - 1]), rs[|rs| - 1];
      var s' := Run(env, rs);
      RunInv(env, rs[..|rs| - 1]);
      assert s' == Serve(env, s, r);
      ServeExtends(env, s, r);
      EventsLast(s, s');
      var was := feed[..|s.events|];
      RunAgrees(env, rs[..|rs| - 1], was);
      ServeAgrees(env, s, r, was, feed);
    }
  }

  lemma EventsLast(s: State, s': State)
    requires Extends(s, s')
    ensures s.events <= s'.events && BatchesLast(s, s')
  {
    hide KeysLast, BatchesLast, RecordsLast;
  }

  lemma KnownLater(s: State, s': State, feed: seq<ChainEvent>, n: nat)
    requires n <= |feed| && Known(s, feed, n) && BatchesLast(s, s')
    ensures Known(s', feed, n)
  {
    hide BatchAt, RefsAt;
    forall i | 0 <= i < n ensures BatchKey(feed[i].event.batch) in s'.pub {
      assert BatchKey(feed[i].event.batch) in s.pub;
    }
  }

  lemma ServeAgrees(env: Env, s: State, r: Request, was: seq<ChainEvent>, feed: seq<ChainEvent>)
    requires Inv(s) && FeedOf(s, was) && FeedOf(Serve(env, s, r), feed) && was <= feed
    requires BatchesLast(s, Serve(env, s, r)) && Shows(s, was)
    ensures Shows(Serve(env, s, r), feed)
  {
    hide Inv, AllAgree, Apply, Step, Bootstrap, Commit, BatchesLast, BatchAt, Update;
    var s' := Serve(env, s, r);
    var n := |was|;
    KnownLater(s, s', was, n);
    FoldStable(s, s', was, n);
    FoldPrefix(s', was, feed, n);
    match r
    case Configure(actor, role, config) =>
      assert feed == was;
      if Bootstrap(s, actor, role, config).Ok? {
        AgreeConfigure(s, actor, role, config, Bootstrap(s, actor, role, config).value, Fold(s, was, n));
      }
    case Invoke(c, x, t) =>
      if Apply(env, s, c, x, t).Ok? {
        var o := Apply(env, s, c, x, t).value;
        AgreeStep(env, s, c, x, t, o, Fold(s, was, n), if n < |feed| then feed[n].block else 0);
        assert s'.events[n] == o.event;
        assert feed[n] == ChainEvent(o.event, feed[n].block);
      } else {
        RefusedStays(env, s, c, x, t);
        assert feed == was;
      }
  }

  lemma RefusedStays(env: Env, s: State, c: Command, x: Execution, t: Transient)
    requires Apply(env, s, c, x, t).Err?
    ensures Step(env, s, c, x, t) == s
  {
    hide Apply;
  }

  // ==========================================================================
  // The backend's public projection: a replayed event stream folded into views, across crashes and
  // restarts.

  // ------------------------------------------------------- prefixes of a run

  /** Some earlier ledger of the run had exactly the first k events. */
  lemma {:induction false} PrefixRun(env: Env, rs: seq<Request>, k: nat) returns (before: seq<Request>)
    requires k <= |Run(env, rs).events|
    ensures before <= rs && |Run(env, before).events| == k
  {
    hide Serve;
    if k == |Run(env, rs).events| {
      before := rs;
    } else {
      var last := rs[..|rs| - 1];
      OneEvent(env, Run(env, last), rs[|rs| - 1]);
      before := PrefixRun(env, last, k);
    }
  }

  lemma OneEvent(env: Env, s: State, r: Request)
    ensures |Serve(env, s, r).events| <= |s.events| + 1
  {
    hide Apply, Bootstrap, Commit;
  }

  /** At every point the folded prefix is what an earlier ledger of the same run held. */
  lemma PrefixAgrees(env: Env, rs: seq<Request>, feed: seq<ChainEvent>, k: nat) returns (u: State)
    requires FeedOf(Run(env, rs), feed) && k <= |feed|
    ensures Inv(u) && Extends(u, Run(env, rs)) && AllAgree(u, Fold(Run(env, rs), feed, k)) && |u.events| == k
    ensures Known(Run(env, rs), feed, k)
  {
    hide Inv, Extends, AllAgree, Run, Fold, BatchAt;
    var before := PrefixRun(env, rs, k);
    u := Run(env, before);
    var more := rs[|before|..];
    assert before + more == rs;
    RunInv(env, before);
    RunExtends(env, before, more);
    EventsLast(u, Run(env, rs));
    RunAgrees(env, before, feed[..k]);
    FoldStable(u, Run(env, rs), feed[..k], k);
    FoldPrefix(Run(env, rs), feed[..k], feed, k);
    KnownLater(u, Run(env, rs), feed[..k], k);
  }

  predicate ShareLot(views: map<Id, View>, id: Id, other: Id) {
    id in views && other in views && views[id].lot.Some? && views[id].lot == views[other].lot
  }

  /** The answer is the one view that holds the lot, or no view holds it. */
  predicate LotFound(views: map<Id, View>, lot: Id, r: Option<View>) {
    match r
    case Some(view) =>
      && view.lot == Some(lot) && view.batch in views && views[view.batch] == view
      && forall id :: id in views && views[id].lot == Some(lot) ==> id == view.batch
    case None => forall id :: id in views ==> views[id].lot != Some(lot)
  }

  /** Views that agree with a ledger never share a lot. */
  lemma LotsDiffer(s: State, views: map<Id, View>, id: Id, other: Id)
    requires Inv(s) && AllAgree(s, views) && ShareLot(views, id, other)
    ensures id == other
  {
    hide Configured, Indexed, History, Transfers, Evaluations, Consumed, Slots, Privates, Analysed, Versioned,
         HistoryOk, Records;
    hide BatchAt, RefsAt;
    assert Agrees(s, id, views[id]) && Agrees(s, other, views[other]);
    assert ReferencesOf(s, id) && ReferencesOf(s, other);
  }

  // --------------------------------------------------------------- the stream

  predicate Ordered(blocks: seq<nat>) {
    forall i, j :: 0 <= i < j < |blocks| ==> blocks[i] <= blocks[j]
  }

  predicate Distinct(events: seq<Event>) {
    forall i, j :: 0 <= i < j < |events| ==> events[i].tx != events[j].tx
  }

  function Zip(events: seq<Event>, blocks: seq<nat>): (feed: seq<ChainEvent>)
    requires |events| == |blocks|
    ensures |feed| == |events| && forall i :: 0 <= i < |feed| ==> feed[i] == ChainEvent(events[i], blocks[i])
  {
    seq(|events|, i requires 0 <= i < |events| => ChainEvent(events[i], blocks[i]))
  }

  /** The channel: its ledger, and the block each event is in. */
  class Channel {
    const env: Env
    var state: State
    var blocks: seq<nat>
    /** While true, batch reads are answered and the projection's process does not die. */
    var steady: bool
    ghost var served: seq<Request>

    ghost predicate Valid()
      reads this
    {
      state == Run(env, served) && |blocks| == |state.events| && Ordered(blocks) && Distinct(state.events)
    }

    function Events(): seq<ChainEvent>
      requires |state.events| == |blocks|
      reads this
    {
      Zip(state.events, blocks)
    }

    constructor (env: Env, steady: bool)
      ensures Valid() && this.env == env && blocks == [] && this.steady == steady
    {
      hide Serve;
      this.env, this.steady := env, steady;
      state, blocks, served := EMPTY_STATE, [], [];
    }

    /** More requests are served; transaction ids are unique and blocks are in order. */
    method Grow()
      requires Valid()
      modifies this`state, this`blocks, this`served
      ensures Valid() && old(Events()) <= Events() && BatchesLast(old(state), state)
    {
      hide Run, Serve, BatchesLast, Extends, Inv;
      ghost var start := served;
      var requests: nat := *;
      while requests > 0
        invariant Valid() && old(Events()) <= Events() && start <= served
      {
        requests := requests - 1;
        var r: Request, block: nat := *, *;
        var next := Serve(env, state, r);
        ServedOne(env, state, served, r);
        if next.events == state.events {
          state, served := next, served + [r];
        } else if (blocks == [] || blocks[|blocks| - 1] <= block)
                  && forall i :: 0 <= i < |state.events| ==> state.events[i].tx != next.events[|state.events|].tx {
          state, served, blocks := next, served + [r], blocks + [block];
        }
      }
      RunExtends(env, start, served[|start|..]);
      assert start + served[|start|..] == served;
      EventsLast(old(state), state);
    }

    /** GetBatch, answered at any later time, or not at all. */
    method GetBatch(id: Id) returns (b: Option<Batch>)
      requires Valid()
      modifies this`state, this`blocks, this`served
      ensures Valid() && old(Events()) <= Events() && BatchesLast(old(state), state)
      ensures b.Some? ==> b.value == BatchAt(state, id)
      ensures steady && BatchKey(id) in old(state).pub ==> b.Some?
    {
      hide Run, BatchAt, RefsAt;
      Grow();
      var fails: bool := *;
      b := if (fails && !steady) || BatchKey(id) !in state.pub then None else Some(BatchAt(state, id));
    }
  }

  lemma ServedOne(env: Env, s: State, served: seq<Request>, r: Request)
    requires s == Run(env, served)
    ensures Run(env, served + [r]) == Serve(env, s, r)
    ensures s.events <= Serve(env, s, r).events && |Serve(env, s, r).events| <= |s.events| + 1
  {
    hide Serve, Inv, Extends;
    assert (served + [r])[..|served|] == served;
    RunInv(env, served);
    ServeExtends(env, s, r);
    EventsLast(s, Serve(env, s, r));
    OneEvent(env, s, r);
  }

  // ------------------------------------------------------------ the projection

  /** The table of processed transactions is that of the first k events. */
  ghost predicate SeenIs(seen: map<string, nat>, feed: seq<ChainEvent>, k: nat) {
    && (forall i :: 0 <= i < k && i < |feed| ==> feed[i].event.tx in seen && seen[feed[i].event.tx] == feed[i].block)
    && (forall tx {:trigger tx in seen} :: tx in seen ==>
          exists i :: 0 <= i < k && i < |feed| && feed[i].event.tx == tx)
  }

  lemma ViewId(s: State, views: map<Id, View>, id: Id)
    requires AllAgree(s, views) && id in views
    ensures views[id].batch == id
  {
    hide BatchAt, HistoryOk;
    assert Agrees(s, id, views[id]);
  }

  lemma FoldNext(s: State, feed: seq<ChainEvent>, k: nat)
    requires k < |feed|
    ensures var id, views := feed[k].event.batch, Fold(s, feed, k);
            Fold(s, feed, k + 1) == views[id := Update(ViewBefore(views, id, BatchAt(s, id)), feed[k])]
  {
    hide Update, BatchAt;
  }

  /** The next view is that of its event's batch, and takes no lot that another view holds. */
  ghost predicate NextFits(s: State, feed: seq<ChainEvent>, k: nat) {
    k < |feed| ==>
      var id, views := feed[k].event.batch, Fold(s, feed, k);
      var view := Update(ViewBefore(views, id, BatchAt(s, id)), feed[k]);
      && view.batch == id && Fold(s, feed, k + 1) == views[id := view]
      && forall other :: other in views && other != id && view.lot.Some? ==> views[other].lot != view.lot
  }

  /** The next view never takes a lot that another view holds. */
  lemma NoConflict(env: Env, rs: seq<Request>, feed: seq<ChainEvent>, k: nat)
    requires FeedOf(Run(env, rs), feed) && k < |feed|
    ensures NextFits(Run(env, rs), feed, k)
  {
    hide Run, Inv, Extends, AllAgree, BatchAt, Update, Fold, FeedOf;
    var s, id := Run(env, rs), feed[k].event.batch;
    var u := PrefixAgrees(env, rs, feed, k + 1);
    FoldNext(s, feed, k);
    var views, after := Fold(s, feed, k), Fold(s, feed, k + 1);
    ViewId(u, after, id);
    forall other | other in views && other != id && after[id].lot.Some? ensures views[other].lot != after[id].lot {
      if views[other].lot == after[id].lot {
        LotsDiffer(u, after, id, other);
      }
    }
  }

  /** The channel moves on: what was folded stays the fold of the same prefix. */
  lemma Stable(was: State, feed: seq<ChainEvent>, env: Env, rs: seq<Request>, now: State, more: seq<ChainEvent>, k: nat)
    requires was == Run(env, rs) && FeedOf(was, feed) && k <= |feed| && feed <= more && BatchesLast(was, now)
    ensures Fold(now, more, k) == Fold(was, feed, k)
    ensures forall table :: SeenIs(table, feed, k) ==> SeenIs(table, more, k)
  {
    hide Run, BatchesLast, Fold, Inv, AllAgree, Extends;
    var _ := PrefixAgrees(env, rs, feed, k);
    FoldStable(was, now, feed, k);
    FoldPrefix(now, feed, more, k);
    forall table | SeenIs(table, feed, k) ensures SeenIs(table, more, k) {
      forall tx | tx in table ensures exists i :: 0 <= i < k && i < |more| && more[i].event.tx == tx {
        var i :| 0 <= i < k && i < |feed| && feed[i].event.tx == tx;
        assert more[i].event.tx == tx;
      }
    }
  }

  lemma SeenIff(seen: map<string, nat>, feed: seq<ChainEvent>, k: nat, i: nat)
    requires k <= |feed| && i < |feed| && SeenIs(seen, feed, k)
    requires forall a, b :: 0 <= a < b < |feed| ==> feed[a].event.tx != feed[b].event.tx
    ensures feed[i].event.tx in seen <==> i < k
  {
  }

  class Projection {
    const channel: Channel
    /** The events table: transaction id and block. */
    var seen: map<string, nat>
    /** The projections table, by batch. */
    var views: map<Id, View>
    /** How many events have been folded in. */
    ghost var count: nat

    constructor (channel: Channel)
      requires channel.Valid()
      ensures Valid() && this.channel == channel && count == 0
    {
      hide Run, Inv;
      this.channel := channel;
      seen, views, count := map[], map[], 0;
    }

    /** What is stored is exactly a prefix of the event sequence, and its fold. */
    ghost predicate Valid()
      reads this, channel
    {
      && channel.Valid()
      && count <= |channel.Events()|
      && SeenIs(seen, channel.Events(), count)
      && views == Fold(channel.state, channel.Events(), count)
    }

    /** One atomic update of both tables; a lot that another batch holds would abort it. */
    method Project(e: ChainEvent, view: View) returns (done: bool)
      modifies this`seen, this`views
      ensures done <==> !exists other ::
                other in old(views) && other != view.batch && view.lot.Some? && old(views)[other].lot == view.lot
      ensures done ==> seen == (if e.event.tx in old(seen) then old(seen) else old(seen)[e.event.tx := e.block])
                       && views == old(views)[view.batch := view]
      ensures !done ==> seen == old(seen) && views == old(views)
    {
      if exists other :: other in views && other != view.batch && view.lot.Some? && views[other].lot == view.lot {
        return false;
      }
      if e.event.tx !in seen {
        seen := seen[e.event.tx := e.block];
      }
      views := views[view.batch := view];
      done := true;
    }

    /** The last block of a processed event; the stream restarts there, that block included. */
    method Checkpoint() returns (block: nat)
      ensures forall tx :: tx in seen ==> seen[tx] <= block
      ensures block == 0 || exists tx :: tx in seen && seen[tx] == block
    {
      block := 0;
      var left := seen.Keys;
      while left != {}
        invariant left <= seen.Keys
        invariant forall tx :: tx in seen && tx !in left ==> seen[tx] <= block
        invariant block == 0 || exists tx :: tx in seen && seen[tx] == block
        decreases |left|
      {
        var tx :| tx in left;
        left := left - {tx};
        if block < seen[tx] {
          block := seen[tx];
        }
      }
    }

    /** Take one event of the stream; false when the call was aborted, and then nothing was stored. */
    method Accept(i: nat) returns (done: bool)
      requires Valid() && i <= count && i < |channel.Events()|
      modifies this, channel`state, channel`blocks, channel`served
      ensures channel.steady ==> done
      ensures Valid() && old(channel.Events()) <= channel.Events()
      ensures count == if done && i == old(count) then old(count) + 1 else old(count)
      ensures !done || i < old(count) ==> seen == old(seen) && views == old(views)
    {
      hide Run, Fold, Update, BatchesLast, BatchAt, SeenIs, AllAgree, Ordered;
      ghost var feed, state, served := channel.Events(), channel.state, channel.served;
      var e := channel.Events()[i];
      SeenIff(seen, feed, count, i);
      if e.event.tx in seen {
        return true;
      }
      var crash: bool, crashAgain: bool := *, *;
      if crash && !channel.steady {
        return false;
      }
      var id := e.event.batch;
      RunAgrees(channel.env, channel.served, channel.Events());
      var view;
      if id in views {
        view := views[id];
      } else {
        var b := channel.GetBatch(id);
        Stable(state, feed, channel.env, served, channel.state, channel.Events(), count);
        if b.None? || (crashAgain && !channel.steady) {
          return false;
        }
        view := NewView(id, b.value);
      }
      view := Update(view, e);
      NoConflict(channel.env, channel.served, channel.Events(), count);
      assert views == Fold(channel.state, channel.Events(), count);
      done := Project(e, view);
      assert done;
      count := count + 1;
      SeenNext(old(seen), channel.Events(), i);
    }

    /**
     * One connection to the stream: it starts at the checkpoint's block, that
     * block included, and ends by an aborted call or a lost connection, at the
     * latest after `budget` events. Events already processed are passed over again.
     */
    method Session(budget: nat) returns (caughtUp: bool)
      requires Valid()
      modifies this, channel`state, channel`blocks, channel`served
      ensures Valid() && old(channel.Events()) <= channel.Events() && old(count) <= count
      ensures caughtUp ==> count == |channel.Events()|
      ensures channel.steady && |old(channel.Events())| <= budget ==> |old(channel.Events())| <= count
    {
      hide Run, Fold, BatchesLast, SeenIs;
      var start := Checkpoint();
      CheckpointReaches(seen, channel.Events(), count, start);
      var i := 0;
      while i < |channel.Events()| && channel.Events()[i].block < start
        invariant 0 <= i <= count
      {
        i := i + 1;
      }
      var left := budget;
      while i < |channel.Events()| && left > 0
        invariant Valid() && 0 <= i <= count && old(count) <= count && old(channel.Events()) <= channel.Events()
        invariant i <= |channel.Events()| && budget <= i + left
        decreases left
      {
        left := left - 1;
        var done := Accept(i);
        if !done {
          return false;
        }
        i := i + 1;
      }
      caughtUp := i == |channel.Events()|;
    }

    /** The projection worker: sessions, crashes and time passing, in any order. */
    method Work()
      requires Valid()
      modifies this, channel`state, channel`blocks, channel`served
      ensures Valid() && old(channel.Events()) <= channel.Events() && old(count) <= count
    {
      hide Run, Fold, BatchesLast, SeenIs;
      var rounds: nat := *;
      while rounds > 0
        invariant Valid() && old(channel.Events()) <= channel.Events() && old(count) <= count
      {
        rounds := rounds - 1;
        if * {
          var budget: nat := *;
          var _ := Session(budget);
        } else {
          ghost var feed, state, served := channel.Events(), channel.state, channel.served;
          channel.Grow();
          Stable(state, feed, channel.env, served, channel.state, channel.Events(), count);
        }
      }
    }

    /** Look a batch up by its lot. */
    method Lot(lot: Id) returns (r: Option<View>)
      requires Valid()
      ensures LotFound(views, lot, r)
    {
      hide Run, Fold, SeenIs, Inv, AllAgree, Extends;
      if id :| id in views && views[id].lot == Some(lot) {
        r := Some(views[id]);
        ghost var u := PrefixAgrees(channel.env, channel.served, channel.Events(), count);
        ViewId(u, views, id);
        forall other | other in views && views[other].lot == Some(lot) ensures other == id {
          LotsDiffer(u, views, id, other);
        }
      } else {
        r := None;
      }
    }
  }

  /** Nothing unprocessed lies before the checkpoint's block. */
  lemma CheckpointReaches(seen: map<string, nat>, feed: seq<ChainEvent>, k: nat, start: nat)
    requires k <= |feed| && SeenIs(seen, feed, k) && forall a, b :: 0 <= a < b < |feed| ==>
               feed[a].block <= feed[b].block
    requires start == 0 || exists tx :: tx in seen && seen[tx] == start
    ensures forall i :: k <= i < |feed| ==> start <= feed[i].block
  {
    if start != 0 {
      var tx :| tx in seen && seen[tx] == start;
      var j :| 0 <= j < k && feed[j].event.tx == tx;
    }
  }

  lemma SeenNext(seen: map<string, nat>, feed: seq<ChainEvent>, k: nat)
    requires k < |feed| && SeenIs(seen, feed, k) && feed[k].event.tx !in seen
    ensures SeenIs(seen[feed[k].event.tx := feed[k].block], feed, k + 1)
  {
    var now := seen[feed[k].event.tx := feed[k].block];
    forall tx | tx in now ensures exists i :: 0 <= i < k + 1 && i < |feed| && feed[i].event.tx == tx {
      if tx in seen {
        var i :| 0 <= i < k && i < |feed| && feed[i].event.tx == tx;
        assert 0 <= i < k + 1 && feed[i].event.tx == tx;
      } else {
        assert feed[k].event.tx == tx;
      }
    }
  }

  // ---------------------------------------------------------------- theorems

  /**
   * Caught up, the stored views agree with the ledger as it is; before that, with an
   * earlier ledger of the same run.
   */
  lemma ProjectionAgrees(env: Env, rs: seq<Request>, feed: seq<ChainEvent>, k: nat, views: map<Id, View>)
    returns (u: State)
    requires FeedOf(Run(env, rs), feed) && k <= |feed| && views == Fold(Run(env, rs), feed, k)
    ensures Inv(u) && Extends(u, Run(env, rs)) && |u.events| == k && AllAgree(u, views)
    ensures k == |feed| ==> AllAgree(Run(env, rs), views)
  {
    hide Inv, Extends, AllAgree, Run, Fold;
    u := PrefixAgrees(env, rs, feed, k);
    if k == |feed| {
      RunAgrees(env, rs, feed);
    }
  }
}
