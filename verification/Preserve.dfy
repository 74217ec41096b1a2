/** Every accepted command keeps records, indexes, history, transfers and references. */
module Preserve {
  import opened Types
  import opened Evidence
  import opened Engine
  import opened Invariants

  // ----------------------------------------------------------------- records

  lemma ConsumedNotEmpty(s: State, plan: Plan, document: Id, c: Command)
    requires Consume(s, plan, document, c).Ok?
    ensures document != NO_ID
  {
  }

  lemma PickupNotEmpty(s: State, c: Command, st: Start, v: Verified)
    requires PickupDocuments(s, c, st, v).Ok?
    ensures v.purchase != NO_ID && v.hks != NO_ID && v.manifest != NO_ID
    ensures PickupDocuments(s, c, st, v).value.1
            == st.refs.(purchase := v.purchase, hks := v.hks, transport := v.manifest)
    ensures v.quantity == st.before.quantity && ValidPurchase(v)
  {
    hide Consume, ValidPurchase;
    var p1 := Consume(s, map[], v.purchase, c).value;
    var p2 := Consume(s, p1, v.hks, c).value;
    ConsumedNotEmpty(s, map[], v.purchase, c);
    ConsumedNotEmpty(s, p1, v.hks, c);
    ConsumedNotEmpty(s, p2, v.manifest, c);
  }

  lemma PrefixNotEmpty(id: Id, prefix: string)
    requires ValidId(id, prefix)
    ensures id != NO_ID
  {
  }

  lemma OfferLifecycle(s: State, c: Command, x: Execution, st: Start, v: Verified, arm: Arm)
    requires IsOffer(c.name) && OfferArm(s, c, x, st, v) == Ok(arm) && LifecycleOk(c.batch, st.before, st.refs)
    ensures LifecycleOk(c.batch, NewBatch(x, st, arm), arm.refs)
  {
    hide PickupDocuments;
    if c.name.OfferPickup? {
      PickupNotEmpty(s, c, st, v);
    }
  }

  lemma AcceptLifecycle(s: State, c: Command, x: Execution, st: Start, arm: Arm)
    requires IsAccept(c.name) && AcceptArm(s, c, x, st) == Ok(arm) && LifecycleOk(c.batch, st.before, st.refs)
    requires x.actor == RequiredCaller(c.name).0
    ensures LifecycleOk(c.batch, NewBatch(x, st, arm), arm.refs)
  {
  }

  lemma ReportLifecycle(s: State, c: Command, x: Execution, st: Start, v: Verified, arm: Arm)
    requires c.name.ReportRetailPrice? && ReportArm(s, c, x, st, v) == Ok(arm)
             && LifecycleOk(c.batch, st.before, st.refs)
    requires c.payload.ReportInput? ==> c.payload.report != NO_ID && c.payload.lot != NO_ID
    ensures LifecycleOk(c.batch, NewBatch(x, st, arm), arm.refs)
  {
    hide ValidPurchase;
  }

  /** The state machine itself: from a well-formed batch, an accepted command leaves a well-formed one. */
  lemma LifecycleKept(s: State, c: Command, x: Execution, st: Start, v: Verified, arm: Arm)
    requires Admitted(s, c, x, st) && RunArm(s, c, x, st, v) == Ok(arm)
    requires st.existing ==> LifecycleOk(c.batch, st.before, st.refs)
    ensures LifecycleOk(c.batch, NewBatch(x, st, arm), arm.refs)
  {
    hide ValidId, Consume, OfferArm, AcceptArm, ReportArm;
    match c.name
    case CreateBatch => ConsumedNotEmpty(s, map[], v.cks, c);
    case OfferPickup | OfferDelivery => OfferLifecycle(s, c, x, st, v, arm);
    case AcceptPickup | AcceptDelivery => AcceptLifecycle(s, c, x, st, arm);
    case RecordFreightCost => PrefixNotEmpty(c.payload.cost, "CST");
    case ReportRetailPrice =>
      PrefixNotEmpty(c.payload.report, "RPT");
      PrefixNotEmpty(c.payload.lot, "LOT");
      ReportLifecycle(s, c, x, st, v, arm);
    case _ =>
  }

  lemma RecordsKept(s: State, s': State, c: Command, x: Execution, st: Start, v: Verified, arm: Arm)
    requires Records(s) && Admitted(s, c, x, st) && RunArm(s, c, x, st, v) == Ok(arm)
    requires RecordEffect(s, s', c, x, st, arm)
    ensures Records(s')
  {
    hide RunArm, LifecycleOk, NewBatch, PayloadFits;
    if st.existing {
      assert RecordOk(s, c.batch);
    }
    LifecycleKept(s, c, x, st, v, arm);
    forall id | BatchKey(id) in s'.pub ensures RecordOk(s', id) {
      if id != c.batch {
        assert RecordOk(s, id) && RefsKey(id) in s'.pub;
      }
    }
  }

  // ----------------------------------------------------------------- indexes

  /** How the getters see the new state. */
  ghost predicate Getters(s: State, s': State, id: Id, b: Batch, r: Refs) {
    && BatchKey(id) in s'.pub && s'.pub[BatchKey(id)].BatchValue? && BatchAt(s', id) == b && RefsAt(s', id) == r
    && b.id == id
    && (forall i {:trigger BatchKey(i) in s'.pub} :: i != id ==> (BatchKey(i) in s'.pub <==> BatchKey(i) in s.pub))
    && (forall i {:trigger BatchAt(s', i)} :: i != id ==> BatchAt(s', i) == BatchAt(s, i))
    && (forall i {:trigger RefsAt(s', i)} :: i != id ==> RefsAt(s', i) == RefsAt(s, i))
  }

  lemma GettersAfter(s: State, s': State, c: Command, x: Execution, st: Start, v: Verified, arm: Arm)
    requires Records(s) && Admitted(s, c, x, st) && RunArm(s, c, x, st, v) == Ok(arm)
    requires RecordEffect(s, s', c, x, st, arm)
    ensures Getters(s, s', c.batch, NewBatch(x, st, arm), arm.refs)
    ensures NewBatch(x, st, arm).version == st.before.version + 1
    ensures if st.existing then Started(s, c, st) else st == Start(false, ZERO_BATCH, EmptyRefs(c.batch))
  {
    hide OwnerIn, QuantityOk, RequiredCaller, CustodianIn, EmptyRefs, PayloadFits, RunArm;
    if st.existing {
      assert RecordOk(s, c.batch);
    }
    LifecycleKept(s, c, x, st, v, arm);
    assert NewBatch(x, st, arm).version == st.before.version + 1;
    assert NewBatch(x, st, arm).id == c.batch;
  }

  /** The command started from the stored batch. */
  ghost predicate Started(s: State, c: Command, st: Start) {
    && BatchKey(c.batch) in s.pub && s.pub[BatchKey(c.batch)].BatchValue?
    && BatchAt(s, c.batch) == st.before && RefsAt(s, c.batch) == st.refs
    && LifecycleOk(c.batch, st.before, st.refs)
  }

  lemma IndexedKept(s: State, s': State, c: Command, x: Execution, st: Start, v: Verified, arm: Arm)
    requires Records(s) && Indexed(s)
    requires Admitted(s, c, x, st) && RunArm(s, c, x, st, v) == Ok(arm)
    requires RecordEffect(s, s', c, x, st, arm) && IndexEffect(s, s', x, st, arm)
    ensures Indexed(s')
  {
    hide NewBatch, PayloadFits, RunArm, LifecycleOk, Records, RecordEffect, BatchAt;
    GettersAfter(s, s', c, x, st, v, arm);
    forall m, id | OwnerKey(m, id) in s'.pub
      ensures s'.pub[OwnerKey(m, id)] == IdValue(id) && BatchKey(id) in s'.pub && BatchAt(s', id).owner == m
    {
    }
    forall l, id | StateKey(l, id) in s'.pub
      ensures s'.pub[StateKey(l, id)] == IdValue(id) && BatchKey(id) in s'.pub && BatchAt(s', id).state == l
    {
    }
    forall id | BatchKey(id) in s'.pub
      ensures OwnerKey(BatchAt(s', id).owner, id) in s'.pub && StateKey(BatchAt(s', id).state, id) in s'.pub
    {
    }
  }

  // ----------------------------------------------------------------- history

  lemma HistoryKept(s: State, s': State, c: Command, x: Execution, st: Start, v: Verified, arm: Arm)
    requires Records(s) && History(s) && Versioned(s)
    requires Admitted(s, c, x, st) && RunArm(s, c, x, st, v) == Ok(arm)
    requires RecordEffect(s, s', c, x, st, arm) && ReceiptEffect(s, s', c, x, st, arm)
    ensures History(s')
  {
    hide Started, Getters, RequiredCaller, EmptyRefs, Versioned, Records, RunArm, PayloadFits, NewBatch;
    GettersAfter(s, s', c, x, st, v, arm);
    if st.existing {
      VersionPositive(s, c.batch);
    }
    var b, r := NewBatch(x, st, arm), NewReceipt(c, x, st, arm);
    assert r.batch == c.batch && r.version == b.version && r.actor == x.actor && r.op == c.op;
    forall id, n | HistoryKey(id, n) in s'.pub
      ensures && s'.pub[HistoryKey(id, n)].ReceiptValue?
              && BatchKey(id) in s'.pub && 1 <= n <= BatchAt(s', id).version
              && var q := s'.pub[HistoryKey(id, n)].receipt;
                 q.batch == id && q.version == n && SameReceipt(s', OperationKey(q.actor, q.op), q)
    {
      if !(id == c.batch && n == b.version) {
        var q := s.pub[HistoryKey(id, n)].receipt;
        assert OperationKey(q.actor, q.op) in s'.pub;
      }
    }
    forall id, n | BatchKey(id) in s'.pub && 1 <= n <= BatchAt(s', id).version ensures HistoryKey(id, n) in s'.pub {
      if !(id == c.batch && n == b.version) {
        assert HistoryKey(id, n) in s.pub;
      }
    }
    forall a, op | OperationKey(a, op) in s'.pub
      ensures && s'.pub[OperationKey(a, op)].ReceiptValue?
              && var q := s'.pub[OperationKey(a, op)].receipt;
                 q.actor == a && q.op == op && SameReceipt(s', HistoryKey(q.batch, q.version), q)
    {
      if !(a == x.actor && op == c.op) {
        var q := s.pub[OperationKey(a, op)].receipt;
        assert HistoryKey(q.batch, q.version) in s.pub;
      }
    }
  }

  lemma VersionPositive(s: State, id: Id)
    requires Versioned(s) && BatchKey(id) in s.pub
    ensures BatchAt(s, id).version >= 1
  {
  }

  // ==========================================================================
  // Every accepted command keeps the custody transfers and their pending entries consistent.

  /** Committed receipts stay, and this command adds its own. */
  ghost predicate ReceiptsGrow(s: State, s': State, c: Command, x: Execution, version: int) {
    && (forall a, op {:trigger OperationKey(a, op) in s'.pub} {:trigger OperationKey(a, op) in s.pub} ::
          OperationKey(a, op) in s.pub ==>
            OperationKey(a, op) in s'.pub && s'.pub[OperationKey(a, op)] == s.pub[OperationKey(a, op)])
    && Receipted(s', x.actor, c.op, c.batch, c.name, x.tx)
    && ReceiptVersion(s', x.actor, c.op) == version
  }

  lemma ReceiptsGrown(s: State, s': State, c: Command, x: Execution, st: Start, arm: Arm)
    requires Admitted(s, c, x, st) && ReceiptEffect(s, s', c, x, st, arm)
    ensures ReceiptsGrow(s, s', c, x, st.before.version + 1)
  {
    hide PayloadFits, NewBatch, SortedUnique;
  }

  /** What a command plans for transfers and pending entries. */
  ghost predicate TransferPlan(s: State, c: Command, x: Execution, st: Start, arm: Arm) {
    match c.name
    case OfferPickup | OfferDelivery =>
      var pickup := c.name.OfferPickup?;
      && c.payload.HandoffInput?
      && var tid := c.payload.transfer;
      && TransferKey(tid) !in s.pub && PendingKey(st.before.id) !in s.pub
      && x.actor == st.before.custodian
      && st.before.state == (if pickup then Created else InTransport)
      && arm.b.state == (if pickup then PickupPending else DeliveryPending)
      && arm.b.quantity == st.before.quantity
      && (forall k :: k in arm.plan && k.TransferKey? ==> k == TransferKey(tid))
      && (forall k :: k in arm.plan && k.PendingKey? ==> k == PendingKey(st.before.id))
      && PendingKey(st.before.id) in arm.plan && arm.plan[PendingKey(st.before.id)] == Some(IdValue(tid))
      && TransferKey(tid) in arm.plan
      && arm.plan[TransferKey(tid)] == Some(TransferValue(
           Transfer(tid, st.before.id, if pickup then Pickup else Delivery, Offered, x.actor,
                    if pickup then st.before.logistics else st.before.retailer, st.before.quantity,
                    c.op, NO_ID, x.tx, "")))
    case AcceptPickup | AcceptDelivery =>
      var pickup := c.name.AcceptPickup?;
      && c.payload.HandoffInput?
      && var tid := c.payload.transfer;
      && TransferKey(tid) in s.pub && s.pub[TransferKey(tid)].TransferValue?
      && var t := s.pub[TransferKey(tid)].transfer;
         && t.batch == st.before.id && t.to == x.actor && t.status.Offered?
         && t.kind == (if pickup then Pickup else Delivery)
         && PendingKey(st.before.id) in s.pub && s.pub[PendingKey(st.before.id)] == IdValue(t.id)
         && !Pending(arm.b.state) && arm.b.quantity == st.before.quantity
         && (forall k :: k in arm.plan ==> k == TransferKey(t.id) || k == PendingKey(st.before.id))
         && PendingKey(st.before.id) in arm.plan && arm.plan[PendingKey(st.before.id)].None?
         && TransferKey(t.id) in arm.plan
         && arm.plan[TransferKey(t.id)]
            == Some(TransferValue(t.(status := Accepted, acceptOp := c.op, acceptedTx := x.tx)))
    case _ =>
      && (forall k :: k in arm.plan ==> !k.TransferKey? && !k.PendingKey?)
      && arm.b.quantity == (if st.existing then st.before.quantity else arm.b.quantity)
      && (if st.existing then Pending(arm.b.state) == Pending(st.before.state)
                              && (Pending(arm.b.state) ==> arm.b.state == st.before.state)
          else arm.b.state == Created)
  }

  lemma OfferPlanned(s: State, c: Command, x: Execution, st: Start, v: Verified, arm: Arm)
    requires IsOffer(c.name) && OfferArm(s, c, x, st, v) == Ok(arm)
    ensures TransferPlan(s, c, x, st, arm)
  {
    hide PickupDocuments;
    if c.name.OfferPickup? {
      PickupKinds(s, c, st, v);
    }
  }

  lemma AcceptPlanned(s: State, c: Command, x: Execution, st: Start, arm: Arm)
    requires IsAccept(c.name) && AcceptArm(s, c, x, st) == Ok(arm)
    ensures TransferPlan(s, c, x, st, arm)
  {
  }

  lemma PlainPlanned(s: State, c: Command, x: Execution, st: Start, v: Verified, arm: Arm)
    requires Admitted(s, c, x, st) && RunArm(s, c, x, st, v) == Ok(arm) && !IsOffer(c.name) && !IsAccept(c.name)
    ensures TransferPlan(s, c, x, st, arm)
  {
    hide ValidPurchase, PayloadFits, Consume, OfferArm, AcceptArm, EmptyRefs, RequiredCaller;
    if c.name.CreateBatch? {
      ConsumeKinds(s, map[], v.cks, c);
    }
  }

  lemma TransferPlanned(s: State, c: Command, x: Execution, st: Start, v: Verified, arm: Arm)
    requires Admitted(s, c, x, st) && RunArm(s, c, x, st, v) == Ok(arm)
    ensures TransferPlan(s, c, x, st, arm)
  {
    hide OfferArm, AcceptArm, CreateArm, FreightArm, ReportArm, Admitted, TransferPlan;
    if IsOffer(c.name) {
      OfferPlanned(s, c, x, st, v, arm);
    } else if IsAccept(c.name) {
      AcceptPlanned(s, c, x, st, arm);
    } else {
      PlainPlanned(s, c, x, st, v, arm);
    }
  }

  /** A handoff of `batch` through `tid`: all other transfers and pending entries are as they were. */
  ghost predicate HandoffFrame(s: State, s': State, batch: Id, tid: Id) {
    && (forall i {:trigger PendingKey(i) in s'.pub} {:trigger s'.pub[PendingKey(i)]} :: i != batch ==>
          (PendingKey(i) in s'.pub <==> PendingKey(i) in s.pub)
          && (PendingKey(i) in s.pub ==> s'.pub[PendingKey(i)] == s.pub[PendingKey(i)]))
    && (forall i {:trigger TransferKey(i) in s'.pub} {:trigger s'.pub[TransferKey(i)]} :: i != tid ==>
          (TransferKey(i) in s'.pub <==> TransferKey(i) in s.pub)
          && (TransferKey(i) in s.pub ==> s'.pub[TransferKey(i)] == s.pub[TransferKey(i)]))
    && (PendingKey(batch) in s.pub ==> s.pub[PendingKey(batch)] == IdValue(tid))
    && (PendingKey(batch) in s'.pub ==> s'.pub[PendingKey(batch)] == IdValue(tid))
    && TransferKey(tid) in s'.pub && s'.pub[TransferKey(tid)].TransferValue?
    && s'.pub[TransferKey(tid)].transfer.batch == batch
    && (TransferKey(tid) in s.pub ==>
        s.pub[TransferKey(tid)].TransferValue? && s.pub[TransferKey(tid)].transfer.batch == batch)
  }

  lemma HandoffFramed(s: State, s': State, c: Command, x: Execution, st: Start, arm: Arm)
    requires ArmEffect(s, s', arm) && TransferPlan(s, c, x, st, arm) && (IsOffer(c.name) || IsAccept(c.name))
    requires st.before.id == c.batch
    requires IsAccept(c.name) && c.payload.HandoffInput? && TransferKey(c.payload.transfer) in s.pub
             && s.pub[TransferKey(c.payload.transfer)].TransferValue? ==>
               s.pub[TransferKey(c.payload.transfer)].transfer.id == c.payload.transfer
    ensures HandoffFrame(s, s', c.batch, c.payload.transfer)
  {
  }

  /** Transfers and pending entries that a handoff leaves alone stay in order. */
  lemma RestKept(s: State, s': State, c: Command, x: Execution, version: int, tid: Id, b: Batch, r: Refs)
    requires Transfers(s) && ReceiptsGrow(s, s', c, x, version) && HandoffFrame(s, s', c.batch, tid)
    requires Getters(s, s', c.batch, b, r)
             && (BatchKey(c.batch) in s.pub ==> BatchAt(s, c.batch).quantity == b.quantity)
    ensures forall id :: TransferKey(id) in s'.pub && id != tid ==> TransferOk(s', id)
    ensures forall id :: PendingKey(id) in s'.pub && id != c.batch ==> PendingOk(s', id)
    ensures forall id {:trigger PendingKey(id) in s'.pub} ::
              id != c.batch && BatchKey(id) in s'.pub && Pending(BatchAt(s', id).state) ==> PendingKey(id) in s'.pub
  {
    hide ReceiptsGrow, TransferOk, LifecycleOk, BatchAt, RefsAt;
    forall id | TransferKey(id) in s'.pub && id != tid ensures TransferOk(s', id) {
      assert TransferKey(id) in s.pub;
      TransferOkBatch(s, id);
      TransferFramed(s, s', c, x, version, id);
    }
    forall id | PendingKey(id) in s'.pub && id != c.batch ensures PendingOk(s', id) {
      assert PendingKey(id) in s.pub && PendingOk(s, id);
      var k := s.pub[PendingKey(id)].id;
      assert TransferKey(k) in s.pub && k != tid && TransferKey(k) in s'.pub;
    }
    forall id | id != c.batch && BatchKey(id) in s'.pub && Pending(BatchAt(s', id).state)
      ensures PendingKey(id) in s'.pub
    {
      assert BatchKey(id) in s.pub && Pending(BatchAt(s, id).state);
      assert PendingKey(id) in s.pub;
    }
  }

  lemma ReceiptBelow(s: State, a: Msp, op: Id, batch: Id, command: CommandName, tx: string)
    requires History(s) && Receipted(s, a, op, batch, command, tx)
    ensures BatchKey(batch) in s.pub && ReceiptVersion(s, a, op) <= BatchAt(s, batch).version
  {
    var r := s.pub[OperationKey(a, op)].receipt;
    assert HistoryKey(r.batch, r.version) in s.pub;
  }

  /** A transfer that stays as it was is still in order when its batch's pending entry and quantity stay. */
  lemma TransferFramed(s: State, s': State, c: Command, x: Execution, version: int, id: Id)
    requires TransferKey(id) in s.pub && TransferOk(s, id)
    requires TransferKey(id) in s'.pub && s'.pub[TransferKey(id)] == s.pub[TransferKey(id)]
    requires ReceiptsGrow(s, s', c, x, version)
    requires var t := s.pub[TransferKey(id)].transfer;
             && BatchKey(t.batch) in s'.pub && BatchAt(s', t.batch).quantity == BatchAt(s, t.batch).quantity
             && ((PendingKey(t.batch) in s'.pub && s'.pub[PendingKey(t.batch)] == IdValue(id))
                 <==> (PendingKey(t.batch) in s.pub && s.pub[PendingKey(t.batch)] == IdValue(id)))
    ensures TransferOk(s', id)
  {
    hide BatchAt;
    var t := s.pub[TransferKey(id)].transfer;
    assert OperationKey(t.from, t.offerOp) in s'.pub;
    if t.status.Accepted? {
      assert OperationKey(t.to, t.acceptOp) in s'.pub;
    }
  }

  lemma PlainKept(s: State, s': State, c: Command, x: Execution, st: Start, v: Verified, arm: Arm)
    requires Records(s) && Transfers(s)
    requires Admitted(s, c, x, st) && RunArm(s, c, x, st, v) == Ok(arm) && !IsOffer(c.name) && !IsAccept(c.name)
    requires RecordEffect(s, s', c, x, st, arm) && ReceiptEffect(s, s', c, x, st, arm) && ArmEffect(s, s', arm)
    ensures Transfers(s')
  {
    TransferPlanned(s, c, x, st, v, arm);
    GettersAfter(s, s', c, x, st, v, arm);
    ReceiptsGrown(s, s', c, x, st, arm);
    PlainTransfers(s, s', c, x, st, arm, NewBatch(x, st, arm));
  }

  lemma PlainTransfers(s: State, s': State, c: Command, x: Execution, st: Start, arm: Arm, b: Batch)
    requires Transfers(s) && ArmEffect(s, s', arm) && ReceiptsGrow(s, s', c, x, st.before.version + 1)
    requires !IsOffer(c.name) && !IsAccept(c.name) && TransferPlan(s, c, x, st, arm)
    requires Getters(s, s', c.batch, b, arm.refs) && b.state == arm.b.state && b.quantity == arm.b.quantity
    requires if st.existing then Started(s, c, st) else BatchKey(c.batch) !in s.pub
    ensures Transfers(s')
  {
    hide ReceiptsGrow, TransferOk, LifecycleOk, BatchAt, RefsAt;
    forall id | TransferKey(id) in s'.pub ensures TransferOk(s', id) {
      assert TransferKey(id) in s.pub;
      TransferOkBatch(s, id);
      TransferFramed(s, s', c, x, st.before.version + 1, id);
    }
    forall id | PendingKey(id) in s'.pub ensures PendingOk(s', id) {
      assert PendingKey(id) in s.pub && PendingOk(s, id);
      assert TransferKey(s.pub[PendingKey(id)].id) in s'.pub;
    }
    forall id | BatchKey(id) in s'.pub && Pending(BatchAt(s', id).state) ensures PendingKey(id) in s'.pub {
      assert BatchKey(id) in s.pub && Pending(BatchAt(s, id).state);
      assert PendingKey(id) in s.pub;
    }
  }

  lemma TransferOkBatch(s: State, id: Id)
    requires TransferKey(id) in s.pub && TransferOk(s, id)
    ensures s.pub[TransferKey(id)].TransferValue? && BatchKey(s.pub[TransferKey(id)].transfer.batch) in s.pub
    ensures s.pub[TransferKey(id)].transfer.id == id
  {
  }

  lemma OfferKept(s: State, s': State, c: Command, x: Execution, st: Start, v: Verified, arm: Arm)
    requires Records(s) && Transfers(s)
    requires Admitted(s, c, x, st) && RunArm(s, c, x, st, v) == Ok(arm) && IsOffer(c.name)
    requires RecordEffect(s, s', c, x, st, arm) && ReceiptEffect(s, s', c, x, st, arm) && ArmEffect(s, s', arm)
    ensures Transfers(s')
  {
    TransferPlanned(s, c, x, st, v, arm);
    GettersAfter(s, s', c, x, st, v, arm);
    ReceiptsGrown(s, s', c, x, st, arm);
    OfferTransfers(s, s', c, x, st, arm, NewBatch(x, st, arm));
  }

  lemma OfferedOk(s: State, s': State, c: Command, x: Execution, st: Start, arm: Arm, b: Batch)
    requires ArmEffect(s, s', arm) && ReceiptsGrow(s, s', c, x, st.before.version + 1)
    requires IsOffer(c.name) && x.actor == RequiredCaller(c.name).0 && TransferPlan(s, c, x, st, arm)
    requires Getters(s, s', c.batch, b, arm.refs) && b.quantity == arm.b.quantity
    requires Started(s, c, st)
    ensures TransferKey(c.payload.transfer) in s'.pub && TransferOk(s', c.payload.transfer)
  {
    hide BatchAt, RefsAt, ReceiptVersion, Pending, QuantityOk, RequiredCaller, Receipted, OwnerIn;
    var tid := c.payload.transfer;
    assert PendingKey(c.batch) in s'.pub && s'.pub[PendingKey(c.batch)] == IdValue(tid);
    assert TransferKey(tid) in s'.pub && s'.pub[TransferKey(tid)] == arm.plan[TransferKey(tid)].value;
  }

  lemma OfferTransfers(s: State, s': State, c: Command, x: Execution, st: Start, arm: Arm, b: Batch)
    requires Transfers(s) && ArmEffect(s, s', arm) && ReceiptsGrow(s, s', c, x, st.before.version + 1)
    requires IsOffer(c.name) && x.actor == RequiredCaller(c.name).0 && TransferPlan(s, c, x, st, arm)
    requires Getters(s, s', c.batch, b, arm.refs) && b.state == arm.b.state && b.quantity == arm.b.quantity
    requires Started(s, c, st)
    ensures Transfers(s')
  {
    var tid := c.payload.transfer;
    OfferedOk(s, s', c, x, st, arm, b);
    HandoffFramed(s, s', c, x, st, arm);
    RestKept(s, s', c, x, st.before.version + 1, tid, b, arm.refs);
    assert PendingKey(c.batch) in s'.pub;
    assert PendingOk(s', c.batch) by {
      hide BatchAt, Transfers, ReceiptsGrow, TransferOk;
    }
    hide ReceiptsGrow, TransferOk, PendingOk, LifecycleOk, BatchAt, RefsAt;
  }

  lemma AcceptKept(s: State, s': State, c: Command, x: Execution, st: Start, v: Verified, arm: Arm)
    requires Records(s) && Transfers(s) && History(s)
    requires Admitted(s, c, x, st) && RunArm(s, c, x, st, v) == Ok(arm) && IsAccept(c.name)
    requires RecordEffect(s, s', c, x, st, arm) && ReceiptEffect(s, s', c, x, st, arm) && ArmEffect(s, s', arm)
    ensures Transfers(s')
  {
    TransferPlanned(s, c, x, st, v, arm);
    GettersAfter(s, s', c, x, st, v, arm);
    ReceiptsGrown(s, s', c, x, st, arm);
    AcceptTransfers(s, s', c, x, st, arm, NewBatch(x, st, arm));
  }

  lemma AcceptedOk(s: State, s': State, c: Command, x: Execution, st: Start, arm: Arm, b: Batch)
    requires Transfers(s) && History(s) && ArmEffect(s, s', arm) && ReceiptsGrow(s, s', c, x, st.before.version + 1)
    requires IsAccept(c.name) && x.actor == RequiredCaller(c.name).0 && TransferPlan(s, c, x, st, arm)
    requires Getters(s, s', c.batch, b, arm.refs) && b.quantity == arm.b.quantity
    requires Started(s, c, st)
    ensures TransferKey(c.payload.transfer) in s'.pub && TransferOk(s', c.payload.transfer)
  {
    hide QuantityOk, OwnerIn, CustodianIn, BatchAt, RequiredCaller, RefsAt;
    var tid := c.payload.transfer;
    assert TransferOk(s, tid);
    var t := s.pub[TransferKey(tid)].transfer;
    ReceiptBelow(s, t.from, t.offerOp, t.batch, if t.kind.Pickup? then OfferPickup else OfferDelivery, t.offeredTx);
    assert OperationKey(t.from, t.offerOp) in s'.pub;
    assert TransferKey(tid) in s'.pub
        && s'.pub[TransferKey(tid)] == TransferValue(t.(status := Accepted, acceptOp := c.op, acceptedTx := x.tx));
    assert PendingKey(c.batch) !in s'.pub;
  }

  lemma AcceptTransfers(s: State, s': State, c: Command, x: Execution, st: Start, arm: Arm, b: Batch)
    requires Transfers(s) && History(s) && ArmEffect(s, s', arm) && ReceiptsGrow(s, s', c, x, st.before.version + 1)
    requires IsAccept(c.name) && x.actor == RequiredCaller(c.name).0 && TransferPlan(s, c, x, st, arm)
    requires Getters(s, s', c.batch, b, arm.refs) && b.state == arm.b.state && b.quantity == arm.b.quantity
    requires Started(s, c, st)
    ensures Transfers(s')
  {
    hide Started, IsOffer, RequiredCaller, HandoffFrame, History, RefsAt, BatchAt, PendingOk;
    var tid := c.payload.transfer;
    TransferOkBatch(s, tid);
    AcceptedOk(s, s', c, x, st, arm, b);
    HandoffFramed(s, s', c, x, st, arm);
    RestKept(s, s', c, x, st.before.version + 1, tid, b, arm.refs);
    assert PendingKey(c.batch) !in s'.pub;
  }

  lemma TransfersKept(s: State, s': State, c: Command, x: Execution, st: Start, v: Verified, arm: Arm)
    requires Records(s) && Transfers(s) && History(s)
    requires Admitted(s, c, x, st) && RunArm(s, c, x, st, v) == Ok(arm)
    requires RecordEffect(s, s', c, x, st, arm) && ReceiptEffect(s, s', c, x, st, arm) && ArmEffect(s, s', arm)
    ensures Transfers(s')
  {
    hide *;
    if IsOffer(c.name) {
      OfferKept(s, s', c, x, st, v, arm);
    } else if IsAccept(c.name) {
      AcceptKept(s, s', c, x, st, v, arm);
    } else {
      PlainKept(s, s', c, x, st, v, arm);
    }
  }

  // ==========================================================================
  // Every accepted command keeps lots, costs, reports and evaluations consistent with their
  // batches.

  // -------------------------------------------------------------- references

  /** What a command plans for lots, costs and reports. */
  ghost predicate ReferencePlan(s: State, c: Command, st: Start, arm: Arm) {
    match c.name
    case RecordFreightCost =>
      && c.payload.FreightInput? && CostRefKey(c.payload.cost) !in s.pub && c.payload.cost != NO_ID
      && arm.plan == Put(CostRefKey(c.payload.cost), IdValue(c.batch))
      && st.refs.freight == NO_ID && arm.refs == st.refs.(freight := c.payload.cost)
      && arm.b.lot == st.before.lot && arm.b.quantity == st.before.quantity
    case ReportRetailPrice =>
      && c.payload.ReportInput? && c.payload.lot != NO_ID && c.payload.report != NO_ID
      && LotKey(c.payload.lot) !in s.pub && ReportRefKey(c.payload.report) !in s.pub
      && (forall k :: k in arm.plan ==> k == LotKey(c.payload.lot) || k == ReportRefKey(c.payload.report))
      && LotKey(c.payload.lot) in arm.plan && arm.plan[LotKey(c.payload.lot)].Some?
      && ReportRefKey(c.payload.report) in arm.plan
      && arm.plan[ReportRefKey(c.payload.report)] == Some(IdValue(c.batch))
      && arm.plan[LotKey(c.payload.lot)].value.LotValue?
      && var l := arm.plan[LotKey(c.payload.lot)].value.lot;
         && l.id == c.payload.lot && l.batch == st.before.id && l.quantity == st.before.quantity
         && l.report == c.payload.report
         && st.refs.report == NO_ID && st.before.lot == NO_ID && arm.refs == st.refs.(report := c.payload.report)
         && arm.b.lot == c.payload.lot && arm.b.quantity == st.before.quantity
    case _ =>
      && (forall k :: k in arm.plan ==> !k.CostRefKey? && !k.LotKey? && !k.ReportRefKey?)
      && arm.refs.freight == st.refs.freight && arm.refs.report == st.refs.report
      && arm.b.lot == st.before.lot && (st.existing ==> arm.b.quantity == st.before.quantity)
  }

  lemma FreightPlanned(s: State, c: Command, x: Execution, st: Start, v: Verified, arm: Arm)
    requires c.name.RecordFreightCost? && PayloadFits(c) && FreightArm(s, c, x, st, v) == Ok(arm)
    ensures ReferencePlan(s, c, st, arm)
  {
    hide ValidId;
    PrefixNotEmpty(c.payload.cost, "CST");
  }

  lemma ReportPlanned(s: State, c: Command, x: Execution, st: Start, v: Verified, arm: Arm)
    requires c.name.ReportRetailPrice? && PayloadFits(c) && ReportArm(s, c, x, st, v) == Ok(arm)
    ensures ReferencePlan(s, c, st, arm)
  {
    hide PayloadFits, ValidPurchase, BatchAt, RefsAt;
    ReportIds(c);
  }

  lemma ReportIds(c: Command)
    requires c.name.ReportRetailPrice? && PayloadFits(c)
    ensures c.payload.ReportInput? ==> c.payload.report != NO_ID && c.payload.lot != NO_ID
  {
    hide ValidId;
    if c.payload.ReportInput? {
      PrefixNotEmpty(c.payload.report, "RPT");
      PrefixNotEmpty(c.payload.lot, "LOT");
    }
  }

  lemma OfferReferences(s: State, c: Command, x: Execution, st: Start, v: Verified, arm: Arm)
    requires IsOffer(c.name) && OfferArm(s, c, x, st, v) == Ok(arm)
    ensures ReferencePlan(s, c, st, arm)
  {
    hide PickupDocuments;
    if c.name.OfferPickup? {
      PickupKinds(s, c, st, v);
      PickupNotEmpty(s, c, st, v);
    }
  }

  lemma CreateReferences(s: State, c: Command, x: Execution, st: Start, v: Verified, arm: Arm)
    requires Admitted(s, c, x, st) && CreateArm(s, c, x, st, v) == Ok(arm) && c.name.CreateBatch?
    ensures ReferencePlan(s, c, st, arm)
  {
    hide PayloadFits, Consume;
    ConsumeKinds(s, map[], v.cks, c);
  }

  lemma AcceptReferences(s: State, c: Command, x: Execution, st: Start, arm: Arm)
    requires Admitted(s, c, x, st) && AcceptArm(s, c, x, st) == Ok(arm) && IsAccept(c.name)
    ensures ReferencePlan(s, c, st, arm)
  {
    hide PayloadFits;
  }

  lemma ReferencePlanned(s: State, c: Command, x: Execution, st: Start, v: Verified, arm: Arm)
    requires Admitted(s, c, x, st) && RunArm(s, c, x, st, v) == Ok(arm)
    ensures ReferencePlan(s, c, st, arm)
  {
    hide PayloadFits, CreateArm, OfferArm, AcceptArm, FreightArm, ReportArm;
    match c.name
    case CreateBatch => CreateReferences(s, c, x, st, v, arm);
    case AcceptPickup | AcceptDelivery => AcceptReferences(s, c, x, st, arm);
    case OfferPickup | OfferDelivery => OfferReferences(s, c, x, st, v, arm);
    case RecordFreightCost => FreightPlanned(s, c, x, st, v, arm);
    case ReportRetailPrice => ReportPlanned(s, c, x, st, v, arm);
    case _ =>
  }

  lemma ReferencesKept(s: State, s': State, c: Command, x: Execution, st: Start, v: Verified, arm: Arm)
    requires Records(s) && References(s)
    requires Admitted(s, c, x, st) && RunArm(s, c, x, st, v) == Ok(arm)
    requires RecordEffect(s, s', c, x, st, arm) && ArmEffect(s, s', arm)
    ensures References(s')
  {
    ReferencePlanned(s, c, x, st, v, arm);
    GettersAfter(s, s', c, x, st, v, arm);
    var b := NewBatch(x, st, arm);
    assert b.lot == arm.b.lot && b.quantity == arm.b.quantity;
    assert !st.existing ==> BatchKey(c.batch) !in s.pub && c.name.CreateBatch?;
    hide RunArm, PayloadFits, NewBatch, RecordEffect, Records, LifecycleOk;
    ReferencesStep(s, s', c, st, arm, b);
  }

  /** What one command starts from: the stored batch, or nothing for a creation. */
  ghost predicate StartsFrom(s: State, c: Command, st: Start) {
    if st.existing then Started(s, c, st) && st.before.id == c.batch
    else
      && st == Start(false, ZERO_BATCH, EmptyRefs(c.batch))
      && c.name.CreateBatch? && BatchKey(c.batch) !in s.pub
  }

  lemma CostRefStep(s: State, s': State, c: Command, st: Start, arm: Arm, b: Batch, k: Id)
    requires References(s) && ReferencePlan(s, c, st, arm) && ArmEffect(s, s', arm) && StartsFrom(s, c, st)
    requires Getters(s, s', c.batch, b, arm.refs) && CostRefKey(k) in s'.pub
    ensures CostRefOk(s', k)
  {
    hide BatchAt, RefsAt, LifecycleOk, ReferencesOf, ReportRefOk, LotOk;
  }

  lemma ReportRefStep(s: State, s': State, c: Command, st: Start, arm: Arm, b: Batch, k: Id)
    requires References(s) && ReferencePlan(s, c, st, arm) && ArmEffect(s, s', arm) && StartsFrom(s, c, st)
    requires Getters(s, s', c.batch, b, arm.refs) && ReportRefKey(k) in s'.pub
    ensures ReportRefOk(s', k)
  {
    hide BatchAt, RefsAt, LifecycleOk, ReferencesOf, CostRefOk, LotOk;
  }

  lemma LotStep(s: State, s': State, c: Command, st: Start, arm: Arm, b: Batch, k: Id)
    requires References(s) && ReferencePlan(s, c, st, arm) && ArmEffect(s, s', arm) && StartsFrom(s, c, st)
    requires Getters(s, s', c.batch, b, arm.refs) && b.lot == arm.b.lot && b.quantity == arm.b.quantity
    requires LotKey(k) in s'.pub
    ensures LotOk(s', k)
  {
    hide BatchAt, RefsAt, LifecycleOk, ReferencesOf, CostRefOk, ReportRefOk;
  }

  lemma ReferencesStep(s: State, s': State, c: Command, st: Start, arm: Arm, b: Batch)
    requires References(s) && ReferencePlan(s, c, st, arm) && ArmEffect(s, s', arm)
    requires Getters(s, s', c.batch, b, arm.refs) && b.lot == arm.b.lot && b.quantity == arm.b.quantity
    requires if st.existing then Started(s, c, st)
             else
               && st == Start(false, ZERO_BATCH, EmptyRefs(c.batch))
               && c.name.CreateBatch? && BatchKey(c.batch) !in s.pub
    ensures References(s')
  {
    hide BatchAt, RefsAt, LifecycleOk, ReferencesOf, ReferencePlan, ArmEffect, CostRefOk, ReportRefOk, LotOk;
    if st.existing {
      StartedId(s, c, st);
    }
    forall k | CostRefKey(k) in s'.pub ensures CostRefOk(s', k) {
      CostRefStep(s, s', c, st, arm, b, k);
    }
    forall k | ReportRefKey(k) in s'.pub ensures ReportRefOk(s', k) {
      ReportRefStep(s, s', c, st, arm, b, k);
    }
    forall k | LotKey(k) in s'.pub ensures LotOk(s', k) {
      LotStep(s, s', c, st, arm, b, k);
    }
    forall id | BatchKey(id) in s'.pub ensures ReferencesOf(s', id) {
      if id == c.batch {
        ReferencesHere(s, s', c, st, arm, b);
      } else {
        ReferencesElsewhere(s, s', c, st, arm, b, id);
      }
    }
  }

  lemma StartedId(s: State, c: Command, st: Start)
    requires st.existing ==> LifecycleOk(c.batch, st.before, st.refs)
    ensures st.existing ==> st.before.id == c.batch
  {
  }

  lemma ReferencesElsewhere(s: State, s': State, c: Command, st: Start, arm: Arm, b: Batch, id: Id)
    requires References(s) && ReferencePlan(s, c, st, arm) && ArmEffect(s, s', arm)
    requires Getters(s, s', c.batch, b, arm.refs) && b.lot == arm.b.lot
    requires if st.existing then Started(s, c, st)
             else
               && st == Start(false, ZERO_BATCH, EmptyRefs(c.batch))
               && c.name.CreateBatch? && BatchKey(c.batch) !in s.pub
    requires BatchKey(id) in s'.pub && id != c.batch
    ensures ReferencesOf(s', id)
  {
    hide EmptyRefs, Started, RefsAt, BatchAt;
    assert ReferencesOf(s, id) && BatchAt(s', id) == BatchAt(s, id) && RefsAt(s', id) == RefsAt(s, id);
    var b0, r0 := BatchAt(s, id), RefsAt(s, id);
    assert r0.freight != NO_ID ==> CostRefKey(r0.freight) in s'.pub;
    assert r0.report != NO_ID ==> ReportRefKey(r0.report) in s'.pub;
    assert b0.lot != NO_ID ==> LotKey(b0.lot) in s'.pub;
  }

  /** What the three references of the batch were, and what the command made of its slots. */
  lemma ReferencesHere(s: State, s': State, c: Command, st: Start, arm: Arm, b: Batch)
    requires References(s) && ReferencePlan(s, c, st, arm) && ArmEffect(s, s', arm)
    requires Getters(s, s', c.batch, b, arm.refs) && b.lot == arm.b.lot
    requires if st.existing then Started(s, c, st)
             else
               && st == Start(false, ZERO_BATCH, EmptyRefs(c.batch))
               && c.name.CreateBatch? && BatchKey(c.batch) !in s.pub
    ensures ReferencesOf(s', c.batch)
  {
    hide LifecycleOk;
    StartedId(s, c, st);
    hide BatchAt, RefsAt;
    if st.existing {
      assert ReferencesOf(s, c.batch);
    }
    hide References;
    if c.name.RecordFreightCost? || c.name.ReportRetailPrice? {
      NewReference(s, s', c, st, arm);
    } else {
      KeptReference(s, s', c, st, arm);
    }
  }

  lemma NewReference(s: State, s': State, c: Command, st: Start, arm: Arm)
    requires (c.name.RecordFreightCost? || c.name.ReportRetailPrice?) && ReferencePlan(s, c, st, arm)
             && ArmEffect(s, s', arm)
    requires st.before.id == c.batch && Referred(s, c.batch, st.before, st.refs)
    ensures Referred(s', c.batch, arm.b, arm.refs)
  {
  }

  lemma KeptReference(s: State, s': State, c: Command, st: Start, arm: Arm)
    requires !c.name.RecordFreightCost? && !c.name.ReportRetailPrice? && ReferencePlan(s, c, st, arm)
             && ArmEffect(s, s', arm)
    requires Referred(s, c.batch, st.before, st.refs)
    ensures Referred(s', c.batch, arm.b, arm.refs)
  {
  }

  // ------------------------------------------------------------- evaluations

  /** A batch whose price was reported is only analysed from then on. */
  lemma FinalState(s: State, c: Command, x: Execution, st: Start, v: Verified, arm: Arm)
    requires Admitted(s, c, x, st) && RunArm(s, c, x, st, v) == Ok(arm) && st.existing
    requires LifecycleOk(c.batch, st.before, st.refs)
    requires st.before.state.RetailReported? || IsAnalysis(c.name)
    ensures IsAnalysis(c.name) && arm.b == st.before && arm.refs == st.refs && arm.plan == map[]
  {
    hide ValidPurchase, PickupDocuments, CreateArm, LifecycleOk, PayloadFits, RequiredCaller, EmptyRefs;
  }

  lemma EvaluationsKept(s: State, s': State, c: Command, x: Execution, st: Start, v: Verified, arm: Arm)
    requires Records(s) && Evaluations(s)
    requires Admitted(s, c, x, st) && RunArm(s, c, x, st, v) == Ok(arm) && ProofPlan(s, c, x, st.before, st.refs, v)
    requires RecordEffect(s, s', c, x, st, arm) && ProofEffect(s, s', v)
    ensures Evaluations(s')
  {
    GettersAfter(s, s', c, x, st, v, arm);
    var b := NewBatch(x, st, arm);
    assert b.state == arm.b.state;
    assert !st.existing ==> BatchKey(c.batch) !in s.pub && c.name.CreateBatch?;
    if st.existing && (st.before.state.RetailReported? || IsAnalysis(c.name)) {
      FinalState(s, c, x, st, v, arm);
    }
    StartedId(s, c, st);
    hide RunArm, PayloadFits, NewBatch, RecordEffect, Records, LifecycleOk;
    EvaluationsStep(s, s', c, x, st, v, b, arm.refs);
  }

  lemma EvaluationsStep(s: State, s': State, c: Command, x: Execution, st: Start, v: Verified, b: Batch, r: Refs)
    requires Evaluations(s) && ProofPlan(s, c, x, st.before, st.refs, v) && ProofEffect(s, s', v)
    requires Getters(s, s', c.batch, b, r)
    requires if st.existing then Started(s, c, st) && st.before.id == c.batch
             else BatchKey(c.batch) !in s.pub && c.name.CreateBatch?
    requires st.existing && (st.before.state.RetailReported? || IsAnalysis(c.name)) ==>
               b.state == st.before.state && r == st.refs
    ensures Evaluations(s')
  {
    hide *;
    EvaluationsForward(s, s', c, x, st, v, b, r);
    EvaluationsBack(s, s', c, x, st, v, b, r);
    EvaluationsJoined(s');
  }

  lemma EvaluationsJoined(s: State)
    requires EvaluationsLead(s) && AnomaliesLead(s)
    ensures Evaluations(s)
  {
    hide BatchAt, RefsAt;
  }

  lemma EvaluationsForward(s: State, s': State, c: Command, x: Execution, st: Start, v: Verified, b: Batch, r: Refs)
    requires Evaluations(s) && ProofPlan(s, c, x, st.before, st.refs, v) && ProofEffect(s, s', v)
    requires Getters(s, s', c.batch, b, r)
    requires if st.existing then Started(s, c, st) && st.before.id == c.batch
             else BatchKey(c.batch) !in s.pub && c.name.CreateBatch?
    requires st.existing && (st.before.state.RetailReported? || IsAnalysis(c.name)) ==>
               b.state == st.before.state && r == st.refs
    ensures EvaluationsLead(s')
  {
    hide BatchAt, RefsAt, LifecycleOk;
    forall id | EvaluationKey(id) in s'.pub
      ensures && s'.pub[EvaluationKey(id)].EvaluationValue?
              && var e := s'.pub[EvaluationKey(id)].evaluation;
                 && e.batch == id && BatchKey(id) in s'.pub && BatchAt(s', id).state.RetailReported?
                 && e.report == RefsAt(s', id).report
                 && AnomalyRefKey(e.anomaly) in s'.pub && s'.pub[AnomalyRefKey(e.anomaly)] == EvaluationValue(e)
    {
      if EvaluationKey(id) in s.pub {
        var e := s.pub[EvaluationKey(id)].evaluation;
        assert AnomalyRefKey(e.anomaly) in s'.pub;
      }
    }
  }

  lemma EvaluationsBack(s: State, s': State, c: Command, x: Execution, st: Start, v: Verified, b: Batch, r: Refs)
    requires Evaluations(s) && ProofPlan(s, c, x, st.before, st.refs, v) && ProofEffect(s, s', v)
    requires st.existing ==> st.before.id == c.batch
    ensures AnomaliesLead(s')
  {
    hide BatchAt, RefsAt, LifecycleOk;
    forall a | AnomalyRefKey(a) in s'.pub
      ensures && s'.pub[AnomalyRefKey(a)].EvaluationValue?
              && var e := s'.pub[AnomalyRefKey(a)].evaluation;
                 && e.anomaly == a && EvaluationKey(e.batch) in s'.pub
                 && s'.pub[EvaluationKey(e.batch)] == EvaluationValue(e)
    {
      if AnomalyRefKey(a) in s.pub {
        var e := s.pub[AnomalyRefKey(a)].evaluation;
        assert EvaluationKey(e.batch) in s'.pub;
      }
    }
  }
}
