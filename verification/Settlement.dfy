/** When a transaction commits, and what the journal row that asked for it then means on the ledger. */
module Settlement {
  import opened Types
  import opened Evidence
  import opened Engine
  import opened Invariants
  import opened Runs
  import opened Guarantees
  import opened Origins
  import opened Progress
  import opened Reads
  import opened Serial
  import opened C = Reconciler
  import N = Network
  import J = Journal
  import W = Workflow

  // ==========================================================================
  // The network that the backend sees is the ledger that schedules of transactions leave.

  /** The entry is an endorsed command: a transaction that can be sent. */
  predicate Sendable(m: Machine, sched: Schedule, i: nat) {
    ReceiptOf(m, sched, i).Some?
  }

  function TxOf(e: Entry): string {
    if e.request.Invoke? then e.request.x.tx else ""
  }

  /** Transaction ids are their transactions' own. */
  ghost predicate DistinctTxs(sched: Schedule) {
    forall i: nat, j: nat {:trigger sched(i), sched(j)} ::
      i != j && sched(i).request.Invoke? && sched(j).request.Invoke? ==> TxOf(sched(i)) != TxOf(sched(j))
  }

  /** What an endorsed transaction is made of: its bytes, and the private inputs it was endorsed with. */
  datatype Texts = Texts(bytes: string, inputs: string)

  function Carried(t: Texts, r: Receipt): N.Endorsement {
    N.Endorsement(t.bytes, t.inputs, r)
  }

  /** The transactions among the first k entries that were endorsed after n deliveries. */
  function EndorsedBy(m: Machine, texts: Entry -> Texts, sched: Schedule, n: nat, k: nat): map<string, N.Endorsement> {
    if k == 0 then map[]
    else
      var rest := EndorsedBy(m, texts, sched, n, k - 1);
      match ReceiptOf(m, sched, k - 1)
      case None => rest
      case Some(r) =>
        if Snapshot(sched, k - 1) <= n then rest[TxOf(sched(k - 1)) := Carried(texts(sched(k - 1)), r)] else rest
  }

  /** The transactions settled by the first n deliveries, each valid exactly if it committed. */
  function SettledBy(m: Machine, sched: Schedule, n: nat): map<string, bool> {
    if n == 0 then map[]
    else
      var rest := SettledBy(m, sched, n - 1);
      if Sendable(m, sched, n - 1) then rest[TxOf(sched(n - 1)) := Commits(m, sched, n - 1)] else rest
  }

  /** The receipts on the ledger, by organization and operation. */
  function OperationsOf(s: State): map<(Msp, Id), Receipt> {
    map k | k in s.pub && k.OperationKey? && s.pub[k].ReceiptValue? :: (k.actor, k.op) := s.pub[k].receipt
  }

  /**
   * The network after the first n deliveries, of the first k entries: what was endorsed
   * by then, all of it sent, the settled part of it with its validity, and the receipts
   * on the ledger.
   */
  function NetOf(m: Machine, texts: Entry -> Texts, sched: Schedule, k: nat, n: nat): N.Net {
    var endorsed := EndorsedBy(m, texts, sched, n, k);
    N.Net(endorsed, endorsed.Keys, SettledBy(m, sched, n), OperationsOf(At(m, sched, n).state))
  }

  // ------------------------------------------------------------------- lookups

  lemma SendableReceipt(m: Machine, sched: Schedule, i: nat)
    requires Booked(m) && Sendable(m, sched, i)
    ensures var r := ReceiptOf(m, sched, i).value;
            && sched(i).request.Invoke? && r.tx == TxOf(sched(i)) && Uses(sched(i).request, r.actor, r.op)
            && r.batch == sched(i).request.c.batch && r.command == sched(i).request.c.name
  {
    hide Seen, Booked, VersionIn;
    Recording(m, Seen(m, sched, i).state, sched(i).request);
  }

  lemma {:induction false} EndorsedHas(m: Machine, texts: Entry -> Texts, sched: Schedule, n: nat, k: nat, i: nat)
    requires Booked(m) && DistinctTxs(sched) && i < k && Snapshot(sched, i) <= n && Sendable(m, sched, i)
    ensures var all := EndorsedBy(m, texts, sched, n, k);
            && TxOf(sched(i)) in all
            && all[TxOf(sched(i))] == Carried(texts(sched(i)), ReceiptOf(m, sched, i).value)
  {
    hide ReceiptOf, Booked, Snapshot;
    if i < k - 1 {
      EndorsedHas(m, texts, sched, n, k - 1, i);
      SendableReceipt(m, sched, i);
      if Sendable(m, sched, k - 1) {
        SendableReceipt(m, sched, k - 1);
      }
    }
  }

  lemma {:induction false} EndorsedIs(m: Machine, texts: Entry -> Texts, sched: Schedule, n: nat, k: nat, tx: string)
    returns (i: nat)
    requires tx in EndorsedBy(m, texts, sched, n, k)
    ensures i < k && Snapshot(sched, i) <= n && Sendable(m, sched, i) && TxOf(sched(i)) == tx
    decreases k
  {
    hide ReceiptOf, Snapshot;
    if Snapshot(sched, k - 1) <= n && Sendable(m, sched, k - 1) && TxOf(sched(k - 1)) == tx {
      i := k - 1;
    } else {
      i := EndorsedIs(m, texts, sched, n, k - 1, tx);
    }
  }

  lemma {:induction false} SettledHas(m: Machine, sched: Schedule, n: nat, i: nat)
    requires Booked(m) && DistinctTxs(sched) && i < n && Sendable(m, sched, i)
    ensures TxOf(sched(i)) in SettledBy(m, sched, n)
            && SettledBy(m, sched, n)[TxOf(sched(i))] == Commits(m, sched, i)
  {
    hide Sendable, Commits, Booked;
    if i < n - 1 {
      SettledHas(m, sched, n - 1, i);
      SendableReceipt(m, sched, i);
      if Sendable(m, sched, n - 1) {
        SendableReceipt(m, sched, n - 1);
      }
    }
  }

  lemma {:induction false} SettledIs(m: Machine, sched: Schedule, n: nat, tx: string) returns (i: nat)
    requires tx in SettledBy(m, sched, n)
    ensures i < n && Sendable(m, sched, i) && TxOf(sched(i)) == tx
    decreases n
  {
    hide Sendable, Commits;
    if Sendable(m, sched, n - 1) && TxOf(sched(n - 1)) == tx {
      i := n - 1;
    } else {
      i := SettledIs(m, sched, n - 1, tx);
    }
  }

  /** Of two entries with one transaction id there is only one. */
  lemma SameEntry(m: Machine, sched: Schedule, i: nat, j: nat)
    requires Booked(m) && DistinctTxs(sched) && Sendable(m, sched, i) && Sendable(m, sched, j)
    requires TxOf(sched(i)) == TxOf(sched(j))
    ensures i == j
  {
    hide Booked, Sendable, TxOf;
    SendableReceipt(m, sched, i);
    SendableReceipt(m, sched, j);
  }

  lemma OperationIs(s: State, a: Msp, op: Id)
    ensures (a, op) in OperationsOf(s) <==> OperationKey(a, op) in s.pub && s.pub[OperationKey(a, op)].ReceiptValue?
    ensures (a, op) in OperationsOf(s) ==> OperationsOf(s)[(a, op)] == s.pub[OperationKey(a, op)].receipt
  {
    if OperationKey(a, op) in s.pub && s.pub[OperationKey(a, op)].ReceiptValue? {
      var k := OperationKey(a, op);
      assert k.OperationKey? && (k.actor, k.op) == (a, op);
    }
  }

  // ----------------------------------------------------------------- theorems

  ghost predicate SettledOk(net: N.Net, tx: string)
    requires tx in net.status
  {
    && tx in net.sent && tx in net.endorsed
    && (net.status[tx] ==>
          var slot := N.Slot(net.endorsed[tx].receipt);
          slot in net.operations && net.operations[slot] == net.endorsed[tx].receipt)
  }

  ghost predicate OperationOk(net: N.Net, o: (Msp, Id))
    requires o in net.operations
  {
    var r := net.operations[o];
    N.Slot(r) == o && r.tx in net.endorsed && net.endorsed[r.tx].receipt == r && r.tx in net.status && net.status[r.tx]
  }

  lemma SettledProper(m: Machine, texts: Entry -> Texts, sched: Schedule, k: nat, n: nat, tx: string)
    requires Local(m) && Booked(m) && DistinctTxs(sched) && n <= k && tx in SettledBy(m, sched, n)
    ensures SettledOk(NetOf(m, texts, sched, k, n), tx)
  {
    hide At, Local, Booked, Commits, Sendable, ReceiptOf, EndorsedBy, SettledBy, OperationsOf, DistinctTxs;
    var i := SettledIs(m, sched, n, tx);
    SettledHas(m, sched, n, i);
    EndorsedHas(m, texts, sched, n, k, i);
    SendableReceipt(m, sched, i);
    if Commits(m, sched, i) {
      ReceiptStays(m, sched, i, n);
      OperationIs(At(m, sched, n).state, sched(i).request.x.actor, sched(i).request.c.op);
    }
  }

  lemma OperationProper(m: Machine, texts: Entry -> Texts, sched: Schedule, k: nat, n: nat, o: (Msp, Id))
    requires Local(m) && Booked(m) && DistinctTxs(sched) && n <= k && o in OperationsOf(At(m, sched, n).state)
    ensures OperationOk(NetOf(m, texts, sched, k, n), o)
  {
    hide At, Local, Booked, Commits, ReceiptOf, EndorsedBy, SettledBy, OperationsOf, DistinctTxs;
    OperationIs(At(m, sched, n).state, o.0, o.1);
    var i := ReceiptOrigin(m, sched, n, o.0, o.1);
    ReceiptStays(m, sched, i, n);
    SendableReceipt(m, sched, i);
    EndorsedHas(m, texts, sched, n, k, i);
    SettledHas(m, sched, n, i);
  }

  /** What a schedule leaves is a proper network: one valid transaction per operation, its receipt stored. */
  lemma ScheduleNetOk(m: Machine, texts: Entry -> Texts, sched: Schedule, k: nat, n: nat)
    requires Local(m) && Booked(m) && DistinctTxs(sched) && n <= k
    ensures N.NetOk(NetOf(m, texts, sched, k, n))
  {
    hide At, Local, Booked, ReceiptOf, EndorsedBy, SettledBy, OperationsOf, DistinctTxs;
    var net := NetOf(m, texts, sched, k, n);
    forall tx | tx in net.endorsed ensures net.endorsed[tx].receipt.tx == tx {
      var i := EndorsedIs(m, texts, sched, n, k, tx);
      EndorsedHas(m, texts, sched, n, k, i);
      SendableReceipt(m, sched, i);
    }
    forall tx | tx in net.status ensures SettledOk(net, tx) {
      SettledProper(m, texts, sched, k, n, tx);
    }
    forall o | o in net.operations ensures OperationOk(net, o) {
      OperationProper(m, texts, sched, k, n, o);
    }
  }

  /** And it only grows: endorsements, statuses and receipts are there for good. */
  lemma ScheduleNetGrows(m: Machine, texts: Entry -> Texts, sched: Schedule, k: nat, i: nat, j: nat)
    requires Local(m) && Booked(m) && DistinctTxs(sched) && i <= j <= k
    ensures N.Grows(NetOf(m, texts, sched, k, i), NetOf(m, texts, sched, k, j))
  {
    hide At, Local, Booked, Commits, ReceiptOf, EndorsedBy, SettledBy, OperationsOf, DistinctTxs;
    var a, b := NetOf(m, texts, sched, k, i), NetOf(m, texts, sched, k, j);
    forall tx | tx in a.endorsed ensures tx in b.endorsed && b.endorsed[tx] == a.endorsed[tx] {
      var e := EndorsedIs(m, texts, sched, i, k, tx);
      EndorsedHas(m, texts, sched, i, k, e);
      EndorsedHas(m, texts, sched, j, k, e);
    }
    forall tx | tx in a.status ensures tx in b.status && b.status[tx] == a.status[tx] {
      var e := SettledIs(m, sched, i, tx);
      SettledHas(m, sched, i, e);
      SettledHas(m, sched, j, e);
    }
    forall o | o in a.operations ensures o in b.operations && b.operations[o] == a.operations[o] {
      OperationIs(At(m, sched, i).state, o.0, o.1);
      OperationIs(At(m, sched, j).state, o.0, o.1);
      var e := ReceiptOrigin(m, sched, i, o.0, o.1);
      ReceiptStays(m, sched, e, i);
      ReceiptStays(m, sched, e, j);
      SendableReceipt(m, sched, e);
    }
  }

  // ==========================================================================
  // When a transaction commits, and what the journal row that asked for it then means on the
  // ledger.

  // ------------------------------------------------------- rows and transactions

  /** The network of a world is what the first n deliveries of the schedule leave. */
  ghost predicate Shown(m: Machine, texts: Entry -> Texts, sched: Schedule, k: nat, n: nat, w: W.World) {
    DistinctTxs(sched) && n <= k && W.WorldOk(w) && w.net == NetOf(m, texts, sched, k, n)
  }

  ghost predicate RowIn(w: W.World, key: J.RowKey, row: J.Row) {
    key in w.ops && w.ops[key] == row
  }

  /** The entry that a journal row's transaction is. */
  ghost predicate EntryOf(m: Machine, sched: Schedule, key: J.RowKey, row: J.Row, i: nat) {
    && Sendable(m, sched, i) && row.txid == Some(TxOf(sched(i))) && Uses(sched(i).request, key.0.msp, key.1)
    && sched(i).request.c.batch == row.request.batch && sched(i).request.c.name == row.request.command
  }

  /** The row's transaction was endorsed with this receipt. */
  ghost predicate RowHolds(w: W.World, row: J.Row, receipt: Option<Receipt>) {
    && row.txid.Some? && row.txid.value in w.net.endorsed
    && Some(w.net.endorsed[row.txid.value].receipt) == receipt
  }

  /** The row's transaction is settled as valid. */
  ghost predicate RowValid(w: W.World, row: J.Row) {
    row.txid.Some? && N.IsValid(w.net, row.txid.value)
  }

  lemma SomeReceipt(m: Machine, sched: Schedule, i: nat)
    requires Sendable(m, sched, i)
    ensures ReceiptOf(m, sched, i).Some?
  {
    hide ReceiptOf;
  }

  /**
   * A row's transaction is an entry of the schedule: it is settled once the entry is
   * delivered, and valid exactly if it committed.
   */
  lemma RowCommits(m: Machine, texts: Entry -> Texts, sched: Schedule, k: nat, n: nat, w: W.World, key: J.RowKey,
                   row: J.Row)
    returns (i: nat)
    requires Booked(m) && Shown(m, texts, sched, k, n, w) && RowIn(w, key, row) && row.tx.Some?
    ensures EntryOf(m, sched, key, row, i) && RowHolds(w, row, ReceiptOf(m, sched, i))
    ensures W.SettledFor(w.net, row) <==> i < n
    ensures RowValid(w, row) <==> i < n && Commits(m, sched, i)
  {
    hide Booked, Sendable, ReceiptOf, EndorsedBy, SettledBy, OperationsOf, DistinctTxs, W.WorldOk, Commits;
    W.RowIsOk(w, key);
    i := EndorsedIs(m, texts, sched, n, k, row.txid.value);
    EndorsedHas(m, texts, sched, n, k, i);
    SendableReceipt(m, sched, i);
    SomeReceipt(m, sched, i);
    if W.SettledFor(w.net, row) {
      var e := SettledIs(m, sched, n, row.txid.value);
      SameEntry(m, sched, i, e);
    }
    if i < n {
      SettledHas(m, sched, n, i);
    }
  }

  /**
   * Whatever command a row asks for: its settled transaction is valid exactly if, at its
   * turn, the batch was at the version the command expects and every id that it found
   * unused was still unused. A recovery pass gives the row this outcome.
   */
  lemma RowSettles(m: Machine, texts: Entry -> Texts, sched: Schedule, k: nat, n: nat, w: W.World, key: J.RowKey,
                   row: J.Row)
    returns (i: nat)
    requires Lawful(m) && Shown(m, texts, sched, k, n, w) && RowIn(w, key, row) && row.tx.Some?
    ensures EntryOf(m, sched, key, row, i) && (W.SettledFor(w.net, row) <==> i < n)
    ensures RowValid(w, row) <==>
              && i < n && StillFree(m, sched, i)
              && VersionAt(At(m, sched, i).state, row.request.batch) == sched(i).request.c.expected
  {
    hide Local, Booked, Framed, Invariant, ReceiptOf, NetOf, DistinctTxs, W.WorldOk, W.SettledFor, Commits, At,
         VersionAt, StillFree, RowValid, RowHolds;
    i := RowCommits(m, texts, sched, k, n, w, key, row);
    SendableEndorsed(m, sched, i);
    CommitsIff(m, sched, i, row.request.batch);
  }

  lemma SendableEndorsed(m: Machine, sched: Schedule, i: nat)
    requires Sendable(m, sched, i)
    ensures Endorsed(m, sched, i)
  {
    hide Tried;
  }

  /** A committed row is a committed transaction of the schedule, with its receipt. */
  lemma CommittedServed(m: Machine, texts: Entry -> Texts, sched: Schedule, k: nat, n: nat, w: W.World, key: J.RowKey,
                        row: J.Row)
    returns (i: nat)
    requires Booked(m) && Shown(m, texts, sched, k, n, w) && RowIn(w, key, row) && row.state.Committed?
    ensures EntryOf(m, sched, key, row, i) && i < n && Commits(m, sched, i) && row.receipt == ReceiptOf(m, sched, i)
  {
    hide Booked, ReceiptOf, NetOf, DistinctTxs, W.WorldOk, Commits, Sendable;
    W.RowIsOk(w, key);
    i := RowCommits(m, texts, sched, k, n, w, key, row);
  }

  // ----------------------------------------------------------------- evaluations

  /** The ids of an evaluation, and the batch's own evaluation, are unused. */
  ghost predicate StillOpen(s: State, c: Command, x: Execution) {
    && OperationKey(x.actor, c.op) !in s.pub && EvaluationKey(c.batch) !in s.pub
    && (c.payload.EvaluateInput? ==> AnomalyRefKey(c.payload.anomaly) !in s.pub)
  }

  /** The cells an accepted evaluation reads. */
  function EvaluationCells(c: Command, x: Execution, r: Refs): set<Cell> {
    {Pub(ConfigKey), Pub(OperationKey(x.actor, c.op)), Pub(BatchKey(c.batch)), Pub(RefsKey(c.batch)),
     Pub(EvaluationKey(c.batch)), Priv(OpeningKey(TradeCollection, r.purchase)), Priv(ReportKey(r.report)),
     Priv(CostKey(r.freight))}
    + if c.payload.EvaluateInput? then {Pub(AnomalyRefKey(c.payload.anomaly))} else {}
  }

  lemma EvaluationReadSet(env: Env, s: State, c: Command, x: Execution, t: Transient, b: Batch, r: Refs)
    requires Admit(env, s, c, x) == Ok(Start(true, b, r)) && c.name.EvaluatePrice? && b.id == c.batch
    ensures ReadsOf(env, s, c, x, t) <= EvaluationCells(c, x, r)
  {
    hide Admit, Prepare;
  }

  /** An accepted evaluation and what it found. */
  ghost predicate Evaluates(s: State, c: Command, x: Execution, cells: set<Cell>) {
    && StillOpen(s, c, x) && c.payload.EvaluateInput? && Reported(s, c.batch) && c.expected == 7
    && cells <= EvaluationCells(c, x, RefsAt(s, c.batch))
  }

  lemma EvaluationReads(env: Env, s: State, c: Command, x: Execution, t: Transient)
    requires Inv(s) && Apply(env, s, c, x, t).Ok? && c.name.EvaluatePrice?
    ensures Evaluates(s, c, x, ReadsOf(env, s, c, x, t))
  {
    hide Inv, Apply, Admit, WellPosed, BatchAt, RefsAt, TheScore, ReadSalt, EvaluationCells, ReadsOf;
    AcceptedReady(env, s, c, x, t);
    ReadyAdmitted(env, s, c, x);
    EvaluateIff(env, s, c, x, t);
    EvaluationAccepted(env, s, c, x, t);
    EvaluationReadSet(env, s, c, x, t, BatchAt(s, c.batch), RefsAt(s, c.batch));
  }

  /** What an evaluation reads is there, but for the ids that it claims. */
  lemma EvaluationClaims(s: State, u: State, c: Command, x: Execution, cells: set<Cell>, cell: Cell)
    requires Inv(s) && Evaluates(s, c, x, cells) && cell in cells && !Present(s, cell) && StillOpen(u, c, x)
    ensures !Present(u, cell)
  {
    hide Inv, RefsAt;
    EvaluationPresent(s, c.batch);
  }

  lemma EvaluationPresent(s: State, id: Id)
    requires Inv(s) && Reported(s, id)
    ensures ConfigKey in s.pub && BatchKey(id) in s.pub && RefsKey(id) in s.pub
    ensures OpeningKey(TradeCollection, RefsAt(s, id).purchase) in s.priv && ReportKey(RefsAt(s, id).report) in s.priv
            && CostKey(RefsAt(s, id).freight) in s.priv
  {
    hide Configured, Indexed, History, Transfers, References, Evaluations, Consumed, Slots, Analysed, Privates,
         Versioned, RefsAt;
    hide LifecycleOk, BatchAt;
    ReportedConsistent(s, id);
    assert RecordOk(s, id);
  }

  lemma SevenStays(s: State, u: State, id: Id)
    requires Reported(s, id) && Extends(s, u) && Inv(u) && EvaluationKey(id) !in u.pub
    ensures VersionAt(u, id) == 7
  {
    hide Inv, Extends, BatchAt;
    StaysReported(s, u, id);
    SevenMeans(u, id);
  }

  lemma LedgerApplies(env: Env, s: State, c: Command, x: Execution, t: Transient)
    ensures Ledger(env).simulate(s, Invoke(c, x, t)).Ok? <==> Apply(env, s, c, x, t).Ok?
    ensures Ledger(env).cells(s, Invoke(c, x, t)) == ReadsOf(env, s, c, x, t)
    ensures Moves(Ledger(env), s, Invoke(c, x, t)) == Step(env, s, c, x, t)
  {
    hide Apply, ReadsOf, Inv, Step;
    MovesServe(env, s, Invoke(c, x, t));
  }

  /**
   * An endorsed evaluation commits exactly when, at its turn, its batch is not
   * evaluated and its ids are unused: whatever else is going on, it can only lose
   * to another evaluation of its batch or to another use of its ids.
   */
  lemma EvaluationCommitsIff(env: Env, sched: Schedule, i: nat, c: Command, x: Execution, t: Transient)
    requires Endorsed(Ledger(env), sched, i) && sched(i).request == Invoke(c, x, t) && c.name.EvaluatePrice?
    ensures Commits(Ledger(env), sched, i) <==> StillOpen(At(Ledger(env), sched, i).state, c, x)
  {
    hide At, Inv, Apply, ReadsOf, Extends, StillOpen, Present, VersionAt, Ledger, Local, Booked, Framed, Invariant,
         EvaluationCells, Reported, Commits;
    var m := Ledger(env);
    var snap, now := Seen(m, sched, i).state, At(m, sched, i).state;
    LedgerLawful(env);
    CommitsIff(m, sched, i, c.batch);
    ConcurrentInv(env, sched, Snapshot(sched, i));
    ConcurrentInv(env, sched, i);
    LedgerApplies(env, snap, c, x, t);
    LedgerApplies(env, now, c, x, t);
    EvaluationReads(env, snap, c, x, t);
    if Commits(m, sched, i) {
      CommitOutcome(m, sched, i);
      EvaluationReads(env, now, c, x, t);
    }
    if StillOpen(now, c, x) {
      Grown(env, sched, Snapshot(sched, i), i);
      NotEvaluated(now, c, x);
      SevenStays(snap, now, c.batch);
      forall cell | cell in m.cells(snap, sched(i).request) && !Present(snap, cell) ensures !Present(now, cell) {
        EvaluationClaims(snap, now, c, x, m.cells(snap, sched(i).request), cell);
      }
    }
  }

  lemma NotEvaluated(s: State, c: Command, x: Execution)
    requires StillOpen(s, c, x)
    ensures EvaluationKey(c.batch) !in s.pub
  {
  }

  /** An accepted evaluation leaves its batch evaluated. */
  lemma EvaluationStored(env: Env, s: State, c: Command, x: Execution, t: Transient)
    requires Inv(s) && Apply(env, s, c, x, t).Ok? && c.name.EvaluatePrice?
    ensures EvaluationKey(c.batch) in Step(env, s, c, x, t).pub
  {
    hide Apply, Step, Accepts, Admitted, RecordEffect, ReceiptEffect, IndexEffect, ArmEffect, Finish, Inv;
    var st, v, arm := MovedBy(env, s, c, x, t);
    EvaluationAccepted(env, s, c, x, t);
    AcceptedReady(env, s, c, x, t);
    StartsAt(s, c, x, st);
  }

  lemma StartsAt(s: State, c: Command, x: Execution, st: Start)
    requires Admitted(s, c, x, st) && c.name.EvaluatePrice?
    requires LifecycleOk(c.batch, BatchAt(s, c.batch), RefsAt(s, c.batch))
    ensures st.before.id == c.batch
  {
    hide PayloadFits, RequiredCaller;
  }

  /** When the row of an evaluation is committed, its batch is evaluated on the ledger. */
  lemma CommittedEvaluates(env: Env, texts: Entry -> Texts, sched: Schedule, k: nat, n: nat, w: W.World,
                           key: J.RowKey, row: J.Row)
    requires Shown(Ledger(env), texts, sched, k, n, w) && RowIn(w, key, row)
    requires row.state.Committed? && row.request.command.EvaluatePrice?
    ensures EvaluationKey(row.request.batch) in At(Ledger(env), sched, n).state.pub
  {
    hide At, Commits, Inv, Apply, Step, Extends, Ledger, Local, Booked, Framed, Invariant, Shown, RowIn, ReceiptOf,
         Tried;
    var m := Ledger(env);
    LedgerLawful(env);
    var i := CommittedServed(m, texts, sched, k, n, w, key, row);
    var s, r := At(m, sched, i).state, sched(i).request;
    CommitOutcome(m, sched, i);
    CommitState(m, sched, i);
    ConcurrentInv(env, sched, i);
    LedgerApplies(env, s, r.c, r.x, r.t);
    EvaluationStored(env, s, r.c, r.x, r.t);
    Grown(env, sched, i + 1, n);
    C.EvaluationLasts(Next(m, sched, i).state, At(m, sched, n).state, row.request.batch);
  }

  lemma ClosedLasts(s: State, u: State, c: Command, x: Execution)
    requires Extends(s, u) && !StillOpen(s, c, x)
    ensures !StillOpen(u, c, x)
  {
    hide BatchesLast, RecordsLast;
    assert Lasting(OperationKey(x.actor, c.op)) && Lasting(EvaluationKey(c.batch));
    assert c.payload.EvaluateInput? ==> Lasting(AnomalyRefKey(c.payload.anomaly));
  }

  /**
   * When the row of an evaluation has failed with a transaction of its own, the
   * transaction had lost: the batch is evaluated, or one of the command's ids was
   * used otherwise. Only then does such a row stay failed.
   */
  lemma FailedLost(env: Env, texts: Entry -> Texts, sched: Schedule, k: nat, n: nat, w: W.World, key: J.RowKey,
                   row: J.Row)
    returns (i: nat, c: Command, x: Execution, t: Transient)
    requires Shown(Ledger(env), texts, sched, k, n, w) && RowIn(w, key, row)
    requires row.state.Failed? && row.tx.Some? && row.request.command.EvaluatePrice?
    ensures EntryOf(Ledger(env), sched, key, row, i) && sched(i).request == Invoke(c, x, t)
    ensures !StillOpen(At(Ledger(env), sched, n).state, c, x)
  {
    hide At, Commits, Extends, Ledger, Local, Booked, Framed, Invariant, EndorsedBy, SettledBy, OperationsOf,
         W.WorldOk, DistinctTxs, ReceiptOf, StillOpen, Sendable;
    var m := Ledger(env);
    LedgerLawful(env);
    W.RowIsOk(w, key);
    FailedInvalid(w, key, row);
    i := RowCommits(m, texts, sched, k, n, w, key, row);
    SendableReceipt(m, sched, i);
    c, x, t := sched(i).request.c, sched(i).request.x, sched(i).request.t;
    if i < n {
      SendableEndorsed(m, sched, i);
      EvaluationCommitsIff(env, sched, i, c, x, t);
      Grown(env, sched, i, n);
      ClosedLasts(At(m, sched, i).state, At(m, sched, n).state, c, x);
    } else {
      OperationIs(At(m, sched, n).state, key.0.msp, key.1);
      UsedOperation(At(m, sched, n).state, c, x);
    }
  }

  lemma FailedInvalid(w: W.World, key: J.RowKey, row: J.Row)
    requires W.WorldOk(w) && RowIn(w, key, row) && row.state.Failed? && row.txid.Some?
    ensures !RowValid(w, row)
  {
    N.GrowsItself(w.net);
    W.NeverContradicted(w.net, w.net, w.ops, key);
  }

  lemma UsedOperation(s: State, c: Command, x: Execution)
    requires OperationKey(x.actor, c.op) in s.pub
    ensures !StillOpen(s, c, x)
  {
  }

  // ----------------------------------------------------- the reconciler's own rows

  /** What the row of a derived request says about the ledger. */
  ghost predicate Outcome(s: State, sched: Schedule, row: J.Row, c: Command) {
    && (row.state.Committed? ==> EvaluationKey(c.batch) in s.pub)
    && (row.state.Failed? && row.tx.Some? ==>
          || EvaluationKey(c.batch) in s.pub || OperationKey(Regulator, c.op) in s.pub
          || exists i: nat {:trigger sched(i)} ::
               Uses(sched(i).request, Regulator, c.op) && Concerns(sched(i).request, c.batch)
               && AnomalyUsed(s, sched(i).request))
  }

  predicate AnomalyUsed(s: State, r: Request) {
    r.Invoke? && r.c.payload.EvaluateInput? && AnomalyRefKey(r.c.payload.anomaly) in s.pub
  }

  /**
   * The row of a derived request, when the worker's peer and the journal's network are
   * one ledger, the peer at an earlier point or the same: its batch is reported there;
   * a committed row means that it is evaluated, and a row that failed with a
   * transaction, that it is evaluated or that an id of the command was used.
   */
  lemma DerivedSettles(env: Env, texts: Entry -> Texts, names: Naming, sched: Schedule, k: nat, i: nat, n: nat,
                       served: seq<Request>, w: W.World, d: C.Derivation, row: J.Row)
    requires Shown(Ledger(env), texts, sched, k, n, w) && RowIn(w, (C.ORACLE, d.command.op), row)
    requires i <= n && served == Committed(Ledger(env), sched, i) && C.Faithful(env, names, served, d)
    requires row.request == C.RequestOf(names, d.command)
    ensures Reported(At(Ledger(env), sched, n).state, d.command.batch)
    ensures Outcome(At(Ledger(env), sched, n).state, sched, row, d.command)
  {
    hide At, W.WorldOk, NetOf, C.Faithful, StillOpen, Committed, Reported, Shown, RowIn, Ledger;
    DerivedReported(env, names, sched, i, n, served, d);
    if row.state.Committed? {
      CommittedEvaluates(env, texts, sched, k, n, w, (C.ORACLE, d.command.op), row);
    }
    if row.state.Failed? && row.tx.Some? {
      var e, c, x, t := FailedLost(env, texts, sched, k, n, w, (C.ORACLE, d.command.op), row);
      Lost(At(Ledger(env), sched, n).state, c, x);
    }
  }

  lemma Lost(s: State, c: Command, x: Execution)
    requires !StillOpen(s, c, x)
    ensures EvaluationKey(c.batch) in s.pub || OperationKey(x.actor, c.op) in s.pub
            || (c.payload.EvaluateInput? && AnomalyRefKey(c.payload.anomaly) in s.pub)
  {
  }

  lemma DerivedReported(env: Env, names: Naming, sched: Schedule, i: nat, n: nat, served: seq<Request>,
                        d: C.Derivation)
    requires i <= n && served == Committed(Ledger(env), sched, i) && C.Faithful(env, names, served, d)
    ensures Reported(At(Ledger(env), sched, n).state, d.command.batch) && d.command.name.EvaluatePrice?
  {
    hide At, Committed, Run, Reported, Ledger, Extends, Derives;
    Serializable(env, sched, i);
    Serializable(env, sched, n);
    Grown(env, sched, i, n);
    C.DerivedReported(env, names, served, d);
    StaysReported(Run(env, served), At(Ledger(env), sched, n).state, d.command.batch);
  }
}
