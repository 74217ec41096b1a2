/** Optimistic commit: the chaincode obeys the laws of a machine, so every concurrent ledger is a serial one. */
module Serial {
  import opened Types
  import opened Evidence
  import opened Engine
  import opened Invariants
  import opened Preserve
  import opened Provenance
  import opened Runs
  import opened Guarantees
  import opened Reads

  // ==========================================================================
  // Optimistic commit, for any machine: requests are endorsed against a snapshot and committed
  // only if nothing that was read has changed.

  // --------------------------------------------------------------- machines

  /** What a request would write, and the receipt a command returns. */
  datatype Effect = Effect(plan: Plan, priv: map<PrivKey, PrivValue>, events: seq<Event>, receipt: Option<Receipt>)

  /** What a request does and what it reads, in a state; and an invariant of the states. */
  datatype Machine = Machine(simulate: (State, Request) -> Result<Effect>, cells: (State, Request) -> set<Cell>,
                             ok: State -> bool)

  function Written(s: State, e: Effect): State {
    State(Commit(s.pub, e.plan), s.priv + e.priv, s.events + e.events)
  }

  /** One request served on its own. */
  function Moves(m: Machine, s: State, r: Request): State {
    match m.simulate(s, r)
    case Ok(e) => Written(s, e)
    case Err(_) => s
  }

  /** The state after serving the requests one after the other. */
  function Played(m: Machine, rs: seq<Request>): State {
    if rs == [] then EMPTY_STATE else Moves(m, Played(m, rs[..|rs| - 1]), rs[|rs| - 1])
  }

  predicate Puts(e: Effect, cell: Cell) {
    match cell
    case Pub(k) => k in e.plan && e.plan[k].Some?
    case Priv(q) => q in e.priv
  }

  predicate Drops(e: Effect, cell: Cell) {
    cell.Pub? && cell.key in e.plan && e.plan[cell.key].None?
  }

  predicate Touches(e: Effect, cell: Cell) {
    Puts(e, cell) || Drops(e, cell)
  }

  predicate Present(s: State, cell: Cell) {
    match cell
    case Pub(k) => k in s.pub
    case Priv(q) => q in s.priv
  }

  /** A command for this batch. */
  predicate Concerns(r: Request, id: Id) {
    r.Invoke? && r.c.batch == id
  }

  /** A command of this caller under this operation id. */
  predicate Uses(r: Request, a: Msp, op: Id) {
    r.Invoke? && r.x.actor == a && r.c.op == op
  }

  // --------------------------------------------------------- laws of a machine

  /** A request that succeeds has the same effect in every state that agrees on what it read. */
  ghost predicate Local(m: Machine) {
    forall s, u, r {:trigger m.simulate(s, r), m.simulate(u, r)} ::
      m.simulate(s, r).Ok? && Agree(s, u, m.cells(s, r)) ==> m.simulate(u, r) == m.simulate(s, r)
  }

  /** A command succeeds only at the version it expects, and leaves the next one; other batches keep theirs. */
  ghost predicate Counts(s: State, r: Request, e: Effect) {
    && (r.Invoke? ==> VersionAt(s, r.c.batch) == r.c.expected)
    && (forall id {:trigger VersionAt(Written(s, e), id)} ::
          VersionAt(Written(s, e), id) == VersionAt(s, id) + (if Concerns(r, id) then 1 else 0))
  }

  /** The receipt of a command names it, and goes under its caller and operation, which were unused; no other goes. */
  ghost predicate Receipts(s: State, r: Request, e: Effect) {
    && (r.Configure? ==> e.receipt.None?)
    && (r.Invoke? ==>
          && e.receipt.Some? && e.receipt.value.actor == r.x.actor && e.receipt.value.op == r.c.op
          && e.receipt.value.tx == r.x.tx && e.receipt.value.batch == r.c.batch
          && e.receipt.value.command == r.c.name
          && OperationKey(r.x.actor, r.c.op) !in s.pub && OperationKey(r.x.actor, r.c.op) in e.plan
          && e.plan[OperationKey(r.x.actor, r.c.op)] == Some(ReceiptValue(e.receipt.value)))
    && (forall a, op {:trigger OperationKey(a, op)} :: OperationKey(a, op) in e.plan ==> Uses(r, a, op))
  }

  /** Every effect counts and records. */
  ghost predicate Booked(m: Machine) {
    forall s, r {:trigger m.simulate(s, r)} :: BookedAt(s, r, m.simulate(s, r))
  }

  ghost predicate BookedAt(s: State, r: Request, result: Result<Effect>) {
    match result
    case Ok(e) => Counts(s, r, e) && Receipts(s, r, e)
    case Err(_) => true
  }

  /** Keys that are written once. */
  predicate Once(k: Key) {
    || k.ConfigKey? || k.SourceKeyKey? || k.OperationKey? || k.DocumentKey? || k.SourceUseKey? || k.NonceKey?
    || k.DocRefKey? || k.CostRefKey? || k.LotKey? || k.ReportRefKey? || k.AnomalyRefKey?
  }

  /** The cell changes only with commands for this batch. */
  ghost predicate Tied(s: State, cell: Cell, id: Id) {
    match cell
    case Pub(BatchKey(b)) => b == id
    case Pub(RefsKey(b)) => b == id
    case Pub(PendingKey(b)) => b == id
    case Pub(EvaluationKey(b)) => b == id
    case Pub(TransferKey(t)) =>
      TransferKey(t) in s.pub && s.pub[TransferKey(t)].TransferValue? && s.pub[TransferKey(t)].transfer.batch == id
    case Pub(k) => k in s.pub && Once(k)
    case Priv(AnomalyKey(a)) =>
      EvaluationKey(id) in s.pub && s.pub[EvaluationKey(id)].EvaluationValue?
      && s.pub[EvaluationKey(id)].evaluation.anomaly == a
    case Priv(q) => q in s.priv
  }

  /** Tied cells are left alone by requests that do not concern their batch, and stay tied. */
  ghost predicate Spares(s: State, r: Request, e: Effect) {
    forall cell, id {:trigger Tied(s, cell, id)} :: Tied(s, cell, id) && !Concerns(r, id) ==>
      !Touches(e, cell) && Tied(Written(s, e), cell, id)
  }

  /** What a command reads and finds is tied to its batch. */
  ghost predicate Finds(s: State, r: Request, cells: set<Cell>) {
    r.Invoke? ==>
      forall cell {:trigger Present(s, cell)} :: cell in cells && Present(s, cell) ==> Tied(s, cell, r.c.batch)
  }

  ghost predicate FramedAt(s: State, r: Request, result: Result<Effect>, cells: set<Cell>) {
    match result
    case Ok(e) => Spares(s, r, e) && Finds(s, r, cells)
    case Err(_) => true
  }

  ghost predicate Framed(m: Machine) {
    forall s, r {:trigger m.simulate(s, r)} :: m.ok(s) ==> FramedAt(s, r, m.simulate(s, r), m.cells(s, r))
  }

  ghost predicate Invariant(m: Machine) {
    m.ok(EMPTY_STATE) && forall s, r {:trigger m.simulate(s, r)} :: m.ok(s) ==> m.ok(Moves(m, s, r))
  }

  ghost predicate Lawful(m: Machine) {
    Local(m) && Booked(m) && Framed(m) && Invariant(m)
  }

  // -------------------------------------------------------------- validation

  /** A peer's ledger: the state, and for each present cell the height at which it was last written. */
  datatype Chain = Chain(state: State, versions: map<Cell, nat>, height: nat)

  const GENESIS := Chain(EMPTY_STATE, map[], 0)

  function VersionIn(chain: Chain, cell: Cell): Option<nat> {
    if cell in chain.versions then Some(chain.versions[cell]) else None
  }

  /** An endorsed transaction: its read set with the versions seen, and its writes. */
  datatype Transaction = Transaction(seen: map<Cell, Option<nat>>, effect: Effect)

  function Endorse(m: Machine, chain: Chain, r: Request): Result<Transaction> {
    match m.simulate(chain.state, r)
    case Ok(e) => Ok(Transaction(map cell | cell in m.cells(chain.state, r) :: VersionIn(chain, cell), e))
    case Err(error) => Err(error)
  }

  /** The commit rule: every version read is still current. */
  predicate Current(chain: Chain, tx: Transaction) {
    forall cell {:trigger cell in tx.seen} :: cell in tx.seen ==> VersionIn(chain, cell) == tx.seen[cell]
  }

  function PutCells(e: Effect): set<Cell> {
    (set k | k in e.plan && e.plan[k].Some? :: Pub(k)) + (set q | q in e.priv :: Priv(q))
  }

  function Deliver(chain: Chain, tx: Transaction): Chain {
    if Current(chain, tx) then
      Chain(Written(chain.state, tx.effect),
            map cell | cell in chain.versions.Keys + PutCells(tx.effect) && !Drops(tx.effect, cell)
                    :: if cell in PutCells(tx.effect) then chain.height + 1 else chain.versions[cell],
            chain.height + 1)
    else chain.(height := chain.height + 1)
  }

  // --------------------------------------------------------------- schedules

  /** A request endorsed against the ledger after the first `snapshot` deliveries. */
  datatype Entry = Entry(request: Request, snapshot: nat)

  /** What is delivered, turn by turn. */
  type Schedule = nat -> Entry

  /** Any endorsement may be arbitrarily stale, but none comes from the future. */
  function Snapshot(sched: Schedule, i: nat): nat {
    if sched(i).snapshot <= i then sched(i).snapshot else i
  }

  /** The ledger after the first n deliveries. */
  function At(m: Machine, sched: Schedule, n: nat): Chain {
    if n == 0 then GENESIS
    else
      match Endorse(m, At(m, sched, Snapshot(sched, n - 1)), sched(n - 1).request)
      case Ok(tx) => Deliver(At(m, sched, n - 1), tx)
      case Err(_) => At(m, sched, n - 1)
  }

  /** The ledger that entry i was endorsed against, and the one it leaves. */
  function Seen(m: Machine, sched: Schedule, i: nat): Chain {
    At(m, sched, Snapshot(sched, i))
  }

  function Next(m: Machine, sched: Schedule, i: nat): Chain {
    At(m, sched, i + 1)
  }

  /** Entry i as it was endorsed. */
  function Tried(m: Machine, sched: Schedule, i: nat): Result<Transaction> {
    Endorse(m, Seen(m, sched, i), sched(i).request)
  }

  predicate Endorsed(m: Machine, sched: Schedule, i: nat) {
    Tried(m, sched, i).Ok?
  }

  /** Entry i was endorsed and found current when it was delivered. */
  predicate Commits(m: Machine, sched: Schedule, i: nat) {
    match Tried(m, sched, i)
    case Ok(tx) => Current(At(m, sched, i), tx)
    case Err(_) => false
  }

  /** The requests that committed, in commit order. */
  function Committed(m: Machine, sched: Schedule, n: nat): seq<Request> {
    if n == 0 then []
    else Committed(m, sched, n - 1) + if Commits(m, sched, n - 1) then [sched(n - 1).request] else []
  }

  // -------------------------------------------------- versions follow values

  /** A cell has a version exactly when it is present, and no version is above the height. */
  ghost predicate Tracked(chain: Chain) {
    && (forall cell {:trigger cell in chain.versions} {:trigger Present(chain.state, cell)} ::
          cell in chain.versions <==> Present(chain.state, cell))
    && (forall cell {:trigger cell in chain.versions} :: cell in chain.versions ==>
          chain.versions[cell] <= chain.height)
  }

  lemma PutCellsAre(e: Effect, cell: Cell)
    ensures cell in PutCells(e) <==> Puts(e, cell)
  {
    match cell
    case Pub(k) =>
      if k in e.plan && e.plan[k].Some? {
        assert Pub(k) in set k | k in e.plan && e.plan[k].Some? :: Pub(k);
      }
    case Priv(q) =>
  }

  lemma DeliverVersions(chain: Chain, tx: Transaction, cell: Cell)
    requires Current(chain, tx)
    ensures VersionIn(Deliver(chain, tx), cell)
            == if Puts(tx.effect, cell) then Some(chain.height + 1)
               else if Drops(tx.effect, cell) then None
               else VersionIn(chain, cell)
  {
    PutCellsAre(tx.effect, cell);
    hide Current, PutCells, Written;
  }

  lemma WrittenCell(s: State, e: Effect, cell: Cell)
    ensures Puts(e, cell) ==> Present(Written(s, e), cell)
    ensures Drops(e, cell) ==> !Present(Written(s, e), cell)
    ensures !Touches(e, cell) ==> SameCell(s, Written(s, e), cell)
  {
  }

  lemma SamePresence(s: State, u: State, cell: Cell)
    requires SameCell(s, u, cell)
    ensures Present(s, cell) <==> Present(u, cell)
  {
  }

  lemma DeliverTracked(chain: Chain, tx: Transaction)
    requires Tracked(chain)
    ensures Tracked(Deliver(chain, tx))
  {
    var after := Deliver(chain, tx);
    if Current(chain, tx) {
      assert after.state == Written(chain.state, tx.effect) && after.height == chain.height + 1;
      forall cell
        ensures cell in after.versions <==> Present(after.state, cell)
        ensures cell in after.versions ==> after.versions[cell] <= after.height
      {
        DeliverVersions(chain, tx, cell);
        WrittenCell(chain.state, tx.effect, cell);
        hide Current, PutCells, Written, Deliver;
        if !Touches(tx.effect, cell) {
          SamePresence(chain.state, after.state, cell);
        }
      }
    }
  }

  /** The parts of one delivery. */
  lemma Delivered(m: Machine, sched: Schedule, i: nat)
    ensures Next(m, sched, i)
            == (match Tried(m, sched, i)
                case Ok(tx) => Deliver(At(m, sched, i), tx)
                case Err(_) => At(m, sched, i))
  {
    hide Endorse, Deliver;
  }

  lemma NothingTracked(m: Machine, sched: Schedule)
    ensures Tracked(At(m, sched, 0))
  {
  }

  lemma {:induction false} AtTracked(m: Machine, sched: Schedule, n: nat)
    ensures Tracked(At(m, sched, n))
  {
    hide Tracked, Deliver, Tried;
    if n == 0 {
      NothingTracked(m, sched);
    } else {
      AtTracked(m, sched, n - 1);
      Delivered(m, sched, n - 1);
      if Endorsed(m, sched, n - 1) {
        DeliverTracked(At(m, sched, n - 1), Tried(m, sched, n - 1).value);
      }
    }
  }

  lemma DeliverHeight(chain: Chain, tx: Transaction)
    ensures chain.height <= Deliver(chain, tx).height
  {
    hide Current, Written, PutCells;
  }

  lemma {:induction false} HeightGrows(m: Machine, sched: Schedule, i: nat, j: nat)
    requires i <= j
    ensures At(m, sched, i).height <= At(m, sched, j).height
    decreases j
  {
    hide Endorse, Deliver;
    if i < j {
      HeightGrows(m, sched, i, j - 1);
      if Endorsed(m, sched, j - 1) {
        DeliverHeight(At(m, sched, j - 1), Tried(m, sched, j - 1).value);
      }
    }
  }

  /** One delivery: a cell whose version comes out as it was at an earlier height still holds what it held. */
  lemma DeliverSame(was: Chain, chain: Chain, tx: Transaction, cell: Cell)
    requires Tracked(was) && was.height <= chain.height
    requires VersionIn(was, cell) == VersionIn(chain, cell) ==> SameCell(was.state, chain.state, cell)
    requires VersionIn(was, cell) == VersionIn(Deliver(chain, tx), cell)
    ensures SameCell(was.state, Deliver(chain, tx).state, cell)
  {
    if Current(chain, tx) {
      assert Deliver(chain, tx).state == Written(chain.state, tx.effect);
      DeliverVersions(chain, tx, cell);
      WrittenCell(chain.state, tx.effect, cell);
      hide Current, Deliver, Written, PutCells;
    }
  }

  /** Equal versions mean equal contents, between any two points of a schedule. */
  lemma {:induction false} SameVersionSameValue(m: Machine, sched: Schedule, i: nat, j: nat, cell: Cell)
    requires i <= j && VersionIn(At(m, sched, i), cell) == VersionIn(At(m, sched, j), cell)
    ensures SameCell(At(m, sched, i).state, At(m, sched, j).state, cell)
    decreases j
  {
    hide Deliver, Tracked, VersionIn, Tried, At;
    if i == j {
    } else {
      hide SameCell;
      var was, chain := At(m, sched, i), At(m, sched, j - 1);
      if VersionIn(was, cell) == VersionIn(chain, cell) {
        SameVersionSameValue(m, sched, i, j - 1, cell);
      }
      AtTracked(m, sched, i);
      HeightGrows(m, sched, i, j - 1);
      Delivered(m, sched, j - 1);
      if Endorsed(m, sched, j - 1) {
        DeliverSame(was, chain, Tried(m, sched, j - 1).value, cell);
      }
    }
  }

  // ---------------------------------------------------------- serializability

  /** A committed transaction has, where it commits, exactly the effect it was endorsed with. */
  lemma CommitOutcome(m: Machine, sched: Schedule, i: nat)
    requires Local(m) && Commits(m, sched, i)
    ensures m.simulate(At(m, sched, i).state, sched(i).request)
            == m.simulate(Seen(m, sched, i).state, sched(i).request)
    ensures m.simulate(At(m, sched, i).state, sched(i).request).Ok?
  {
    hide At, VersionIn, SameCell;
    var snap, now, r := Seen(m, sched, i), At(m, sched, i), sched(i).request;
    forall cell | cell in m.cells(snap.state, r) ensures SameCell(snap.state, now.state, cell) {
      assert cell in Endorse(m, snap, r).value.seen;
      SameVersionSameValue(m, sched, Snapshot(sched, i), i, cell);
    }
  }

  lemma CommitState(m: Machine, sched: Schedule, i: nat)
    requires Local(m)
    ensures Next(m, sched, i).state
            == if Commits(m, sched, i) then Moves(m, At(m, sched, i).state, sched(i).request)
               else At(m, sched, i).state
  {
    hide At, Current, Written, Next, Local;
    Delivered(m, sched, i);
    if Commits(m, sched, i) {
      CommitOutcome(m, sched, i);
    }
  }

  /** Any schedule leaves the state that serving its committed requests one by one leaves. */
  lemma {:induction false} Serialized(m: Machine, sched: Schedule, n: nat)
    requires Local(m)
    ensures At(m, sched, n).state == Played(m, Committed(m, sched, n))
  {
    hide Moves, Commits, Local;
    if n > 0 {
      Serialized(m, sched, n - 1);
      CommitState(m, sched, n - 1);
      assert Next(m, sched, n - 1) == At(m, sched, n);
      hide At;
      var before, all := Committed(m, sched, n - 1), Committed(m, sched, n);
      if Commits(m, sched, n - 1) {
        assert all[..|all| - 1] == before && all[|all| - 1] == sched(n - 1).request;
      } else {
        assert all == before;
      }
    }
  }

  lemma {:induction false} CommittedGrows(m: Machine, sched: Schedule, i: nat, j: nat) returns (more: seq<Request>)
    requires i <= j
    ensures Committed(m, sched, j) == Committed(m, sched, i) + more
    decreases j
  {
    hide Commits;
    if i == j {
      more := [];
    } else {
      more := CommittedGrows(m, sched, i, j - 1);
      if Commits(m, sched, j - 1) {
        more := more + [sched(j - 1).request];
      }
    }
  }

  lemma {:induction false} AtOk(m: Machine, sched: Schedule, n: nat)
    requires Local(m) && Invariant(m)
    ensures m.ok(At(m, sched, n).state)
  {
    hide At, Commits, Local, Written;
    if n == 0 {
      AtGenesis(m, sched);
    } else {
      AtOk(m, sched, n - 1);
      CommitState(m, sched, n - 1);
      assert Next(m, sched, n - 1) == At(m, sched, n);
    }
  }

  // ------------------------------------------------------------------ batches

  /** How one delivery moves a batch's version. */
  lemma CommitVersion(m: Machine, sched: Schedule, i: nat, id: Id)
    requires Local(m) && Booked(m)
    ensures VersionAt(Next(m, sched, i).state, id)
            == VersionAt(At(m, sched, i).state, id)
               + (if Commits(m, sched, i) && Concerns(sched(i).request, id) then 1 else 0)
  {
    hide At, Next, Commits, VersionAt, Written, Local;
    CommitState(m, sched, i);
    if Commits(m, sched, i) {
      CommitOutcome(m, sched, i);
    }
  }

  lemma {:induction false} VersionsGrow(m: Machine, sched: Schedule, i: nat, j: nat, id: Id)
    requires Local(m) && Booked(m) && i <= j
    ensures VersionAt(At(m, sched, i).state, id) <= VersionAt(At(m, sched, j).state, id)
    decreases j
  {
    hide At, Commits, VersionAt, Local, Booked;
    if i < j {
      VersionsGrow(m, sched, i, j - 1, id);
      CommitVersion(m, sched, j - 1, id);
      assert Next(m, sched, j - 1) == At(m, sched, j);
    }
  }

  /** An endorsed command expects the version that its batch had in its snapshot. */
  lemma Expects(m: Machine, s: State, r: Request)
    requires Booked(m) && m.simulate(s, r).Ok? && r.Invoke?
    ensures VersionAt(s, r.c.batch) == r.c.expected
  {
    hide VersionAt, Written;
  }

  /** Of commands for one batch endorsed on overlapping snapshots, the first that commits invalidates the rest. */
  lemma OneWins(m: Machine, sched: Schedule, i: nat, j: nat, id: Id)
    requires Local(m) && Booked(m) && i < j && Snapshot(sched, j) <= i
    requires Concerns(sched(i).request, id) && Concerns(sched(j).request, id) && Commits(m, sched, i)
    ensures !Commits(m, sched, j)
  {
    hide At, VersionAt, Local, Booked, Current;
    if Commits(m, sched, j) {
      CommitOutcome(m, sched, j);
      Expects(m, At(m, sched, j).state, sched(j).request);
      Expects(m, Seen(m, sched, j).state, sched(j).request);
      VersionsGrow(m, sched, Snapshot(sched, j), i, id);
      CommitVersion(m, sched, i, id);
      VersionsGrow(m, sched, i + 1, j, id);
      assert false;
    }
  }

  // --------------------------------------------------------------- operations

  /** The stored receipt is that of this command. */
  ghost predicate HoldsReceipt(s: State, c: Command, x: Execution) {
    && OperationKey(x.actor, c.op) in s.pub && s.pub[OperationKey(x.actor, c.op)].ReceiptValue?
    && var r := s.pub[OperationKey(x.actor, c.op)].receipt;
       r.op == c.op && r.actor == x.actor && r.batch == c.batch && r.command == c.name && r.tx == x.tx
  }

  ghost predicate Stores(s: State, r: Receipt) {
    OperationKey(r.actor, r.op) in s.pub && s.pub[OperationKey(r.actor, r.op)] == ReceiptValue(r)
  }

  /** The receipt that an endorsed command returns; None when it is not endorsed or no command. */
  function ReceiptOf(m: Machine, sched: Schedule, i: nat): Option<Receipt> {
    match Tried(m, sched, i)
    case Ok(tx) => tx.effect.receipt
    case Err(_) => None
  }

  lemma Recording(m: Machine, s: State, r: Request)
    requires Booked(m) && m.simulate(s, r).Ok?
    ensures Receipts(s, r, m.simulate(s, r).value)
  {
    hide Receipts, Counts;
  }

  lemma KeepsStored(m: Machine, s: State, q: Request, r: Receipt)
    requires Booked(m) && Stores(s, r)
    ensures Stores(Moves(m, s, q), r)
  {
    hide Booked;
    if m.simulate(s, q).Ok? {
      Recording(m, s, q);
    }
  }

  /** A stored receipt stays. */
  lemma {:induction false} StaysStored(m: Machine, sched: Schedule, i: nat, j: nat, r: Receipt)
    requires Local(m) && Booked(m) && i <= j && Stores(At(m, sched, i).state, r)
    ensures Stores(At(m, sched, j).state, r)
    decreases j
  {
    hide At, Local, Booked, Commits, Stores;
    if i < j {
      StaysStored(m, sched, i, j - 1, r);
      CommitState(m, sched, j - 1);
      KeepsStored(m, At(m, sched, j - 1).state, sched(j - 1).request, r);
    }
  }

  /** A committed command finds its operation unused, and its endorsed receipt is stored from then on. */
  lemma ReceiptStays(m: Machine, sched: Schedule, i: nat, n: nat)
    requires Local(m) && Booked(m) && i < n && Commits(m, sched, i) && sched(i).request.Invoke?
    ensures ReceiptOf(m, sched, i).Some? && Stores(At(m, sched, n).state, ReceiptOf(m, sched, i).value)
    ensures Receipts(At(m, sched, i).state, sched(i).request, Tried(m, sched, i).value.effect)
  {
    hide At, Local, Booked, Current;
    CommitOutcome(m, sched, i);
    CommitState(m, sched, i);
    Recording(m, At(m, sched, i).state, sched(i).request);
    StaysStored(m, sched, i + 1, n, ReceiptOf(m, sched, i).value);
  }

  /** A committed transaction found its operation key unused, and its own receipt stays under that key for ever. */
  lemma ReceiptForever(m: Machine, sched: Schedule, i: nat, n: nat, c: Command, x: Execution, t: Transient)
    requires Local(m) && Booked(m) && i < n && Commits(m, sched, i) && sched(i).request == Invoke(c, x, t)
    ensures OperationKey(x.actor, c.op) !in At(m, sched, i).state.pub
    ensures HoldsReceipt(At(m, sched, n).state, c, x)
  {
    hide At, Local, Booked, Commits, Tried;
    ReceiptStays(m, sched, i, n);
  }

  /** No two transactions of one caller commit under the same operation id, however stale their endorsements. */
  lemma OperationOnce(m: Machine, sched: Schedule, i: nat, j: nat, a: Msp, op: Id)
    requires Local(m) && Booked(m) && i < j
    requires Uses(sched(i).request, a, op) && Uses(sched(j).request, a, op) && Commits(m, sched, i)
    ensures !Commits(m, sched, j)
  {
    hide At, Commits, Local, Booked;
    if Commits(m, sched, j) {
      ReceiptForever(m, sched, j, j + 1, sched(j).request.c, sched(j).request.x, sched(j).request.t);
      ReceiptForever(m, sched, i, j, sched(i).request.c, sched(i).request.x, sched(i).request.t);
      assert false;
    }
  }

  /** Every stored receipt is the endorsed one of a transaction that committed. */
  lemma AtGenesis(m: Machine, sched: Schedule)
    ensures At(m, sched, 0) == GENESIS
  {
  }

  lemma {:induction false} ReceiptOrigin(m: Machine, sched: Schedule, n: nat, a: Msp, op: Id) returns (i: nat)
    requires Local(m) && Booked(m) && OperationKey(a, op) in At(m, sched, n).state.pub
    ensures i < n && Commits(m, sched, i) && Uses(sched(i).request, a, op)
    decreases n
  {
    hide At, Local, Booked, Commits, Stores;
    if n == 0 {
      AtGenesis(m, sched);
      assert false;
    } else {
      CommitState(m, sched, n - 1);
      assert Next(m, sched, n - 1) == At(m, sched, n);
      if OperationKey(a, op) in At(m, sched, n - 1).state.pub {
        i := ReceiptOrigin(m, sched, n - 1, a, op);
      } else {
        i := n - 1;
        CommitOutcome(m, sched, n - 1);
        Recording(m, At(m, sched, n - 1).state, sched(n - 1).request);
      }
    }
  }

  // ----------------------------------------------------------- what can be lost

  /** While no command for its batch commits, a tied cell keeps its version. */
  lemma {:induction false} TiedVersion(m: Machine, sched: Schedule, i: nat, j: nat, cell: Cell, id: Id)
    requires Lawful(m) && i <= j && Tied(At(m, sched, i).state, cell, id)
    requires VersionAt(At(m, sched, i).state, id) == VersionAt(At(m, sched, j).state, id)
    ensures VersionIn(At(m, sched, i), cell) == VersionIn(At(m, sched, j), cell)
    ensures Tied(At(m, sched, j).state, cell, id)
    decreases j
  {
    hide At, Local, Booked, Framed, Invariant, VersionAt, VersionIn, Tied, Commits;
    if i < j {
      VersionsGrow(m, sched, i, j - 1, id);
      CommitVersion(m, sched, j - 1, id);
      TiedVersion(m, sched, i, j - 1, cell, id);
      AtOk(m, sched, j - 1);
      TiedStep(m, sched, j - 1, cell, id);
    }
  }

  lemma TiedStep(m: Machine, sched: Schedule, i: nat, cell: Cell, id: Id)
    requires Local(m) && Framed(m) && m.ok(At(m, sched, i).state) && Tied(At(m, sched, i).state, cell, id)
    requires !(Commits(m, sched, i) && Concerns(sched(i).request, id))
    ensures VersionIn(Next(m, sched, i), cell) == VersionIn(At(m, sched, i), cell)
    ensures Tied(Next(m, sched, i).state, cell, id)
  {
    hide At, Next, Local, VersionIn, Tied, Current, Written;
    Delivered(m, sched, i);
    if Commits(m, sched, i) {
      CommitOutcome(m, sched, i);
      var tx := Tried(m, sched, i).value;
      assert !Touches(tx.effect, cell);
      DeliverVersions(At(m, sched, i), tx, cell);
    } else if Endorsed(m, sched, i) {
      NotDelivered(At(m, sched, i), Tried(m, sched, i).value, cell);
    }
  }

  lemma NotDelivered(chain: Chain, tx: Transaction, cell: Cell)
    requires !Current(chain, tx)
    ensures VersionIn(Deliver(chain, tx), cell) == VersionIn(chain, cell)
  {
  }

  /** Everything that entry i read and did not find is still not there. */
  ghost predicate StillFree(m: Machine, sched: Schedule, i: nat) {
    forall cell {:trigger Present(At(m, sched, i).state, cell)} ::
      cell in m.cells(Seen(m, sched, i).state, sched(i).request) && !Present(Seen(m, sched, i).state, cell) ==>
        !Present(At(m, sched, i).state, cell)
  }

  lemma AbsentVersion(m: Machine, sched: Schedule, n: nat, cell: Cell)
    requires !Present(At(m, sched, n).state, cell)
    ensures VersionIn(At(m, sched, n), cell) == None
  {
    AtTracked(m, sched, n);
    hide At;
  }

  /**
   * An endorsed command commits exactly when, at its turn, its batch is at the version
   * it expects and every id that it found unused is still unused: it can only lose to
   * another command for its batch or to another use of its ids.
   */
  lemma CommitsIff(m: Machine, sched: Schedule, i: nat, id: Id)
    requires Lawful(m) && Endorsed(m, sched, i) && Concerns(sched(i).request, id)
    ensures Commits(m, sched, i) <==>
              VersionAt(At(m, sched, i).state, id) == sched(i).request.c.expected && StillFree(m, sched, i)
  {
    hide At, Local, Booked, Framed, Invariant, VersionAt, VersionIn, SameCell, Present, StillFree;
    var snap, r := Seen(m, sched, i), sched(i).request;
    Expects(m, snap.state, r);
    if Commits(m, sched, i) {
      CommitOutcome(m, sched, i);
      Expects(m, At(m, sched, i).state, r);
      CommitsFree(m, sched, i);
    }
    if VersionAt(At(m, sched, i).state, id) == r.c.expected && StillFree(m, sched, i) {
      AtOk(m, sched, Snapshot(sched, i));
      var tx := Tried(m, sched, i).value;
      forall cell | cell in tx.seen ensures VersionIn(At(m, sched, i), cell) == tx.seen[cell] {
        ReadCurrent(m, sched, i, cell, id);
      }
    }
  }

  lemma CommitsFree(m: Machine, sched: Schedule, i: nat)
    requires Commits(m, sched, i)
    ensures StillFree(m, sched, i)
  {
    hide At, VersionIn, SameCell, Present;
    var snap, r := Seen(m, sched, i), sched(i).request;
    forall cell | cell in m.cells(snap.state, r) && !Present(snap.state, cell)
      ensures !Present(At(m, sched, i).state, cell)
    {
      assert cell in Endorse(m, snap, r).value.seen;
      SameVersionSameValue(m, sched, Snapshot(sched, i), i, cell);
      SamePresence(snap.state, At(m, sched, i).state, cell);
    }
  }

  lemma ReadCurrent(m: Machine, sched: Schedule, i: nat, cell: Cell, id: Id)
    requires Lawful(m) && Endorsed(m, sched, i) && Concerns(sched(i).request, id) && StillFree(m, sched, i)
    requires cell in m.cells(Seen(m, sched, i).state, sched(i).request) && m.ok(Seen(m, sched, i).state)
    requires VersionAt(Seen(m, sched, i).state, id) == VersionAt(At(m, sched, i).state, id)
    ensures VersionIn(At(m, sched, i), cell) == VersionIn(Seen(m, sched, i), cell)
  {
    hide At, Local, Booked, Invariant, VersionAt, VersionIn, Tied, Present;
    if Present(Seen(m, sched, i).state, cell) {
      TiedVersion(m, sched, Snapshot(sched, i), i, cell, id);
    } else {
      AbsentVersion(m, sched, Snapshot(sched, i), cell);
      AbsentVersion(m, sched, i, cell);
    }
  }

  // ==========================================================================
  // The chaincode as a machine under optimistic commit: it obeys the laws, so every concurrent
  // ledger is a serial one.

  function Simulate(env: Env, s: State, r: Request): Result<Effect> {
    match r
    case Configure(actor, role, config) =>
      (match Bootstrap(s, actor, role, config)
       case Ok(plan) => Ok(Effect(plan, map[], [], None))
       case Err(error) => Err(error))
    case Invoke(c, x, t) =>
      match Apply(env, s, c, x, t)
      case Ok(o) => Ok(Effect(o.plan, o.priv, [o.event], Some(o.receipt)))
      case Err(error) => Err(error)
  }

  function RequestReads(env: Env, s: State, r: Request): set<Cell> {
    match r
    case Configure(_, _, _) => {Pub(ConfigKey)}
    case Invoke(c, x, t) => ReadsOf(env, s, c, x, t)
  }

  /** The chaincode. */
  ghost function Ledger(env: Env): Machine {
    Machine((s, r) => Simulate(env, s, r), (s, r) => RequestReads(env, s, r), s => Inv(s))
  }

  /** What an accepted command would write. */
  function EffectOf(c: Command, x: Execution, st: Start, arm: Arm, v: Verified): Effect {
    var o := Finish(c, x, st, arm, v);
    Effect(o.plan, o.priv, [o.event], Some(o.receipt))
  }

  // ---------------------------------------------------------------- one request

  lemma Unwritten(s: State)
    ensures s.priv + map[] == s.priv && s.events + [] == s.events
  {
  }

  lemma MovesServe(env: Env, s: State, r: Request)
    ensures Moves(Ledger(env), s, r) == Serve(env, s, r)
  {
    hide Bootstrap, Apply, Commit, Inv, RequestReads;
    Unwritten(s);
  }

  lemma SimulateLocal(env: Env, s: State, u: State, r: Request)
    requires Simulate(env, s, r).Ok? && Agree(s, u, RequestReads(env, s, r))
    ensures Simulate(env, u, r) == Simulate(env, s, r)
  {
    hide Apply, ReadsOf, Agree, SourcesOk, ValidId, SourcePlan;
    match r
    case Configure(_, _, _) => PubAgrees(s, u, {Pub(ConfigKey)}, ConfigKey);
    case Invoke(c, x, t) => ApplyLocal(env, s, u, c, x, t);
  }

  lemma ConfigureBooked(s: State, actor: Msp, role: Role, cfg: Configuration, t: Request)
    requires t == Configure(actor, role, cfg)
    ensures match Bootstrap(s, actor, role, cfg)
            case Ok(plan) =>
              Counts(s, t, Effect(plan, map[], [], None)) && Receipts(s, t, Effect(plan, map[], [], None))
            case Err(_) => true
  {
    hide SourcesOk, ValidId, SourcePlan;
    SourcePlanKinds(cfg.sources);
  }

  lemma FinishRecords(s: State, c: Command, x: Execution, t: Transient, st: Start, arm: Arm, v: Verified)
    requires OperationKey(x.actor, c.op) !in s.pub
    requires forall k :: k in arm.plan ==> IsArmKey(k)
    requires forall k :: k in v.pub ==> IsProofKey(k)
    ensures Receipts(s, Invoke(c, x, t), EffectOf(c, x, st, arm, v))
  {
    hide NewBatch, SortedUnique, BasePlan;
    BaseReceipt(c, x, st, arm);
  }

  lemma BaseReceipt(c: Command, x: Execution, st: Start, arm: Arm)
    ensures var k := OperationKey(x.actor, c.op);
            k in BasePlan(c, x, st, arm) && BasePlan(c, x, st, arm)[k] == Some(ReceiptValue(NewReceipt(c, x, st, arm)))
    ensures forall a, op :: OperationKey(a, op) in BasePlan(c, x, st, arm) ==> a == x.actor && op == c.op
  {
    hide NewBatch, NewReceipt;
  }

  lemma CommandCounts(s: State, c: Command, x: Execution, t: Transient, st: Start, arm: Arm, e: Effect)
    requires Admitted(s, c, x, st) && VersionAt(s, c.batch) == c.expected
    requires RecordEffect(s, Written(s, e), c, x, st, arm)
    ensures Counts(s, Invoke(c, x, t), e)
  {
    hide PayloadFits, Written, RequiredCaller;
  }

  lemma CommandBooked(env: Env, s: State, c: Command, x: Execution, t: Transient)
    ensures BookedAt(s, Invoke(c, x, t), Simulate(env, s, Invoke(c, x, t)))
  {
    hide Apply, After, Step, Accepts, Admitted, ProofPlan, RecordEffect, ReceiptEffect, IndexEffect, ArmEffect,
         ProofEffect, Finish, Receipts, Counts, Commit;
    if Apply(env, s, c, x, t).Ok? {
      var st, v, arm := MovedBy(env, s, c, x, t);
      KindsOf(env, s, c, x, t, st, v, arm);
      FinishRecords(s, c, x, t, st, arm, v);
      StepWritten(env, s, c, x, t, st, v, arm);
      AcceptedVersion(env, s, c, x, t);
      CommandCounts(s, c, x, t, st, arm, EffectOf(c, x, st, arm, v));
    }
  }

  lemma StepWritten(env: Env, s: State, c: Command, x: Execution, t: Transient, st: Start, v: Verified, arm: Arm)
    requires Apply(env, s, c, x, t) == Ok(Finish(c, x, st, arm, v))
    ensures Step(env, s, c, x, t) == Written(s, EffectOf(c, x, st, arm, v))
    ensures EffectOf(c, x, st, arm, v).plan == arm.plan + BasePlan(c, x, st, arm) + v.pub
    ensures EffectOf(c, x, st, arm, v).priv == v.priv
  {
    hide Apply, BasePlan, NewBatch, NewReceipt, Commit;
  }

  lemma KindsOf(env: Env, s: State, c: Command, x: Execution, t: Transient, st: Start, v: Verified, arm: Arm)
    requires Moved(env, s, Step(env, s, c, x, t), c, x, t, st, v, arm)
    ensures OperationKey(x.actor, c.op) !in s.pub
    ensures forall k :: k in arm.plan ==> IsArmKey(k)
    ensures forall k :: k in v.pub ==> IsProofKey(k)
  {
    hide Admit, Prepare, RunArm, RecordEffect, ReceiptEffect, IndexEffect, ArmEffect, ProofEffect, Step, ProofPlan,
         PayloadFits;
    ArmKinds(s, c, x, st, v);
    ProofKinds(s, c, x, st.before, st.refs, v);
  }

  lemma AcceptedVersion(env: Env, s: State, c: Command, x: Execution, t: Transient)
    requires Apply(env, s, c, x, t).Ok?
    ensures VersionAt(s, c.batch) == c.expected
  {
    hide Prepare, RunArm, Finish, Moved, Authorize, ValidatePayload, ContextOk, ValidId, LoadConfig;
  }

  // ------------------------------------------------------ what a command leaves alone

  /** Every key of the public plan is a base key of the batch, or was not there, or is the batch's handoff. */
  ghost predicate PlanApart(s: State, c: Command, x: Execution, plan: Plan) {
    forall k {:trigger k in plan} :: k in plan ==>
      match k
      case BatchKey(b) => b == c.batch
      case RefsKey(b) => b == c.batch
      case PendingKey(b) => b == c.batch
      case EvaluationKey(b) => b == c.batch
      case TransferKey(t) =>
        TransferKey(t) in s.pub && s.pub[TransferKey(t)].TransferValue? ==>
          s.pub[TransferKey(t)].transfer.batch == c.batch
      case _ => Once(k) ==> k !in s.pub
  }

  lemma BaseApart(s: State, c: Command, x: Execution, st: Start, arm: Arm)
    requires OperationKey(x.actor, c.op) !in s.pub
    ensures PlanApart(s, c, x, BasePlan(c, x, st, arm))
  {
    hide NewReceipt, NewBatch, BasePlan;
    var plan := BasePlan(c, x, st, arm);
    BasePlanKinds(c, x, st, arm);
    BaseRecords(c, x, st, arm);
    BaseReceipts(c, x, st, arm);
    assert forall k :: k in plan ==> PlanAt(plan, k).Some?;
  }

  lemma ArmApart(s: State, c: Command, x: Execution, st: Start, arm: Arm)
    requires Transfers(s) && TransferPlan(s, c, x, st, arm) && ArmIsFresh(s, arm)
    requires forall k :: k in arm.plan ==> IsArmKey(k)
    requires st.existing ==> st.before.id == c.batch
    requires !st.existing ==> c.name.CreateBatch?
    ensures PlanApart(s, c, x, arm.plan)
  {
    hide BatchAt, Receipted, ReceiptVersion;
    if IsAccept(c.name) {
      assert TransferOk(s, c.payload.transfer);
    }
  }

  lemma ProofApart(s: State, c: Command, x: Execution, st: Start, v: Verified)
    requires ProofPlan(s, c, x, st.before, st.refs, v) && Fresh(s, v.pub)
    requires forall k :: k in v.pub ==> IsProofKey(k)
    requires st.existing ==> st.before.id == c.batch
    requires !st.existing ==> c.name.CreateBatch?
    ensures PlanApart(s, c, x, v.pub)
  {
  }

  lemma PartsApart(s: State, c: Command, x: Execution, a: Plan, b: Plan, d: Plan)
    requires PlanApart(s, c, x, a) && PlanApart(s, c, x, b) && PlanApart(s, c, x, d)
    ensures PlanApart(s, c, x, a + b + d)
  {
  }

  lemma PlansApart(env: Env, s: State, c: Command, x: Execution, t: Transient, st: Start, v: Verified, arm: Arm)
    requires Inv(s) && Moved(env, s, Step(env, s, c, x, t), c, x, t, st, v, arm)
    requires Guards(env, s, Step(env, s, c, x, t), c, x, t, st, v, arm)
    ensures PlanApart(s, c, x, arm.plan + BasePlan(c, x, st, arm) + v.pub)
  {
    hide Admit, Prepare, RunArm, RecordEffect, ReceiptEffect, IndexEffect, ArmEffect, ProofEffect, Step, ProofPlan;
    hide Configured, Records, Indexed, History, Transfers, References, Evaluations, Consumed, Slots, Analysed,
         Versioned, Privates;
    hide Fresh, Permanent, Sealed, PrivPlan, ReferencePlan, AnalysisWrites, ReceiptsGrow, Getters, NewBatch, BasePlan,
         Started, PlanApart, ArmIsFresh, TransferPlan, RequiredCaller, IsReview, PayloadFits;
    KindsOf(env, s, c, x, t, st, v, arm);
    TransferPlanned(s, c, x, st, v, arm);
    ArmFresh(s, c, x, st, v, arm);
    BaseApart(s, c, x, st, arm);
    ArmApart(s, c, x, st, arm);
    ProofApart(s, c, x, st, v);
    PartsApart(s, c, x, arm.plan, BasePlan(c, x, st, arm), v.pub);
  }

  /** No private record that is there is written, but the anomaly of the batch's own evaluation. */
  ghost predicate PrivApart(s: State, c: Command, priv: map<PrivKey, PrivValue>) {
    forall q {:trigger q in priv} :: q in priv ==>
      if q.AnomalyKey? then
        forall id {:trigger EvaluationKey(id)} ::
          id != c.batch && EvaluationKey(id) in s.pub && s.pub[EvaluationKey(id)].EvaluationValue? ==>
            s.pub[EvaluationKey(id)].evaluation.anomaly != q.anomaly
      else q !in s.priv
  }

  lemma AnomalyApart(s: State, c: Command, x: Execution, st: Start, v: Verified, a: Id, id: Id)
    requires Evaluations(s) && PrivPlan(c, v) && ProofPlan(s, c, x, st.before, st.refs, v) && st.before.id == c.batch
    requires AnomalyKey(a) in v.priv && id != c.batch && EvaluationKey(id) in s.pub
    requires s.pub[EvaluationKey(id)].EvaluationValue?
    ensures s.pub[EvaluationKey(id)].evaluation.anomaly != a
  {
    hide BatchAt, RefsAt;
  }

  lemma PrivsApart(env: Env, s: State, c: Command, x: Execution, t: Transient, st: Start, v: Verified, arm: Arm)
    requires Inv(s) && Moved(env, s, Step(env, s, c, x, t), c, x, t, st, v, arm)
    requires Guards(env, s, Step(env, s, c, x, t), c, x, t, st, v, arm)
    ensures PrivApart(s, c, v.priv)
  {
    hide Admit, Prepare, RunArm, Admitted, RecordEffect, ReceiptEffect, IndexEffect, ArmEffect, ProofEffect, Step;
    hide Configured, Records, Indexed, History, Transfers, References, Evaluations, Consumed, Slots, Analysed,
         Versioned, Guarded;
    hide Fresh, Permanent, Sealed, ReferencePlan, AnalysisWrites, ReceiptsGrow, Getters, NewBatch, Started,
         RequiredCaller, ProofPlan;
    forall q | q in v.priv && !q.AnomalyKey? ensures q !in s.priv {
      if q in s.priv {
        NotRewritten(s, c, x, st, arm, v, q);
      }
    }
    forall a, id | AnomalyKey(a) in v.priv && id != c.batch && EvaluationKey(id) in s.pub
                   && s.pub[EvaluationKey(id)].EvaluationValue?
      ensures s.pub[EvaluationKey(id)].evaluation.anomaly != a
    {
      AnomalyApart(s, c, x, st, v, a, id);
    }
  }

  lemma ApartSpares(s: State, r: Request, e: Effect, c: Command, x: Execution, t: Transient)
    requires r == Invoke(c, x, t) && PlanApart(s, c, x, e.plan) && PrivApart(s, c, e.priv)
    ensures Spares(s, r, e)
  {
    forall cell, id | Tied(s, cell, id) && !Concerns(r, id)
      ensures !Touches(e, cell) && Tied(Written(s, e), cell, id)
    {
      ApartSpared(s, r, e, c, x, t, cell, id);
    }
  }

  lemma ApartSpared(s: State, r: Request, e: Effect, c: Command, x: Execution, t: Transient, cell: Cell, id: Id)
    requires r == Invoke(c, x, t) && PlanApart(s, c, x, e.plan) && PrivApart(s, c, e.priv)
    requires Tied(s, cell, id) && id != c.batch
    ensures !Touches(e, cell) && Tied(Written(s, e), cell, id)
  {
    assert !Touches(e, cell);
    assert EvaluationKey(id) !in e.plan;
    CommitAt(s.pub, e.plan, EvaluationKey(id));
    match cell
    case Pub(k) => CommitAt(s.pub, e.plan, k);
    case Priv(q) =>
    hide PlanApart, PrivApart, Commit;
  }

  lemma ConfigureSpares(s: State, actor: Msp, role: Role, cfg: Configuration, plan: Plan)
    requires Inv(s) && Bootstrap(s, actor, role, cfg) == Ok(plan)
    ensures Spares(s, Configure(actor, role, cfg), Effect(plan, map[], [], None))
  {
    hide Inv, SourcesOk, ValidId, SourcePlan;
    BootstrapFresh(s, actor, role, cfg, plan);
    SourcePlanKinds(cfg.sources);
  }

  // --------------------------------------------------------- what a command finds

  /** The cells are of kinds that are written once, or private records other than anomalies. */
  ghost predicate Plain(cells: set<Cell>) {
    forall cell {:trigger cell in cells} :: cell in cells ==>
      if cell.Pub? then Once(cell.key) else !cell.privKey.AnomalyKey?
  }

  lemma {:induction false} DocumentsPlain(docs: seq<Bundle>, n: nat)
    requires n <= |docs|
    ensures Plain(DocumentReads(docs, n))
  {
    if n > 0 {
      DocumentsPlain(docs, n - 1);
    }
  }

  lemma PlainFinds(s: State, r: Request, cells: set<Cell>)
    requires Plain(cells)
    ensures Finds(s, r, cells)
  {
  }

  lemma AdmitFinds(s: State, c: Command, x: Execution, t: Transient, existing: bool)
    ensures Finds(s, Invoke(c, x, t), AdmitReads(c, x, existing))
  {
  }

  lemma PrepareFinds(s: State, c: Command, x: Execution, t: Transient, st: Start, v: Verified)
    requires ProofPlan(s, c, x, st.before, st.refs, v) && (st.existing ==> st.before.id == c.batch)
    requires !st.existing ==> c.name.CreateBatch?
    ensures Finds(s, Invoke(c, x, t), PrepareReads(c, t, st.before, st.refs))
  {
    hide Submitted, DocumentReads, Plain, Once, DocKeysOnly;
    DocumentsPlain(Submitted(c, t), |Submitted(c, t)|);
    PlainFinds(s, Invoke(c, x, t), DocumentReads(Submitted(c, t), |Submitted(c, t)|));
  }

  lemma ArmFinds(s: State, c: Command, x: Execution, t: Transient, st: Start, v: Verified, arm: Arm)
    requires TransferPlan(s, c, x, st, arm) && (st.existing ==> st.before.id == c.batch)
    requires !st.existing ==> c.name.CreateBatch?
    ensures Finds(s, Invoke(c, x, t), ArmReads(c, st.before, v))
  {
    hide Pending;
  }

  lemma ThreeFinds(s: State, r: Request, a: set<Cell>, b: set<Cell>, d: set<Cell>)
    requires Finds(s, r, a) && Finds(s, r, b) && Finds(s, r, d)
    ensures Finds(s, r, a + b + d)
  {
    hide Tied, Present;
  }

  lemma CommandFinds(env: Env, s: State, c: Command, x: Execution, t: Transient, st: Start, v: Verified, arm: Arm)
    requires Moved(env, s, Step(env, s, c, x, t), c, x, t, st, v, arm)
    requires st.existing ==> st.before.id == c.batch
    ensures Finds(s, Invoke(c, x, t), ReadsOf(env, s, c, x, t))
  {
    hide Admit, Prepare, RunArm, RecordEffect, ReceiptEffect, IndexEffect, ArmEffect, ProofEffect, Step, ProofPlan,
         PayloadFits, AdmitReads, PrepareReads, ArmReads, Finds, TransferPlan;
    TransferPlanned(s, c, x, st, v, arm);
    AdmitFinds(s, c, x, t, st.existing);
    PrepareFinds(s, c, x, t, st, v);
    ArmFinds(s, c, x, t, st, v, arm);
    ThreeFinds(s, Invoke(c, x, t), AdmitReads(c, x, st.existing), PrepareReads(c, t, st.before, st.refs),
               ArmReads(c, st.before, v));
  }

  lemma CommandFramed(env: Env, s: State, c: Command, x: Execution, t: Transient)
    requires Inv(s)
    ensures var r := Invoke(c, x, t); FramedAt(s, r, Simulate(env, s, r), RequestReads(env, s, r))
  {
    hide Inv, Apply, Step, Moved, Finish, Fresh, Permanent, Sealed, PrivPlan, ReferencePlan, AnalysisWrites,
         ReceiptsGrow, Getters, Started, PlanApart, PrivApart, Spares, Finds, ReadsOf, BasePlan, IsReview,
         RequiredCaller, Written;
    if Apply(env, s, c, x, t).Ok? {
      var st, v, arm := MovedBy(env, s, c, x, t);
      GuardsHold(env, s, Step(env, s, c, x, t), c, x, t, st, v, arm);
      StepWritten(env, s, c, x, t, st, v, arm);
      PlansApart(env, s, c, x, t, st, v, arm);
      PrivsApart(env, s, c, x, t, st, v, arm);
      ApartSpares(s, Invoke(c, x, t), EffectOf(c, x, st, arm, v), c, x, t);
      CommandFinds(env, s, c, x, t, st, v, arm);
    }
  }

  lemma RequestFramed(env: Env, s: State, r: Request)
    requires Inv(s)
    ensures FramedAt(s, r, Simulate(env, s, r), RequestReads(env, s, r))
  {
    hide Inv, Apply, Bootstrap, Spares, ReadsOf;
    match r
    case Configure(actor, role, cfg) =>
      if Bootstrap(s, actor, role, cfg).Ok? {
        ConfigureSpares(s, actor, role, cfg, Bootstrap(s, actor, role, cfg).value);
      }
    case Invoke(c, x, t) => CommandFramed(env, s, c, x, t);
  }

  // ------------------------------------------------------------------ theorems

  /** The chaincode obeys all laws of a machine under optimistic commit. */
  lemma LedgerLawful(env: Env)
    ensures Lawful(Ledger(env))
  {
    hide Simulate, RequestReads, Inv, Agree, BookedAt, FramedAt, Moves, Serve;
    var m := Ledger(env);
    forall s, u, r | m.simulate(s, r).Ok? && Agree(s, u, m.cells(s, r)) ensures m.simulate(u, r) == m.simulate(s, r) {
      SimulateLocal(env, s, u, r);
    }
    forall s, r ensures BookedAt(s, r, m.simulate(s, r)) {
      RequestBooked(env, s, r);
    }
    forall s, r | m.ok(s) ensures FramedAt(s, r, m.simulate(s, r), m.cells(s, r)) {
      RequestFramed(env, s, r);
    }
    BlankInv(EMPTY_STATE) by {
      assert Blank(EMPTY_STATE) && Configured(EMPTY_STATE);
    }
    forall s, r | m.ok(s) ensures m.ok(Moves(m, s, r)) {
      MovesServe(env, s, r);
      ServeKeepsInv(env, s, r);
    }
  }

  lemma RequestBooked(env: Env, s: State, r: Request)
    ensures BookedAt(s, r, Simulate(env, s, r))
  {
    hide Apply, Bootstrap, Counts, Receipts;
    match r
    case Configure(actor, role, cfg) => ConfigureBooked(s, actor, role, cfg, r);
    case Invoke(c, x, t) => CommandBooked(env, s, c, x, t);
  }

  lemma {:induction false} PlayedRuns(env: Env, rs: seq<Request>)
    ensures Played(Ledger(env), rs) == Run(env, rs)
  {
    hide Moves, Serve, Ledger;
    if rs != [] {
      PlayedRuns(env, rs[..|rs| - 1]);
      MovesServe(env, Run(env, rs[..|rs| - 1]), rs[|rs| - 1]);
    }
  }

  /** Serializability: any schedule leaves the ledger that serving its committed requests one by one leaves. */
  lemma Serializable(env: Env, sched: Schedule, n: nat)
    ensures At(Ledger(env), sched, n).state == Run(env, Committed(Ledger(env), sched, n))
  {
    hide At, Committed, Run, Ledger, Local, Booked, Framed, Invariant;
    LedgerLawful(env);
    Serialized(Ledger(env), sched, n);
    PlayedRuns(env, Committed(Ledger(env), sched, n));
  }

  /** Hence everything proved of serial runs holds of every ledger reached under concurrency. */
  lemma ConcurrentInv(env: Env, sched: Schedule, n: nat)
    ensures Inv(At(Ledger(env), sched, n).state)
  {
    hide Inv, At, Committed, Run, Ledger;
    Serializable(env, sched, n);
    RunInv(env, Committed(Ledger(env), sched, n));
  }

  lemma Grown(env: Env, sched: Schedule, i: nat, j: nat)
    requires i <= j
    ensures Extends(At(Ledger(env), sched, i).state, At(Ledger(env), sched, j).state)
  {
    hide Extends, At, Committed, Run, Ledger;
    var more := CommittedGrows(Ledger(env), sched, i, j);
    Serializable(env, sched, i);
    Serializable(env, sched, j);
    RunExtends(env, Committed(Ledger(env), sched, i), more);
  }
}
