/** The ledger as the backend sees it: queries that may fail, submissions that may be lost, outcomes settled once. */
module Network {
  import opened Types

  /** An organization and a role within it. */
  datatype Caller = Caller(msp: Msp, role: Role)

  /** A ledger call gives a value or an error code of the interface. */
  datatype Answer<+T> = Got(value: T) | Error(code: string)

  const OUTAGE := "FABRIC_UNAVAILABLE"
  const FAULT := "INTERNAL_ERROR"
  const NOT_FOUND := "OPERATION_NOT_FOUND"
  const STALE := "VERSION_CONFLICT"
  const INVALID := "FABRIC_TRANSACTION_INVALID"
  const REUSED := "IDEMPOTENCY_CONFLICT"

  /** Signed transaction bytes and the id they carry. */
  datatype Prepared = Prepared(bytes: string, txid: string)

  /** What was endorsed under a transaction id: bytes, private inputs, and the receipt returned if it commits. */
  datatype Endorsement = Endorsement(bytes: string, inputs: string, receipt: Receipt)

  /** Endorsed and sent transactions, the settled ones' validity, and the receipts found by GetOperation. */
  datatype Net = Net(endorsed: map<string, Endorsement>, sent: set<string>, status: map<string, bool>,
                     operations: map<(Msp, Id), Receipt>)

  const EMPTY_NET := Net(map[], {}, map[], map[])

  /** The receipt's own caller and operation. */
  function Slot(r: Receipt): (Msp, Id) {
    (r.actor, r.op)
  }

  /** Only sent transactions settle; a stored receipt is exactly that of the one valid transaction of its slot. */
  ghost predicate NetOk(n: Net) {
    && (forall tx {:trigger tx in n.endorsed} :: tx in n.endorsed ==> n.endorsed[tx].receipt.tx == tx)
    && (forall tx {:trigger tx in n.sent} :: tx in n.sent ==> tx in n.endorsed)
    && (forall tx {:trigger tx in n.status} :: tx in n.status ==> tx in n.sent)
    && (forall tx {:trigger n.status[tx]} :: tx in n.status && n.status[tx] ==>
          tx in n.endorsed && Slot(n.endorsed[tx].receipt) in n.operations
          && n.operations[Slot(n.endorsed[tx].receipt)] == n.endorsed[tx].receipt)
    && (forall o {:trigger o in n.operations} :: o in n.operations ==>
          var r := n.operations[o];
          Slot(r) == o && r.tx in n.endorsed && n.endorsed[r.tx].receipt == r && r.tx in n.status && n.status[r.tx])
  }

  /** What every later network still holds: statuses and receipts are written once. */
  ghost predicate Grows(n: Net, m: Net) {
    && (forall tx {:trigger tx in m.endorsed} {:trigger tx in n.endorsed} ::
          tx in n.endorsed ==> tx in m.endorsed && m.endorsed[tx] == n.endorsed[tx])
    && n.sent <= m.sent
    && (forall tx {:trigger tx in m.status} {:trigger tx in n.status} ::
          tx in n.status ==> tx in m.status && m.status[tx] == n.status[tx])
    && (forall o {:trigger o in m.operations} {:trigger o in n.operations} ::
          o in n.operations ==> o in m.operations && m.operations[o] == n.operations[o])
  }

  lemma GrowsOn(n: Net, m: Net, k: Net)
    requires Grows(n, m) && Grows(m, k)
    ensures Grows(n, k)
  {
    forall tx | tx in n.endorsed ensures tx in k.endorsed && k.endorsed[tx] == n.endorsed[tx] {
      assert tx in m.endorsed;
    }
    forall tx | tx in n.status ensures tx in k.status && k.status[tx] == n.status[tx] {
      assert tx in m.status;
    }
    forall o | o in n.operations ensures o in k.operations && k.operations[o] == n.operations[o] {
      assert o in m.operations;
    }
  }

  /** The transaction is settled valid. */
  ghost predicate IsValid(n: Net, txid: string) {
    txid in n.status && n.status[txid]
  }

  /** The transaction is settled invalid, or its slot already holds another transaction's receipt. */
  ghost predicate Doomed(n: Net, txid: string) {
    || (txid in n.status && !n.status[txid])
    || (txid in n.endorsed && Slot(n.endorsed[txid].receipt) in n.operations
        && n.operations[Slot(n.endorsed[txid].receipt)].tx != txid)
  }

  /** A doomed transaction is not valid, and never becomes valid. */
  lemma DoomedForever(n: Net, m: Net, txid: string)
    requires NetOk(n) && NetOk(m) && Grows(n, m) && Doomed(n, txid)
    ensures Doomed(m, txid) && !IsValid(m, txid)
  {
  }

  // -------------------------------------------------------- elementary moves

  /** A new endorsement under an unused transaction id. */
  function Endorsed(n: Net, e: Endorsement): Net {
    n.(endorsed := n.endorsed[e.receipt.tx := e])
  }

  function Sent(n: Net, txid: string): Net {
    n.(sent := n.sent + {txid})
  }

  /** Ordering settles a transaction; it can only become valid while its slot is unused. */
  function Settled(n: Net, txid: string, valid: bool): Net
    requires txid in n.endorsed
  {
    var e := n.endorsed[txid];
    if valid then n.(status := n.status[txid := true], operations := n.operations[Slot(e.receipt) := e.receipt])
    else n.(status := n.status[txid := false])
  }

  lemma EndorsedGrows(n: Net, e: Endorsement)
    requires NetOk(n) && e.receipt.tx !in n.endorsed
    ensures NetOk(Endorsed(n, e)) && Grows(n, Endorsed(n, e))
  {
  }

  lemma SentGrows(n: Net, txid: string)
    requires NetOk(n) && txid in n.endorsed
    ensures NetOk(Sent(n, txid)) && Grows(n, Sent(n, txid))
  {
  }

  lemma SettledGrows(n: Net, txid: string, valid: bool)
    requires NetOk(n) && txid in n.sent && txid !in n.status
    requires valid ==> Slot(n.endorsed[txid].receipt) !in n.operations
    ensures NetOk(Settled(n, txid, valid)) && Grows(n, Settled(n, txid, valid))
  {
  }

  lemma GrowsItself(n: Net)
    ensures Grows(n, n)
  {
  }

  // -------------------------------------------------------------- the network

  class Network {
    var now: Net
    /** While true, queries are answered truthfully and a settled status is always found. */
    var reachable: bool
    /** The error codes it has answered with so far, the evidence service's among them. */
    ghost var told: seq<string>

    ghost predicate Valid()
      reads this
    {
      NetOk(now)
    }

    constructor (reachable: bool)
      ensures Valid() && now == EMPTY_NET && this.reachable == reachable
    {
      now, this.reachable, told := EMPTY_NET, reachable, [];
    }

    /** Other clients endorse and send, and the orderer settles what was sent: any number of moves, in any order. */
    method Elapse()
      requires Valid()
      modifies this`now
      ensures Valid() && Grows(old(now), now)
    {
      hide NetOk, Grows, Settled;
      GrowsItself(now);
      var moves: nat := *;
      while moves > 0
        invariant Valid() && Grows(old(now), now)
      {
        moves := moves - 1;
        ghost var was := now;
        if * {
          Foreign();
        } else {
          Order();
        }
        GrowsOn(old(now), was, now);
      }
    }

    /** Another client endorses a transaction of its own and sends it. */
    method Foreign()
      requires Valid()
      modifies this`now
      ensures Valid() && Grows(old(now), now)
    {
      hide NetOk, Grows;
      var e: Endorsement := *;
      GrowsItself(now);
      if e.receipt.tx !in now.endorsed {
        EndorsedGrows(now, e);
        SentGrows(Endorsed(now, e), e.receipt.tx);
        GrowsOn(now, Endorsed(now, e), Sent(Endorsed(now, e), e.receipt.tx));
        now := Sent(Endorsed(now, e), e.receipt.tx);
      }
    }

    /** The orderer settles one transaction, as valid only when its slot is unused. */
    method Order()
      requires Valid()
      modifies this`now
      ensures Valid() && Grows(old(now), now)
    {
      GrowsItself(now);
      var txid: string, valid: bool := *, *;
      if txid in now.sent && txid !in now.status && (valid ==> Slot(now.endorsed[txid].receipt) !in now.operations) {
        SettledGrows(now, txid, valid);
        now := Settled(now, txid, valid);
      }
    }

    /** GetOperation: the receipt, OPERATION_NOT_FOUND, or an outage; a peer may lag behind. */
    method GetOperation(caller: Caller, op: Id) returns (r: Answer<Receipt>)
      requires Valid()
      modifies this`now, this`told
      ensures Tells(old(told), told, r)
      ensures Valid() && Grows(old(now), now)
      ensures r.Got? ==> (caller.msp, op) in now.operations && now.operations[(caller.msp, op)] == r.value
      ensures r.Error? ==> r.code in {NOT_FOUND, OUTAGE, FAULT}
      ensures reachable ==> (if (caller.msp, op) in now.operations then r.Got? else r == Error(NOT_FOUND))
    {
      Elapse();
      var outage: bool, fault: bool, behind: bool := *, *, *;
      if !reachable && outage {
        r := Error(OUTAGE);
      } else if !reachable && fault {
        r := Error(FAULT);
      } else if (caller.msp, op) !in now.operations || (!reachable && behind) {
        r := Error(NOT_FOUND);
      } else {
        r := Got(now.operations[(caller.msp, op)]);
      }
      told := if r.Error? then told + [r.code] else told;
    }

    /** Endorsement: fresh bytes under a fresh transaction id, or any error code. */
    method Endorse(caller: Caller, op: Id, batch: Id, command: CommandName, inputs: string)
      returns (r: Answer<Prepared>)
      requires Valid()
      modifies this`now, this`told
      ensures Tells(old(told), told, r)
      ensures Valid() && Grows(old(now), now)
      ensures r.Got? ==>
                && r.value.txid !in old(now).endorsed && r.value.txid in now.endorsed
                && var e := now.endorsed[r.value.txid];
                   e.bytes == r.value.bytes && e.inputs == inputs && Slot(e.receipt) == (caller.msp, op)
                   && e.receipt.batch == batch && e.receipt.command == command
    {
      Elapse();
      var e: Endorsement, code: string := *, *;
      if e.receipt.tx in now.endorsed || Slot(e.receipt) != (caller.msp, op) || e.receipt.batch != batch
         || e.receipt.command != command || e.inputs != inputs {
        told := told + [code];
        return Error(code);
      }
      EndorsedGrows(now, e);
      GrowsOn(old(now), now, Endorsed(now, e));
      now := Endorsed(now, e);
      r := Got(Prepared(e.bytes, e.receipt.tx));
    }

    /** The answer for a settled transaction: its receipt, or one of the two invalidity codes. */
    method Outcome(txid: string) returns (r: Answer<Receipt>)
      requires Valid() && txid in now.status
      ensures r.Got? <==> now.status[txid]
      ensures r.Got? ==> txid in now.endorsed && r.value == now.endorsed[txid].receipt
      ensures r.Error? ==> r.code in {STALE, INVALID}
    {
      if now.status[txid] {
        r := Got(now.endorsed[txid].receipt);
      } else {
        var conflict: bool := *;
        r := Error(if conflict then STALE else INVALID);
      }
    }

    /** The status of a transaction, as far as it can be had; None is still unknown. */
    method Reconcile(p: Prepared) returns (known: Option<Answer<Receipt>>)
      requires Valid()
      modifies this`now, this`told
      ensures if known.None? then told == old(told) else Tells(old(told), told, known.value)
      ensures Valid() && Grows(old(now), now)
      ensures known.Some? ==> TellsOutcome(now, p.txid, known.value)
      ensures known.None? && reachable ==> p.txid !in now.status
      ensures known.Some? && reachable ==>
                p.txid in now.status && (known.value.Error? ==> known.value.code in {STALE, INVALID})
    {
      Elapse();
      var outage: bool, late: bool := *, *;
      if !reachable && outage {
        told := told + [OUTAGE];
        return Some(Error(OUTAGE));
      }
      if p.txid !in now.status || (!reachable && late) {
        return None;
      }
      var r := Outcome(p.txid);
      told := if r.Error? then told + [r.code] else told;
      known := Some(r);
    }

    /**
     * Send the bytes. They may be lost or delivered at any later time, and the
     * outcome may stay unknown (None) even when they were delivered.
     */
    method Submit(p: Prepared) returns (known: Option<Answer<Receipt>>)
      requires Valid() && p.txid in now.endorsed && now.endorsed[p.txid].bytes == p.bytes
      modifies this`now, this`told
      ensures if known.None? then told == old(told) else Tells(old(told), told, known.value)
      ensures Valid() && Grows(old(now), now)
      ensures known.Some? ==> TellsOutcome(now, p.txid, known.value)
    {
      GrowsItself(now);
      var outage: bool, leaves: bool, late: bool := *, *, *;
      if outage {
        told := told + [OUTAGE];
        return Some(Error(OUTAGE));
      }
      if leaves {
        SentGrows(now, p.txid);
        now := Sent(now, p.txid);
      }
      ghost var sent := now;
      Elapse();
      GrowsOn(old(now), sent, now);
      if p.txid !in now.status || late {
        return None;
      }
      var r := Outcome(p.txid);
      told := if r.Error? then told + [r.code] else told;
      known := Some(r);
    }
  }

  /** An error code is recorded as it is given; an answer with a value leaves the record as it was. */
  predicate Tells<T>(was: seq<string>, now: seq<string>, r: Answer<T>) {
    match r
    case Got(_) => now == was
    case Error(code) => now == was + [code]
  }

  /** An answer about a transaction is its settled outcome, or an outage that says nothing. */
  ghost predicate TellsOutcome(n: Net, txid: string, r: Answer<Receipt>) {
    match r
    case Got(receipt) => IsValid(n, txid) && txid in n.endorsed && receipt == n.endorsed[txid].receipt
    case Error(code) =>
      || code == OUTAGE
      || (code in {STALE, INVALID} && txid in n.status && !n.status[txid])
  }
}
