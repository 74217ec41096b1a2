/** The crash-safe operation protocol: stage, prepare, endorse, persist, submit, promote. */
module Workflow {
  import opened Types
  import opened Engine
  import opened Guarantees
  import opened Network
  import opened Journal

  // ==========================================================================
  // What the backend checks of a client's request before it stages it.

  const SCHEMA := "agrochain.command.v1"

  /** The backend's own authorization: the organization, and the role where an organization has several. */
  function AuthorizeCaller(caller: Caller, command: CommandName): Option<string> {
    if caller.msp != RequiredCaller(command).0 then Some("UNAUTHORIZED_ORGANIZATION")
    else if command.EvaluatePrice? && caller.role != OracleRole then Some("UNAUTHORIZED_ROLE")
    else if (command.OpenReview? || command.ResolveReview?) && caller.role != ReviewerRole then
      Some("UNAUTHORIZED_ROLE")
    else None
  }

  /** The callers that can be configured. */
  predicate Configurable(caller: Caller) {
    || caller == Caller(Producer, ProducerRole) || caller == Caller(Logistics, CarrierRole)
    || caller == Caller(Retailer, RetailerRole)
    || (caller.msp == Regulator && caller.role in {AuditorRole, ReviewerRole, OracleRole, PublicReaderRole})
  }

  /** The command's identity: its ids, and that it is the one the path and the idempotency key name. */
  function CheckIdentity(command: CommandName, path: Option<Id>, id: Id, request: Request): Option<string> {
    if request.scenario != "NORMAL" && request.scenario != "SUSPICIOUS" then Some("INVALID_SCHEMA")
    else if !ValidId(request.op, "OP") || !ValidId(request.batch, "BAT") then Some("INVALID_IDENTIFIER")
    else if request.op != id || request.command != command || (path.Some? && request.batch != path.value) then
      Some("INVALID_SCHEMA")
    else if request.schema != SCHEMA then Some("UNSUPPORTED_SCHEMA_VERSION")
    else if !(0 <= request.expected <= 2147483646) then Some("INVALID_SCHEMA")
    else None
  }

  function Unless(ok: bool, code: string): Option<string> {
    if ok then None else Some(code)
  }

  /** The payload's shape and ids. */
  function CheckPayload(command: CommandName, payload: Payload): Option<string> {
    match (command, payload)
    case (EvaluatePrice, EvaluateInput(anomaly, report)) =>
      Unless(ValidId(anomaly, "ANM") && ValidId(report, "RPT"), "INVALID_IDENTIFIER")
    case (OpenReview, ReviewTarget(anomaly)) => Unless(ValidId(anomaly, "ANM"), "INVALID_IDENTIFIER")
    case (ResolveReview, ReviewTarget(anomaly)) => Unless(ValidId(anomaly, "ANM"), "INVALID_IDENTIFIER")
    case (CreateBatch, CreateInput(_, _, _, _, _, logistics, retailer)) =>
      Unless(logistics == Logistics && retailer == Retailer, "UNAUTHORIZED_ORGANIZATION")
    case (RecordFreightCost, FreightInput(cost)) => Unless(ValidId(cost, "CST"), "INVALID_IDENTIFIER")
    case (ReportRetailPrice, ReportInput(report, lot, policy)) =>
      Unless(ValidId(report, "RPT") && ValidId(lot, "LOT") && ValidId(policy, "CFG"), "INVALID_IDENTIFIER")
    case (_, HandoffInput(transfer, _)) =>
      if IsOffer(command) || IsAccept(command) then Unless(ValidId(transfer, "TRF"), "INVALID_IDENTIFIER")
      else Some("INVALID_SCHEMA")
    case _ => Some("INVALID_SCHEMA")
  }

  function CheckQuantity(payload: Payload): Option<string> {
    match payload
    case CreateInput(_, _, quantity, _, _, _, _) => Unless(QuantityOk(quantity), "INVALID_QUANTITY")
    case HandoffInput(_, quantity) => Unless(QuantityOk(quantity), "INVALID_QUANTITY")
    case _ => None
  }

  predicate IsBlank(text: string) {
    forall i :: 0 <= i < |text| ==>
      text[i] == ' ' || 9 as char <= text[i] <= 13 as char || 28 as char <= text[i] <= 31 as char
  }

  function CheckInput(command: CommandName, input: PrivateInput): Option<string> {
    match (command, input)
    case (ReportRetailPrice, PriceInput(price, currency, tax, _)) =>
      if !(0 <= price <= 100_000_000) then Some("INVALID_MONEY")
      else Unless(currency == Try && tax == ExcludingTax, "SOURCE_BINDING_MISMATCH")
    case (OpenReview, OpenInput(reviewer)) => Unless(ValidId(reviewer, "REV"), "INVALID_IDENTIFIER")
    case (ResolveReview, ResolveInput(reviewer, outcome, explanation)) =>
      if !ValidId(reviewer, "REV") then Some("INVALID_IDENTIFIER")
      else Unless(outcome in {"EXPLAINED", "FOLLOW_UP_RECOMMENDED", "INSUFFICIENT_EVIDENCE"}
                  && !IsBlank(explanation) && |explanation| <= 2000, "INVALID_SCHEMA")
    case (ReportRetailPrice, _) => Some("INVALID_SCHEMA")
    case (OpenReview, _) => Some("INVALID_SCHEMA")
    case (ResolveReview, _) => Some("INVALID_SCHEMA")
    case (_, NoInput) => None
    case _ => Some("INVALID_SCHEMA")
  }

  /** The first check that fails. */
  function Validate(caller: Caller, command: CommandName, path: Option<Id>, id: Id, request: Request): Option<string> {
    var authorized := AuthorizeCaller(caller, command);
    if authorized.Some? then authorized
    else
      var identity := CheckIdentity(command, path, id, request);
      if identity.Some? then identity
      else
        var payload := CheckPayload(command, request.payload);
        if payload.Some? then payload
        else
          var quantity := CheckQuantity(request.payload);
          if quantity.Some? then quantity
          else
            var input := CheckInput(command, request.input);
            if input.Some? then input else Unless(request.size <= 65536, "INVALID_SCHEMA")
  }

  lemma AllPass(caller: Caller, command: CommandName, path: Option<Id>, id: Id, request: Request)
    requires AuthorizeCaller(caller, command).None? && CheckIdentity(command, path, id, request).None?
    requires CheckPayload(command, request.payload).None? && CheckQuantity(request.payload).None?
    requires CheckInput(command, request.input).None? && request.size <= 65536
    ensures Validate(caller, command, path, id, request).None?
  {
    hide AuthorizeCaller, CheckIdentity, CheckPayload, CheckQuantity, CheckInput;
  }

  /** Who may ask for a command: its organization and, of the Regulator, its role. */
  predicate MayAsk(caller: Caller, command: CommandName) {
    match command
    case CreateBatch | OfferPickup => caller.msp == Producer
    case AcceptPickup | RecordFreightCost | OfferDelivery => caller.msp == Logistics
    case AcceptDelivery | ReportRetailPrice => caller.msp == Retailer
    case EvaluatePrice => caller == Caller(Regulator, OracleRole)
    case OpenReview | ResolveReview => caller == Caller(Regulator, ReviewerRole)
  }

  /** The payloads of a command that pass. */
  predicate PayloadPasses(command: CommandName, payload: Payload) {
    match (command, payload)
    case (CreateBatch, CreateInput(_, _, quantity, _, _, logistics, retailer)) =>
      logistics == Logistics && retailer == Retailer && 1 <= quantity <= 100_000_000
    case (RecordFreightCost, FreightInput(cost)) => ValidId(cost, "CST")
    case (ReportRetailPrice, ReportInput(report, lot, policy)) =>
      ValidId(report, "RPT") && ValidId(lot, "LOT") && ValidId(policy, "CFG")
    case (EvaluatePrice, EvaluateInput(anomaly, report)) => ValidId(anomaly, "ANM") && ValidId(report, "RPT")
    case (OpenReview, ReviewTarget(anomaly)) => ValidId(anomaly, "ANM")
    case (ResolveReview, ReviewTarget(anomaly)) => ValidId(anomaly, "ANM")
    case (_, HandoffInput(transfer, quantity)) =>
      && command in {OfferPickup, AcceptPickup, OfferDelivery, AcceptDelivery}
      && ValidId(transfer, "TRF") && 1 <= quantity <= 100_000_000
    case _ => false
  }

  /** The private inputs of a command that pass: none at all, but for a report and a review. */
  predicate InputPasses(command: CommandName, input: PrivateInput) {
    match command
    case ReportRetailPrice =>
      && input.PriceInput? && 0 <= input.price <= 100_000_000
      && input.currency == Try && input.tax == ExcludingTax
    case OpenReview => input.OpenInput? && ValidId(input.reviewer, "REV")
    case ResolveReview =>
      && input.ResolveInput? && ValidId(input.reviewer, "REV") && |input.explanation| <= 2000
      && input.outcome in {"EXPLAINED", "FOLLOW_UP_RECOMMENDED", "INSUFFICIENT_EVIDENCE"}
      && exists i :: 0 <= i < |input.explanation| && !(input.explanation[i] == ' '
                       || 9 <= input.explanation[i] as int <= 13 || 28 <= input.explanation[i] as int <= 31)
    case _ => input.NoInput?
  }

  lemma InputIff(command: CommandName, input: PrivateInput)
    ensures CheckInput(command, input).None? <==> InputPasses(command, input)
  {
    hide ValidId;
    if command.ResolveReview? && input.ResolveInput? && !IsBlank(input.explanation) {
      var i :| 0 <= i < |input.explanation| && !(input.explanation[i] == ' '
               || 9 as char <= input.explanation[i] <= 13 as char || 28 as char <= input.explanation[i] <= 31 as char);
      assert !(9 <= input.explanation[i] as int <= 13 || 28 <= input.explanation[i] as int <= 31);
    }
  }

  lemma PayloadIff(command: CommandName, payload: Payload)
    ensures CheckPayload(command, payload).None? && CheckQuantity(payload).None? <==> PayloadPasses(command, payload)
  {
    hide ValidId;
  }

  lemma IdentityIff(command: CommandName, path: Option<Id>, id: Id, request: Request)
    ensures CheckIdentity(command, path, id, request).None? <==>
              && request.scenario in {"NORMAL", "SUSPICIOUS"} && request.schema == "agrochain.command.v1"
              && ValidId(id, "OP") && ValidId(request.batch, "BAT")
              && request.op == id && request.command == command && (path.Some? ==> request.batch == path.value)
              && 0 <= request.expected <= 2147483646
  {
    hide ValidId;
  }

  /** Exactly the requests that pass: each check spelled out, whatever order the checks come in. */
  lemma ValidatedIff(caller: Caller, command: CommandName, path: Option<Id>, id: Id, request: Request)
    ensures Validate(caller, command, path, id, request).None? <==>
              && MayAsk(caller, command)
              && request.scenario in {"NORMAL", "SUSPICIOUS"} && request.schema == "agrochain.command.v1"
              && ValidId(id, "OP") && ValidId(request.batch, "BAT")
              && request.op == id && request.command == command && (path.Some? ==> request.batch == path.value)
              && 0 <= request.expected <= 2147483646
              && PayloadPasses(command, request.payload) && InputPasses(command, request.input)
              && request.size <= 65536
  {
    assert AuthorizeCaller(caller, command).None? <==> MayAsk(caller, command);
    hide ValidId, AuthorizeCaller, MayAsk, CheckIdentity, CheckPayload, CheckQuantity, CheckInput, PayloadPasses,
         InputPasses;
    IdentityIff(command, path, id, request);
    PayloadIff(command, request.payload);
    InputIff(command, request.input);
  }

  /** The organization that may ask for a command. */
  function AskerOf(command: CommandName): Msp {
    match command
    case CreateBatch | OfferPickup => Producer
    case AcceptPickup | RecordFreightCost | OfferDelivery => Logistics
    case AcceptDelivery | ReportRetailPrice => Retailer
    case EvaluatePrice | OpenReview | ResolveReview => Regulator
  }

  /** The ids that the payload and the private input name are proper. */
  predicate IdsPass(payload: Payload, input: PrivateInput) {
    && (match payload
        case HandoffInput(transfer, _) => ValidId(transfer, "TRF")
        case FreightInput(cost) => ValidId(cost, "CST")
        case ReportInput(report, lot, policy) => ValidId(report, "RPT") && ValidId(lot, "LOT") && ValidId(policy, "CFG")
        case EvaluateInput(anomaly, report) => ValidId(anomaly, "ANM") && ValidId(report, "RPT")
        case ReviewTarget(anomaly) => ValidId(anomaly, "ANM")
        case _ => true)
    && match input
       case OpenInput(reviewer) => ValidId(reviewer, "REV")
       case ResolveInput(reviewer, _, _) => ValidId(reviewer, "REV")
       case _ => true
  }

  /** Payload and private input are of the command's kind, and a resolution is complete. */
  predicate KindsPass(command: CommandName, payload: Payload, input: PrivateInput) {
    match command
    case CreateBatch => payload.CreateInput? && input.NoInput?
    case OfferPickup | AcceptPickup | OfferDelivery | AcceptDelivery => payload.HandoffInput? && input.NoInput?
    case RecordFreightCost => payload.FreightInput? && input.NoInput?
    case ReportRetailPrice => payload.ReportInput? && input.PriceInput?
    case EvaluatePrice => payload.EvaluateInput? && input.NoInput?
    case OpenReview => payload.ReviewTarget? && input.OpenInput?
    case ResolveReview =>
      payload.ReviewTarget? && input.ResolveInput? && InputComplete(input.outcome, input.explanation)
  }

  predicate InputComplete(outcome: string, explanation: string) {
    outcome in {"EXPLAINED", "FOLLOW_UP_RECOMMENDED", "INSUFFICIENT_EVIDENCE"}
    && !IsBlank(explanation) && |explanation| <= 2000
  }

  /** The reason that a code of the request checks stands for; other codes are never given. */
  predicate RequestReason(caller: Caller, command: CommandName, path: Option<Id>, id: Id, request: Request,
                          code: string) {
    var p, input := request.payload, request.input;
    || (code == "UNAUTHORIZED_ORGANIZATION"
        && (caller.msp != AskerOf(command)
            || (p.CreateInput? && !(p.logistics == Logistics && p.retailer == Retailer))))
    || (code == "UNAUTHORIZED_ROLE" && caller.msp == AskerOf(command) && !MayAsk(caller, command))
    || (code == "INVALID_IDENTIFIER"
        && !(ValidId(request.op, "OP") && ValidId(request.batch, "BAT") && IdsPass(p, input)))
    || (code == "UNSUPPORTED_SCHEMA_VERSION" && request.schema != "agrochain.command.v1")
    || (code == "INVALID_QUANTITY"
        && ((p.CreateInput? && !(1 <= p.quantity <= 100_000_000))
            || (p.HandoffInput? && !(1 <= p.quantity <= 100_000_000))))
    || (code == "INVALID_MONEY" && input.PriceInput? && !(0 <= input.price <= 100_000_000))
    || (code == "SOURCE_BINDING_MISMATCH" && input.PriceInput? && !(input.currency == Try && input.tax == ExcludingTax))
    || (code == "INVALID_SCHEMA"
        && (request.scenario !in {"NORMAL", "SUSPICIOUS"} || request.op != id || request.command != command
            || (path.Some? && request.batch != path.value) || !(0 <= request.expected <= 2147483646)
            || !KindsPass(command, p, input) || request.size > 65536))
  }

  lemma PayloadBlamed(caller: Caller, command: CommandName, path: Option<Id>, id: Id, request: Request, code: string)
    requires CheckPayload(command, request.payload) == Some(code)
             || (CheckPayload(command, request.payload).None? && CheckQuantity(request.payload) == Some(code))
    ensures RequestReason(caller, command, path, id, request, code)
  {
    hide ValidId, InputComplete;
  }

  lemma InputBlamed(caller: Caller, command: CommandName, path: Option<Id>, id: Id, request: Request, code: string)
    requires CheckInput(command, request.input) == Some(code)
    ensures RequestReason(caller, command, path, id, request, code)
  {
    hide ValidId, IsBlank;
  }

  lemma IdentityBlamed(caller: Caller, command: CommandName, path: Option<Id>, id: Id, request: Request, code: string)
    requires AuthorizeCaller(caller, command) == Some(code)
             || CheckIdentity(command, path, id, request) == Some(code)
    ensures RequestReason(caller, command, path, id, request, code)
  {
    hide ValidId, KindsPass, IdsPass;
  }

  /** A request is refused with the code of its own reason. */
  lemma ValidatedBlames(caller: Caller, command: CommandName, path: Option<Id>, id: Id, request: Request, code: string)
    requires Validate(caller, command, path, id, request) == Some(code)
    ensures RequestReason(caller, command, path, id, request, code)
  {
    hide ValidId, AuthorizeCaller, CheckIdentity, CheckPayload, CheckQuantity, CheckInput, KindsPass, IdsPass, MayAsk;
    if AuthorizeCaller(caller, command) == Some(code) || CheckIdentity(command, path, id, request) == Some(code) {
      IdentityBlamed(caller, command, path, id, request, code);
    } else if CheckPayload(command, request.payload) == Some(code)
              || (CheckPayload(command, request.payload).None? && CheckQuantity(request.payload) == Some(code)) {
      PayloadBlamed(caller, command, path, id, request, code);
    } else if CheckInput(command, request.input) == Some(code) {
      InputBlamed(caller, command, path, id, request, code);
    }
  }

  function CommandOf(request: Request): Command {
    Command(request.command, request.op, request.batch, request.expected, request.payload)
  }

  /** What the chaincode asks of a creation beyond the backend's checks. */
  predicate CreationFits(env: Env, payload: Payload) {
    payload.CreateInput? ==>
      payload.product == "TOMATO" && payload.grade == "STANDARD" && RegionOk(payload.region)
        && env.date(payload.harvest)
  }

  lemma ValidatedIdentity(caller: Caller, command: CommandName, path: Option<Id>, id: Id, request: Request)
    requires Validate(caller, command, path, id, request).None?
    ensures request.op == id && request.command == command && (path.Some? ==> request.batch == path.value)
    ensures ValidId(request.op, "OP") && ValidId(request.batch, "BAT") && 0 <= request.expected < MAX_VERSION
    ensures AuthorizeCaller(caller, command).None? && CheckPayload(command, request.payload).None?
    ensures CheckQuantity(request.payload).None?
  {
    hide ValidId, AuthorizeCaller, CheckPayload, CheckQuantity, CheckInput;
  }

  lemma ValidatedPayload(env: Env, c: Command)
    requires CheckPayload(c.name, c.payload).None? && CheckQuantity(c.payload).None? && CreationFits(env, c.payload)
    ensures ValidatePayload(env, c).Ok?
  {
    hide ValidId, RegionOk;
  }

  /**
   * What the backend lets through from a configured caller, the chaincode's checks
   * that do not look at the ledger let through too, but for a creation's fixed
   * product and grade, its region and its date.
   */
  lemma ValidatedPosed(env: Env, caller: Caller, command: CommandName, path: Option<Id>, id: Id, request: Request,
                       x: Execution)
    requires Configurable(caller) && Validate(caller, command, path, id, request).None?
    requires x.actor == caller.msp && x.role == caller.role && ContextOk(x)
    ensures WellPosed(env, CommandOf(request), x) <==> CreationFits(env, request.payload)
  {
    ValidatedIdentity(caller, command, path, id, request);
    var c := CommandOf(request);
    hide ValidId, ContextOk, RegionOk, Validate;
    assert Authorize(x.actor, x.role, c.name).Ok?;
    hide Authorize, AuthorizeCaller, Configurable;
    if CreationFits(env, request.payload) {
      ValidatedPayload(env, c);
    }
  }

  // ==========================================================================
  // The crash-safe operation protocol: stage, prepare, endorse, persist, submit, promote.

  // ---------------------------------------------------------------- invariants

  /** A transaction is bound to the row it was endorsed for, and to the row's persisted private inputs. */
  ghost predicate Bound(n: Net, key: RowKey, row: Row) {
    && row.tx.Some? && row.txid.Some? && row.txid.value in n.endorsed
    && var e := n.endorsed[row.txid.value];
       && e.bytes == row.tx.value && row.prepared == Some(e.inputs) && Slot(e.receipt) == (key.0.msp, key.1)
       && e.receipt.batch == row.request.batch && e.receipt.command == row.request.command
  }

  /** What a journal row means on the ledger. */
  ghost predicate RowOk(n: Net, key: RowKey, row: Row) {
    && row.request.op == key.1
    && (row.tx.None? <==> row.txid.None?)
    && (row.tx.Some? ==> Bound(n, key, row))
    && (row.state.SubmittedUnknown? ==> row.tx.Some?)
    && (row.state.Committed? <==> row.receipt.Some?)
    && (row.state.Committed? ==>
        row.tx.Some? && IsValid(n, row.txid.value) && row.receipt.value == n.endorsed[row.txid.value].receipt)
    && (row.state.Failed? ==> row.error.Some?)
    && (row.state.Failed? && row.tx.Some? ==> Doomed(n, row.txid.value) && Status(row.error.value) != 503)
  }

  ghost predicate RowsOk(n: Net, ops: map<RowKey, Row>) {
    && (forall key {:trigger key in ops} :: key in ops ==> RowOk(n, key, ops[key]))
    && (forall key, other {:trigger ops[key], ops[other]} ::
          key in ops && other in ops && ops[key].txid.Some? && ops[key].txid == ops[other].txid ==> key == other)
  }

  /** Evidence is promoted exactly with its operation. */
  ghost predicate EvidenceOk(ops: map<RowKey, Row>, evidence: map<Id, Archived>) {
    forall d {:trigger evidence[d]} {:trigger d in evidence} :: d in evidence ==>
      var key := (evidence[d].caller, evidence[d].op);
      key in ops && (evidence[d].committed <==> ops[key].state.Committed?)
  }

  /** Everything ever sent for a row is the row's persisted transaction. */
  ghost predicate SendsOk(ops: map<RowKey, Row>, sends: set<(RowKey, Prepared)>) {
    forall e {:trigger e in sends} :: e in sends ==>
      e.0 in ops && ops[e.0].tx == Some(e.1.bytes) && ops[e.0].txid == Some(e.1.txid)
  }

  /** The failures that a repeated request does not try again: no outage, and no evaluation under a wrong policy. */
  predicate FinalFailure(row: Row) {
    && row.state.Failed? && row.error.Some?
    && Status(row.error.value) != 503
    && !(row.request.command.EvaluatePrice? && row.error.value == "POLICY_MISMATCH" && row.tx.None?)
  }

  /** A row later: same request, same transaction once persisted, and outcomes that are final stay. */
  ghost predicate RowLasts(row: Row, now: Row) {
    && now.request == row.request
    && (row.tx.Some? ==> now.tx == row.tx && now.txid == row.txid)
    && (row.prepared.Some? ==> now.prepared == row.prepared)
    && (row.state.Committed? ==> now == row)
    && (row.state.Failed? && row.tx.Some? ==> now == row)
    && (FinalFailure(row) ==> now == row)
  }

  ghost predicate RowsLast(ops: map<RowKey, Row>, now: map<RowKey, Row>) {
    forall key {:trigger key in ops} {:trigger key in now} :: key in ops ==> key in now && RowLasts(ops[key], now[key])
  }

  lemma RowsLastOn(a: map<RowKey, Row>, b: map<RowKey, Row>, c: map<RowKey, Row>)
    requires RowsLast(a, b) && RowsLast(b, c)
    ensures RowsLast(a, c)
  {
    forall key | key in a ensures key in c && RowLasts(a[key], c[key]) {
      assert key in b;
    }
  }

  /** The ledger moving on keeps every row's meaning. */
  lemma RowOkLater(n: Net, m: Net, key: RowKey, row: Row)
    requires NetOk(n) && NetOk(m) && Grows(n, m) && RowOk(n, key, row)
    ensures RowOk(m, key, row)
  {
    if row.state.Failed? && row.tx.Some? {
      DoomedForever(n, m, row.txid.value);
    }
    hide NetOk, Status, Doomed;
  }

  lemma RowsOkLater(n: Net, m: Net, ops: map<RowKey, Row>)
    requires NetOk(n) && NetOk(m) && Grows(n, m) && RowsOk(n, ops)
    ensures RowsOk(m, ops)
  {
    hide RowOk, NetOk, Grows;
    forall key | key in ops ensures RowOk(m, key, ops[key]) {
      RowOkLater(n, m, key, ops[key]);
    }
  }

  /** A failed row with a transaction is never contradicted by the ledger, now or later. */
  lemma NeverContradicted(n: Net, m: Net, ops: map<RowKey, Row>, key: RowKey)
    requires NetOk(n) && NetOk(m) && Grows(n, m) && RowsOk(n, ops)
    requires key in ops && ops[key].state.Failed? && ops[key].txid.Some?
    ensures !IsValid(n, ops[key].txid.value) && !IsValid(m, ops[key].txid.value)
  {
    assert RowOk(n, key, ops[key]);
    GrowsItself(n);
    DoomedForever(n, n, ops[key].txid.value);
    DoomedForever(n, m, ops[key].txid.value);
  }

  // --------------------------------------------------------------- the world

  /** The ledger, the journal, the archive, and all transactions the backend ever sent. */
  datatype World = World(net: Net, ops: map<RowKey, Row>, evidence: map<Id, Archived>, sends: set<(RowKey, Prepared)>)

  ghost predicate WorldOk(w: World) {
    NetOk(w.net) && RowsOk(w.net, w.ops) && EvidenceOk(w.ops, w.evidence) && SendsOk(w.ops, w.sends)
  }

  ghost predicate WorldLasts(w: World, v: World) {
    Grows(w.net, v.net) && RowsLast(w.ops, v.ops) && w.sends <= v.sends
  }

  lemma LastsItself(w: World)
    ensures WorldLasts(w, w)
  {
    GrowsItself(w.net);
    hide Grows;
  }

  lemma LastsOn(w: World, v: World, u: World)
    requires WorldLasts(w, v) && WorldLasts(v, u)
    ensures WorldLasts(w, u)
  {
    GrowsOn(w.net, v.net, u.net);
    RowsLastOn(w.ops, v.ops, u.ops);
    hide Grows, RowsLast;
  }

  /** Time passes on the ledger. */
  lemma NetStep(w: World, net: Net)
    requires WorldOk(w) && NetOk(net) && Grows(w.net, net)
    ensures WorldOk(w.(net := net)) && WorldLasts(w, w.(net := net))
  {
    RowsOkLater(w.net, net, w.ops);
    LastsItself(w);
    hide NetOk, RowsOk, EvidenceOk, SendsOk, Grows, RowsLast;
  }

  /** One row is rewritten, short of committing it. */
  lemma RowStep(w: World, key: RowKey, row: Row)
    requires WorldOk(w) && key in w.ops && RowOk(w.net, key, row) && RowLasts(w.ops[key], row)
    requires row.state.Committed? <==> w.ops[key].state.Committed?
    requires row.txid != w.ops[key].txid ==>
               row.txid.Some? && forall other {:trigger w.ops[other]} :: other in w.ops ==>
                 w.ops[other].txid != row.txid
    ensures WorldOk(w.(ops := w.ops[key := row])) && WorldLasts(w, w.(ops := w.ops[key := row]))
  {
    hide NetOk, RowOk, Grows;
    GrowsItself(w.net);
  }

  /** The persisted transaction of a row is sent. */
  lemma SendStep(w: World, key: RowKey, p: Prepared)
    requires WorldOk(w) && key in w.ops && w.ops[key].tx == Some(p.bytes) && w.ops[key].txid == Some(p.txid)
    ensures WorldOk(w.(sends := w.sends + {(key, p)})) && WorldLasts(w, w.(sends := w.sends + {(key, p)}))
  {
    LastsItself(w);
    hide NetOk, RowsOk, EvidenceOk, Grows, RowsLast;
  }

  /** A request is staged. */
  lemma StageStep(w: World, key: RowKey, row: Row)
    requires WorldOk(w) && key !in w.ops && row.request.op == key.1
    requires row == Row(row.request, RowState.Pending, None, None, None, None, None)
    ensures WorldOk(w.(ops := w.ops[key := row])) && WorldLasts(w, w.(ops := w.ops[key := row]))
  {
    hide NetOk, Grows;
    GrowsItself(w.net);
  }

  /** A document is archived for an operation that is not committed yet. */
  lemma ArchiveStep(w: World, key: RowKey, document: Id, bundle: string)
    requires WorldOk(w) && key in w.ops && !w.ops[key].state.Committed?
    ensures var evidence := w.evidence[document := Archived(key.1, key.0, bundle, false)];
            document !in w.evidence ==> WorldOk(w.(evidence := evidence)) && WorldLasts(w, w.(evidence := evidence))
  {
    LastsItself(w);
    hide NetOk, RowsOk, SendsOk, Grows, RowsLast;
  }

  function CommittedRow(row: Row, receipt: Receipt): Row {
    row.(state := RowState.Committed, receipt := Some(receipt), txid := Some(receipt.tx), error := None)
  }

  /** A row whose transaction is valid takes its receipt, together with its evidence. */
  lemma CommitStep(w: World, key: RowKey, receipt: Receipt)
    requires WorldOk(w) && key in w.ops && !Terminal(w.ops[key].state) && w.ops[key].txid.Some?
    requires IsValid(w.net, w.ops[key].txid.value) && receipt == w.net.endorsed[w.ops[key].txid.value].receipt
    ensures var v := w.(ops := w.ops[key := CommittedRow(w.ops[key], receipt)], evidence := Promoted(w.evidence, key));
            WorldOk(v) && WorldLasts(w, v)
  {
    hide EvidenceOk, RowsLast, Grows, SendsOk;
    hide NetOk, RowOk, IsValid;
    GrowsItself(w.net);
    CommittedRowOk(w, key, receipt);
    var ops := w.ops[key := CommittedRow(w.ops[key], receipt)];
    EvidencePromoted(w.ops, w.evidence, key, CommittedRow(w.ops[key], receipt));
    assert RowsLast(w.ops, ops) by {
      RowsLastOne(w.ops, key, CommittedRow(w.ops[key], receipt));
    }
    SendsLast(w.ops, ops, w.sends);
  }

  lemma CommittedRowOk(w: World, key: RowKey, receipt: Receipt)
    requires WorldOk(w) && key in w.ops && !Terminal(w.ops[key].state) && w.ops[key].txid.Some?
    requires IsValid(w.net, w.ops[key].txid.value) && receipt == w.net.endorsed[w.ops[key].txid.value].receipt
    ensures RowOk(w.net, key, CommittedRow(w.ops[key], receipt))
            && RowLasts(w.ops[key], CommittedRow(w.ops[key], receipt))
    ensures receipt.tx == w.ops[key].txid.value
  {
    hide EvidenceOk, SendsOk, Status;
    assert RowOk(w.net, key, w.ops[key]);
  }

  lemma EvidencePromoted(ops: map<RowKey, Row>, evidence: map<Id, Archived>, key: RowKey, row: Row)
    requires EvidenceOk(ops, evidence) && key in ops && row.state.Committed?
    ensures EvidenceOk(ops[key := row], Promoted(evidence, key))
  {
  }

  lemma RowsLastOne(ops: map<RowKey, Row>, key: RowKey, row: Row)
    requires key in ops && RowLasts(ops[key], row)
    ensures RowsLast(ops, ops[key := row])
  {
  }

  lemma SendsLast(ops: map<RowKey, Row>, now: map<RowKey, Row>, sends: set<(RowKey, Prepared)>)
    requires SendsOk(ops, sends) && RowsLast(ops, now)
    ensures SendsOk(now, sends)
  {
    forall e | e in sends ensures e.0 in now && now[e.0].tx == Some(e.1.bytes) && now[e.0].txid == Some(e.1.txid) {
      assert e.0 in ops;
    }
  }

  // ------------------------------------------------------------ the protocol

  /** How one pass over a row ends: nothing left to do, crashed, or an error was thrown. */
  datatype End = Finished | Crashed | Thrown(code: string)

  /** The reply to a client: a status and the row, an error, or none because the process died. */
  datatype Reply = Reply(http: int, row: Row) | Refused(code: string) | Died

  /** The row's persisted transaction has been sent. */
  ghost predicate SentFor(sends: set<(RowKey, Prepared)>, key: RowKey, row: Row) {
    row.tx.Some? && row.txid.Some? && (key, Prepared(row.tx.value, row.txid.value)) in sends
  }

  /** A thrown code either says nothing final, or the row's transaction is doomed. */
  ghost predicate Justified(n: Net, row: Row, code: string) {
    row.tx.Some? ==>
      && row.txid.Some?
      && (Status(code) == 503 || code == FAULT || (Doomed(n, row.txid.value) && Status(code) != 503))
  }

  /** The code is the last that the outside has answered with since. */
  ghost predicate LastTold(was: seq<string>, now: seq<string>, code: string) {
    was <= now && |was| < |now| && now[|now| - 1] == code
  }

  /** The operation id is taken on the ledger by a transaction that is not the row's own. */
  ghost predicate Foreign(n: Net, key: RowKey, row: Row) {
    (key.0.msp, key.1) in n.operations
    && var r := n.operations[(key.0.msp, key.1)];
       !(row.txid == Some(r.tx) && r.batch == row.request.batch && r.command == row.request.command)
  }

  /** Why a pass over a row fails: the outside said so last, or the operation id is taken. */
  ghost predicate Cause(n: Net, key: RowKey, row: Row, was: seq<string>, now: seq<string>, code: string) {
    LastTold(was, now, code) || (code == REUSED && now == was && Foreign(n, key, row))
  }

  /** The failed row carries the cause of its failure. */
  ghost predicate Explained(n: Net, key: RowKey, row: Row, was: seq<string>, now: seq<string>) {
    row.state.Failed? ==> row.error.Some? && Cause(n, key, row, was, now, row.error.value)
  }

  /** What was told last leaves the outcome open: only that there is no receipt yet, an outage or an internal error. */
  ghost predicate Undecided(was: seq<string>, now: seq<string>) {
    now == was + [NOT_FOUND]
    || (was <= now && |was| < |now| && (Status(now[|now| - 1]) == 503 || now[|now| - 1] == FAULT))
  }

  /** A pass ends with an error only for a cause. */
  ghost predicate Caused(n: Net, key: RowKey, row: Row, was: seq<string>, now: seq<string>, end: Option<End>) {
    was <= now && (end.Some? && end.value.Thrown? ==> Cause(n, key, row, was, now, end.value.code))
  }

  /** The outside has answered with this code since. */
  ghost predicate Told(was: seq<string>, now: seq<string>, code: string) {
    exists i :: |was| <= i < |now| && now[i] == code
  }

  /** Every row that failed since then failed with a code told since then, or because its operation id is taken. */
  ghost predicate FailuresTold(ops: map<RowKey, Row>, rows: map<RowKey, Row>, was: seq<string>, now: seq<string>) {
    was <= now
    && forall key {:trigger key in rows} ::
      key in rows && rows[key].state.Failed? && !(key in ops && ops[key] == rows[key]) ==>
        rows[key].error.Some? && (rows[key].error.value == REUSED || Told(was, now, rows[key].error.value))
  }

  lemma NothingFailed(ops: map<RowKey, Row>, told: seq<string>)
    ensures FailuresTold(ops, ops, told, told)
  {
  }

  lemma FailuresOn(ops: map<RowKey, Row>, mid: map<RowKey, Row>, rows: map<RowKey, Row>, was: seq<string>,
                   since: seq<string>, now: seq<string>)
    requires FailuresTold(ops, mid, was, since) && FailuresTold(mid, rows, since, now)
    ensures FailuresTold(ops, rows, was, now)
  {
    hide Told;
    forall code | Told(was, since, code) ensures Told(was, now, code) {
      ToldEarlier(was, since, now, code);
    }
    forall code | Told(since, now, code) ensures Told(was, now, code) {
      ToldLater(was, since, now, code);
    }
    forall key | key in rows && rows[key].state.Failed? && !(key in ops && ops[key] == rows[key])
      ensures rows[key].error.Some? && (rows[key].error.value == REUSED || Told(was, now, rows[key].error.value))
    {
      assert key in mid || key !in mid;
    }
  }

  lemma ToldEarlier(was: seq<string>, since: seq<string>, now: seq<string>, code: string)
    requires since <= now && Told(was, since, code)
    ensures Told(was, now, code)
  {
    var i :| |was| <= i < |since| && since[i] == code;
    assert now[i] == code;
  }

  lemma ToldLater(was: seq<string>, since: seq<string>, now: seq<string>, code: string)
    requires was <= since && Told(since, now, code)
    ensures Told(was, now, code)
  {
  }

  /** One explained row, the others as they were. */
  lemma OneFailure(n: Net, ops: map<RowKey, Row>, rows: map<RowKey, Row>, key: RowKey, was: seq<string>,
                   now: seq<string>)
    requires OthersKept(ops, rows, key) && was <= now
    requires key in rows && !(key in ops && ops[key] == rows[key]) ==> Explained(n, key, rows[key], was, now)
    ensures FailuresTold(ops, rows, was, now)
  {
    hide Foreign;
  }

  lemma OneAdvanced(n: Net, ops: map<RowKey, Row>, mid: map<RowKey, Row>, rows: map<RowKey, Row>, key: RowKey,
                    was: seq<string>, since: seq<string>, now: seq<string>)
    requires FailuresTold(ops, mid, was, since) && since <= now
    requires OnlyRow(mid, rows, key) && key in rows && Explained(n, key, rows[key], since, now)
    ensures FailuresTold(ops, rows, was, now)
  {
    hide FailuresTold, Explained;
    OneFailure(n, mid, rows, key, since, now);
    FailuresOn(ops, mid, rows, was, since, now);
  }

  /** Failing a row with the code that ended its pass explains it, and an outage never makes the failure final. */
  lemma FailureExplained(n: Net, key: RowKey, row: Row, was: seq<string>, now: seq<string>, code: string)
    requires Cause(n, key, row, was, now, code)
    ensures var failed := row.(state := RowState.Failed, error := Some(code));
            && Explained(n, key, failed, was, now)
            && (LastTold(was, now, OUTAGE) ==> !FinalFailure(failed))
  {
    hide Status;
    OutageStatus();
  }

  /** A code that leaves a row as it is was told by the outside. */
  lemma LeftUndecided(n: Net, key: RowKey, row: Row, was: seq<string>, now: seq<string>, code: string)
    requires Cause(n, key, row, was, now, code) && (Status(code) == 503 || code == FAULT)
    ensures Undecided(was, now)
  {
    hide Status;
    FinalStatuses(REUSED);
  }

  /** The receipt of GetOperation is this row's own, or the operation id is taken by another transaction. */
  lemma ReceiptIsOurs(n: Net, key: RowKey, row: Row, receipt: Receipt)
    requires NetOk(n) && RowOk(n, key, row) && (key.0.msp, key.1) in n.operations
             && n.operations[(key.0.msp, key.1)] == receipt
    ensures row.txid.Some? && receipt.tx == row.txid.value ==>
              && IsValid(n, row.txid.value) && receipt == n.endorsed[row.txid.value].receipt
              && receipt.batch == row.request.batch && receipt.command == row.request.command
    ensures row.txid.Some? && receipt.tx != row.txid.value ==> Doomed(n, row.txid.value)
  {
  }

  lemma RowIsOk(w: World, key: RowKey)
    requires WorldOk(w) && key in w.ops
    ensures RowOk(w.net, key, w.ops[key])
  {
  }

  lemma LookupFailed(row: Row, key: RowKey, n: Net, code: string)
    requires code in {NOT_FOUND, OUTAGE, FAULT} && code != NOT_FOUND && RowOk(n, key, row)
    ensures Justified(n, row, code)
  {
    OutageStatus();
    hide Status, Bound, Doomed, IsValid;
  }

  /** A valid transaction's receipt is found under its slot by every truthful query from then on. */
  lemma ValidIsFound(n: Net, m: Net, key: RowKey, row: Row)
    requires NetOk(n) && NetOk(m) && Grows(n, m) && RowOk(n, key, row) && row.txid.Some?
    ensures IsValid(n, row.txid.value) ==>
              && IsValid(m, row.txid.value)
              && (key.0.msp, key.1) in m.operations && m.operations[(key.0.msp, key.1)].tx == row.txid.value
    ensures row.txid.value in n.status && !IsValid(n, row.txid.value) ==>
              row.txid.value in m.status && !IsValid(m, row.txid.value)
  {
    hide Status, Doomed;
  }

  lemma OutcomeJustifies(n: Net, row: Row, code: string)
    requires row.tx.Some? && row.txid.Some? && TellsOutcome(n, row.txid.value, Error(code))
    ensures Justified(n, row, code)
  {
    OutageStatus();
    if code != OUTAGE {
      FinalStatuses(code);
    }
    hide Status;
  }

  lemma SettledIsTold(n: Net, row: Row, code: string)
    requires row.txid.Some? && TellsOutcome(n, row.txid.value, Error(code)) && code in {STALE, INVALID}
    ensures !IsValid(n, row.txid.value) && Status(code) != 503 && code != FAULT
  {
    hide Status;
    FinalStatuses(code);
    assert STALE[0] != OUTAGE[0] && INVALID[7] != OUTAGE[7];
  }

  lemma FailedError(w: World, key: RowKey)
    requires WorldOk(w) && key in w.ops && w.ops[key].state.Failed?
    ensures w.ops[key].error.Some?
  {
    RowIsOk(w, key);
  }

  lemma RequestLasts(w: World, v: World, key: RowKey)
    requires WorldLasts(w, v) && key in w.ops
    ensures key in v.ops && v.ops[key].request == w.ops[key].request
  {
  }

  lemma PreparedStep(w: World, key: RowKey, text: string)
    requires WorldOk(w) && key in w.ops && w.ops[key].prepared.None? && !Terminal(w.ops[key].state)
    ensures var v := w.(ops := w.ops[key := w.ops[key].(prepared := Some(text))]); WorldOk(v) && WorldLasts(w, v)
  {
    RowIsOk(w, key);
    hide WorldOk, WorldLasts, Status, Doomed, IsValid;
    RowStep(w, key, w.ops[key].(prepared := Some(text)));
  }

  /** A fresh endorsement is persisted; no other row can have its transaction id. */
  lemma TransactionStep(before: World, w: World, key: RowKey, p: Prepared)
    requires WorldOk(before) && WorldOk(w) && w.ops == before.ops && key in w.ops && w.ops[key].tx.None?
             && !Terminal(w.ops[key].state)
    requires p.txid !in before.net.endorsed && p.txid in w.net.endorsed
    requires var e := w.net.endorsed[p.txid];
             e.bytes == p.bytes && w.ops[key].prepared == Some(e.inputs) && Slot(e.receipt) == (key.0.msp, key.1)
             && e.receipt.batch == w.ops[key].request.batch && e.receipt.command == w.ops[key].request.command
    ensures var v := w.(ops := w.ops[key := w.ops[key].(tx := Some(p.bytes), txid := Some(p.txid))]);
            WorldOk(v) && WorldLasts(w, v)
  {
    hide WorldOk, WorldLasts, Status, Doomed, IsValid;
    RowIsOk(w, key);
    forall other | other in w.ops ensures w.ops[other].txid != Some(p.txid) {
      RowIsOk(before, other);
    }
    RowStep(w, key, w.ops[key].(tx := Some(p.bytes), txid := Some(p.txid)));
  }

  lemma SubmittedStep(w: World, key: RowKey)
    requires WorldOk(w) && key in w.ops && w.ops[key].tx.Some? && !Terminal(w.ops[key].state)
    ensures var v := w.(ops := w.ops[key := w.ops[key].(state := RowState.SubmittedUnknown)]);
            WorldOk(v) && WorldLasts(w, v)
  {
    RowIsOk(w, key);
    hide WorldOk, WorldLasts, Status, Doomed, IsValid;
    RowStep(w, key, w.ops[key].(state := RowState.SubmittedUnknown));
  }

  /** A row is failed only when its transaction, if it has one, is doomed. */
  lemma FailedStep(w: World, key: RowKey, code: string)
    requires WorldOk(w) && key in w.ops && !Terminal(w.ops[key].state) && Justified(w.net, w.ops[key], code)
    requires w.ops[key].tx.Some? ==> Status(code) != 503 && code != FAULT
    ensures var v := w.(ops := w.ops[key := w.ops[key].(state := RowState.Failed, error := Some(code))]);
            WorldOk(v) && WorldLasts(w, v)
  {
    hide WorldOk, WorldLasts, Status, Doomed, IsValid;
    RowIsOk(w, key);
    RowStep(w, key, w.ops[key].(state := RowState.Failed, error := Some(code)));
  }

  /** Only a failed row without a transaction is ever revived. */
  lemma RetryStep(w: World, key: RowKey)
    requires WorldOk(w) && key in w.ops && w.ops[key].state.Failed? && w.ops[key].error.Some?
    requires !FinalFailure(w.ops[key])
    ensures var v := w.(ops := w.ops[key := w.ops[key].(state := RowState.Pending, error := None)]);
            WorldOk(v) && WorldLasts(w, v)
  {
    RowIsOk(w, key);
    hide WorldOk, WorldLasts, Status, Doomed, IsValid;
    RowStep(w, key, w.ops[key].(state := RowState.Pending, error := None));
  }

  // ---------------------------------------------------------- recovery facts

  /** The row's transaction is settled. */
  ghost predicate SettledFor(n: Net, row: Row) {
    row.txid.Some? && row.txid.value in n.status
  }

  /** The row has taken the outcome of its settled transaction. */
  ghost predicate Settles(n: Net, row: Row, now: Row) {
    row.txid.Some? && now.state == if IsValid(n, row.txid.value) then RowState.Committed else RowState.Failed
  }

  lemma TerminalSettles(n: Net, key: RowKey, row: Row)
    requires RowOk(n, key, row) && NetOk(n) && Terminal(row.state) && SettledFor(n, row)
    ensures Settles(n, row, row)
  {
    hide Status;
  }

  lemma StatusLasts(w: World, v: World, row: Row)
    requires WorldLasts(w, v) && row.txid.Some?
    ensures SettledFor(w.net, row) ==>
              SettledFor(v.net, row) && (IsValid(w.net, row.txid.value) <==> IsValid(v.net, row.txid.value))
  {
    hide RowsLast;
  }

  /** Settled at the start of the pass is settled when the row's turn comes, with the same outcome. */
  lemma SettlesSince(start: World, was: World, key: RowKey, now: Row)
    requires WorldLasts(start, was) && key in start.ops && key in was.ops && was.ops[key] == start.ops[key]
    ensures SettledFor(start.net, start.ops[key]) ==> SettledFor(was.net, was.ops[key])
    ensures SettledFor(start.net, start.ops[key]) && Settles(was.net, was.ops[key], now) ==>
              Settles(start.net, start.ops[key], now)
  {
    hide RowsLast;
  }

  /** A request that is not tried: another one under the same id, or one whose failure is final, by the row's error. */
  ghost predicate RefusedAs(ops: map<RowKey, Row>, key: RowKey, request: Request, r: Reply) {
    r.Refused? && key in ops
    && (ops[key].request != request ==> r.code == REUSED)
    && (ops[key].request == request ==> ops[key].error == Some(r.code))
  }

  /** A try is refused exactly when the row failed, with the row's error. */
  ghost predicate FailedAs(ops: map<RowKey, Row>, key: RowKey, r: Reply) {
    key in ops && (r.Refused? <==> ops[key].state.Failed?) && (r.Refused? ==> ops[key].error == Some(r.code))
  }

  class Workflow {
    const store: Store
    const network: Network
    ghost var sends: set<(RowKey, Prepared)>

    constructor (reachable: bool)
      ensures Valid() && fresh(store) && fresh(network) && WorldNow() == World(EMPTY_NET, map[], map[], {})
      ensures network.reachable == reachable
    {
      store := new Store();
      network := new Network(reachable);
      sends := {};
    }

    ghost function WorldNow(): World
      reads this, store, network
    {
      World(network.now, store.operations, store.evidence, sends)
    }

    ghost predicate Valid()
      reads this, store, network
    {
      WorldOk(WorldNow())
    }

    /** Fetch, check and archive the evidence of a command; nothing is archived for a committed row. */
    method PrepareEvidence(key: RowKey) returns (r: Answer<string>)
      requires Valid() && key in store.operations && !store.operations[key].state.Committed?
      modifies store`evidence, network`now, network`told
      ensures Valid() && WorldLasts(old(WorldNow()), WorldNow())
      ensures Tells(old(network.told), network.told, r)
    {
      hide WorldOk, WorldLasts;
      LastsItself(WorldNow());
      var documents: nat := *;
      while documents > 0
        invariant Valid() && WorldLasts(old(WorldNow()), WorldNow()) && store.operations == old(store.operations)
        invariant network.told == old(network.told)
      {
        documents := documents - 1;
        ghost var before := WorldNow();
        Wait();
        ghost var was := WorldNow();
        LastsOn(old(WorldNow()), before, was);
        var document: Id, bundle: string := *, *;
        ArchiveStep(was, key, document, bundle);
        LastsItself(was);
        store.Archive(key, document, bundle);
        assert WorldNow() == was.(evidence := store.evidence);
        LastsOn(old(WorldNow()), was, WorldNow());
      }
      var fails: bool, code: string, text: string := *, *, *;
      r := if fails then Error(code) else Got(text);
      network.told := if fails then network.told + [code] else network.told;
    }

    /** Time passes between two steps. */
    method Wait()
      requires Valid()
      modifies network`now
      ensures Valid() && WorldLasts(old(WorldNow()), WorldNow())
      ensures Grows(old(network.now), network.now)
    {
      ghost var was := WorldNow();
      hide NetOk, Grows, RowsOk, EvidenceOk, SendsOk;
      network.Elapse();
      NetStep(was, network.now);
    }

    // --------------------------------------------------------------- one row

    /** Ask the ledger whether the operation is already there; only our own transaction's receipt is adopted. */
    method Lookup(key: RowKey) returns (end: Option<End>)
      requires Valid() && key in store.operations && !Terminal(store.operations[key].state)
      modifies store, network`now, network`told
      ensures Valid() && WorldLasts(old(WorldNow()), WorldNow())
              && OnlyRow(old(store.operations), store.operations, key)
      ensures end == Some(Finished) ==> store.operations[key].state.Committed?
      ensures end != Some(Finished) ==> store.operations == old(store.operations)
      ensures end.Some? && end.value.Thrown? ==> Justified(network.now, store.operations[key], end.value.code)
      ensures Caused(network.now, key, old(store.operations)[key], old(network.told), network.told, end)
      ensures end.None? ==> network.told == old(network.told) + [NOT_FOUND]
      ensures network.reachable && end != Some(Crashed) ==>
                LookupResolves(old(network.now), old(store.operations)[key], end)
    {
      hide NetOk, Grows, RowsOk, EvidenceOk, SendsOk, RowsLast, Status;
      ghost var was := WorldNow();
      var row := store.operations[key];
      var crash: bool, crashAgain: bool := *, *;
      LastsItself(was);
      if crash {
        return Some(Crashed);
      }
      var q := network.GetOperation(key.0, key.1);
      NetStep(was, network.now);
      ghost var asked := was.(net := network.now);
      RowIsOk(asked, key);
      RowIsOk(was, key);
      if row.txid.Some? {
        ValidIsFound(was.net, asked.net, key, row);
      }
      match q {
        case Error(code) =>
          if code != NOT_FOUND {
            LookupFailed(row, key, asked.net, code);
            return Some(Thrown(code));
          }
          end := None;
        case Got(receipt) =>
          ReceiptIsOurs(asked.net, key, row, receipt);
          FinalStatuses(REUSED);
          if receipt.batch != row.request.batch || receipt.command != row.request.command {
            return Some(Thrown(REUSED));
          }
          if row.txid.Some? && receipt.tx != row.txid.value {
            return Some(Thrown(REUSED));
          }
          if row.txid.None? {
            return Some(Thrown(REUSED));
          }
          if crashAgain {
            return Some(Crashed);
          }
          CommitStep(asked, key, receipt);
          store.Commit(key, receipt);
          LastsOn(was, asked, WorldNow());
          end := Some(Finished);
      }
    }

    /**
     * Have a persisted transaction: the one already there, if its outcome is
     * still unknown, or a fresh endorsement that is persisted before anything is sent.
     */
    method Obtain(key: RowKey) returns (end: Option<End>, p: Prepared)
      requires Valid() && key in store.operations && !Terminal(store.operations[key].state)
      modifies store, network`now, network`told
      ensures Valid() && WorldLasts(old(WorldNow()), WorldNow())
              && OnlyRow(old(store.operations), store.operations, key)
      ensures end == Some(Finished) ==> store.operations[key].state.Committed?
      ensures end != Some(Finished) ==> store.operations[key].state == old(store.operations)[key].state
      ensures end.None? ==> store.operations[key].tx == Some(p.bytes) && store.operations[key].txid == Some(p.txid)
      ensures end.Some? && end.value.Thrown? ==> Justified(network.now, store.operations[key], end.value.code)
      ensures old(network.told) <= network.told
      ensures end.Some? && end.value.Thrown? ==> LastTold(old(network.told), network.told, end.value.code)
      ensures end.None? ==> network.told == old(network.told)
      ensures network.reachable && end != Some(Crashed) ==>
                ObtainResolves(old(network.now), old(store.operations)[key], end)
    {
      var row := store.operations[key];
      RowIsOk(WorldNow(), key);
      if row.tx.Some? {
        p := Prepared(row.tx.value, row.txid.value);
        end := Resume(key, p);
      } else {
        end, p := Begin(key);
      }
    }

    /** The persisted transaction: take its outcome if it is known. */
    method Resume(key: RowKey, p: Prepared) returns (end: Option<End>)
      requires Valid() && key in store.operations && !Terminal(store.operations[key].state)
      requires store.operations[key].tx == Some(p.bytes) && store.operations[key].txid == Some(p.txid)
      modifies store, network`now, network`told
      ensures Valid() && WorldLasts(old(WorldNow()), WorldNow())
              && OnlyRow(old(store.operations), store.operations, key)
      ensures end == Some(Finished) ==> store.operations[key].state.Committed?
      ensures end != Some(Finished) ==> store.operations == old(store.operations)
      ensures end.Some? && end.value.Thrown? ==> Justified(network.now, store.operations[key], end.value.code)
      ensures old(network.told) <= network.told
      ensures end.Some? && end.value.Thrown? ==> LastTold(old(network.told), network.told, end.value.code)
      ensures end.None? ==> network.told == old(network.told)
      ensures network.reachable && end != Some(Crashed) ==>
                ObtainResolves(old(network.now), old(store.operations)[key], end)
    {
      hide NetOk, Grows, RowsOk, EvidenceOk, SendsOk, RowsLast, Status;
      ghost var was := WorldNow();
      var row := store.operations[key];
      var crash: bool, crashAgain: bool := *, *;
      LastsItself(was);
      if crash {
        return Some(Crashed);
      }
      var known := network.Reconcile(p);
      NetStep(was, network.now);
      ghost var asked := was.(net := network.now);
      RowIsOk(was, key);
      RowIsOk(asked, key);
      ValidIsFound(was.net, asked.net, key, row);
      match known {
        case None => end := None;
        case Some(Error(code)) =>
          OutcomeJustifies(asked.net, row, code);
          if network.reachable {
            SettledIsTold(asked.net, row, code);
          }
          end := Some(Thrown(code));
        case Some(Got(receipt)) =>
          if crashAgain {
            return Some(Crashed);
          }
          CommitStep(asked, key, receipt);
          store.Commit(key, receipt);
          LastsOn(was, asked, WorldNow());
          end := Some(Finished);
      }
    }

    /** No transaction yet: prepare and persist the private inputs, endorse, persist the transaction. */
    method Begin(key: RowKey) returns (end: Option<End>, p: Prepared)
      requires Valid() && key in store.operations && !Terminal(store.operations[key].state)
               && store.operations[key].tx.None?
      modifies store, network`now, network`told
      ensures Valid() && WorldLasts(old(WorldNow()), WorldNow())
              && OnlyRow(old(store.operations), store.operations, key)
      ensures store.operations[key].state == old(store.operations)[key].state
      ensures end != Some(Finished)
      ensures end.None? ==> store.operations[key].tx == Some(p.bytes) && store.operations[key].txid == Some(p.txid)
      ensures end.Some? ==> store.operations[key].tx.None?
      ensures old(network.told) <= network.told
      ensures end.Some? && end.value.Thrown? ==> LastTold(old(network.told), network.told, end.value.code)
      ensures end.None? ==> store.operations[key].prepared.Some? && network.told == old(network.told)
    {
      hide NetOk, Grows, RowsOk, EvidenceOk, SendsOk, RowsLast, Status;
      ghost var start := WorldNow();
      p := Prepared("", "");
      var crash: bool, crashAgain: bool, crashLast: bool := *, *, *;
      LastsItself(start);
      RowIsOk(start, key);
      if store.operations[key].prepared.None? {
        var text := PrepareEvidence(key);
        if text.Error? {
          return Some(Thrown(text.code)), p;
        }
        if crash {
          return Some(Crashed), p;
        }
        ghost var was := WorldNow();
        PreparedStep(was, key, text.value);
        store.SetPrepared(key, text.value);
        LastsOn(start, was, WorldNow());
        if crashAgain {
          return Some(Crashed), p;
        }
      }
      ghost var ready := WorldNow();
      var row := store.operations[key];
      var endorsed := network.Endorse(key.0, key.1, row.request.batch, row.request.command, row.prepared.value);
      NetStep(ready, network.now);
      ghost var known := WorldNow();
      LastsOn(start, ready, known);
      if endorsed.Error? {
        return Some(Thrown(endorsed.code)), p;
      }
      if crashLast {
        return Some(Crashed), p;
      }
      TransactionStep(ready, known, key, endorsed.value);
      store.SetTransaction(key, endorsed.value);
      LastsOn(start, known, WorldNow());
      p := endorsed.value;
      end := None;
    }

    /** Mark the row, send its persisted transaction, and promote it when the outcome is known and valid. */
    method Dispatch(key: RowKey, p: Prepared) returns (end: End)
      requires Valid() && key in store.operations && !Terminal(store.operations[key].state)
      requires store.operations[key].tx == Some(p.bytes) && store.operations[key].txid == Some(p.txid)
      modifies this`sends, store, network`now, network`told
      ensures Valid() && WorldLasts(old(WorldNow()), WorldNow())
              && OnlyRow(old(store.operations), store.operations, key)
      ensures !Terminal(store.operations[key].state) || store.operations[key].state.Committed?
      ensures end.Thrown? ==>
                Justified(network.now, store.operations[key], end.code) && !Terminal(store.operations[key].state)
      ensures !end.Crashed? ==> (key, p) in sends
      ensures old(network.told) <= network.told
      ensures end.Thrown? ==> LastTold(old(network.told), network.told, end.code)
      ensures end.Finished? ==> network.told == old(network.told)
      ensures !Terminal(store.operations[key].state) ==>
                store.operations[key].tx == Some(p.bytes) && store.operations[key].txid == Some(p.txid)
    {
      hide NetOk, Grows, RowsOk, EvidenceOk, SendsOk, RowsLast, Status;
      ghost var start := WorldNow();
      var crash: bool, crashAgain: bool, crashLast: bool := *, *, *;
      LastsItself(start);
      if crash {
        return Crashed;
      }
      RowIsOk(start, key);
      SubmittedStep(start, key);
      store.SetSubmitted(key);
      ghost var marked := WorldNow();
      if crashAgain {
        return Crashed;
      }
      SendStep(marked, key, p);
      sends := sends + {(key, p)};
      ghost var sending := WorldNow();
      LastsOn(start, marked, sending);
      var known := network.Submit(p);
      NetStep(sending, network.now);
      ghost var sent := WorldNow();
      LastsOn(start, sending, sent);
      RowIsOk(sent, key);
      match known {
        case None => end := Finished;
        case Some(Error(code)) =>
          OutcomeJustifies(sent.net, store.operations[key], code);
          end := Thrown(code);
        case Some(Got(receipt)) =>
          if crashLast {
            return Crashed;
          }
          CommitStep(sent, key, receipt);
          store.Commit(key, receipt);
          LastsOn(start, sent, WorldNow());
          end := Finished;
      }
    }

    /** One pass over one row, up to the error it throws. */
    method Attempt(key: RowKey) returns (end: End)
      requires Valid() && key in store.operations && !Terminal(store.operations[key].state)
      modifies this`sends, store, network`now, network`told
      ensures Valid() && WorldLasts(old(WorldNow()), WorldNow())
              && OnlyRow(old(store.operations), store.operations, key)
      ensures !Terminal(store.operations[key].state) || store.operations[key].state.Committed?
      ensures end.Thrown? ==>
                Justified(network.now, store.operations[key], end.code) && !Terminal(store.operations[key].state)
      ensures network.reachable && !end.Crashed? ==>
                AttemptResolves(old(network.now), old(store.operations)[key], store.operations[key], end)
      ensures end.Finished? && !Terminal(store.operations[key].state) ==> SentFor(sends, key, store.operations[key])
      ensures Caused(network.now, key, store.operations[key], old(network.told), network.told, Some(end))
      ensures end.Finished? && !Terminal(store.operations[key].state) ==>
                network.told == old(network.told) + [NOT_FOUND]
    {
      hide NetOk, Grows, RowsOk, EvidenceOk, SendsOk, RowsLast, Status, WorldOk, Justified;
      ghost var start := WorldNow();
      ghost var was := store.operations[key];
      var found := Lookup(key);
      if found.Some? {
        if found.value.Thrown? {
          FinalStatuses(REUSED);
        }
        return found.value;
      }
      ghost var looked := WorldNow();
      if was.txid.Some? {
        StatusLasts(start, looked, was);
      }
      var obtained, p := Obtain(key);
      ghost var got := WorldNow();
      LastsOn(start, looked, got);
      if obtained.Some? {
        return obtained.value;
      }
      end := Dispatch(key, p);
      LastsOn(start, got, WorldNow());
    }

    /** One pass over one row; false when the process died in the middle of it. */
    method Advance(key: RowKey) returns (alive: bool)
      requires Valid() && key in store.operations
      modifies this`sends, store, network`now, network`told
      ensures Valid() && WorldLasts(old(WorldNow()), WorldNow())
              && OnlyRow(old(store.operations), store.operations, key)
      ensures alive && network.reachable && SettledFor(old(network.now), old(store.operations)[key]) ==>
                Settles(old(network.now), old(store.operations)[key], store.operations[key])
      ensures alive && !Terminal(store.operations[key].state) ==> store.operations[key].tx.Some?
      ensures old(network.told) <= network.told
      ensures !Terminal(old(store.operations)[key].state) ==>
                Explained(network.now, key, store.operations[key], old(network.told), network.told)
      ensures alive && !Terminal(store.operations[key].state) ==> Undecided(old(network.told), network.told)
      ensures Terminal(old(store.operations)[key].state) ==>
                network.told == old(network.told) && store.operations == old(store.operations)
      ensures alive && LastTold(old(network.told), network.told, OUTAGE) ==> !FinalFailure(store.operations[key])
    {
      hide NetOk, Grows, RowsOk, EvidenceOk, SendsOk, RowsLast, Status, Cause, Bound, Doomed, IsValid, RowLasts;
      ghost var start := WorldNow();
      LastsItself(start);
      RowIsOk(start, key);
      if Terminal(store.operations[key].state) {
        if SettledFor(start.net, store.operations[key]) {
          TerminalSettles(start.net, key, store.operations[key]);
        }
        return true;
      }
      var end := Attempt(key);
      if end.Crashed? {
        return false;
      }
      if end.Thrown? {
        var current := store.operations[key];
        if current.tx.Some? && (Status(end.code) == 503 || end.code == FAULT) {
          LeftUndecided(network.now, key, current, old(network.told), network.told, end.code);
          return true;
        }
        ghost var tried := WorldNow();
        var crash: bool := *;
        if crash {
          return false;
        }
        RowIsOk(tried, key);
        FailedStep(tried, key, end.code);
        FailureExplained(network.now, key, current, old(network.told), network.told, end.code);
        store.SetFailed(key, end.code);
        LastsOn(start, tried, WorldNow());
      }
      alive := true;
    }

    /** The recovery pass: every unresolved row, in any order, until done or dead. */
    method Recover() returns (alive: bool)
      requires Valid()
      modifies this`sends, store, network`now, network`told
      ensures Valid() && WorldLasts(old(WorldNow()), WorldNow())
      ensures alive && network.reachable ==>
                forall key :: key in old(store.operations) && !Terminal(old(store.operations)[key].state)
                              && SettledFor(old(network.now), old(store.operations)[key]) ==>
                  key in store.operations
                    && Settles(old(network.now), old(store.operations)[key], store.operations[key])
      ensures FailuresTold(old(store.operations), store.operations, old(network.told), network.told)
    {
      hide NetOk, Grows, RowsOk, EvidenceOk, SendsOk, RowOk, Status, WorldOk, Settles, SettledFor, FailuresTold,
           Undecided, Explained, LastTold, FinalFailure, RowLasts, Grows;
      ghost var start, told := WorldNow(), network.told;
      LastsItself(start);
      NothingFailed(start.ops, told);
      var left := set key | key in store.operations && !Terminal(store.operations[key].state);
      ghost var all := left;
      while left != {}
        invariant Valid() && WorldLasts(start, WorldNow())
        invariant FailuresTold(start.ops, store.operations, told, network.told)
        invariant forall key :: key in left ==> key in all
        invariant network.reachable == old(network.reachable)
        invariant forall key :: key in all ==> key in store.operations && key in start.ops
        invariant forall key :: key in left ==> store.operations[key] == start.ops[key]
        invariant network.reachable ==>
                    forall key :: key in all && key !in left && SettledFor(start.net, start.ops[key]) ==>
                      Settles(start.net, start.ops[key], store.operations[key])
        decreases |left|
      {
        var key :| key in left;
        left := left - {key};
        ghost var was, heard := WorldNow(), network.told;
        alive := Advance(key);
        LastsOn(start, was, WorldNow());
        OneAdvanced(network.now, start.ops, was.ops, store.operations, key, told, heard, network.told);
        if !alive {
          return;
        }
        SettlesSince(start, was, key, store.operations[key]);
      }
      alive := true;
    }

    /** Find or stage the row of a valid request and revive a retryable failure, or say why it is not tried. */
    method Enter(key: RowKey, request: Request) returns (refused: Option<string>)
      requires Valid() && request.op == key.1
      modifies store
      ensures Valid() && WorldLasts(old(WorldNow()), WorldNow())
              && OthersKept(old(store.operations), store.operations, key)
      ensures refused.None? <==> (key in old(store.operations) ==>
                                    old(store.operations)[key].request == request
                                    && !FinalFailure(old(store.operations)[key]))
      ensures refused.Some? ==>
                RefusedAs(old(store.operations), key, request, Refused(refused.value)) && WorldNow() == old(WorldNow())
      ensures key in store.operations
      ensures refused.None? ==> store.operations[key].request == request && !store.operations[key].state.Failed?
      ensures key in old(store.operations) && !Terminal(old(store.operations)[key].state) ==>
                store.operations[key] == old(store.operations)[key]
    {
      hide WorldOk, WorldLasts, Status, RowLasts;
      ghost var start := WorldNow();
      LastsItself(start);
      if key !in store.operations {
        StageStep(start, key, Row(request, RowState.Pending, None, None, None, None, None));
      }
      var staged := store.Stage(key, request);
      if staged.Error? {
        return Some(staged.code);
      }
      ghost var ready := WorldNow();
      var row := staged.value;
      if row.state.Failed? {
        FailedError(ready, key);
        var error := row.error.value;
        var corrected := request.command.EvaluatePrice? && error == "POLICY_MISMATCH" && row.tx.None?;
        if Status(error) != 503 && !corrected {
          return Some(error);
        }
        RetryStep(ready, key);
        store.Retry(key);
        LastsOn(start, ready, WorldNow());
      }
      refused := None;
    }

    /** A valid request: stage it, revive a retryable failure, make one pass, report the row. */
    method Serve(key: RowKey, request: Request) returns (r: Reply, ghost tried: bool)
      requires Valid() && request.op == key.1
      modifies this`sends, store, network`now, network`told
      ensures Valid() && WorldLasts(old(WorldNow()), WorldNow())
              && OthersKept(old(store.operations), store.operations, key)
      ensures r.Reply? ==>
                && key in store.operations && r.row == store.operations[key] && r.row.request == request
                && (r.http in {200, 201} <==> r.row.state.Committed?)
                && (r.http == 200 ==> key in old(store.operations))
                && (r.http == 201 ==> key !in old(store.operations))
                && (r.http !in {200, 201} ==> r.http == 202 && !Terminal(r.row.state) && r.row.tx.Some?)
      ensures old(network.told) <= network.told
      ensures !tried ==> RefusedAs(old(store.operations), key, request, r)
      ensures tried && !r.Died? ==> FailedAs(store.operations, key, r)
      ensures tried && key in store.operations ==>
                Explained(network.now, key, store.operations[key], old(network.told), network.told)
      ensures tried <==> (key in old(store.operations) ==>
                            old(store.operations)[key].request == request && !FinalFailure(old(store.operations)[key]))
      ensures !tried ==> WorldNow() == old(WorldNow()) && network.told == old(network.told)
      ensures network.reachable && !r.Died? && key in old(store.operations)
              && old(store.operations)[key].request == request
              && !Terminal(old(store.operations)[key].state)
              && SettledFor(old(network.now), old(store.operations)[key]) ==>
                key in store.operations && Settles(old(network.now), old(store.operations)[key], store.operations[key])
      ensures key in store.operations && (key !in old(store.operations) ==> store.operations[key].request == request)
    {
      hide WorldOk, WorldLasts, Status, SettledFor, Settles, RowLasts, Cause, Undecided, LastTold, Grows, RefusedAs;
      ghost var start := WorldNow();
      LastsItself(start);
      var existing := key in store.operations;
      var refused := Enter(key, request);
      if refused.Some? {
        return Refused(refused.value), false;
      }
      ghost var going := WorldNow();
      var alive := Advance(key);
      LastsOn(start, going, WorldNow());
      RequestLasts(going, WorldNow(), key);
      if !alive {
        return Died, true;
      }
      var row := store.operations[key];
      if row.state.Failed? {
        FailedError(WorldNow(), key);
        return Refused(row.error.value), true;
      }
      r := Reply(if row.state.Committed? then if existing then 200 else 201 else 202, row);
      tried := true;
    }

    /**
     * A client's request. An invalid one is refused as the first failing check says;
     * another request under the same id, or a final failure, is refused without any
     * change; everything else is tried (`tried`), once more or for the first time.
     */
    method Submit(caller: Caller, command: CommandName, path: Option<Id>, id: Id, request: Request)
      returns (r: Reply, ghost tried: bool)
      requires Valid()
      modifies this`sends, store, network`now, network`told
      ensures Valid() && WorldLasts(old(WorldNow()), WorldNow())
              && OthersKept(old(store.operations), store.operations, (caller, id))
      ensures Validate(caller, command, path, id, request).Some? ==>
                r == Refused(Validate(caller, command, path, id, request).value)
      ensures r.Reply? ==>
                && (caller, id) in store.operations && r.row == store.operations[(caller, id)]
                && r.row.request == request
                && (r.http in {200, 201} <==> r.row.state.Committed?)
                && (r.http == 200 ==> (caller, id) in old(store.operations))
                && (r.http == 201 ==> (caller, id) !in old(store.operations))
                && (r.http !in {200, 201} ==> r.http == 202 && !Terminal(r.row.state) && r.row.tx.Some?)
      ensures tried <==> Validate(caller, command, path, id, request).None?
                         && ((caller, id) in old(store.operations) ==>
                               old(store.operations)[(caller, id)].request == request
                               && !FinalFailure(old(store.operations)[(caller, id)]))
      ensures !tried ==> r.Refused? && WorldNow() == old(WorldNow())
      ensures !tried && Validate(caller, command, path, id, request).None? ==>
                RefusedAs(old(store.operations), (caller, id), request, r)
      ensures tried && !r.Died? ==> FailedAs(store.operations, (caller, id), r)
      ensures FailuresTold(old(store.operations), store.operations, old(network.told), network.told)
      ensures network.reachable && !r.Died? && Validate(caller, command, path, id, request).None?
              && (caller, id) in old(store.operations) && old(store.operations)[(caller, id)].request == request
              && !Terminal(old(store.operations)[(caller, id)].state)
              && SettledFor(old(network.now), old(store.operations)[(caller, id)]) ==>
                (caller, id) in store.operations
                && Settles(old(network.now), old(store.operations)[(caller, id)], store.operations[(caller, id)])
      ensures (caller, id) in store.operations && (caller, id) !in old(store.operations) ==>
                store.operations[(caller, id)].request == request
      ensures Validate(caller, command, path, id, request).None? ==> (caller, id) in store.operations
    {
      hide WorldOk, WorldLasts, Validate, FinalFailure, SettledFor, Settles, FailuresTold, FailedAs, Explained;
      var invalid := Validate(caller, command, path, id, request);
      ghost var was, told := store.operations, network.told;
      if invalid.Some? {
        LastsItself(WorldNow());
        NothingFailed(was, told);
        return Refused(invalid.value), false;
      }
      ValidatedIdentity(caller, command, path, id, request);
      r, tried := Serve((caller, id), request);
      if tried {
        OneFailure(network.now, was, store.operations, (caller, id), told, network.told);
      } else {
        NothingFailed(was, told);
      }
    }

    /**
     * Any life of the backend, in which committed rows and final failures are never
     * touched again: requests, recovery passes, crashes at any point, and time passing, in any order. */
    method Live()
      requires Valid()
      modifies this`sends, store, network`now, network`told
      ensures Valid() && WorldLasts(old(WorldNow()), WorldNow())
      ensures forall key {:trigger key in store.operations} ::
                key in old(store.operations)
                && (old(store.operations)[key].state.Committed? || FinalFailure(old(store.operations)[key])) ==>
                  key in store.operations && store.operations[key] == old(store.operations)[key]
      ensures FailuresTold(old(store.operations), store.operations, old(network.told), network.told)
    {
      hide WorldOk, WorldLasts, Grows, FinalFailure, FailuresTold, RefusedAs, FailedAs, OthersKept, Validate;
      LastsItself(WorldNow());
      NothingFailed(store.operations, network.told);
      var steps: nat := *;
      while steps > 0
        invariant Valid() && WorldLasts(old(WorldNow()), WorldNow())
        invariant FailuresTold(old(store.operations), store.operations, old(network.told), network.told)
      {
        steps := steps - 1;
        ghost var was, heard := WorldNow(), network.told;
        if * {
          var caller: Caller, command: CommandName, path: Option<Id>, id: Id, request: Request := *, *, *, *, *;
          var _, _ := Submit(caller, command, path, id, request);
        } else if * {
          var _ := Recover();
        } else {
          Wait();
          NothingFailed(store.operations, heard);
        }
        LastsOn(old(WorldNow()), was, WorldNow());
        FailuresOn(old(store.operations), was.ops, store.operations, old(network.told), heard, network.told);
      }
      FinalsStay(old(WorldNow()), WorldNow());
    }
  }

  /** A committed row, and one with a final failure, is still the same row later. */
  lemma FinalsStay(w: World, now: World)
    requires WorldLasts(w, now)
    ensures forall key {:trigger key in now.ops} ::
              key in w.ops && (w.ops[key].state.Committed? || FinalFailure(w.ops[key])) ==>
                key in now.ops && now.ops[key] == w.ops[key]
  {
    hide FinalFailure, Grows;
  }

  // ---------------------------------------------------------------- theorems

  /**
   * For one operation at most one transaction is ever sent, always with the same
   * bytes, and it is the persisted one.
   */
  lemma OneTransaction(w: World, key: RowKey, p: Prepared, q: Prepared)
    requires WorldOk(w) && (key, p) in w.sends && (key, q) in w.sends
    ensures p == q && key in w.ops && w.ops[key].tx == Some(p.bytes) && w.ops[key].txid == Some(p.txid)
  {
    hide NetOk, RowsOk, EvidenceOk;
  }

  /**
   * A committed row holds the ledger's own receipt of the transaction it
   * persisted, the ledger answers with the same receipt, and exactly then the
   * operation's evidence is promoted.
   */
  lemma CommittedMeans(w: World, key: RowKey, d: Id)
    requires WorldOk(w) && key in w.ops && w.ops[key].state.Committed?
    ensures var row := w.ops[key];
            && row.txid.Some? && row.receipt.Some? && IsValid(w.net, row.txid.value)
            && row.receipt.value.tx == row.txid.value
            && (key.0.msp, key.1) in w.net.operations && w.net.operations[(key.0.msp, key.1)] == row.receipt.value
            && row.receipt.value.batch == row.request.batch && row.receipt.value.command == row.request.command
    ensures d in w.evidence && Belongs(w.evidence[d], key) ==> w.evidence[d].committed
  {
    RowIsOk(w, key);
    hide RowsOk, Status, SendsOk;
  }

  /** Two roles of one organization that use one operation id: at most one of their rows commits. */
  lemma OneRoleWins(w: World, key: RowKey, other: RowKey)
    requires WorldOk(w) && key in w.ops && other in w.ops && key.0.msp == other.0.msp && key.1 == other.1
    requires w.ops[key].state.Committed? && w.ops[other].state.Committed?
    ensures key == other
  {
    CommittedMeans(w, key, NO_ID);
    CommittedMeans(w, other, NO_ID);
    hide NetOk, RowOk, EvidenceOk, SendsOk;
  }

  /** All rows but one are as they were. */
  ghost predicate OthersKept(ops: map<RowKey, Row>, now: map<RowKey, Row>, key: RowKey) {
    forall other {:trigger other in now} {:trigger other in ops} :: other != key ==>
      (other in now <==> other in ops) && (other in ops ==> now[other] == ops[other])
  }

  /** With a truthful ledger: a valid transaction is found and adopted; nothing but a foreign receipt is thrown. */
  ghost predicate LookupResolves(n: Net, row: Row, end: Option<End>) {
    && (row.txid.Some? && IsValid(n, row.txid.value) ==> end == Some(Finished))
    && (row.txid.Some? && row.txid.value in n.status && !IsValid(n, row.txid.value) ==> end != Some(Finished))
    && (end.Some? && end.value.Thrown? ==> end.value.code == REUSED)
  }

  ghost predicate OnlyRow(ops: map<RowKey, Row>, now: map<RowKey, Row>, key: RowKey) {
    now.Keys == ops.Keys && forall other {:trigger now[other]} :: other in ops && other != key ==>
      now[other] == ops[other]
  }

  /** With a truthful ledger: a settled transaction ends the pass, by adoption when valid, by a final error when not. */
  ghost predicate ObtainResolves(n: Net, row: Row, end: Option<End>) {
    && (row.txid.Some? && IsValid(n, row.txid.value) ==> end == Some(Finished))
    && (row.txid.Some? && row.txid.value in n.status && !IsValid(n, row.txid.value) ==>
          end.Some? && end.value.Thrown? && Status(end.value.code) != 503 && end.value.code != FAULT)
  }

  ghost predicate AttemptResolves(n: Net, row: Row, now: Row, end: End) {
    && (row.txid.Some? && IsValid(n, row.txid.value) ==> now.state.Committed?)
    && (row.txid.Some? && row.txid.value in n.status && !IsValid(n, row.txid.value) ==>
          end.Thrown? && Status(end.code) != 503 && end.code != FAULT)
  }
}
