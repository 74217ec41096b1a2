/** The backend's durable operation journal and evidence archive; every method is one atomic update. */
module Journal {
  import opened Types
  import opened Network

  // ----------------------------------------------------------------- statuses

  predicate EndsWith(s: string, suffix: string) {
    |suffix| <= |s| && s[|s| - |suffix|..] == suffix
  }

  predicate Forbidden(code: string) {
    code in {"UNAUTHORIZED_ORGANIZATION", "UNAUTHORIZED_ROLE", "PRIVATE_DATA_ACCESS_DENIED", "WRONG_TRANSFER_RECIPIENT"}
  }

  predicate NamedConflict(code: string) {
    code in {"DUPLICATE_TRANSACTION", "INVALID_STATE_TRANSITION", "INVALID_REVIEW_TRANSITION", "VERSION_CONFLICT",
             "IDEMPOTENCY_CONFLICT"}
  }

  predicate Conflicting(code: string) {
    || EndsWith(code, "_ALREADY_EXISTS") || EndsWith(code, "_ALREADY_USED")
    || NamedConflict(code)
  }

  predicate Unprocessable(code: string) {
    code in {"INVALID_SOURCE_SIGNATURE", "UNTRUSTED_SOURCE_KEY", "SOURCE_BINDING_MISMATCH", "SOURCE_CLAIM_REJECTED",
             "DOCUMENT_HASH_MISMATCH", "MISSING_EVIDENCE", "POLICY_MISMATCH"}
  }

  /** The HTTP status of an error code. */
  function Status(code: string): int {
    if Forbidden(code) then 403
    else if EndsWith(code, "_NOT_FOUND") then 404
    else if Conflicting(code) then 409
    else if Unprocessable(code) then 422
    else if EndsWith(code, "_UNAVAILABLE") || code == "CONFIGURATION_REQUIRED" then 503
    else if code == "FABRIC_TRANSACTION_INVALID" then 502
    else if code == "AUTHENTICATION_REQUIRED" then 401
    else if code == "INTERNAL_ERROR" then 500
    else 400
  }

  lemma SuffixChar(s: string, suffix: string, k: nat)
    requires EndsWith(s, suffix) && k < |suffix|
    ensures s[|s| - 1 - k] == suffix[|suffix| - 1 - k]
  {
    assert s[|s| - |suffix|..][|suffix| - 1 - k] == s[|s| - 1 - k];
  }

  lemma NotSuffix(s: string, suffix: string, k: nat)
    requires k < |s| && k < |suffix| && s[|s| - 1 - k] != suffix[|suffix| - 1 - k]
    ensures !EndsWith(s, suffix)
  {
    if EndsWith(s, suffix) {
      SuffixChar(s, suffix, k);
    }
  }

  /** No code of the interface that starts with F is forbidden, conflicting or unprocessable by name. */
  lemma FabricCodes(code: string)
    requires code != "" && code[0] == 'F'
    ensures !Forbidden(code) && !Unprocessable(code)
    ensures Conflicting(code) <==> EndsWith(code, "_ALREADY_EXISTS") || EndsWith(code, "_ALREADY_USED")
    ensures code != "CONFIGURATION_REQUIRED"
  {
    hide EndsWith;
  }

  lemma OutageSuffixes()
    ensures !EndsWith(OUTAGE, "_NOT_FOUND") && !EndsWith(OUTAGE, "_ALREADY_EXISTS")
            && !EndsWith(OUTAGE, "_ALREADY_USED")
  {
    assert OUTAGE[|OUTAGE| - 1] == 'E';
    NotSuffix(OUTAGE, "_NOT_FOUND", 0);
    NotSuffix(OUTAGE, "_ALREADY_EXISTS", 0);
    NotSuffix(OUTAGE, "_ALREADY_USED", 0);
  }

  lemma OutageSuffix()
    ensures EndsWith(OUTAGE, "_UNAVAILABLE")
  {
    assert OUTAGE[6..] == "_UNAVAILABLE";
  }

  /** An outage is the one answer that means: try again later. */
  lemma OutageStatus()
    ensures Status(OUTAGE) == 503
  {
    OutageSuffixes();
    OutageSuffix();
    FabricCodes(OUTAGE);
    hide EndsWith, Forbidden, Conflicting, Unprocessable;
  }

  /** A code of an unavailable part is on no list. */
  lemma UnavailableAllowed(code: string)
    requires |code| >= 3 && code[|code| - 3] == 'B'
    ensures !Forbidden(code)
  {
  }

  lemma UnavailableProcessable(code: string)
    requires |code| >= 3 && code[|code| - 3] == 'B'
    ensures !Unprocessable(code)
  {
  }

  lemma UnavailableUncontested(code: string)
    requires |code| >= 3 && code[|code| - 3] == 'B'
    ensures !NamedConflict(code)
  {
  }

  lemma UnavailableStatus(code: string)
    requires EndsWith(code, "_UNAVAILABLE")
    ensures Status(code) == 503
  {
    SuffixChar(code, "_UNAVAILABLE", 0);
    SuffixChar(code, "_UNAVAILABLE", 2);
    NotSuffix(code, "_NOT_FOUND", 0);
    NotSuffix(code, "_ALREADY_EXISTS", 0);
    NotSuffix(code, "_ALREADY_USED", 0);
    UnavailableAllowed(code);
    UnavailableProcessable(code);
    UnavailableUncontested(code);
    hide EndsWith, Forbidden, Unprocessable, NamedConflict;
  }

  lemma UnconfiguredStatus()
    ensures Status("CONFIGURATION_REQUIRED") == 503
  {
    NotSuffix("CONFIGURATION_REQUIRED", "_NOT_FOUND", 1);
    NotSuffix("CONFIGURATION_REQUIRED", "_ALREADY_EXISTS", 0);
    NotSuffix("CONFIGURATION_REQUIRED", "_ALREADY_USED", 2);
    hide EndsWith;
  }

  /** Exactly the codes after which a client is asked to try again. */
  lemma RetryableCodes(code: string)
    ensures Status(code) == 503 <==> EndsWith(code, "_UNAVAILABLE") || code == "CONFIGURATION_REQUIRED"
  {
    hide EndsWith, Forbidden, Conflicting, Unprocessable;
    if EndsWith(code, "_UNAVAILABLE") {
      UnavailableStatus(code);
    } else if code == "CONFIGURATION_REQUIRED" {
      UnconfiguredStatus();
    }
  }

  lemma ConflictStatuses()
    ensures Status(STALE) == 409 && Status(REUSED) == 409
  {
    NotSuffix(STALE, "_NOT_FOUND", 0);
    NotSuffix(REUSED, "_NOT_FOUND", 0);
    hide EndsWith;
  }

  lemma InvalidSuffixes()
    ensures !EndsWith(INVALID, "_NOT_FOUND") && !EndsWith(INVALID, "_ALREADY_EXISTS")
            && !EndsWith(INVALID, "_ALREADY_USED")
    ensures !EndsWith(INVALID, "_UNAVAILABLE")
  {
    assert INVALID[|INVALID| - 1] == 'D' && INVALID[|INVALID| - 2] == 'I';
    NotSuffix(INVALID, "_NOT_FOUND", 1);
    NotSuffix(INVALID, "_ALREADY_EXISTS", 0);
    NotSuffix(INVALID, "_ALREADY_USED", 1);
    NotSuffix(INVALID, "_UNAVAILABLE", 0);
  }

  lemma InvalidStatus()
    ensures Status(INVALID) == 502
  {
    InvalidSuffixes();
    FabricCodes(INVALID);
    hide EndsWith, Forbidden, Conflicting, Unprocessable;
  }

  /** The codes of a settled, invalid transaction, and of a foreign receipt, are final. */
  lemma FinalStatuses(code: string)
    requires code in {STALE, INVALID, REUSED}
    ensures Status(code) != 503 && code != FAULT
  {
    ConflictStatuses();
    InvalidStatus();
    hide Status;
    assert STALE[0] != FAULT[0] && INVALID[0] != FAULT[0] && REUSED[1] != FAULT[1];
  }

  // --------------------------------------------------------------------- rows

  datatype RowState = Pending | SubmittedUnknown | Committed | Failed

  /** The private input of a client request; anything of another shape is OtherInput. */
  datatype PrivateInput =
    | NoInput
    | PriceInput(price: int, currency: Currency, tax: Tax, reportedAt: string)
    | OpenInput(reviewer: Id)
    | ResolveInput(reviewer: Id, outcome: string, explanation: string)
    | OtherInput

  /** A client request: the command, its schema and scenario, the private input, and the size of its canonical text. */
  datatype Request = Request(command: CommandName, op: Id, batch: Id, expected: int, payload: Payload,
                             schema: string, scenario: string, input: PrivateInput, size: nat)

  datatype Row = Row(request: Request, state: RowState, prepared: Option<string>, tx: Option<string>,
                     txid: Option<string>, receipt: Option<Receipt>, error: Option<string>)

  /** A fetched source document and the operation it was fetched for. */
  datatype Archived = Archived(op: Id, caller: Caller, bundle: string, committed: bool)

  type RowKey = (Caller, Id)

  predicate Terminal(state: RowState) {
    state.Committed? || state.Failed?
  }

  class Store {
    var operations: map<RowKey, Row>
    var evidence: map<Id, Archived>

    constructor ()
      ensures operations == map[] && evidence == map[]
    {
      operations, evidence := map[], map[];
    }

    /**
     * Find the row of a repeated request, or insert a pending one; a different request
     * under the same id is refused.
     */
    method Stage(key: RowKey, request: Request) returns (r: Answer<Row>)
      modifies this`operations
      ensures if key in old(operations) then operations == old(operations)
              else operations == old(operations)[key := Row(request, Pending, None, None, None, None, None)]
      ensures r == if key in old(operations) && old(operations)[key].request != request then Error(REUSED)
                   else Got(operations[key])
    {
      if key in operations {
        return if operations[key].request != request then Error(REUSED) else Got(operations[key]);
      }
      operations := operations[key := Row(request, Pending, None, None, None, None, None)];
      r := Got(operations[key]);
    }

    method Retry(key: RowKey)
      requires key in operations
      modifies this`operations
      ensures operations == old(operations)[key := old(operations)[key].(state := Pending, error := None)]
    {
      operations := operations[key := operations[key].(state := Pending, error := None)];
    }

    method SetPrepared(key: RowKey, text: string)
      requires key in operations
      modifies this`operations
      ensures operations == old(operations)[key := old(operations)[key].(prepared := Some(text))]
    {
      operations := operations[key := operations[key].(prepared := Some(text))];
    }

    method SetTransaction(key: RowKey, p: Prepared)
      requires key in operations
      modifies this`operations
      ensures operations == old(operations)[key := old(operations)[key].(tx := Some(p.bytes), txid := Some(p.txid))]
    {
      operations := operations[key := operations[key].(tx := Some(p.bytes), txid := Some(p.txid))];
    }

    method SetSubmitted(key: RowKey)
      requires key in operations
      modifies this`operations
      ensures operations == old(operations)[key := old(operations)[key].(state := SubmittedUnknown)]
    {
      operations := operations[key := operations[key].(state := SubmittedUnknown)];
    }

    method SetFailed(key: RowKey, code: string)
      requires key in operations
      modifies this`operations
      ensures operations == old(operations)[key := old(operations)[key].(state := Failed, error := Some(code))]
    {
      operations := operations[key := operations[key].(state := Failed, error := Some(code))];
    }

    /** Keep a fetched document, unless one of that id is already kept. */
    method Archive(key: RowKey, document: Id, bundle: string)
      modifies this`evidence
      ensures evidence == if document in old(evidence) then old(evidence)
                          else old(evidence)[document := Archived(key.1, key.0, bundle, false)]
    {
      if document !in evidence {
        evidence := evidence[document := Archived(key.1, key.0, bundle, false)];
      }
    }

    /** One database transaction: the row takes the receipt, and the operation's evidence is promoted with it. */
    method Commit(key: RowKey, receipt: Receipt)
      requires key in operations
      modifies this
      ensures operations == old(operations)[key := old(operations)[key].(state := Committed, receipt := Some(receipt),
                                                                         txid := Some(receipt.tx), error := None)]
      ensures evidence == Promoted(old(evidence), key)
    {
      operations := operations[key := operations[key].(state := Committed, receipt := Some(receipt),
                                                       txid := Some(receipt.tx), error := None)];
      evidence := Promoted(evidence, key);
    }
  }

  predicate Belongs(a: Archived, key: RowKey) {
    a.caller == key.0 && a.op == key.1
  }

  function Promoted(evidence: map<Id, Archived>, key: RowKey): map<Id, Archived> {
    map d | d in evidence :: if Belongs(evidence[d], key) then evidence[d].(committed := true) else evidence[d]
  }
}
