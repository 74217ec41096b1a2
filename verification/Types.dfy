/** The records, keys and error codes of the AgroChain chaincode. */
module Types {

  // ------------------------------------------------------------- results

  /** The domain error codes that the mutating commands can return. */
  datatype ErrorCode =
    | AnomalyResultMismatch | AnomalyAlreadyExists | InvalidReviewTransition
    | InvalidSchema | InvalidIdentifier | InvalidQuantity | InvalidMoney
    | UnsupportedPilotOperation | UnauthorizedOrganization | UnauthorizedRole
    | WrongTransferRecipient | BatchNotFound | TransferNotFound
    | BatchAlreadyExists | TransferAlreadyExists | LotAlreadyExists
    | CostAlreadyExists | ReportAlreadyExists | DuplicateTransaction
    | DocumentAlreadyUsed | InvalidStateTransition | VersionConflict
    | MissingEvidence | SourceBindingMismatch | PolicyMismatch | InternalError
    | ConfigurationRequired | ConfigurationAlreadyExists | UntrustedSourceKey
    | InvalidSourceSignature | DocumentHashMismatch | SourceNonceAlreadyUsed
    | SourceClaimRejected | PrivateDataUnavailable

  datatype Result<+T> = Ok(value: T) | Err(error: ErrorCode) {
    predicate IsFailure() {
      Err?
    }

    function PropagateFailure<U>(): Result<U>
      requires Err?
    {
      Err(error)
    }

    function Extract(): T
      requires Ok?
    {
      value
    }
  }

  datatype Guard = Pass | Fail(error: ErrorCode) {
    predicate IsFailure() {
      Fail?
    }

    function PropagateFailure<U>(): Result<U>
      requires Fail?
    {
      Err(error)
    }
  }

  function Need(condition: bool, error: ErrorCode): Guard {
    if condition then Pass else Fail(error)
  }

  datatype Option<+T> = None | Some(value: T)

  // --------------------------------------------------------- identifiers

  /** An identifier; the empty text marks an unset reference. */
  datatype Id = Id(text: string)

  const NO_ID := Id("")

  /** The grammar `PREFIX-[A-Z0-9]{8,32}`. */
  predicate ValidId(id: Id, prefix: string) {
    && |prefix| + 9 <= |id.text| <= |prefix| + 33
    && id.text[..|prefix|] == prefix
    && id.text[|prefix|] == '-'
    && forall i :: |prefix| < i < |id.text| ==> 'A' <= id.text[i] <= 'Z' || '0' <= id.text[i] <= '9'
  }

  /** Sixty-four lower-case hexadecimal digits. */
  predicate HexId(s: string) {
    && |s| == 64
    && forall i :: 0 <= i < |s| ==> '0' <= s[i] <= '9' || 'a' <= s[i] <= 'f'
  }

  /** Byte order of two ASCII strings. */
  predicate Before(a: string, b: string) {
    if b == "" then false
    else if a == "" then true
    else if a[0] != b[0] then a[0] < b[0]
    else Before(a[1..], b[1..])
  }

  // ------------------------------------------------------- parties, states

  datatype Msp = Producer | Logistics | Retailer | Regulator | Foreign(name: string)

  datatype Role = NoRole | ProducerRole | CarrierRole | RetailerRole | OracleRole
                | ReviewerRole | AuditorRole | PublicReaderRole | AdminRole | OtherRole(role: string)

  datatype Lifecycle = Created | PickupPending | InTransport | DeliveryPending | Received | RetailReported

  datatype CommandName =
    | CreateBatch | OfferPickup | AcceptPickup | RecordFreightCost | OfferDelivery
    | AcceptDelivery | ReportRetailPrice | EvaluatePrice | OpenReview | ResolveReview

  datatype TxTime = TxTime(seconds: int, nanos: int)

  /** Who submits, under which role, in which transaction and when. */
  datatype Execution = Execution(actor: Msp, role: Role, tx: string, time: TxTime)

  // -------------------------------------------------------------- commands

  datatype Payload =
    | CreateInput(product: string, grade: string, quantity: int, region: string, harvest: string,
                  logistics: Msp, retailer: Msp)
    | HandoffInput(transfer: Id, quantity: int)
    | FreightInput(cost: Id)
    | ReportInput(report: Id, lot: Id, policy: Id)
    | EvaluateInput(anomaly: Id, report: Id)
    | ReviewTarget(anomaly: Id)
    | Malformed

  datatype Command = Command(name: CommandName, op: Id, batch: Id, expected: int, payload: Payload)

  // --------------------------------------------------------- public records

  datatype Batch = Batch(id: Id, product: string, grade: string, quantity: int, region: string, harvest: string,
                         producer: Msp, logistics: Msp, retailer: Msp, owner: Msp, custodian: Msp,
                         state: Lifecycle, version: int, lot: Id, createdTx: string, updatedTx: string, time: TxTime)

  /** The evidence slots of one batch; NO_ID is an empty slot. */
  datatype Refs = Refs(batch: Id, cks: Id, purchase: Id, hks: Id, transport: Id, freight: Id, report: Id)

  datatype TransferKind = Pickup | Delivery
  datatype TransferStatus = Offered | Accepted

  datatype Transfer = Transfer(id: Id, batch: Id, kind: TransferKind, status: TransferStatus, from: Msp, to: Msp,
                               quantity: int, offerOp: Id, acceptOp: Id, offeredTx: string, acceptedTx: string)

  datatype Receipt = Receipt(op: Id, batch: Id, command: CommandName, actor: Msp, tx: string, time: TxTime,
                             version: int, ids: seq<Id>)

  datatype EventName = BatchCreated | PickupOffered | PickupAccepted | FreightCostRecorded | DeliveryOffered
                     | DeliveryAccepted | RetailPriceReported | PriceEvaluated | ReviewUpdated

  datatype Event = Event(name: EventName, op: Id, batch: Id, actor: Msp, tx: string, time: TxTime, version: int,
                         ids: seq<Id>, previous: Option<Lifecycle>, next: Lifecycle)

  datatype Lot = Lot(id: Id, batch: Id, quantity: int, retailer: Msp, report: Id, tx: string)

  datatype Evaluation = Evaluation(batch: Id, report: Id, anomaly: Id, tx: string)

  // --------------------------------------------------------------- evidence

  datatype DocType = ProducerEligibility | PurchaseInvoice | TradeNotification | TransportManifest | FreightInvoice
                   | OtherDocument(kind: string)

  datatype System = Cks | Efatura | Hks | Uetds | OtherSystem(name: string)

  /** `profile` says that the four fixed header literals have their one admitted value. */
  datatype Header = Header(profile: bool, document: Id, system: System, issuer: string, key: string,
                           sourceDocument: Id, docType: DocType, batch: Id, op: Id, issuedAt: string,
                           nonce: string, commitment: string)

  datatype Envelope = Envelope(header: Header, signature: string)

  datatype Currency = Try | OtherCurrency(code: string)
  datatype Tax = ExcludingTax | OtherTax(basis: string)

  datatype Body =
    | EligibilityBody(producer: Msp, product: string, grade: string, quantity: int, region: string,
                      harvest: string, eligible: bool)
    | PurchaseBody(seller: Msp, buyer: Msp, quantity: int, price: int, total: int, currency: Currency, tax: Tax,
                   digest: string, media: string)
    | TradeBody(producer: Msp, retailer: Msp, product: string, quantity: int, notified: bool)
    | ManifestBody(carrier: Msp, consignor: Msp, consignee: Msp, product: string, quantity: int, departure: string)
    | FreightBody(carrier: Msp, payer: Msp, quantity: int, total: int, currency: Currency, tax: Tax,
                  digest: string, media: string)
    | OtherBody(raw: string)

  datatype Bundle = Bundle(envelope: Envelope, body: Body, salt: string)

  datatype SourceKey = SourceKey(issuer: string, system: System, docTypes: set<DocType>, key: string,
                                 publicKey: string, enabled: bool)

  datatype Configuration = Configuration(policy: Id, threshold: int, sources: seq<SourceKey>)

  // --------------------------------------------------------- private records

  datatype CostRecord = CostRecord(cost: Id, batch: Id, payer: Msp, payee: Msp, quantity: int, total: int,
                                   currency: Currency, tax: Tax, document: Id, salt: string, op: Id, tx: string)

  datatype RetailInput = RetailInput(price: int, currency: Currency, tax: Tax, reportedAt: string, salt: string)

  datatype RetailRecord = RetailRecord(report: Id, batch: Id, lot: Id, quantity: int, retailer: Msp,
                                       input: RetailInput, purchase: Id, cost: Id, policy: Id, op: Id, tx: string)

  datatype Classification = NoSignal | ReviewRequired

  /** The reason code of the source is a function of the classification. */
  datatype Score = Score(increase: int, verdict: Classification)

  datatype ReviewState = NotRequired | Open | InReview | Resolved

  datatype AnomalyRecord = AnomalyRecord(anomaly: Id, batch: Id, report: Id, policy: Id, purchase: int, retail: int,
                                         freight: int, quantity: int, score: Score, threshold: int,
                                         review: ReviewState, salt: string, op: Id, tx: string)

  datatype ReviewInput = ReviewInput(reviewer: Id, outcome: string, explanation: string, salt: string)

  datatype ReviewAction = ReviewAction(op: Id, anomaly: Id, command: CommandName, input: ReviewInput, tx: string)

  // ------------------------------------------------------------------- keys

  datatype Collection = TradeCollection | FreightCollection

  /** Composite keys of the public ledger: a kind and its attributes. */
  datatype Key =
    | ConfigKey
    | PolicyKey(policy: Id)
    | SourceKeyKey(issuer: string, key: string)
    | BatchKey(batch: Id)
    | RefsKey(batch: Id)
    | OperationKey(actor: Msp, op: Id)
    | HistoryKey(batch: Id, version: int)
    | OwnerKey(owner: Msp, batch: Id)
    | StateKey(state: Lifecycle, batch: Id)
    | PendingKey(batch: Id)
    | TransferKey(transfer: Id)
    | DocRefKey(document: Id)
    | DocumentKey(document: Id)
    | SourceUseKey(issuer: string, source: Id)
    | NonceKey(issuer: string, nonce: string)
    | CostRefKey(cost: Id)
    | LotKey(lot: Id)
    | ReportRefKey(report: Id)
    | EvaluationKey(batch: Id)
    | AnomalyRefKey(anomaly: Id)
    | ReviewRefKey(anomaly: Id, op: Id)

  datatype Value =
    | ConfigValue(config: Configuration)
    | PolicyValue(threshold: int)
    | SourceKeyValue(source: SourceKey)
    | BatchValue(batch: Batch)
    | RefsValue(refs: Refs)
    | ReceiptValue(receipt: Receipt)
    | IdValue(id: Id)
    | TransferValue(transfer: Transfer)
    | DocRefValue(refBatch: Id, refOp: Id)
    | EnvelopeValue(envelope: Envelope)
    | UseValue(useBatch: Id, useOp: Id, useTx: string)
    | LotValue(lot: Lot)
    | EvaluationValue(evaluation: Evaluation)

  /** Keys of the private collections; cost records live with freight, the rest with audit. */
  datatype PrivKey =
    | OpeningKey(collection: Collection, document: Id)
    | CostKey(cost: Id)
    | ReportKey(report: Id)
    | AnomalyKey(anomaly: Id)
    | ActionKey(anomaly: Id, op: Id)

  datatype PrivValue =
    | OpeningValue(body: Body, salt: string)
    | CostValue(cost: CostRecord)
    | ReportValue(report: RetailRecord)
    | AnomalyValue(anomaly: AnomalyRecord)
    | ActionValue(action: ReviewAction)

  // ------------------------------------------------------------------ state

  datatype State = State(pub: map<Key, Value>, priv: map<PrivKey, PrivValue>, events: seq<Event>)

  const EMPTY_STATE := State(map[], map[], [])

  /** A write plan: Some writes the value, None removes the key. */
  type Plan = map<Key, Option<Value>>

  /** One simultaneous update of the public map by a plan. */
  function Commit(pub: map<Key, Value>, plan: Plan): map<Key, Value> {
    map k | k in pub.Keys + plan.Keys && (k in plan ==> plan[k].Some?) :: if k in plan then plan[k].value else pub[k]
  }

  function Put(k: Key, v: Value): Plan {
    map[k := Some(v)]
  }

  // --------------------------------------------------------------- transient

  /** One transient field, already decoded; anything the decoder refuses is BadField. */
  datatype Field =
    | Bundles(bundles: seq<Bundle>)
    | Salt(text: string)
    | RetailField(retail: RetailInput)
    | ScoreField(score: Score)
    | OpenField(reviewer: Id, salt: string)
    | ResolveField(input: ReviewInput)
    | BadField

  datatype FieldName = EvidenceField | RecordSaltField | RetailReportField | ProposedField | ReviewActionField
                     | ReviewSaltField | UnknownField(name: string)

  type Transient = map<FieldName, Field>

  /**
   * The parts of the outside world that the ledger consults: calendar syntax,
   * explanation text, signature checking and the document commitment.
   */
  datatype Env = Env(date: string -> bool, dateTime: string -> bool, explanation: string -> bool,
                     signed: (string, Header, string) -> bool, commit: (Body, string) -> string)
}
