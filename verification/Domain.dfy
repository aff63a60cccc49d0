/** The entities of the library system, its tables, and the shared result types. */
module Domain {

  /** A UUID. Every command carries the ids it would draw; a collision is a primary-key error. */
  type Id = nat
  /** An instant, and a calendar day in the library's time zone. */
  type Time = int
  type Day = int

  datatype Option<+T> = None | Some(value: T)

  /** The error codes a caller can see; Integrity and Unhandled surface as a server error. */
  datatype Error =
    | NotFound
    | RuleViolation
    | Conflict
    | Validation
    | Retriable
    | Forbidden
    | RateLimited
    | Integrity
    | Unhandled

  datatype Result<+T> = Ok(value: T) | Err(error: Error) {
    predicate IsFailure() {
      Err?
    }

    function PropagateFailure<U>(): Result<U>
      requires Err?
    {
      Err(error)
    }

    function Extract(): T
      requires Ok?
    {
      value
    }
  }

  // ---- reference context ----

  datatype PatronStatus = Active | Suspended | Exited

  datatype Patron = Patron(
    name: string, typeId: Id, status: PatronStatus, blocked: bool,
    card: Option<string>, reference: Option<string>)

  datatype Block = Block(patronId: Id, active: bool, startAt: Time, endAt: Option<Time>)

  // ---- catalogue context ----

  datatype CatalogingStatus = Draft | Published | Suppressed

  datatype HoldingStatus = Available | OnLoan | Withdrawn | Damaged | Lost

  datatype Catalog = Catalog(title: string, status: CatalogingStatus)

  datatype Holding = Holding(
    catalogId: Id, barcode: string, accession: string, circulating: bool, status: HoldingStatus)

  // ---- loan context ----

  datatype RuleSet = RuleSet(maxActiveLoans: nat, loanPeriodDays: int)

  datatype Loan = Loan(
    patronId: Id, holdingId: Id, ruleSetId: Id, checkoutAt: Time, dueDate: Day, returnedAt: Option<Time>)

  datatype Direction = Issue | Return

  datatype Mode = Desk | Delivery | PickupPoint

  datatype FulfillmentStatus = NotRequired | Requested | Ready | InTransit | Completed | Cancelled

  datatype Fulfillment = Fulfillment(
    loanId: Option<Id>, holdingId: Id, direction: Direction, mode: Mode,
    status: FulfillmentStatus, notes: Option<string>)

  // ---- idempotency records ----

  /** Keys that callers send, and keys drawn by the agent desk for its approval cards. */
  datatype Key = Outside(name: string) | Approval(n: nat)

  datatype Scope =
    | CheckoutOf(holding: Id)
    | ReturnOf(subject: Id)
    | TransitionOf(fulfillment: Id)
    | PickupOf(loan: Id)

  datatype Payload =
    | CheckoutPayload(patron: Id, holding: Id)
    | ReturnPayload(holdingOpt: Option<Id>, loanOpt: Option<Id>)
    | TransitionPayload(fulfillment: Id, target: FulfillmentStatus)
    | PickupPayload(loan: Id, notes: Option<string>)

  datatype Record = Record(payload: Payload, status: int, body: Id)

  type Records = map<(Scope, Key), Record>

  /** A stored answer for this scope and key, or a conflict when the payload differs. */
  function FindCached(records: Records, scope: Scope, key: Key, payload: Payload): Result<Option<Record>> {
    if (scope, key) !in records then Ok(None)
    else if records[(scope, key)].payload != payload then Err(Conflict)
    else Ok(Some(records[(scope, key)]))
  }

  /** A record is written once and never overwritten. */
  function StoreResponse(records: Records, scope: Scope, key: Key, record: Record): Records {
    if (scope, key) in records then records else records[(scope, key) := record]
  }

  // ---- the database ----

  /** What circulation reads and never writes. */
  datatype Library = Library(
    ruleSets: map<Id, RuleSet>,
    patronTypes: map<Id, Option<Id>>,
    patrons: map<Id, Patron>,
    blocks: map<Id, Block>,
    catalogs: map<Id, Catalog>)

  datatype Tables = Tables(
    lib: Library,
    holdings: map<Id, Holding>,
    loans: map<Id, Loan>,
    fulfillments: map<Id, Fulfillment>,
    records: Records)

  const EMPTY: Tables := Tables(Library(map[], map[], map[], map[], map[]), map[], map[], map[], map[])
}
