/** What each statement and each committed unit of work does to the tables. */
module Transitions {
  import opened Errors
  import opened MoneyDomain
  import opened LedgerDomain
  import opened LedgerStore
  import opened TransferDomain
  import opened Schema

  // ---- Single statements ----

  /** Primary key on the id, unique constraint on the client's key. */
  function InsertSaga(t: Tables, saga: Saga): Result<Tables> {
    if saga.id in t.sagas || exists id :: id in t.sagas && t.sagas[id].idempotencyKey == saga.idempotencyKey
    then Err(Infrastructure)
    else Ok(t.(sagas := t.sagas[saga.id := saga]))
  }

  /** An empty text leaves the column as it was. */
  function Coalesce(text: string, column: string): string {
    if text == "" then column else text
  }

  function UpdateSaga(t: Tables, id: string, state: SagaState, txId: string, settlementId: string,
      failure: string): Tables {
    if id !in t.sagas then t
    else
      var s := t.sagas[id];
      t.(sagas := t.sagas[id := s.(
        state := state, transactionId := Coalesce(txId, s.transactionId),
        settlementId := Coalesce(settlementId, s.settlementId), failureReason := Coalesce(failure, s.failureReason))])
  }

  function UpdateSagaState(t: Tables, id: string, state: SagaState, failure: string): Tables {
    UpdateSaga(t, id, state, "", "", failure)
  }

  /** Primary key, a foreign key to the saga, and a positive amount. */
  function InsertSettlement(t: Tables, s: Settlement): Result<Tables> {
    if s.id in t.settlements || s.sagaId !in t.sagas || s.amountHalalas <= 0 then Err(Infrastructure)
    else Ok(t.(settlements := t.settlements[s.id := s]))
  }

  function UpdateSettlementStatus(t: Tables, id: string, status: SettlementStatus, lastError: string): Tables {
    if id !in t.settlements then t
    else t.(settlements := t.settlements[id := t.settlements[id].(status := status, lastError := lastError)])
  }

  function Tried(t: Tables, id: string): Tables
    requires id in t.settlements
  {
    var s := t.settlements[id];
    t.(settlements := t.settlements[id := s.(attempts := s.attempts + 1)])
  }

  /** A claim counts an attempt and leaves the rows pending. */
  function Claim(t: Tables, ids: seq<string>): Tables {
    if ids == [] then t
    else
      var before := Claim(t, ids[..|ids| - 1]);
      var id := ids[|ids| - 1];
      if id !in before.settlements then before
      else Tried(before, id)
  }

  function InsertEvent(t: Tables, e: OutboxEvent): Result<Tables> {
    if e.id in t.outbox then Err(Domain(Conflict))
    else Ok(t.(outbox := t.outbox[e.id := e.(status := EventPending)]))
  }

  function InsertEvents(t: Tables, events: seq<OutboxEvent>): Result<Tables> {
    if events == [] then Ok(t)
    else match InsertEvents(t, events[..|events| - 1])
      case Err(e) => Err(e)
      case Ok(t') => InsertEvent(t', events[|events| - 1])
  }

  ghost function PostJournal(t: Tables, tx: Transaction, listings: seq<seq<Entry>>): Result<Tables>
    requires |listings| <= |LockOrder(tx)|
  {
    match VerdictOn(t.ledger, tx, listings)
    case Refused(e) => Err(e)
    case Posted => Ok(t.(ledger := WithJournal(t.ledger, tx)))
  }

  // ---- Units of work ----

  datatype TransferCommit = TransferCommit(tx: Transaction, events: seq<OutboxEvent>, saga: Saga,
      settlement: Settlement)

  /** Saga, journal, events, settlement and the saga's new state: all of them, or the first error. */
  ghost function TransferPosted(t: Tables, c: TransferCommit, listings: seq<seq<Entry>>): Result<Tables>
    requires |listings| <= |LockOrder(c.tx)|
  {
    match InsertSaga(t, c.saga)
    case Err(e) => Err(e)
    case Ok(t1) =>
      match PostJournal(t1, c.tx, listings)
      case Err(e) => Err(e)
      case Ok(t2) =>
        match InsertEvents(t2, c.events)
        case Err(e) => Err(e)
        case Ok(t3) =>
          match InsertSettlement(t3, c.settlement)
          case Err(e) => Err(e)
          case Ok(t4) => Ok(UpdateSaga(t4, c.saga.id, SagaPosted, c.saga.transactionId, c.saga.settlementId, ""))
  }

  const COMPENSATION_REASON := "sarie settlement failed; funds reversed"

  ghost function CompensationPosted(t: Tables, tx: Transaction, sagaId: string,
      listings: seq<seq<Entry>>): Result<Tables>
    requires |listings| <= |LockOrder(tx)|
  {
    match PostJournal(t, tx, listings)
    case Err(e) => Err(e)
    case Ok(t') => Ok(UpdateSagaState(t', sagaId, Compensated, COMPENSATION_REASON))
  }

  // ---- What a transfer request commits ----

  const POSTED_TEXT := "POSTED"
  const PENDING_TEXT := "PENDING"

  function ResultOf(h: Hashes, cmd: Command, key: string): TransferResult
    requires HexDigests(h)
  {
    var txId := TransferId(h, key);
    TransferResult(txId, cmd.fromAccount, cmd.toAccount, cmd.amount, SagaId(h, cmd.idempotencyKey),
                   SettlementId(txId), POSTED_TEXT, PENDING_TEXT, false)
  }

  function PostedEvent(cmd: Command, result: TransferResult): OutboxEvent {
    OutboxEvent(EventId(result.transactionId), result.transactionId,
                PostedPayload(result.transactionId, result.fromAccount, result.toAccount, String(result.amount),
                    cmd.iban),
                EventPending)
  }

  /** Everything the service prepares for one command before it calls the coordinator. */
  function CommitFor(h: Hashes, cmd: Command): Result<TransferCommit>
    requires HexDigests(h)
  {
    match ParseKey(cmd.idempotencyKey)
    case Err(e) => Err(e)
    case Ok(key) =>
      var txId := TransferId(h, key);
      var description := if cmd.description == "" then "transfer to " + cmd.iban else cmd.description;
      match MovingTransaction(txId, description, cmd.fromAccount, cmd.toAccount, cmd.amount)
      case Err(e) => Err(e)
      case Ok(tx) =>
        var result := ResultOf(h, cmd, key);
        var saga := Saga(result.sagaId, ComplianceOk, cmd.idempotencyKey, EncodeCommand(cmd), txId, result.settlementId,
            "");
        var settlement := Settlement(result.settlementId, result.sagaId, cmd.iban, cmd.amount.halalas,
            cmd.amount.currency, Pending, 0, "");
        Ok(TransferCommit(tx, [PostedEvent(cmd, result)], saga, settlement))
  }

  /** The reversal a worker builds from a saga it read and a settlement it claimed. */
  function ReversalOf(saga: Saga, s: Settlement): Result<Transaction> {
    match CommandFromJson(saga.command)
    case Err(e) => Err(e)
    case Ok(cmd) =>
      if !Fits(s.amountHalalas) then Err(Infrastructure)
      else match HalalasFromMinorUnits(s.amountHalalas, s.currency)
        case Err(e) => Err(e)
        case Ok(amount) =>
          MovingTransaction(CompensationId(saga.transactionId), "compensate failed sarie settlement", cmd.toAccount,
              cmd.fromAccount, amount)
  }
}
