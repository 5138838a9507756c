/** The tables of the database, and a database transaction as a private view of them. */
module Schema {
  import opened Errors
  import opened LedgerStore
  import opened TransferDomain

  datatype Saga = Saga(
    id: string, state: SagaState, idempotencyKey: string, command: CommandJson,
    transactionId: string, settlementId: string, failureReason: string)

  datatype Settlement = Settlement(
    id: string, sagaId: string, iban: string, amountHalalas: int, currency: string,
    status: SettlementStatus, attempts: nat, lastError: string)

  datatype EventStatus = EventPending | Published | EventFailed

  datatype PostedPayload = PostedPayload(
    transactionId: string, fromAccount: string, toAccount: string, amount: string, iban: string)

  datatype OutboxEvent = OutboxEvent(id: string, aggregateId: string, payload: PostedPayload, status: EventStatus)

  datatype Tables = Tables(
    ledger: Ledger, sagas: map<string, Saga>, settlements: map<string, Settlement>, outbox: map<string, OutboxEvent>)

  /** What becomes of a write: done, lost, or done although the caller is told that it failed. */
  datatype Fate = Done | Lost | DoneUnreported {
    predicate Applied() {
      !Lost?
    }
  }

  class Database {
    var tables: Tables

    constructor (tables: Tables)
      ensures this.tables == tables
    {
      this.tables := tables;
    }
  }

  /** Sees what was committed when it began, plus its own writes. Isolation is PostingMachine's subject. */
  class DbTx {
    const db: Database
    var view: Tables

    constructor Begin(db: Database)
      ensures this.db == db && view == db.tables
    {
      this.db := db;
      this.view := db.tables;
    }

    method Commit(fate: Fate) returns (r: Result<Unit>)
      modifies db
      ensures db.tables == if fate.Applied() then view else old(db.tables)
      ensures r == if fate.Done? then Ok(Unit) else Err(Infrastructure)
    {
      if fate.Applied() {
        db.tables := view;
      }
      return if fate.Done? then Ok(Unit) else Err(Infrastructure);
    }
  }
}
