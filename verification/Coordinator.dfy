/** All-or-nothing bundles of writes across the ledger, saga, settlement and outbox tables. */
module Coordinator {
  import opened Errors
  import opened LedgerDomain
  import opened LedgerStore
  import opened LedgerRepository
  import opened TransferDomain
  import opened Schema
  import opened Transitions
  import opened SettlementSteps
  import opened SagaRepository

  /**
   * Saga, journal, events, settlement and the saga's new state, in one database transaction. Where a
   * connection breaks makes no difference, because everything is rolled back.
   */
  method PostTransfer(db: Database, commit: TransferCommit, fate: Fate) returns (r: Result<Unit>,
      ghost listings: seq<seq<Entry>>)
    requires FiledById(db.tables.ledger)
    modifies db
    ensures Readable(old(db.tables.ledger), commit.tx, listings)
    ensures (db.tables, r) == Attempted(old(db.tables), TransferPosted(old(db.tables), commit, listings), fate)
  {
    hide VerdictOn, Readable;
    var dbTx := new DbTx.Begin(db);
    ghost var t := db.tables;
    listings := SomeListings(t.ledger, commit.tx);
    if fate.Lost? {
      return Err(Infrastructure), listings;
    }
    r := InsertSagaInTx(dbTx, commit.saga);
    if r.Err? {
      return;
    }
    r, listings := PostTransactionInTx(dbTx, commit.tx);
    ReadableFits(t.ledger, commit.tx, listings);
    if r.Err? {
      return;
    }
    ghost var posted := dbTx.view;
    for i := 0 to |commit.events|
      invariant db.tables == t && InsertEvents(posted, commit.events[..i]) == Ok(dbTx.view)
    {
      assert commit.events[..i + 1][..i] == commit.events[..i];
      r := InsertInTx(dbTx, commit.events[i]);
      if r.Err? {
        EventsRefused(posted, commit.events, i + 1);
        return;
      }
    }
    assert commit.events[..|commit.events|] == commit.events;
    r := InsertSettlementInTx(dbTx, commit.settlement);
    if r.Err? {
      return;
    }
    UpdateSagaStateInTx(dbTx, commit.saga.id, SagaPosted, commit.saga.transactionId, commit.saga.settlementId, "");
    r := dbTx.Commit(fate);
  }

  /** An event refused is refused whatever else was to be inserted. */
  lemma {:induction false} EventsRefused(t: Tables, events: seq<OutboxEvent>, n: nat)
    requires n <= |events| && InsertEvents(t, events[..n]).Err?
    ensures InsertEvents(t, events) == InsertEvents(t, events[..n])
    decreases |events| - n
  {
    if n < |events| {
      assert events[..n + 1][..n] == events[..n];
      EventsRefused(t, events, n + 1);
    } else {
      assert events[..n] == events;
    }
  }

  /** There always is a listing of every account to read. */
  lemma SomeListings(ledger: Ledger, tx: Transaction) returns (listings: seq<seq<Entry>>)
    ensures Readable(ledger, tx, listings) && |listings| <= |LockOrder(tx)|
  {
    listings := RemainingListings(ledger, LockOrder(tx), 0);
  }

  /** The reversing journal and the saga's new state, in one database transaction. */
  method PostCompensation(db: Database, tx: Transaction, sagaId: string, fate: Fate) returns (r: Result<Unit>,
      ghost listings: seq<seq<Entry>>)
    requires FiledById(db.tables.ledger)
    modifies db
    ensures Readable(old(db.tables.ledger), tx, listings)
    ensures (db.tables, r) == Attempted(old(db.tables), CompensationPosted(old(db.tables), tx, sagaId, listings), fate)
  {
    hide VerdictOn, Readable;
    var dbTx := new DbTx.Begin(db);
    ghost var t := db.tables;
    listings := SomeListings(t.ledger, tx);
    if fate.Lost? {
      return Err(Infrastructure), listings;
    }
    r, listings := PostTransactionInTx(dbTx, tx);
    ReadableFits(t.ledger, tx, listings);
    if r.Err? {
      return;
    }
    UpdateSagaStateInTx(dbTx, sagaId, Compensated, "", "", COMPENSATION_REASON);
    r := dbTx.Commit(fate);
  }
}
