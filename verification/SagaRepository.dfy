/** The saga and settlement adapter, and the outbox insert that shares its transactions. */
module SagaRepository {
  import opened Errors
  import opened TransferDomain
  import opened Schema
  import opened Transitions
  import opened SettlementSteps
  import opened SkipLocked

  // ---- Inside an open transaction ----

  method InsertSagaInTx(dbTx: DbTx, saga: Saga) returns (r: Result<Unit>)
    modifies dbTx
    ensures match InsertSaga(old(dbTx.view), saga)
            case Ok(t) => r == Ok(Unit) && dbTx.view == t
            case Err(e) => r == Err(e) && dbTx.view == old(dbTx.view)
  {
    if saga.id in dbTx.view.sagas {
      return Err(Infrastructure);
    }
    var ids := dbTx.view.sagas.Keys;
    while ids != {}
      invariant ids <= dbTx.view.sagas.Keys && dbTx.view == old(dbTx.view)
      invariant forall id :: id in dbTx.view.sagas && id !in ids ==>
          dbTx.view.sagas[id].idempotencyKey != saga.idempotencyKey
      decreases ids
    {
      var id :| id in ids;
      if dbTx.view.sagas[id].idempotencyKey == saga.idempotencyKey {
        return Err(Infrastructure);
      }
      ids := ids - {id};
    }
    dbTx.view := dbTx.view.(sagas := dbTx.view.sagas[saga.id := saga]);
    return Ok(Unit);
  }

  method InsertSettlementInTx(dbTx: DbTx, settlement: Settlement) returns (r: Result<Unit>)
    modifies dbTx
    ensures match InsertSettlement(old(dbTx.view), settlement)
            case Ok(t) => r == Ok(Unit) && dbTx.view == t
            case Err(e) => r == Err(e) && dbTx.view == old(dbTx.view)
  {
    if settlement.id in dbTx.view.settlements || settlement.sagaId !in dbTx.view.sagas
        || settlement.amountHalalas <= 0 {
      return Err(Infrastructure);
    }
    dbTx.view := dbTx.view.(settlements := dbTx.view.settlements[settlement.id := settlement]);
    return Ok(Unit);
  }

  method UpdateSagaStateInTx(dbTx: DbTx, id: string, state: SagaState, txId: string, settlementId: string,
      failure: string)
    modifies dbTx
    ensures dbTx.view == UpdateSaga(old(dbTx.view), id, state, txId, settlementId, failure)
  {
    if id in dbTx.view.sagas {
      var row := dbTx.view.sagas[id].(state := state);
      if txId != "" {
        row := row.(transactionId := txId);
      }
      if settlementId != "" {
        row := row.(settlementId := settlementId);
      }
      if failure != "" {
        row := row.(failureReason := failure);
      }
      dbTx.view := dbTx.view.(sagas := dbTx.view.sagas[id := row]);
    }
  }

  method InsertInTx(dbTx: DbTx, event: OutboxEvent) returns (r: Result<Unit>)
    modifies dbTx
    ensures match InsertEvent(old(dbTx.view), event)
            case Ok(t) => r == Ok(Unit) && dbTx.view == t
            case Err(e) => r == Err(e) && dbTx.view == old(dbTx.view)
  {
    if event.id in dbTx.view.outbox {
      return Err(Domain(Conflict));
    }
    dbTx.view := dbTx.view.(outbox := dbTx.view.outbox[event.id := event.(status := EventPending)]);
    return Ok(Unit);
  }

  // ---- Statements of their own ----

  method UpdateSagaRow(db: Database, id: string, state: SagaState, failure: string,
      fate: Fate) returns (r: Result<Unit>)
    modifies db
    ensures db.tables == Written(old(db.tables), UpdateSagaState(old(db.tables), id, state, failure), fate)
    ensures db.tables.ledger == old(db.tables.ledger)
    ensures r == if fate.Done? then Ok(Unit) else Err(Infrastructure)
  {
    var dbTx := new DbTx.Begin(db);
    UpdateSagaStateInTx(dbTx, id, state, "", "", failure);
    r := dbTx.Commit(fate);
  }

  method UpdateSettlementRow(db: Database, id: string, status: SettlementStatus, lastError: string,
      fate: Fate) returns (r: Result<Unit>)
    modifies db
    ensures db.tables == Written(old(db.tables), UpdateSettlementStatus(old(db.tables), id, status, lastError), fate)
    ensures db.tables.ledger == old(db.tables.ledger)
    ensures r == if fate.Done? then Ok(Unit) else Err(Infrastructure)
  {
    if fate.Applied() && id in db.tables.settlements {
      var row := db.tables.settlements[id].(status := status, lastError := lastError);
      db.tables := db.tables.(settlements := db.tables.settlements[id := row]);
    }
    return if fate.Done? then Ok(Unit) else Err(Infrastructure);
  }

  method GetSaga(db: Database, id: string, fate: Fate) returns (r: Result<Saga>)
    ensures r == if !fate.Done? then Err(Infrastructure)
                 else if id !in db.tables.sagas then Err(Domain(NotFound))
                 else Ok(db.tables.sagas[id])
  {
    if !fate.Done? {
      return Err(Infrastructure);
    }
    if id !in db.tables.sagas {
      return Err(Domain(NotFound));
    }
    return Ok(db.tables.sagas[id]);
  }

  function PendingSettlements(t: Tables): set<string> {
    set id | id in t.settlements && t.settlements[id].status.Pending?
  }

  lemma ClaimKeepsRows(t: Tables, ids: seq<string>, n: nat)
    requires n <= |ids|
    ensures var t' := Claim(t, ids[..n]);
            t'.settlements.Keys == t.settlements.Keys && t'.ledger == t.ledger
    ensures forall id :: id in t.settlements && id !in ids[..n] ==>
        Claim(t, ids[..n]).settlements[id] == t.settlements[id]
    decreases n
  {
    if n > 0 {
      ClaimKeepsRows(t, ids, n - 1);
      assert ids[..n][..n - 1] == ids[..n - 1];
      assert ids[..n] == ids[..n - 1] + [ids[n - 1]];
    }
  }

  /** The next row of a claim is still as it was selected, and its attempt is counted. */
  lemma NextClaim(t: Tables, ids: seq<string>, i: nat)
    requires i < |ids| && Claimable(t, ids)
    ensures var before := Claim(t, ids[..i]);
            && ids[i] in before.settlements && before.settlements[ids[i]] == t.settlements[ids[i]]
            && Claim(t, ids[..i + 1]) == Tried(before, ids[i])
  {
    hide Claim;
    NotClaimedYet(t, ids, i);
    ClaimKeepsRows(t, ids, i);
    ClaimSnoc(t, ids, i);
  }

  lemma ClaimSnoc(t: Tables, ids: seq<string>, i: nat)
    requires i < |ids|
    ensures var before, id := Claim(t, ids[..i]), ids[i];
            id in before.settlements ==>
              Claim(t, ids[..i + 1]) == Tried(before, id)
  {
    assert ids[..i + 1][..i] == ids[..i];
  }

  lemma NotClaimedYet(t: Tables, ids: seq<string>, i: nat)
    requires Claimable(t, ids) && i < |ids|
    ensures ids[i] !in ids[..i] && ids[i] in t.settlements
  {
  }

  /** Selects pending rows, counts an attempt for each, commits, and hands out the rows as they were read. */
  method ClaimPendingSettlements(db: Database, limit: nat, locked: string -> bool,
      fate: Fate) returns (r: Result<seq<Settlement>>, ghost ids: seq<string>)
    modifies db
    ensures Selected(PendingSettlements(old(db.tables)), ids, limit, locked)
    ensures db.tables == Written(old(db.tables), Claim(old(db.tables), ids), fate)
    ensures db.tables.ledger == old(db.tables.ledger)
    ensures r == if fate.Done? then Ok(Rows(old(db.tables), ids)) else Err(Infrastructure)
  {
    var dbTx := new DbTx.Begin(db);
    var rows := Select(PendingSettlements(dbTx.view), limit, locked);
    ids := rows;
    var out: seq<Settlement> := [];
    for i := 0 to |rows|
      invariant dbTx.view == Claim(db.tables, rows[..i]) && db.tables == old(db.tables)
      invariant out == Rows(db.tables, rows)[..i]
    {
      NextClaim(db.tables, rows, i);
      out := out + [dbTx.view.settlements[rows[i]]];
      dbTx.view := Tried(dbTx.view, rows[i]);
    }
    assert rows[..|rows|] == rows && out == Rows(old(db.tables), rows);
    ClaimKeepsRows(db.tables, rows, |rows|);
    var committed := dbTx.Commit(fate);
    if committed.Err? {
      return Err(Infrastructure), ids;
    }
    return Ok(out), ids;
  }
}
