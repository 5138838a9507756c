/**
 * What is true of the tables in every committed state: sagas, journals, events and settlements
 * correspond one to one, and every account holds its opening balance plus the transfers not reversed.
 */
module BankInvariant {
  import opened Errors
  import opened MoneyDomain
  import opened LedgerDomain
  import opened LedgerStore
  import opened TransferDomain
  import opened Schema
  import opened Transitions

  /** The ledger before the first transfer: sound, and without journals named like transfers. */
  ghost predicate Opening(opening: Ledger) {
    SoundBooks(opening) && forall id :: id in opening.headers ==> !("tx_idem_" <= id)
  }

  // ---- One transfer ----

  predicate Decodes(saga: Saga) {
    match CommandFromJson(saga.command)
    case Err(_) => false
    case Ok(cmd) => cmd.fromAccount != "" && cmd.toAccount != "" && cmd.fromAccount != cmd.toAccount
                    && cmd.amount.halalas > 0 && cmd.idempotencyKey == saga.idempotencyKey
  }

  function CommandOf(saga: Saga): Command
    requires Decodes(saga)
  {
    CommandFromJson(saga.command).value
  }

  /** The two lines of the transfer. */
  function TransferLines(saga: Saga): seq<Entry>
    requires Decodes(saga)
  {
    var cmd := CommandOf(saga);
    MovingLines(saga.transactionId, cmd.fromAccount, cmd.toAccount, cmd.amount)
  }

  function ReversalLines(saga: Saga): seq<Entry>
    requires Decodes(saga)
  {
    var cmd := CommandOf(saga);
    MovingLines(CompensationId(saga.transactionId), cmd.toAccount, cmd.fromAccount, cmd.amount)
  }

  predicate Reversed(t: Tables, saga: Saga) {
    CompensationId(saga.transactionId) in t.ledger.headers
  }

  ghost predicate Contains(lines: seq<Entry>, some: seq<Entry>) {
    forall i :: 0 <= i < |some| ==> some[i] in lines
  }

  ghost predicate IdsDerived(h: Hashes, saga: Saga)
    requires HexDigests(h)
  {
    && saga.id == SagaId(h, saga.idempotencyKey)
    && ParseKey(saga.idempotencyKey).Ok?
    && saga.transactionId == TransferId(h, ParseKey(saga.idempotencyKey).value)
    && saga.settlementId == SettlementId(saga.transactionId)
  }

  predicate SettlementMatches(s: Settlement, saga: Saga)
    requires Decodes(saga)
  {
    var cmd := CommandOf(saga);
    && s.id == saga.settlementId && s.sagaId == saga.id && s.iban == cmd.iban
    && s.amountHalalas == cmd.amount.halalas && s.currency == cmd.amount.currency
  }

  predicate EventMatches(e: OutboxEvent, saga: Saga)
    requires Decodes(saga)
  {
    var cmd := CommandOf(saga);
    && e.id == EventId(saga.transactionId) && e.aggregateId == saga.transactionId
    && e.payload == PostedPayload(saga.transactionId, cmd.fromAccount, cmd.toAccount, String(cmd.amount), cmd.iban)
  }

  /** A saga and everything committed together with it. */
  ghost predicate Bundled(h: Hashes, t: Tables, saga: Saga)
    requires HexDigests(h)
  {
    && Decodes(saga) && IdsDerived(h, saga)
    && saga.transactionId in t.ledger.headers
    && Contains(t.ledger.lines, TransferLines(saga))
    && (Reversed(t, saga) ==> Contains(t.ledger.lines, ReversalLines(saga)))
    && saga.settlementId in t.settlements && SettlementMatches(t.settlements[saga.settlementId], saga)
    && EventId(saga.transactionId) in t.outbox && EventMatches(t.outbox[EventId(saga.transactionId)], saga)
  }

  ghost predicate AllBundled(h: Hashes, t: Tables)
    requires HexDigests(h)
  {
    forall id :: id in t.sagas ==> t.sagas[id].id == id && Bundled(h, t, t.sagas[id])
  }

  ghost predicate OneSagaPerJournal(t: Tables) {
    forall id, id' :: id in t.sagas && id' in t.sagas && t.sagas[id].transactionId == t.sagas[id'].transactionId ==>
        id == id'
  }

  ghost predicate SettlementHasSaga(t: Tables, id: string) {
    && id in t.settlements && t.settlements[id].sagaId in t.sagas
    && t.sagas[t.settlements[id].sagaId].settlementId == id
  }

  ghost predicate EventHasSaga(t: Tables, id: string) {
    exists sagaId :: sagaId in t.sagas && EventId(t.sagas[sagaId].transactionId) == id
  }

  ghost predicate HeaderExplained(opening: Ledger, t: Tables, header: string) {
    || header in opening.headers
    || exists id :: id in t.sagas
        && (header == t.sagas[id].transactionId || header == CompensationId(t.sagas[id].transactionId))
  }

  /** Nothing exists without its saga: no settlement, no event, no journal beyond the opening ones. */
  ghost predicate NothingElse(opening: Ledger, t: Tables) {
    && (forall id :: id in t.settlements ==> SettlementHasSaga(t, id))
    && (forall id :: id in t.outbox ==> EventHasSaga(t, id))
    && (forall header :: header in t.ledger.headers ==> HeaderExplained(opening, t, header))
  }

  // ---- Balances ----

  /** What a transfer still counts for in an account: nothing once it is reversed. */
  function Effect(account: Account, saga: Saga, headers: set<string>): int {
    if !Decodes(saga) || CompensationId(saga.transactionId) in headers then 0
    else Net(account, TransferLines(saga))
  }

  /** The sum of the effects of some sagas. */
  ghost function Outstanding(account: Account, sagas: map<string, Saga>, headers: set<string>): int
    decreases |sagas|
  {
    if sagas == map[] then 0
    else
      var id :| id in sagas;
      Effect(account, sagas[id], headers) + Outstanding(account, sagas - {id}, headers)
  }

  /** Exactly the transfers without a reversal are in the balances, each once. */
  ghost predicate BalancesExplained(opening: Ledger, t: Tables) {
    forall id :: id in t.ledger.accounts ==>
      BalanceOf(t.ledger, id)
      == Net(t.ledger.accounts[id], opening.lines) + Outstanding(t.ledger.accounts[id], t.sagas, t.ledger.headers)
  }

  ghost predicate BankInv(h: Hashes, opening: Ledger, t: Tables)
    requires HexDigests(h)
  {
    && Opening(opening) && SoundBooks(t.ledger)
    && AllBundled(h, t) && OneSagaPerJournal(t) && NothingElse(opening, t)
    && BalancesExplained(opening, t)
    && (forall e :: e in opening.lines ==> e.accountId in t.ledger.accounts)
  }

  lemma {:induction false} OutstandingSplits(account: Account, sagas: map<string, Saga>, headers: set<string>,
      id: string)
    requires id in sagas
    ensures Outstanding(account, sagas, headers)
        == Effect(account, sagas[id], headers) + Outstanding(account, sagas - {id}, headers)
    decreases |sagas|
  {
    var picked :| picked in sagas &&
      Outstanding(account, sagas, headers)
          == Effect(account, sagas[picked], headers) + Outstanding(account, sagas - {picked}, headers);
    if picked != id {
      OutstandingSplits(account, sagas - {picked}, headers, id);
      OutstandingSplits(account, sagas - {id}, headers, picked);
      assert sagas - {picked} - {id} == sagas - {id} - {picked};
    }
  }

  /** Sagas whose effects agree add up alike. */
  lemma {:induction false} OutstandingSame(account: Account, sagas: map<string, Saga>, sagas': map<string, Saga>,
      headers: set<string>, headers': set<string>)
    requires sagas.Keys == sagas'.Keys
    requires forall id :: id in sagas ==> Effect(account, sagas[id], headers) == Effect(account, sagas'[id], headers')
    ensures Outstanding(account, sagas, headers) == Outstanding(account, sagas', headers')
    decreases |sagas|
  {
    if sagas == map[] {
      assert sagas' == map[];
    } else {
      var id :| id in sagas;
      OutstandingSplits(account, sagas, headers, id);
      OutstandingSplits(account, sagas', headers', id);
      OutstandingSame(account, sagas - {id}, sagas' - {id}, headers, headers');
    }
  }

  // ---- Bookkeeping writes ----

  /** The same saga but for its state and failure reason. */
  predicate SameSaga(s: Saga, s': Saga) {
    s' == s.(state := s'.state, failureReason := s'.failureReason)
  }

  predicate SameSettlement(s: Settlement, s': Settlement) {
    s' == s.(status := s'.status, attempts := s'.attempts, lastError := s'.lastError)
  }

  predicate SameEvent(e: OutboxEvent, e': OutboxEvent) {
    e' == e.(status := e'.status)
  }

  /** Only states, attempts, errors and publication statuses differ. */
  ghost predicate OnlyStatuses(t: Tables, t': Tables) {
    && t'.ledger == t.ledger
    && t'.sagas.Keys == t.sagas.Keys && (forall id :: id in t.sagas ==> SameSaga(t.sagas[id], t'.sagas[id]))
    && t'.settlements.Keys == t.settlements.Keys
    && (forall id :: id in t.settlements ==> SameSettlement(t.settlements[id], t'.settlements[id]))
    && t'.outbox.Keys == t.outbox.Keys && (forall id :: id in t.outbox ==> SameEvent(t.outbox[id], t'.outbox[id]))
  }

  lemma ContainsMore(lines: seq<Entry>, lines': seq<Entry>, some: seq<Entry>)
    requires Contains(lines, some) && forall e :: e in lines ==> e in lines'
    ensures Contains(lines', some)
  {
  }

  lemma SameSagaSame(s: Saga, s': Saga)
    requires SameSaga(s, s')
    ensures Decodes(s) == Decodes(s')
    ensures Decodes(s) ==>
        CommandOf(s) == CommandOf(s') && TransferLines(s) == TransferLines(s') && ReversalLines(s) == ReversalLines(s')
  {
  }

  /** A bundle survives when its rows keep their fixed columns and the ledger only grows. */
  lemma BundleStays(h: Hashes, t: Tables, t': Tables, s: Saga, s': Saga)
    requires HexDigests(h) && Bundled(h, t, s) && SameSaga(s, s')
    requires t.ledger.headers <= t'.ledger.headers && forall e :: e in t.ledger.lines ==> e in t'.ledger.lines
    requires Reversed(t', s) ==> Contains(t'.ledger.lines, ReversalLines(s))
    requires s.settlementId in t'.settlements
    requires SameSettlement(t.settlements[s.settlementId], t'.settlements[s.settlementId])
    requires EventId(s.transactionId) in t'.outbox
    requires SameEvent(t.outbox[EventId(s.transactionId)], t'.outbox[EventId(s.transactionId)])
    ensures Bundled(h, t', s')
  {
    SameSagaSame(s, s');
    ContainsMore(t.ledger.lines, t'.ledger.lines, TransferLines(s));
  }

  /** No saga, settlement or event disappears, and fixed columns stay; rows may be added. */
  ghost predicate RowsStay(t: Tables, t': Tables) {
    && (forall id :: id in t.sagas ==> id in t'.sagas && SameSaga(t.sagas[id], t'.sagas[id]))
    && (forall id :: id in t.settlements ==>
        id in t'.settlements && SameSettlement(t.settlements[id], t'.settlements[id]))
    && (forall id :: id in t.outbox ==> id in t'.outbox && SameEvent(t.outbox[id], t'.outbox[id]))
  }

  lemma ExplanationsStay(opening: Ledger, t: Tables, t': Tables)
    requires RowsStay(t, t')
    ensures forall id :: SettlementHasSaga(t, id) ==> SettlementHasSaga(t', id)
    ensures forall id :: EventHasSaga(t, id) ==> EventHasSaga(t', id)
    ensures forall header :: HeaderExplained(opening, t, header) ==> HeaderExplained(opening, t', header)
  {
    forall id | EventHasSaga(t, id)
      ensures EventHasSaga(t', id)
    {
      var sagaId :| sagaId in t.sagas && EventId(t.sagas[sagaId].transactionId) == id;
      assert SameSaga(t.sagas[sagaId], t'.sagas[sagaId]);
    }
    forall header | HeaderExplained(opening, t, header) && header !in opening.headers
      ensures HeaderExplained(opening, t', header)
    {
      var id :| id in t.sagas
          && (header == t.sagas[id].transactionId || header == CompensationId(t.sagas[id].transactionId));
      assert SameSaga(t.sagas[id], t'.sagas[id]);
    }
    forall id | SettlementHasSaga(t, id)
      ensures SettlementHasSaga(t', id)
    {
      assert SameSettlement(t.settlements[id], t'.settlements[id]);
      assert SameSaga(t.sagas[t.settlements[id].sagaId], t'.sagas[t.settlements[id].sagaId]);
    }
  }

  /** With the same sagas and no new reversal, every bundle survives. */
  lemma BundlesStay(h: Hashes, t: Tables, t': Tables)
    requires HexDigests(h) && AllBundled(h, t) && RowsStay(t, t') && t'.sagas.Keys == t.sagas.Keys
    requires t.ledger.headers <= t'.ledger.headers && forall e :: e in t.ledger.lines ==> e in t'.ledger.lines
    requires forall id :: id in t.sagas ==> Reversed(t', t.sagas[id]) == Reversed(t, t.sagas[id])
    ensures AllBundled(h, t')
  {
    hide Decodes, TransferLines, ReversalLines, SettlementMatches, EventMatches, IdsDerived, Reversed;
    forall id | id in t'.sagas
      ensures t'.sagas[id].id == id && Bundled(h, t', t'.sagas[id])
    {
      var s := t.sagas[id];
      assert Reversed(t', s) ==> Contains(t'.ledger.lines, ReversalLines(s));
      BundleStays(h, t, t', s, t'.sagas[id]);
    }
  }

  lemma StatusesKeepBundles(h: Hashes, opening: Ledger, t: Tables, t': Tables)
    requires HexDigests(h) && AllBundled(h, t) && NothingElse(opening, t) && OnlyStatuses(t, t')
    ensures AllBundled(h, t') && NothingElse(opening, t')
  {
    hide Bundled, SettlementHasSaga, EventHasSaga, HeaderExplained;
    ExplanationsStay(opening, t, t');
    BundlesStay(h, t, t');
  }

  lemma SameEffect(account: Account, s: Saga, s': Saga, headers: set<string>, headers': set<string>)
    requires SameSaga(s, s')
    requires CompensationId(s.transactionId) in headers <==> CompensationId(s.transactionId) in headers'
    ensures Effect(account, s, headers) == Effect(account, s', headers')
  {
    SameSagaSame(s, s');
  }

  lemma StatusesKeepBalances(opening: Ledger, t: Tables, t': Tables)
    requires BalancesExplained(opening, t) && OnlyStatuses(t, t')
    ensures BalancesExplained(opening, t')
  {
    forall id | id in t'.ledger.accounts
      ensures Outstanding(t.ledger.accounts[id], t.sagas, t.ledger.headers)
          == Outstanding(t.ledger.accounts[id], t'.sagas, t.ledger.headers)
    {
      forall sagaId | sagaId in t.sagas
        ensures Effect(t.ledger.accounts[id], t.sagas[sagaId], t.ledger.headers)
            == Effect(t.ledger.accounts[id], t'.sagas[sagaId], t.ledger.headers)
      {
        SameEffect(t.ledger.accounts[id], t.sagas[sagaId], t'.sagas[sagaId], t.ledger.headers, t.ledger.headers);
      }
      OutstandingSame(t.ledger.accounts[id], t.sagas, t'.sagas, t.ledger.headers, t.ledger.headers);
    }
  }

  lemma StatusesKeepJournals(t: Tables, t': Tables)
    requires OneSagaPerJournal(t) && OnlyStatuses(t, t')
    ensures OneSagaPerJournal(t')
  {
    forall id | id in t.sagas
      ensures t'.sagas[id].transactionId == t.sagas[id].transactionId
    {
      assert SameSaga(t.sagas[id], t'.sagas[id]);
    }
  }

  /** Updates of states and statuses keep the whole invariant. */
  lemma StatusesKeepInv(h: Hashes, opening: Ledger, t: Tables, t': Tables)
    requires HexDigests(h) && BankInv(h, opening, t) && OnlyStatuses(t, t')
    ensures BankInv(h, opening, t')
  {
    StatusesKeepBundles(h, opening, t, t');
    StatusesKeepBalances(opening, t, t');
    StatusesKeepJournals(t, t');
  }

  lemma SagaUpdateIsStatus(t: Tables, id: string, state: SagaState, failure: string)
    ensures OnlyStatuses(t, UpdateSagaState(t, id, state, failure))
  {
  }

  lemma SettlementUpdateIsStatus(t: Tables, id: string, status: SettlementStatus, lastError: string)
    ensures OnlyStatuses(t, UpdateSettlementStatus(t, id, status, lastError))
  {
  }

  lemma {:induction false} ClaimIsStatus(t: Tables, ids: seq<string>)
    ensures OnlyStatuses(t, Claim(t, ids))
  {
    if ids != [] {
      ClaimIsStatus(t, ids[..|ids| - 1]);
    }
  }

  // ---- A new account ----

  lemma {:induction false} NetOfStrangers(account: Account, sagas: map<string, Saga>, headers: set<string>)
    requires forall id :: id in sagas ==> Decodes(sagas[id]) && forall e :: e in TransferLines(sagas[id]) ==>
        e.accountId != account.id
    ensures Outstanding(account, sagas, headers) == 0
    decreases |sagas|
  {
    hide Decodes, TransferLines;
    if sagas != map[] {
      var id :| id in sagas;
      OutstandingSplits(account, sagas, headers, id);
      NetElsewhere(account, TransferLines(sagas[id]));
      NetOfStrangers(account, sagas - {id}, headers);
    }
  }

  function WithAccount(t: Tables, account: Account): Tables {
    t.(ledger := Opened(t.ledger, account))
  }

  lemma LinesOfStrangers(h: Hashes, t: Tables, saga: Saga, account: Account)
    requires HexDigests(h) && Bundled(h, t, saga)
    requires forall e :: e in t.ledger.lines ==> e.accountId != account.id
    ensures Decodes(saga) && forall e :: e in TransferLines(saga) ==> e.accountId != account.id
  {
    var lines := TransferLines(saga);
    assert lines[0] in t.ledger.lines && lines[1] in t.ledger.lines;
  }

  lemma AccountKeepsBalances(h: Hashes, opening: Ledger, t: Tables, account: Account)
    requires HexDigests(h) && BankInv(h, opening, t) && account.id !in t.ledger.accounts
    ensures BalancesExplained(opening, WithAccount(t, account))
  {
    hide Bundled, TransferLines, Decodes, SettlementHasSaga, EventHasSaga, HeaderExplained;
    NetElsewhere(account, t.ledger.lines);
    NetElsewhere(account, opening.lines);
    forall id | id in t.sagas
      ensures Decodes(t.sagas[id]) && forall e :: e in TransferLines(t.sagas[id]) ==> e.accountId != account.id
    {
      LinesOfStrangers(h, t, t.sagas[id], account);
    }
    NetOfStrangers(account, t.sagas, t.ledger.headers);
  }

  /** Opening an account keeps the whole invariant. */
  lemma AccountKeepsInv(h: Hashes, opening: Ledger, t: Tables, account: Account)
    requires HexDigests(h) && BankInv(h, opening, t) && account.id !in t.ledger.accounts
    ensures BankInv(h, opening, WithAccount(t, account))
  {
    hide Bundled, SettlementHasSaga, EventHasSaga, HeaderExplained, BalanceOf;
    var t' := WithAccount(t, account);
    AccountKeepsBooksSound(t.ledger, account);
    AccountKeepsBalances(h, opening, t, account);
    ExplanationsStay(opening, t, t');
    BundlesStay(h, t, t');
  }
}
