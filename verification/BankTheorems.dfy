/** What holds in every run of the bank, whatever crashes, expires, is lost or is left unreported. */
module BankTheorems {
  import opened Errors
  import opened LedgerDomain
  import opened LedgerStore
  import opened TransferDomain
  import opened Schema
  import opened Transitions
  import opened BankInvariant
  import opened SettlementSteps
  import opened RequestSteps
  import opened BankMachine
  import opened Books

  /**
   * Exact reversal. Every account holds its opening balance plus the net of exactly those transfers
   * that have no reversal, and no line is booked twice, so no transfer is reversed twice.
   */
  lemma ExactReversal(h: Hashes, opening: Ledger, states: seq<Bank>, actions: seq<Action>, account: string)
    requires HexDigests(h) && Run(h, opening, states, actions)
    requires account in states[|actions|].tables.ledger.accounts
    ensures var t := states[|actions|].tables;
            && BalanceOf(t.ledger, account)
               == Net(t.ledger.accounts[account], opening.lines)
                   + Outstanding(t.ledger.accounts[account], t.sagas, t.ledger.headers)
            && DistinctIds(t.ledger.lines)
            && (forall id :: id in t.sagas ==>
                Decodes(t.sagas[id]) && Contains(t.ledger.lines, TransferLines(t.sagas[id])))
            && (forall id :: id in t.sagas && Reversed(t, t.sagas[id]) ==>
                Contains(t.ledger.lines, ReversalLines(t.sagas[id])))
  {
    hide Begins, Happens, TransferLines, ReversalLines, Decodes, Contains, IdsDerived, Reversed, EventMatches,
        SettlementMatches, NothingElse, OneSagaPerJournal;
    RunKeepsInv(h, opening, states, actions);
    var t := states[|actions|].tables;
    assert forall id :: id in t.sagas ==> Bundled(h, t, t.sagas[id]);
  }

  /** At most one posting per key: one trimmed key, one saga, one journal. */
  lemma AtMostOnePostingPerKey(h: Hashes, opening: Ledger, states: seq<Bank>, actions: seq<Action>, id: string,
      id': string)
    requires HexDigests(h) && Run(h, opening, states, actions)
    requires id in states[|actions|].tables.sagas && id' in states[|actions|].tables.sagas
    requires ParseKey(states[|actions|].tables.sagas[id].idempotencyKey)
        == ParseKey(states[|actions|].tables.sagas[id'].idempotencyKey)
    ensures id == id'
  {
    hide Begins, Happens, Decodes, TransferLines, ReversalLines, Contains, EventMatches, SettlementMatches,
        NothingElse, SoundBooks, ParseKey;
    RunKeepsInv(h, opening, states, actions);
    var t := states[|actions|].tables;
    assert Bundled(h, t, t.sagas[id]) && Bundled(h, t, t.sagas[id']);
  }

  /** A success, fresh or replayed, is about a transfer whose journal is committed. */
  lemma SuccessMeansCommitted(h: Hashes, opening: Ledger, states: seq<Bank>, actions: seq<Action>, r: nat)
    requires HexDigests(h) && Run(h, opening, states, actions)
    requires r in states[|actions|].requests && states[|actions|].requests[r].phase.Answered?
    requires states[|actions|].requests[r].phase.outcome.Ok?
    ensures var t, request := states[|actions|].tables, states[|actions|].requests[r];
            && request.phase.outcome.value.transactionId == TransferId(h, KeyOf(request.cmd))
            && TransferId(h, KeyOf(request.cmd)) in t.ledger.headers
            && exists id :: id in t.sagas && t.sagas[id].transactionId == TransferId(h, KeyOf(request.cmd))
                            && Backs(h, t.sagas[id], KeyOf(request.cmd), request.phase.outcome.value)
  {
    hide Begins, Happens, Decodes, TransferLines, ReversalLines, Contains, EventMatches, SettlementMatches,
        NothingElse, SoundBooks, ParseKey, CommandOf;
    RunKeepsInv(h, opening, states, actions);
    var t, request := states[|actions|].tables, states[|actions|].requests[r];
    assert RequestOk(h, t, request);
    var id :| id in t.sagas && Backs(h, t.sagas[id], KeyOf(request.cmd), request.phase.outcome.value);
    assert Bundled(h, t, t.sagas[id]);
  }

  // ---- Retry only when nothing moved ----

  lemma OnlyMoversWrite(h: Hashes, s: Bank, a: Action, s': Bank)
    requires HexDigests(h) && Happens(h, s, a, s') && a.Request?
    ensures a.who in s'.requests && (s'.tables != s.tables ==> s'.requests[a.who].moved)
    ensures forall r :: r in s.requests ==> r in s'.requests && (s.requests[r].moved ==> s'.requests[r].moved)
  {
    hide CommitFor, TransferPosted, GuardStep, Readable, Validate;
  }

  lemma OthersKeepHistory(h: Hashes, s: Bank, a: Action, s': Bank)
    requires HexDigests(h) && Happens(h, s, a, s') && !a.Request?
    ensures s'.requests == s.requests
  {
    hide Drive, Possible;
  }

  lemma {:induction false} MovedForGood(h: Hashes, opening: Ledger, states: seq<Bank>, actions: seq<Action>, r: nat,
      i: nat)
    requires HexDigests(h) && Run(h, opening, states, actions) && i <= |actions|
    requires r in states[i].requests && states[i].requests[r].moved
    ensures r in states[|actions|].requests && states[|actions|].requests[r].moved
    decreases |actions|
  {
    hide Begins, Happens;
    if i < |actions| {
      var n := |actions| - 1;
      MovedForGood(h, opening, states[..n + 1], actions[..n], r, i);
      assert Happens(h, states[n], actions[n], states[n + 1]);
      if actions[n].Request? {
        OnlyMoversWrite(h, states[n], actions[n], states[n + 1]);
      } else {
        OthersKeepHistory(h, states[n], actions[n], states[n + 1]);
      }
    }
  }

  lemma ReleasedNotMoved(h: Hashes, opening: Ledger, states: seq<Bank>, actions: seq<Action>, r: nat)
    requires HexDigests(h) && Run(h, opening, states, actions)
    requires r in states[|actions|].requests
    requires (states[|actions|].requests[r].released || states[|actions|].requests[r].phase.Deleting?)
    ensures !states[|actions|].requests[r].moved
  {
    hide Begins, Happens, BankInv, StoreOk, Validate, OwnSaga, PayloadOk, Committed;
    RunKeepsInv(h, opening, states, actions);
    assert RequestOk(h, states[|actions|].tables, states[|actions|].requests[r]);
  }

  /**
   * Retry only when nothing moved. A request that gave its key back never changed a table: no saga,
   * journal, event or settlement of its making exists.
   */
  lemma ReleasedMeansNothingMoved(h: Hashes, opening: Ledger, states: seq<Bank>, actions: seq<Action>, r: nat, i: nat)
    requires HexDigests(h) && Run(h, opening, states, actions)
    requires r in states[|actions|].requests
    requires (states[|actions|].requests[r].released || states[|actions|].requests[r].phase.Deleting?)
    requires i < |actions| && actions[i].Request? && actions[i].who == r
    ensures states[i + 1].tables == states[i].tables
  {
    hide Begins, Happens;
    ReleasedNotMoved(h, opening, states, actions, r);
    assert Happens(h, states[i], actions[i], states[i + 1]);
    OnlyMoversWrite(h, states[i], actions[i], states[i + 1]);
    if states[i + 1].requests[r].moved {
      MovedForGood(h, opening, states, actions, r, i + 1);
    }
  }

  // ---- Bundles ----

  /** What a saga, its settlement and its event say of each other, and what they never share. */
  ghost predicate Corresponding(h: Hashes, t: Tables)
    requires HexDigests(h)
  {
    && AllBundled(h, t)
    && (forall id, id' :: id in t.sagas && id' in t.sagas && t.sagas[id].settlementId == t.sagas[id'].settlementId ==>
        id == id')
    && (forall id, id' :: id in t.sagas && id' in t.sagas ==>
          EventId(t.sagas[id].transactionId) == EventId(t.sagas[id'].transactionId) ==> id == id')
    && (forall id :: id in t.settlements ==> SettlementHasSaga(t, id))
    && (forall id :: id in t.outbox ==> EventHasSaga(t, id))
  }

  /** Sagas, transfer journals, events and settlements are in one-to-one correspondence. */
  lemma BundleBijection(h: Hashes, opening: Ledger, states: seq<Bank>, actions: seq<Action>)
    requires HexDigests(h) && Run(h, opening, states, actions)
    ensures var t := states[|actions|].tables;
            && Corresponding(h, t) && OneSagaPerJournal(t)
            && forall header :: header in t.ledger.headers ==> HeaderExplained(opening, t, header)
  {
    hide Begins, Happens, Decodes, TransferLines, ReversalLines, Contains, EventMatches, SettlementMatches,
        SoundBooks, ParseKey, BalancesExplained, SettlementHasSaga, EventHasSaga, HeaderExplained;
    RunKeepsInv(h, opening, states, actions);
    var t := states[|actions|].tables;
    forall id, id' | id in t.sagas && id' in t.sagas
      ensures t.sagas[id].settlementId == t.sagas[id'].settlementId ==> id == id'
      ensures EventId(t.sagas[id].transactionId) == EventId(t.sagas[id'].transactionId) ==> id == id'
    {
      assert Bundled(h, t, t.sagas[id]) && Bundled(h, t, t.sagas[id']);
      DerivedIdsInjective(t.sagas[id].transactionId, t.sagas[id'].transactionId);
    }
  }

  lemma StepKeepsRows(h: Hashes, opening: Ledger, s: Bank, a: Action, s': Bank)
    requires HexDigests(h) && Inv(h, opening, s) && Happens(h, s, a, s')
    ensures RowsStay(s.tables, s'.tables)
  {
    hide BankInv, RequestOk, StoreOk, RowsStay, OnlyStatuses, Drive, Serve, Remembers, Possible, Postable;
    match a {
      case Request(_, _) => RequestTablesSound(h, opening, s, a, s');
      case Worker(w, choice) => DriveKeepsInv(h, opening, s.tables, s.workers[w], choice);
      case OpenAccount(account) => AccountKeepsRows(s.tables, account);
      case Relay(outbox) =>
        RelayIsStatus(s.tables, outbox);
        StatusesKeepRows(s.tables, s'.tables);
      case Expire(_) => UntouchedKeepsRows(s.tables);
      case Crash(_) => UntouchedKeepsRows(s.tables);
    }
  }

  lemma RowsStayTransitive(t: Tables, u: Tables, v: Tables)
    requires RowsStay(t, u) && RowsStay(u, v)
    ensures RowsStay(t, v)
  {
    forall id | id in t.sagas
      ensures id in v.sagas && SameSaga(t.sagas[id], v.sagas[id])
    {
      assert SameSaga(t.sagas[id], u.sagas[id]) && SameSaga(u.sagas[id], v.sagas[id]);
    }
    forall id | id in t.settlements
      ensures id in v.settlements && SameSettlement(t.settlements[id], v.settlements[id])
    {
      assert SameSettlement(t.settlements[id], u.settlements[id]);
      assert SameSettlement(u.settlements[id], v.settlements[id]);
    }
    forall id | id in t.outbox
      ensures id in v.outbox && SameEvent(t.outbox[id], v.outbox[id])
    {
      assert SameEvent(t.outbox[id], u.outbox[id]) && SameEvent(u.outbox[id], v.outbox[id]);
    }
  }

  /** Nothing committed ever disappears, and later updates change states and statuses only. */
  lemma {:induction false} RowsStayForever(h: Hashes, opening: Ledger, states: seq<Bank>, actions: seq<Action>, i: nat)
    requires HexDigests(h) && Run(h, opening, states, actions) && i <= |actions|
    ensures RowsStay(states[i].tables, states[|actions|].tables)
    decreases |actions|
  {
    if i == |actions| {
      UntouchedKeepsRows(states[i].tables);
    } else {
      hide Begins, Happens, RowsStay, Inv;
      var n := |actions| - 1;
      RowsStayForever(h, opening, states[..n + 1], actions[..n], i);
      RunKeepsInv(h, opening, states[..n + 1], actions[..n]);
      StepKeepsRows(h, opening, states[n], actions[n], states[n + 1]);
      RowsStayTransitive(states[i].tables, states[n].tables, states[n + 1].tables);
    }
  }

  /** No overdraft, and assets plus expenses equal liabilities, equity and revenue. */
  lemma BooksAlwaysSound(h: Hashes, opening: Ledger, states: seq<Bank>, actions: seq<Action>)
    requires HexDigests(h) && Run(h, opening, states, actions)
    ensures var ledger := states[|actions|].tables.ledger;
            && (forall id :: id in ledger.accounts ==> BalanceOf(ledger, id) >= 0)
            && Total(ledger.lines, Debit) == Total(ledger.lines, Credit)
            && SumOfBalances(ledger.accounts, ledger.accounts.Keys, ledger.lines, true)
               == SumOfBalances(ledger.accounts, ledger.accounts.Keys, ledger.lines, false)
  {
    hide Begins, Happens, AllBundled, NothingElse, OneSagaPerJournal, BalancesExplained, StoreOk, RequestsOk, WorkersOk;
    RunKeepsInv(h, opening, states, actions);
    SidesAndBalances(states[|actions|].tables.ledger.accounts, states[|actions|].tables.ledger.lines);
  }
}
