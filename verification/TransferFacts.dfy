/** What every committed transfer is, in terms of its stored columns. */
module TransferFacts {
  import opened Errors
  import opened MoneyDomain
  import opened IbanDomain
  import opened LedgerDomain
  import opened LedgerStore
  import opened TransferDomain
  import opened Schema
  import opened Transitions
  import opened BankInvariant
  import opened TransferKeeps
  import opened ReversalKeeps
  import opened SettlementSteps
  import opened RequestSteps
  import opened BankMachine

  // ---- Only well-made transfers between wallets ----

  ghost predicate Wallets(ledger: Ledger, cmd: Command) {
    && cmd.fromAccount in ledger.accounts && ledger.accounts[cmd.fromAccount].typ == Liability
    && cmd.toAccount in ledger.accounts && ledger.accounts[cmd.toAccount].typ == Liability
  }

  ghost predicate SagaWorthy(ledger: Ledger, saga: Saga) {
    Decodes(saga) && WellMade(CommandOf(saga)) && Wallets(ledger, CommandOf(saga))
  }

  ghost predicate Worthy(s: Bank) {
    && (forall id :: id in s.tables.sagas ==> SagaWorthy(s.tables.ledger, s.tables.sagas[id]))
    && (forall r :: r in s.requests && s.requests[r].phase.Posting? ==> Wallets(s.tables.ledger, s.requests[r].cmd))
  }

  /** No saga is new, and no account is gone or changed. */
  ghost predicate SagasSame(t: Tables, t': Tables) {
    && t'.sagas.Keys == t.sagas.Keys && (forall id :: id in t.sagas ==> SameSaga(t.sagas[id], t'.sagas[id]))
    && AccountsStay(t.ledger, t'.ledger)
  }

  ghost predicate AccountsStay(ledger: Ledger, ledger': Ledger) {
    forall id :: id in ledger.accounts ==> id in ledger'.accounts && ledger'.accounts[id] == ledger.accounts[id]
  }

  lemma WorthyStays(ledger: Ledger, ledger': Ledger, saga: Saga, saga': Saga)
    requires SagaWorthy(ledger, saga) && SameSaga(saga, saga') && AccountsStay(ledger, ledger')
    ensures SagaWorthy(ledger', saga')
  {
    hide WellMade, ParseSAR;
  }

  lemma SagasSameKeepsWorthy(s: Bank, s': Bank)
    requires Worthy(s) && SagasSame(s.tables, s'.tables)
    requires forall r :: r in s'.requests && s'.requests[r].phase.Posting? ==>
               || (r in s.requests && s.requests[r] == s'.requests[r])
               || Wallets(s.tables.ledger, s'.requests[r].cmd)
    ensures Worthy(s')
  {
    hide SagaWorthy;
    forall id | id in s'.tables.sagas
      ensures SagaWorthy(s'.tables.ledger, s'.tables.sagas[id])
    {
      WorthyStays(s.tables.ledger, s'.tables.ledger, s.tables.sagas[id], s'.tables.sagas[id]);
    }
  }

  lemma WorkerKeepsSagas(t: Tables, stage: Stage, choice: Choice)
    requires Possible(t, stage, choice) && Remembers(t, stage)
    ensures SagasSame(t, Drive(t, stage, choice).0)
  {
    hide Drive, Possible, SeenIn;
    if stage.PostReversal? {
      DriveReverses(t, stage, choice);
      if Drive(t, stage, choice).0 != t {
        CompensationKeepsSagas(t, stage.saga, stage.queue[0], choice.listings, Drive(t, stage, choice).0);
      }
    } else {
      DriveIsBookkeeping(t, stage, choice);
    }
  }

  lemma CompensationKeepsSagas(t: Tables, seen: Saga, s: Settlement, listings: seq<seq<Entry>>, t': Tables)
    requires CompensationCommits(t, seen, s, listings, t')
    ensures SagasSame(t, t')
  {
    hide ReversalOf, Readable, VerdictOn;
    var tx := ReversalOf(seen, s).value;
    ReadableFits(t.ledger, tx, listings);
    CompensatedIs(t, tx, seen.id, listings);
  }

  /** Screening lets a request on only if both accounts are wallets. */
  lemma ScreenedWallets(h: Hashes, w: World, request: RequestSteps.Request, chance: Chance)
    requires HexDigests(h) && Postable(h, w.tables, request, chance) && !request.phase.Posting?
    ensures var after := Serve(h, w, request, chance);
            && after.0.tables == w.tables && after.1.cmd == request.cmd
            && (after.1.phase.Posting? ==> Wallets(w.tables.ledger, request.cmd))
  {
    hide Validate, ParseKey, Fingerprint, KeyOf, DecodeResult;
  }

  lemma PostingKeepsWorthy(h: Hashes, opening: Ledger, s: Bank, a: Action, s': Bank)
    requires HexDigests(h) && BankMachine.Inv(h, opening, s) && Happens(h, s, a, s') && Worthy(s)
    requires a.Request? && s.requests[a.who].phase.Posting?
    ensures Worthy(s')
  {
    hide BankInv, StoreOk, RequestOk, RowsStay, Serve, Postable, TransferCommits, Coherent, NewRows, SagaWorthy,
        Accepts;
    var request := s.requests[a.who];
    assert RequestOk(h, s.tables, request);
    PostKeepsRequest(h, World(s.tables, s.store), request, a.chance);
    PostingEnds(h, World(s.tables, s.store), request, a.chance);
    if s'.tables != s.tables {
      var b := CommitIsBooking(h, s.tables, request.cmd, a.chance.listings, s'.tables);
      BookingIsWorthy(h, s.tables, b, request.cmd, a.chance.listings, s'.tables);
      BookedAccounts(s.tables, b);
      forall id | id in s'.tables.sagas
        ensures SagaWorthy(s'.tables.ledger, s'.tables.sagas[id])
      {
        BookedElsewhere(s.tables, b, id);
        var saga := s'.tables.sagas[id];
        WorthyStays(s.tables.ledger, s'.tables.ledger, saga, saga);
      }
    }
  }

  lemma BookedAccounts(t: Tables, b: Booking)
    ensures Booked(t, b).ledger.accounts == t.ledger.accounts
  {
  }

  lemma BookedElsewhere(t: Tables, b: Booking, id: string)
    requires NewRows(t, b)
    ensures id in Booked(t, b).sagas <==> id in t.sagas || id == b.saga.id
    ensures id in t.sagas ==> Booked(t, b).sagas[id] == t.sagas[id] && id != b.saga.id
    ensures id == b.saga.id ==> Booked(t, b).sagas[id] == b.saga
  {
  }

  lemma PostingEnds(h: Hashes, w: World, request: RequestSteps.Request, chance: Chance)
    requires HexDigests(h) && Postable(h, w.tables, request, chance) && request.phase.Posting?
    ensures !Serve(h, w, request, chance).1.phase.Posting?
  {
    hide Validate, CommitFor, TransferPosted, ResultOf, EncodeResult;
  }

  lemma BookingIsWorthy(h: Hashes, t: Tables, b: Booking, cmd: Command, listings: seq<seq<Entry>>, t': Tables)
    requires HexDigests(h) && TransferCommits(h, t, cmd, listings, t') && Coherent(h, b)
    requires CommandOf(b.saga) == cmd && Wallets(t.ledger, cmd)
    ensures SagaWorthy(t.ledger, b.saga)
  {
    ValidFromCommits(h, t, cmd, listings, t');
    ValidIffWellMade(cmd);
    hide WellMade, TransferCommits, IdsDerived, EventMatches, SettlementMatches;
  }

  lemma ActionKeepsWorthy(h: Hashes, opening: Ledger, s: Bank, a: Action, s': Bank)
    requires HexDigests(h) && BankMachine.Inv(h, opening, s) && Happens(h, s, a, s') && Worthy(s)
    ensures Worthy(s')
  {
    hide BankInv, StoreOk, RequestOk, Serve, Postable, Drive, Possible, Remembers, Worthy, Wallets;
    match a {
      case Request(r, chance) =>
        if s.requests[r].phase.Posting? {
          PostingKeepsWorthy(h, opening, s, a, s');
        } else {
          ScreenedWallets(h, World(s.tables, s.store), s.requests[r], chance);
          SagasSameKeepsWorthy(s, s');
        }
      case Worker(w, choice) =>
        WorkerKeepsSagas(s.tables, s.workers[w], choice);
        SagasSameKeepsWorthy(s, s');
      case OpenAccount(account) => SagasSameKeepsWorthy(s, s');
      case Relay(outbox) => SagasSameKeepsWorthy(s, s');
      case Expire(_) => SagasSameKeepsWorthy(s, s');
      case Crash(_) => SagasSameKeepsWorthy(s, s');
    }
  }

  lemma {:induction false} RunKeepsWorthy(h: Hashes, opening: Ledger, states: seq<Bank>, actions: seq<Action>)
    requires HexDigests(h) && Run(h, opening, states, actions)
    ensures Worthy(states[|actions|])
  {
    if actions == [] {
      hide Opening;
    } else {
      hide Begins, Happens, Worthy, BankMachine.Inv;
      var n := |actions| - 1;
      RunKeepsWorthy(h, opening, states[..n + 1], actions[..n]);
      RunKeepsInv(h, opening, states[..n + 1], actions[..n]);
      ActionKeepsWorthy(h, opening, states[n], actions[n], states[n + 1]);
    }
  }

  /**
   * In every run, every saga row is a transfer of a positive amount between two different wallets, under
   * a key of 8 to 128 characters, to a beneficiary with a valid Saudi IBAN.
   */
  lemma OnlyValidTransfers(h: Hashes, opening: Ledger, states: seq<Bank>, actions: seq<Action>, id: string)
    requires HexDigests(h) && Run(h, opening, states, actions) && id in states[|actions|].tables.sagas
    ensures var ledger, command := states[|actions|].tables.ledger, states[|actions|].tables.sagas[id].command;
            && 8 <= |TrimSpace(command.idempotency_key)| <= 128
            && ValidIban(Normalize(command.beneficiary_iban))
            && ParseSAR(command.amount).Ok? && ParseSAR(command.amount).value.halalas > 0
            && command.from_account_id != command.to_account_id
            && command.from_account_id in ledger.accounts && command.to_account_id in ledger.accounts
            && ledger.accounts[command.from_account_id].typ == Liability
            && ledger.accounts[command.to_account_id].typ == Liability
  {
    RunKeepsWorthy(h, opening, states, actions);
    hide Run, ParseSAR, ValidIban, Normalize, TrimSpace;
    assert SagaWorthy(states[|actions|].tables.ledger, states[|actions|].tables.sagas[id]);
  }

  // ---- Stored columns ----

  /** The event of a saga row repeats its columns. */
  predicate EventTells(t: Tables, saga: Saga, amount: Result<Money>) {
    var id := "evt_transfer_posted_" + saga.transactionId;
    && id in t.outbox && t.outbox[id].id == id && t.outbox[id].aggregateId == saga.transactionId
    && t.outbox[id].payload.transactionId == saga.transactionId
    && t.outbox[id].payload.fromAccount == saga.command.from_account_id
    && t.outbox[id].payload.toAccount == saga.command.to_account_id
    && t.outbox[id].payload.iban == saga.command.beneficiary_iban
    && ParseSAR(t.outbox[id].payload.amount) == amount
  }

  /**
   * In every run, the columns of a saga row tell its journal: so much was debited from one account and
   * credited to the other, under the row's journal id, and the settlement and the event are about that amount and IBAN.
   */
  lemma ColumnsTellJournal(h: Hashes, opening: Ledger, states: seq<Bank>, actions: seq<Action>, id: string)
    requires HexDigests(h) && Run(h, opening, states, actions) && id in states[|actions|].tables.sagas
    ensures var t, saga := states[|actions|].tables, states[|actions|].tables.sagas[id];
            var amount := ParseSAR(saga.command.amount);
            && amount.Ok? && saga.transactionId in t.ledger.headers
            && Line(saga.transactionId + "-leg1", saga.command.from_account_id, Debit, amount.value) in t.ledger.lines
            && Line(saga.transactionId + "-leg2", saga.command.to_account_id, Credit, amount.value) in t.ledger.lines
            && saga.settlementId == "stl_" + saga.transactionId && saga.settlementId in t.settlements
            && t.settlements[saga.settlementId].iban == saga.command.beneficiary_iban
            && t.settlements[saga.settlementId].amountHalalas == amount.value.halalas
            && t.settlements[saga.settlementId].sagaId == id
            && EventTells(t, saga, amount)
  {
    RunKeepsInv(h, opening, states, actions);
    hide Run, BankMachine.Inv, BankInv, Bundled;
    SagaBundled(h, opening, states[|actions|], id);
    BundledColumns(h, states[|actions|].tables, states[|actions|].tables.sagas[id]);
  }

  lemma SagaBundled(h: Hashes, opening: Ledger, s: Bank, id: string)
    requires HexDigests(h) && BankMachine.Inv(h, opening, s) && id in s.tables.sagas
    ensures Bundled(h, s.tables, s.tables.sagas[id]) && s.tables.sagas[id].id == id
  {
    hide SoundBooks, NothingElse, BalancesExplained, OneSagaPerJournal, Opening, StoreOk, RequestsOk, WorkersOk,
        Bundled;
  }

  lemma BundledColumns(h: Hashes, t: Tables, saga: Saga)
    requires HexDigests(h) && Bundled(h, t, saga)
    ensures var amount := ParseSAR(saga.command.amount);
            && amount.Ok? && amount.value.halalas > 0 && saga.transactionId in t.ledger.headers
            && Line(saga.transactionId + "-leg1", saga.command.from_account_id, Debit, amount.value) in t.ledger.lines
            && Line(saga.transactionId + "-leg2", saga.command.to_account_id, Credit, amount.value) in t.ledger.lines
            && saga.settlementId == "stl_" + saga.transactionId && saga.settlementId in t.settlements
            && t.settlements[saga.settlementId].iban == saga.command.beneficiary_iban
            && t.settlements[saga.settlementId].amountHalalas == amount.value.halalas
            && t.settlements[saga.settlementId].sagaId == saga.id
            && EventTells(t, saga, amount)
  {
    PrintParseRoundTrip(CommandOf(saga).amount);
    hide ParseSAR, ReversalLines, ParseKey, TransferId, SagaId, String;
    assert TransferLines(saga)[0] in t.ledger.lines && TransferLines(saga)[1] in t.ledger.lines;
    assert Decimal(1) == "1" && Decimal(2) == "2";
    assert EntryId(saga.transactionId, 1) == saga.transactionId + "-leg1";
    assert EntryId(saga.transactionId, 2) == saga.transactionId + "-leg2";
  }

  /** And a request that moved money has a saga row with its own accounts, amount, key and beneficiary. */
  lemma MovedColumns(h: Hashes, opening: Ledger, states: seq<Bank>, actions: seq<Action>, r: nat) returns (id: string)
    requires HexDigests(h) && Run(h, opening, states, actions)
    requires r in states[|actions|].requests && states[|actions|].requests[r].moved
    ensures var t, cmd := states[|actions|].tables, states[|actions|].requests[r].cmd;
            && id in t.sagas && t.sagas[id].command.idempotency_key == cmd.idempotencyKey
            && t.sagas[id].command.from_account_id == cmd.fromAccount
            && t.sagas[id].command.to_account_id == cmd.toAccount
            && ParseSAR(t.sagas[id].command.amount) == Ok(cmd.amount)
            && t.sagas[id].command.beneficiary_iban == cmd.iban && t.sagas[id].command.beneficiary_name == cmd.name
            && t.sagas[id].command.description == cmd.description
  {
    RunKeepsInv(h, opening, states, actions);
    hide Run, ParseSAR, BankInv, StoreOk, WorkersOk, OwnSaga, Committed, PayloadOk;
    var t, request := states[|actions|].tables, states[|actions|].requests[r];
    assert RequestOk(h, t, request);
    id := OwnColumns(t, request.cmd);
  }

  lemma OwnColumns(t: Tables, cmd: Command) returns (id: string)
    requires OwnSaga(t, cmd)
    ensures id in t.sagas && CommandFromJson(t.sagas[id].command) == Ok(cmd)
  {
    hide CommandFromJson;
    id :| id in t.sagas && Decodes(t.sagas[id]) && CommandOf(t.sagas[id]) == cmd;
  }

  /** In every run, a success, fresh or replayed, repeats the columns of a saga row with the same trimmed key. */
  lemma SuccessTellsRow(h: Hashes, opening: Ledger, states: seq<Bank>, actions: seq<Action>, r: nat)
    returns (id: string)
    requires HexDigests(h) && Run(h, opening, states, actions)
    requires r in states[|actions|].requests && states[|actions|].requests[r].phase.Answered?
    requires states[|actions|].requests[r].phase.outcome.Ok?
    ensures var t, request := states[|actions|].tables, states[|actions|].requests[r];
            var result := request.phase.outcome.value;
            && id in t.sagas && t.sagas[id].transactionId == result.transactionId
            && TrimSpace(t.sagas[id].idempotencyKey) == TrimSpace(request.cmd.idempotencyKey)
            && result.fromAccount == t.sagas[id].command.from_account_id
            && result.toAccount == t.sagas[id].command.to_account_id
            && ParseSAR(t.sagas[id].command.amount) == Ok(result.amount)
            && result.sagaId == id && result.settlementId == t.sagas[id].settlementId
            && result.sagaState == "POSTED" && result.settlementStatus == "PENDING"
  {
    RunKeepsInv(h, opening, states, actions);
    hide Run, BankMachine.Inv, BankInv, Bundled, Backs, KeyOf;
    var t, request := states[|actions|].tables, states[|actions|].requests[r];
    id := RowBehind(h, opening, states[|actions|], r);
    SagaBundled(h, opening, states[|actions|], id);
    BackedColumns(h, t, t.sagas[id], KeyOf(request.cmd), request.phase.outcome.value);
    AnsweredKey(h, opening, states[|actions|], r);
  }

  lemma RowBehind(h: Hashes, opening: Ledger, s: Bank, r: nat) returns (id: string)
    requires HexDigests(h) && BankMachine.Inv(h, opening, s) && r in s.requests
    requires s.requests[r].phase.Answered? && s.requests[r].phase.outcome.Ok?
    ensures id in s.tables.sagas
    ensures Backs(h, s.tables.sagas[id], KeyOf(s.requests[r].cmd), s.requests[r].phase.outcome.value)
  {
    hide BankInv, StoreOk, WorkersOk, Backs, OwnSaga, KeyOf, ParseKey;
    assert RequestOk(h, s.tables, s.requests[r]);
    id :| id in s.tables.sagas
          && Backs(h, s.tables.sagas[id], KeyOf(s.requests[r].cmd), s.requests[r].phase.outcome.value);
  }

  lemma AnsweredKey(h: Hashes, opening: Ledger, s: Bank, r: nat)
    requires HexDigests(h) && BankMachine.Inv(h, opening, s) && r in s.requests
    requires s.requests[r].phase.Answered? && s.requests[r].phase.outcome.Ok?
    ensures ParseKey(s.requests[r].cmd.idempotencyKey) == Ok(KeyOf(s.requests[r].cmd))
    ensures KeyOf(s.requests[r].cmd) == TrimSpace(s.requests[r].cmd.idempotencyKey)
  {
    hide BankInv, StoreOk, WorkersOk, OwnSaga, Committed, TrimSpace;
    assert RequestOk(h, s.tables, s.requests[r]);
  }

  lemma BackedColumns(h: Hashes, t: Tables, saga: Saga, key: string, result: TransferResult)
    requires HexDigests(h) && Bundled(h, t, saga) && Backs(h, saga, key, result)
    ensures saga.transactionId == result.transactionId && TrimSpace(saga.idempotencyKey) == key
    ensures result.fromAccount == saga.command.from_account_id && result.toAccount == saga.command.to_account_id
    ensures ParseSAR(saga.command.amount) == Ok(result.amount)
    ensures result.sagaId == saga.id && result.settlementId == saga.settlementId
    ensures result.sagaState == "POSTED" && result.settlementStatus == "PENDING"
  {
    hide ParseSAR, TransferId, SagaId, SettlementId, TrimSpace, SettlementMatches, EventMatches, TransferLines,
        ReversalLines;
  }

  // ---- The database as the second line of defence ----

  lemma JournalOfKey(h: Hashes, opening: Ledger, t: Tables, cmd: Command, id: string)
    requires HexDigests(h) && BankInv(h, opening, t) && Validate(cmd).Ok? && id in t.sagas
    requires TrimSpace(t.sagas[id].idempotencyKey) == TrimSpace(cmd.idempotencyKey)
    ensures CommitFor(h, cmd).Ok? && CommitFor(h, cmd).value.tx.id in t.ledger.headers
    ensures |CommitFor(h, cmd).value.events| == 1 && CommitFor(h, cmd).value.saga.idempotencyKey == cmd.idempotencyKey
  {
    CommitHangsTogether(h, cmd);
    hide SoundBooks, NothingElse, BalancesExplained, OneSagaPerJournal, Opening, Decodes, TransferLines, ReversalLines,
        SettlementMatches, EventMatches, Contains, MovingTransaction, TrimSpace, TransferId, SagaId;
    assert Bundled(h, t, t.sagas[id]);
    JournalIsTheKeys(h, cmd);
  }

  lemma JournalIsTheKeys(h: Hashes, cmd: Command)
    requires HexDigests(h) && Validate(cmd).Ok? && CommitFor(h, cmd).Ok?
    ensures ParseKey(cmd.idempotencyKey).Ok?
    ensures CommitFor(h, cmd).value.tx.id == TransferId(h, ParseKey(cmd.idempotencyKey).value)
    ensures CommitFor(h, cmd).value.saga.idempotencyKey == cmd.idempotencyKey
  {
    hide ParseKey, TransferId, SagaId, EncodeCommand;
  }

  /**
   * Even without the guard, a transfer is not posted twice: over sound tables that hold a transfer with the
   * same trimmed key, a post fails, and if the key was sent in the very same form, it fails as a duplicate row.
   */
  lemma SecondPostFails(h: Hashes, opening: Ledger, t: Tables, cmd: Command, listings: seq<seq<Entry>>, id: string)
    requires HexDigests(h) && BankInv(h, opening, t) && Validate(cmd).Ok? && id in t.sagas
    requires TrimSpace(t.sagas[id].idempotencyKey) == TrimSpace(cmd.idempotencyKey)
    ensures CommitFor(h, cmd).Ok?
    ensures |listings| <= |LockOrder(CommitFor(h, cmd).value.tx)| ==>
              && TransferPosted(t, CommitFor(h, cmd).value, listings).Err?
              && (t.sagas[id].idempotencyKey == cmd.idempotencyKey ==>
                    TransferPosted(t, CommitFor(h, cmd).value, listings).error == Infrastructure)
  {
    JournalOfKey(h, opening, t, cmd, id);
    hide BankInv, Validate, CommitFor, TransferPosted, TrimSpace, LockOrder;
    var c := CommitFor(h, cmd).value;
    if |listings| <= |LockOrder(c.tx)| {
      if TransferPosted(t, c, listings).Ok? {
        PostedIsBooked(t, c, listings);
        assert false;
      }
      if t.sagas[id].idempotencyKey == cmd.idempotencyKey {
        DuplicateKeyFails(t, c, listings, id);
      }
    }
  }

  lemma DuplicateKeyFails(t: Tables, c: TransferCommit, listings: seq<seq<Entry>>, id: string)
    requires |listings| <= |LockOrder(c.tx)| && id in t.sagas && t.sagas[id].idempotencyKey == c.saga.idempotencyKey
    ensures TransferPosted(t, c, listings) == Err(Infrastructure)
  {
    hide LockOrder, PostJournal;
  }
}
