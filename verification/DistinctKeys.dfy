/** Keys that digests tell apart do not get in each other's way. */
module DistinctKeys {
  import opened Errors
  import opened MoneyDomain
  import opened IbanDomain
  import opened LedgerDomain
  import opened LedgerStore
  import opened TransferDomain
  import opened Schema
  import opened Transitions
  import opened BankInvariant
  import opened TransferKeeps
  import opened RequestSteps
  import opened BankMachine
  import opened BankRuns
  import opened BankWitness
  import Contention

  // ---- Transfers that could all go through ----

  /** What these transfers move together. */
  function Outlay(cmds: seq<Command>): nat {
    if cmds == [] then 0
    else (if cmds[0].amount.halalas > 0 then cmds[0].amount.halalas else 0) + Outlay(cmds[1..])
  }

  /** Two wallets with room for this much, which the sender also holds. */
  ghost predicate Funded(ledger: Ledger, cmd: Command, total: nat) {
    && Wallet(ledger, cmd.fromAccount, total) && Wallet(ledger, cmd.toAccount, total)
    && BalanceOf(ledger, cmd.fromAccount) >= total
  }

  ghost predicate NamesNew(h: Hashes, ledger: Ledger, cmd: Command)
    requires HexDigests(h)
  {
    && TransferOf(h, cmd) !in ledger.headers
    && forall leg: nat :: EntryId(TransferOf(h, cmd), leg) !in LineIds(ledger.lines)
  }

  ghost predicate RowsNew(h: Hashes, t: Tables, cmd: Command)
    requires HexDigests(h)
  {
    && SagaId(h, cmd.idempotencyKey) !in t.sagas && SettlementId(TransferOf(h, cmd)) !in t.settlements
    && EventId(TransferOf(h, cmd)) !in t.outbox
    && forall id :: id in t.sagas ==> t.sagas[id].idempotencyKey != cmd.idempotencyKey
  }

  /** Nothing in the tables or the store is named like this transfer. */
  ghost predicate Unused(h: Hashes, w: World, cmd: Command)
    requires HexDigests(h)
  {
    NamesNew(h, w.tables.ledger, cmd) && RowsNew(h, w.tables, cmd) && KeyOf(cmd) !in w.store
  }

  /** Two commands with keys of their own, of which no name is derived twice. */
  ghost predicate Apart(h: Hashes, cmd: Command, cmd': Command)
    requires HexDigests(h)
  {
    && KeyOf(cmd) != KeyOf(cmd') && cmd.idempotencyKey != cmd'.idempotencyKey
    && TransferOf(h, cmd) != TransferOf(h, cmd') && SagaId(h, cmd.idempotencyKey) != SagaId(h, cmd'.idempotencyKey)
  }

  // ---- One of them commits ----

  lemma FundedAccepted(h: Hashes, ledger: Ledger, cmd: Command, total: nat)
    requires HexDigests(h) && SoundBooks(ledger) && Validate(cmd).Ok? && NamesNew(h, ledger, cmd)
    requires Funded(ledger, cmd, total) && cmd.amount.halalas <= total
    ensures CommitFor(h, cmd).Ok?
    ensures Accepts(ledger, CommitFor(h, cmd).value.tx, Listed(ledger, CommitFor(h, cmd).value.tx))
  {
    PreparedIs(h, cmd);
    hide Validate, CommitFor, SoundBooks, Gross, BalanceOf, Listed, KeyOf, EntryId, TransferId;
    var tx, amount: nat := CommitFor(h, cmd).value.tx, cmd.amount.halalas;
    FiledWallets(ledger, cmd.fromAccount, cmd.toAccount);
    MovedCompetes(ledger, tx.id, tx.description, cmd.fromAccount, cmd.toAccount, cmd.amount);
    RoomAfter(ledger, ledger.lines, tx, cmd.fromAccount, cmd.toAccount, amount, cmd.fromAccount);
    RoomAfter(ledger, ledger.lines, tx, cmd.fromAccount, cmd.toAccount, amount, cmd.toAccount);
    MovementAccepted(ledger, tx, cmd.fromAccount, cmd.toAccount, amount);
  }

  lemma NewRowsPost(t: Tables, c: TransferCommit, listings: seq<seq<Entry>>)
    requires |listings| <= |LockOrder(c.tx)| && VerdictOn(t.ledger, c.tx, listings) == Posted
    requires |c.events| == 1 && c.settlement.sagaId == c.saga.id && c.settlement.amountHalalas > 0
    requires c.saga.id !in t.sagas && c.settlement.id !in t.settlements && c.events[0].id !in t.outbox
    requires forall id :: id in t.sagas ==> t.sagas[id].idempotencyKey != c.saga.idempotencyKey
    ensures TransferPosted(t, c, listings).Ok?
  {
    hide VerdictOn;
    var t1 := InsertSaga(t, c.saga).value;
    var t2 := PostJournal(t1, c.tx, listings).value;
    assert c.events[..0] == [] && InsertEvents(t2, []) == Ok(t2);
  }

  lemma PreparedNames(h: Hashes, cmd: Command)
    requires HexDigests(h) && Validate(cmd).Ok? && CommitFor(h, cmd).Ok?
    ensures var c := CommitFor(h, cmd).value;
            && |c.events| == 1 && c.saga.id == SagaId(h, cmd.idempotencyKey)
            && c.saga.idempotencyKey == cmd.idempotencyKey
            && c.settlement.id == SettlementId(TransferOf(h, cmd)) && c.events[0].id == EventId(TransferOf(h, cmd))
  {
    hide ParseKey, ParsedIban, MovingTransaction, EncodeCommand, SagaId, TransferId;
  }

  /** A funded transfer with names of its own commits. */
  lemma FundedCommits(h: Hashes, t: Tables, cmd: Command, total: nat) returns (t': Tables)
    requires HexDigests(h) && SoundBooks(t.ledger) && Validate(cmd).Ok? && NamesNew(h, t.ledger, cmd)
    requires RowsNew(h, t, cmd) && Funded(t.ledger, cmd, total) && cmd.amount.halalas <= total
    ensures CommitFor(h, cmd).Ok?
    ensures TransferCommits(h, t, cmd, Listed(t.ledger, CommitFor(h, cmd).value.tx), t')
  {
    FundedAccepted(h, t.ledger, cmd, total);
    CommitHangsTogether(h, cmd);
    PreparedNames(h, cmd);
    hide Validate, SoundBooks, VerdictOn, Listed, KeyOf, Readable, CommitFor, Coherent, Funded, SagaId, TransferOf;
    var c, listings := CommitFor(h, cmd).value, Listed(t.ledger, CommitFor(h, cmd).value.tx);
    PostableFits(t.ledger, c.tx, listings);
    BookingLinked(h, c);
    NewRowsPost(t, c, listings);
    t' := TransferPosted(t, c, listings).value;
  }

  // ---- And the others still could ----

  lemma PairBounds(account: Account, txId: string, from: string, to: string, amount: Money, up: bool)
    requires from != "" && to != "" && from != to && amount.halalas > 0
    ensures Gross(account, MovingLines(txId, from, to, amount), up) <= amount.halalas
    ensures Net(account, MovingLines(txId, from, to, amount)) >= -amount.halalas
  {
    var lines := MovingLines(txId, from, to, amount);
    hide Gross, Net, EntryId;
    assert lines == [lines[0]] + [lines[1]];
    Contention.OneLine(account, lines[0], 0);
    Contention.OneLine(account, lines[1], 0);
    GrossConcat(account, [lines[0]], [lines[1]], up);
    NetConcat(account, [lines[0]], [lines[1]]);
  }

  lemma WalletStays(ledger: Ledger, tx: Transaction, from: string, to: string, amount: Money, id: string, total: nat,
      rest: nat)
    requires from != "" && to != "" && from != to && amount.halalas > 0
    requires tx.entries == MovingLines(tx.id, from, to, amount)
    requires Wallet(ledger, id, total) && total == amount.halalas + rest
    ensures Wallet(WithJournal(ledger, tx), id, rest)
    ensures BalanceOf(ledger, id) >= total ==> BalanceOf(WithJournal(ledger, tx), id) >= rest
  {
    hide Gross, Net, MovingLines;
    var account := ledger.accounts[id];
    forall up
      ensures Gross(account, ledger.lines + tx.entries, up) + rest <= MAX_INT64
    {
      PairBounds(account, tx.id, from, to, amount, up);
      GrossConcat(account, ledger.lines, tx.entries, up);
    }
    PairBounds(account, tx.id, from, to, amount, true);
    NetConcat(account, ledger.lines, tx.entries);
  }

  lemma FundedStays(ledger: Ledger, tx: Transaction, cmd: Command, other: Command, total: nat, rest: nat)
    requires cmd.fromAccount != "" && cmd.toAccount != "" && cmd.fromAccount != cmd.toAccount && cmd.amount.halalas > 0
    requires tx.entries == MovingLines(tx.id, cmd.fromAccount, cmd.toAccount, cmd.amount)
    requires Funded(ledger, other, total) && total == cmd.amount.halalas + rest
    ensures Funded(WithJournal(ledger, tx), other, rest)
  {
    hide Gross, BalanceOf, MovingLines;
    WalletStays(ledger, tx, cmd.fromAccount, cmd.toAccount, cmd.amount, other.fromAccount, total, rest);
    WalletStays(ledger, tx, cmd.fromAccount, cmd.toAccount, cmd.amount, other.toAccount, total, rest);
  }

  lemma BookedNames(h: Hashes, b: Booking, cmd: Command)
    requires HexDigests(h) && Validate(cmd).Ok? && Coherent(h, b) && CommandOf(b.saga) == cmd
    requires b.saga.idempotencyKey == cmd.idempotencyKey
    ensures b.saga.id == SagaId(h, cmd.idempotencyKey) && b.tx.id == TransferOf(h, cmd)
    ensures b.settlement.id == SettlementId(TransferOf(h, cmd)) && b.event.id == EventId(TransferOf(h, cmd))
    ensures b.tx.entries == MovingLines(b.tx.id, cmd.fromAccount, cmd.toAccount, cmd.amount)
    ensures cmd.fromAccount != "" && cmd.toAccount != "" && cmd.fromAccount != cmd.toAccount && cmd.amount.halalas > 0
  {
    ValidKey(cmd);
    hide ParseKey, Validate, TransferId, SagaId, CommandFromJson, MovingLines;
  }

  lemma NamesStay(h: Hashes, t: Tables, b: Booking, cmd: Command, other: Command)
    requires HexDigests(h) && NamesNew(h, t.ledger, other) && RowsNew(h, t, other) && Apart(h, cmd, other)
    requires b.saga.id == SagaId(h, cmd.idempotencyKey) && b.tx.id == TransferOf(h, cmd)
    requires b.saga.idempotencyKey == cmd.idempotencyKey
    requires b.settlement.id == SettlementId(TransferOf(h, cmd)) && b.event.id == EventId(TransferOf(h, cmd))
    requires LineIds(b.tx.entries) == {EntryId(b.tx.id, 1), EntryId(b.tx.id, 2)}
    ensures NamesNew(h, Booked(t, b).ledger, other) && RowsNew(h, Booked(t, b), other)
  {
    hide KeyOf, TransferOf, SagaId, EntryId, SettlementId, EventId, LineIds;
    LineIdsConcat(t.ledger.lines, b.tx.entries);
    DerivedIdsInjective(TransferOf(h, cmd), TransferOf(h, other));
    forall leg: nat
      ensures EntryId(TransferOf(h, other), leg) !in LineIds(b.tx.entries)
    {
      if EntryId(TransferOf(h, other), leg) == EntryId(b.tx.id, 1) {
        EntryIdInjective(TransferOf(h, other), leg, b.tx.id, 1);
      }
      if EntryId(TransferOf(h, other), leg) == EntryId(b.tx.id, 2) {
        EntryIdInjective(TransferOf(h, other), leg, b.tx.id, 2);
      }
    }
  }

  /** A committed transfer uses up its own names and its own money, and leaves the others' as they were. */
  lemma OthersUnaffected(h: Hashes, t: Tables, cmd: Command, listings: seq<seq<Entry>>, t': Tables, other: Command,
      total: nat, rest: nat)
    requires HexDigests(h) && TransferCommits(h, t, cmd, listings, t') && Apart(h, cmd, other)
    requires NamesNew(h, t.ledger, other) && RowsNew(h, t, other)
    requires Funded(t.ledger, other, total) && total == cmd.amount.halalas + rest
    ensures NamesNew(h, t'.ledger, other) && RowsNew(h, t', other) && Funded(t'.ledger, other, rest)
  {
    var b := CommitIsBooking(h, t, cmd, listings, t');
    ValidFromCommits(h, t, cmd, listings, t');
    BookedNames(h, b, cmd);
    hide TransferCommits, Apart, NamesNew, RowsNew, Coherent, Accepts, Funded, Validate, CommitFor, NewRows, EntryId;
    FundedStays(t.ledger, b.tx, cmd, other, total, rest);
    MovedIds(b.tx.id, cmd.fromAccount, cmd.toAccount, cmd.amount);
    NamesStay(h, t, b, cmd, other);
  }

  lemma MovedIds(txId: string, from: string, to: string, amount: Money)
    requires from != "" && to != "" && amount.halalas > 0
    ensures LineIds(MovingLines(txId, from, to, amount)) == {EntryId(txId, 1), EntryId(txId, 2)}
  {
    hide EntryId;
    var lines := MovingLines(txId, from, to, amount);
    assert lines[0].id in LineIds(lines) && lines[1].id in LineIds(lines);
  }

  // ---- One request after the other ----

  function Succeeded(h: Hashes, cmd: Command): RequestSteps.Request
    requires HexDigests(h)
  {
    RequestSteps.Request(cmd, Answered(Ok(ResultOf(h, cmd, KeyOf(cmd)))), true, false)
  }

  lemma FundedScreened(t: Tables, cmd: Command, total: nat)
    requires Funded(t.ledger, cmd, total)
    ensures Screened(t, cmd, None).Ok?
  {
    hide Gross, BalanceOf;
  }

  lemma ReadyDecodes(h: Hashes, cmd: Command)
    requires HexDigests(h) && Validate(cmd).Ok?
    ensures Answered(Decoded(Ok(Ready(h, cmd)), false)) == Succeeded(h, cmd).phase
  {
    ValidKey(cmd);
    hide Validate, ParseKey, KeyOf, DecodeResult, EncodeResult, TransferId, SagaId;
    ResultRoundTrip(ResultOf(h, cmd, KeyOf(cmd)));
  }

  /** From its arrival to its commit. */
  lemma Moves(h: Hashes, opening: Ledger, states: seq<Bank>, actions: seq<Action>, who: nat, cmd: Command,
      listings: seq<seq<Entry>>, t': Tables)
    returns (states': seq<Bank>, actions': seq<Action>, last: Bank)
    requires HexDigests(h) && |states| == |actions| + 1 && Run(h, opening, states, actions) && Smooth(actions)
    requires who in states[|actions|].requests && states[|actions|].requests[who] == AtPhase(cmd, Arrived)
    requires Validate(cmd).Ok? && KeyOf(cmd) !in states[|actions|].store
    requires Screened(states[|actions|].tables, cmd, None).Ok?
    requires TransferCommits(h, states[|actions|].tables, cmd, listings, t')
    ensures |states'| == |actions'| + 1 && Run(h, opening, states', actions') && Smooth(actions')
    ensures last == states'[|actions'|] && KeyOf(cmd) in last.store && who in last.requests && last.tables == t'
    ensures last.store.Keys == states[|actions|].store.Keys + {KeyOf(cmd)}
    ensures last.requests[who] == RequestSteps.Request(cmd, Completing(Ready(h, cmd)), true, false)
    ensures last.requests == states[|actions|].requests[who := last.requests[who]]
  {
    hide Validate, Run, Smooth, Screened, TransferCommits, KeyOf, Fingerprint, Ready;
    states', actions', last := Approaches(h, opening, states, actions, who, cmd);
    states', actions', last := Enters(h, opening, states', actions', who, cmd);
    states', actions', last := Transfers(h, opening, states', actions', who, cmd, listings, t');
  }

  /** From its commit to its answer. */
  lemma Reports(h: Hashes, opening: Ledger, states: seq<Bank>, actions: seq<Action>, who: nat, cmd: Command)
    returns (states': seq<Bank>, actions': seq<Action>, last: Bank)
    requires HexDigests(h) && |states| == |actions| + 1 && Run(h, opening, states, actions) && Smooth(actions)
    requires who in states[|actions|].requests && KeyOf(cmd) in states[|actions|].store
    requires states[|actions|].requests[who] == RequestSteps.Request(cmd, Completing(Ready(h, cmd)), true, false)
    requires Answered(Decoded(Ok(Ready(h, cmd)), false)) == Succeeded(h, cmd).phase
    ensures |states'| == |actions'| + 1 && Run(h, opening, states', actions') && Smooth(actions')
    ensures last == states'[|actions'|] && last.tables == states[|actions|].tables
    ensures last.store.Keys == states[|actions|].store.Keys
    ensures last.requests == states[|actions|].requests[who := Succeeded(h, cmd)]
  {
    hide Run, KeyOf, Ready, Serve, Postable, Decoded, ResultOf;
    var s := states[|actions|];
    Reads(h, World(s.tables, s.store), cmd);
    states', actions', last := Serving(h, opening, states, actions, who, Plain([]));
    Stores(h, World(last.tables, last.store), cmd, last.store[KeyOf(cmd)]);
    states', actions', last := Serving(h, opening, states', actions', who, Plain([]));
    assert last.requests == s.requests[who := Succeeded(h, cmd)];
  }

  /** A request that finds its key unused and its transfer funded is carried to a success, with nothing going wrong. */
  lemma Carries(h: Hashes, opening: Ledger, states: seq<Bank>, actions: seq<Action>, who: nat, cmd: Command, total: nat)
    returns (states': seq<Bank>, actions': seq<Action>, last: Bank, listings: seq<seq<Entry>>)
    requires HexDigests(h) && |states| == |actions| + 1 && Run(h, opening, states, actions) && Smooth(actions)
    requires SoundBooks(states[|actions|].tables.ledger) && Pending(h, states[|actions|], who, cmd, total)
    requires Validate(cmd).Ok? && cmd.amount.halalas <= total
    ensures |states'| == |actions'| + 1 && Run(h, opening, states', actions') && Smooth(actions')
    ensures last == states'[|actions'|]
    ensures TransferCommits(h, states[|actions|].tables, cmd, listings, last.tables)
    ensures last.store.Keys == states[|actions|].store.Keys + {KeyOf(cmd)}
    ensures last.requests == states[|actions|].requests[who := Succeeded(h, cmd)]
  {
    hide Funded, NamesNew, RowsNew, Validate, Run, Smooth, Screened, TransferCommits, Listed, KeyOf, CommitFor, Ready,
        Decoded, SoundBooks, ResultOf;
    var s := states[|actions|];
    FundedScreened(s.tables, cmd, total);
    var t' := FundedCommits(h, s.tables, cmd, total);
    listings := Listed(s.tables.ledger, CommitFor(h, cmd).value.tx);
    ReadyDecodes(h, cmd);
    states', actions', last := Moves(h, opening, states, actions, who, cmd, listings, t');
    states', actions', last := Reports(h, opening, states', actions', who, cmd);
    assert last.requests == s.requests[who := Succeeded(h, cmd)];
  }

  /** The first k requests have succeeded; the others have not begun, and could all still go through. */
  ghost predicate Halfway(h: Hashes, cmds: seq<Command>, k: nat, s: Bank)
    requires HexDigests(h) && k <= |cmds|
  {
    && (forall i :: k <= i < |cmds| ==> Pending(h, s, i, cmds[i], Outlay(cmds[k..])))
    && (forall i :: 0 <= i < k ==> Through(h, s, i, cmds[i]))
  }

  ghost predicate Pending(h: Hashes, s: Bank, i: nat, cmd: Command, total: nat)
    requires HexDigests(h)
  {
    && i in s.requests && s.requests[i] == AtPhase(cmd, Arrived)
    && Unused(h, World(s.tables, s.store), cmd) && Funded(s.tables.ledger, cmd, total)
  }

  /** Answered with a success, and the two lines of the transfer are in the books under a journal of its own. */
  ghost predicate Through(h: Hashes, s: Bank, i: nat, cmd: Command)
    requires HexDigests(h)
  {
    && i in s.requests && s.requests[i] == Succeeded(h, cmd) && TransferOf(h, cmd) in s.tables.ledger.headers
    && Line(TransferOf(h, cmd) + "-leg1", cmd.fromAccount, Debit, cmd.amount) in s.tables.ledger.lines
    && Line(TransferOf(h, cmd) + "-leg2", cmd.toAccount, Credit, cmd.amount) in s.tables.ledger.lines
  }

  lemma CommittedIsThrough(h: Hashes, t: Tables, cmd: Command, listings: seq<seq<Entry>>, s: Bank, i: nat)
    requires HexDigests(h) && TransferCommits(h, t, cmd, listings, s.tables)
    requires i in s.requests && s.requests[i] == Succeeded(h, cmd)
    ensures Through(h, s, i, cmd)
  {
    var b := CommitIsBooking(h, t, cmd, listings, s.tables);
    ValidFromCommits(h, t, cmd, listings, s.tables);
    BookedNames(h, b, cmd);
    hide TransferCommits, Coherent, Accepts, Validate, CommitFor, NewRows, Succeeded, TransferOf, EntryId;
    LegsAre(b.tx.id);
    assert b.tx.entries[0] in s.tables.ledger.lines && b.tx.entries[1] in s.tables.ledger.lines;
  }

  lemma LegsAre(txId: string)
    ensures EntryId(txId, 1) == txId + "-leg1" && EntryId(txId, 2) == txId + "-leg2"
  {
    assert Decimal(1) == "1" && Decimal(2) == "2";
  }

  lemma ThroughStays(h: Hashes, s: Bank, s': Bank, i: nat, cmd: Command, other: Command, listings: seq<seq<Entry>>)
    requires HexDigests(h) && Through(h, s, i, cmd) && TransferCommits(h, s.tables, other, listings, s'.tables)
    requires i in s'.requests && s'.requests[i] == s.requests[i]
    ensures Through(h, s', i, cmd)
  {
    var b := CommitIsBooking(h, s.tables, other, listings, s'.tables);
    hide TransferCommits, Coherent, Accepts, CommitFor, NewRows, Succeeded, TransferOf;
  }

  lemma PendingStays(h: Hashes, s: Bank, s': Bank, i: nat, cmd: Command, other: Command, listings: seq<seq<Entry>>,
      total: nat, rest: nat)
    requires HexDigests(h) && Pending(h, s, i, cmd, total) && Apart(h, other, cmd)
    requires TransferCommits(h, s.tables, other, listings, s'.tables) && total == other.amount.halalas + rest
    requires i in s'.requests && s'.requests[i] == s.requests[i] && s'.store.Keys == s.store.Keys + {KeyOf(other)}
    ensures Pending(h, s', i, cmd, rest)
  {
    hide TransferCommits, NamesNew, RowsNew, Funded, KeyOf, TransferOf, SagaId;
    OthersUnaffected(h, s.tables, other, listings, s'.tables, cmd, total, rest);
  }

  ghost predicate AllApart(h: Hashes, cmds: seq<Command>)
    requires HexDigests(h)
  {
    forall i, j :: 0 <= i < |cmds| && 0 <= j < |cmds| && i != j ==> Apart(h, cmds[i], cmds[j])
  }

  lemma HalfwayOn(h: Hashes, cmds: seq<Command>, k: nat, s: Bank, s': Bank, listings: seq<seq<Entry>>)
    requires HexDigests(h) && k < |cmds| && Halfway(h, cmds, k, s) && AllApart(h, cmds)
    requires TransferCommits(h, s.tables, cmds[k], listings, s'.tables) && cmds[k].amount.halalas > 0
    requires s'.requests == s.requests[k := Succeeded(h, cmds[k])]
    requires s'.store.Keys == s.store.Keys + {KeyOf(cmds[k])}
    ensures Halfway(h, cmds, k + 1, s')
  {
    hide Pending, Through, TransferCommits, Succeeded, Apart;
    assert cmds[k..][0] == cmds[k] && cmds[k..][1..] == cmds[k + 1..];
    forall i | k + 1 <= i < |cmds|
      ensures Pending(h, s', i, cmds[i], Outlay(cmds[k + 1..]))
    {
      PendingIsAbout(h, s, i, cmds[i], Outlay(cmds[k..]));
      PendingStays(h, s, s', i, cmds[i], cmds[k], listings, Outlay(cmds[k..]), Outlay(cmds[k + 1..]));
    }
    forall i | 0 <= i < k + 1
      ensures Through(h, s', i, cmds[i])
    {
      if i == k {
        CommittedIsThrough(h, s.tables, cmds[k], listings, s', k);
      } else {
        ThroughIsAbout(h, s, i, cmds[i]);
        ThroughStays(h, s, s', i, cmds[i], cmds[k], listings);
      }
    }
  }

  lemma PendingIsAbout(h: Hashes, s: Bank, i: nat, cmd: Command, total: nat)
    requires HexDigests(h) && Pending(h, s, i, cmd, total)
    ensures i in s.requests
  {
    hide Unused, Funded;
  }

  lemma ThroughIsAbout(h: Hashes, s: Bank, i: nat, cmd: Command)
    requires HexDigests(h) && Through(h, s, i, cmd)
    ensures i in s.requests
  {
    hide Succeeded, TransferOf;
  }

  // ---- All of them ----

  function TrimmedKeys(cmds: seq<Command>): set<string> {
    set i | 0 <= i < |cmds| :: TrimSpace(cmds[i].idempotencyKey)
  }

  function RawKeys(cmds: seq<Command>): set<string> {
    set i | 0 <= i < |cmds| :: cmds[i].idempotencyKey
  }

  /** Valid transfers under different keys, covered together by the opening, whose digests tell the keys apart. */
  ghost predicate CoveredTogether(h: Hashes, opening: Ledger, cmds: seq<Command>)
    requires HexDigests(h)
  {
    && Opening(opening)
    && (forall i :: 0 <= i < |cmds| ==> Validate(cmds[i]).Ok? && Funded(opening, cmds[i], Outlay(cmds)))
    && (forall i, leg: nat :: 0 <= i < |cmds| ==> EntryId(TransferOf(h, cmds[i]), leg) !in LineIds(opening.lines))
    && (forall i, j :: 0 <= i < j < |cmds| ==>
          TrimSpace(cmds[i].idempotencyKey) != TrimSpace(cmds[j].idempotencyKey))
    && Separates(h, "transfer:", 32, TrimmedKeys(cmds)) && Separates(h, "saga:", 24, RawKeys(cmds))
  }

  /** For two transfers. */
  lemma TwoTogether(h: Hashes, opening: Ledger, cmd: Command, cmd': Command, total: nat)
    requires HexDigests(h) && Opening(opening) && Validate(cmd).Ok? && Validate(cmd').Ok?
    requires cmd.amount.halalas > 0 && cmd'.amount.halalas > 0 && total == cmd.amount.halalas + cmd'.amount.halalas
    requires Funded(opening, cmd, total) && Funded(opening, cmd', total)
    requires forall leg: nat :: EntryId(TransferOf(h, cmd), leg) !in LineIds(opening.lines)
    requires forall leg: nat :: EntryId(TransferOf(h, cmd'), leg) !in LineIds(opening.lines)
    requires var key, key' := TrimSpace(cmd.idempotencyKey), TrimSpace(cmd'.idempotencyKey);
             key != key' && Separates(h, "transfer:", 32, {key, key'})
    requires Separates(h, "saga:", 24, {cmd.idempotencyKey, cmd'.idempotencyKey})
    ensures CoveredTogether(h, opening, [cmd, cmd'])
  {
    hide Validate, Opening, Funded, TransferOf, TrimSpace, EntryId, LineIds;
    var cmds := [cmd, cmd'];
    assert TrimmedKeys(cmds) == {TrimSpace(cmds[0].idempotencyKey), TrimSpace(cmds[1].idempotencyKey)};
    assert RawKeys(cmds) == {cmds[0].idempotencyKey, cmds[1].idempotencyKey};
    assert cmds[1..] == [cmds[1]] && Outlay(cmds[1..][1..]) == 0;
    assert Outlay(cmds[1..]) == cmds[1].amount.halalas;
  }

  lemma SeparatedApart(h: Hashes, cmds: seq<Command>, i: nat, j: nat)
    requires HexDigests(h) && i < |cmds| && j < |cmds| && Validate(cmds[i]).Ok? && Validate(cmds[j]).Ok?
    requires TrimSpace(cmds[i].idempotencyKey) != TrimSpace(cmds[j].idempotencyKey)
    requires Separates(h, "transfer:", 32, TrimmedKeys(cmds)) && Separates(h, "saga:", 24, RawKeys(cmds))
    ensures Apart(h, cmds[i], cmds[j])
  {
    KeyIsTrimmed(cmds[i]);
    KeyIsTrimmed(cmds[j]);
    hide KeyOf, Validate, TrimSpace, TransferId, SagaId;
    var key, key' := TrimSpace(cmds[i].idempotencyKey), TrimSpace(cmds[j].idempotencyKey);
    var raw, raw' := cmds[i].idempotencyKey, cmds[j].idempotencyKey;
    assert key in TrimmedKeys(cmds) && key' in TrimmedKeys(cmds) && raw in RawKeys(cmds) && raw' in RawKeys(cmds);
    IdsTellKeysApart(h, key, key');
    IdsTellKeysApart(h, raw, raw');
  }

  lemma KeyIsTrimmed(cmd: Command)
    requires Validate(cmd).Ok?
    ensures KeyOf(cmd) == TrimSpace(cmd.idempotencyKey)
  {
    hide TrimSpace;
  }

  lemma CoveredApart(h: Hashes, opening: Ledger, cmds: seq<Command>)
    requires HexDigests(h) && CoveredTogether(h, opening, cmds)
    ensures AllApart(h, cmds)
  {
    hide Validate, Opening, Funded, TransferOf, TrimSpace, Apart, Separates;
    forall i, j | 0 <= i < |cmds| && 0 <= j < |cmds| && i != j
      ensures Apart(h, cmds[i], cmds[j])
    {
      SeparatedApart(h, cmds, i, j);
    }
  }

  function Arriving(cmds: seq<Command>): map<nat, RequestSteps.Request> {
    map i: nat | 0 <= i < |cmds| :: AtPhase(cmds[i], Arrived)
  }

  lemma BeginsPending(h: Hashes, opening: Ledger, cmds: seq<Command>)
    requires HexDigests(h) && CoveredTogether(h, opening, cmds)
    ensures Begins(opening, Beginning(opening, Arriving(cmds), map[]))
    ensures Halfway(h, cmds, 0, Beginning(opening, Arriving(cmds), map[]))
  {
    hide Validate, Funded, TransferOf, TrimSpace, Separates, SoundBooks, EntryId, KeyOf;
    assert cmds[0..] == cmds;
    forall i | 0 <= i < |cmds|
      ensures TransferOf(h, cmds[i]) !in opening.headers
    {
      NewHeader(h, opening, cmds[i]);
    }
  }

  lemma OutlayHolds(cmds: seq<Command>, k: nat)
    requires k < |cmds|
    ensures cmds[k].amount.halalas <= Outlay(cmds[k..])
  {
    assert cmds[k..][0] == cmds[k];
  }

  lemma NextIsPending(h: Hashes, opening: Ledger, cmds: seq<Command>, k: nat, s: Bank)
    requires HexDigests(h) && CoveredTogether(h, opening, cmds) && k < |cmds| && Halfway(h, cmds, k, s)
    ensures Pending(h, s, k, cmds[k], Outlay(cmds[k..])) && Validate(cmds[k]).Ok?
    ensures 0 < cmds[k].amount.halalas <= Outlay(cmds[k..])
  {
    hide Pending, Through, Funded, TransferOf, TrimSpace, Separates, Opening, EntryId;
    OutlayHolds(cmds, k);
    ValidKey(cmds[k]);
    hide Validate;
  }

  lemma StillSound(h: Hashes, opening: Ledger, states: seq<Bank>, actions: seq<Action>)
    requires HexDigests(h) && Run(h, opening, states, actions)
    ensures SoundBooks(states[|actions|].tables.ledger)
  {
    RunKeepsInv(h, opening, states, actions);
    hide Run, StoreOk, RequestsOk, WorkersOk, AllBundled, OneSagaPerJournal, NothingElse, BalancesExplained, SoundBooks;
  }

  lemma {:induction false} FirstOnesCommit(h: Hashes, opening: Ledger, cmds: seq<Command>, k: nat)
    returns (states: seq<Bank>, actions: seq<Action>, last: Bank)
    requires HexDigests(h) && CoveredTogether(h, opening, cmds) && k <= |cmds|
    ensures |states| == |actions| + 1 && Run(h, opening, states, actions) && Smooth(actions)
    ensures last == states[|actions|] && Halfway(h, cmds, k, last)
  {
    hide CoveredTogether, Begins, Run, Halfway, Pending, TransferCommits, KeyOf, Outlay, Apart, Succeeded, SoundBooks;
    if k == 0 {
      last := Beginning(opening, Arriving(cmds), map[]);
      states, actions := [last], [];
      BeginsPending(h, opening, cmds);
      Begun(h, opening, last);
    } else {
      var n := k - 1;
      states, actions, last := FirstOnesCommit(h, opening, cmds, n);
      CoveredApart(h, opening, cmds);
      StillSound(h, opening, states, actions);
      NextIsPending(h, opening, cmds, n, last);
      var before, listings := last, [];
      states, actions, last, listings := Carries(h, opening, states, actions, n, cmds[n], Outlay(cmds[n..]));
      HalfwayOn(h, cmds, n, before, last, listings);
    }
  }

  /**
   * Any number of valid transfers under different trimmed keys, which the opening balances and the range of
   * an amount cover together, all commit in one run and are answered with a success, each under a journal of
   * its own, if the first 32 digits of the digests of the trimmed keys, and the first 24 of those of the keys
   * as sent, tell the keys apart.
   */
  lemma DistinctKeysAllCommit(h: Hashes, opening: Ledger, cmds: seq<Command>)
    returns (states: seq<Bank>, actions: seq<Action>, last: Bank)
    requires HexDigests(h) && CoveredTogether(h, opening, cmds)
    ensures |states| == |actions| + 1 && Run(h, opening, states, actions) && Smooth(actions)
    ensures last == states[|actions|]
    ensures forall i :: 0 <= i < |cmds| ==> Through(h, last, i, cmds[i])
    ensures forall i, j :: 0 <= i < j < |cmds| ==> TransferOf(h, cmds[i]) != TransferOf(h, cmds[j])
  {
    hide CoveredTogether, Run, Smooth, Pending, Through, TransferOf;
    states, actions, last := FirstOnesCommit(h, opening, cmds, |cmds|);
    CoveredApart(h, opening, cmds);
    forall i, j | 0 <= i < j < |cmds|
      ensures TransferOf(h, cmds[i]) != TransferOf(h, cmds[j])
    {
      assert Apart(h, cmds[i], cmds[j]);
    }
  }
}
