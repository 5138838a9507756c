/** Runs from an opening ledger that reach the states which the guard and the worker were meant to exclude. */
module BankWitness {
  import opened Errors
  import opened MoneyDomain
  import opened LedgerDomain
  import opened LedgerStore
  import opened TransferDomain
  import opened Schema
  import opened Transitions
  import opened BankInvariant
  import opened TransferKeeps
  import opened ReversalKeeps
  import opened SettlementSteps
  import opened RequestSteps
  import opened BankMachine
  import opened BankRuns
  import Contention
  import GuardProtocol
  import SettlementAgreement
  import SettlementRace

  // ---- A transfer that goes through, and could be reversed ----

  /** A wallet with room for one transfer of this amount and its reversal. */
  ghost predicate Wallet(ledger: Ledger, id: string, amount: nat) {
    && id in ledger.accounts && ledger.accounts[id].typ.Liability?
    && (forall up :: Gross(ledger.accounts[id], ledger.lines, up) + amount <= MAX_INT64)
  }

  function TransferOf(h: Hashes, cmd: Command): string
    requires HexDigests(h)
  {
    TransferId(h, KeyOf(cmd))
  }

  /** No opening line is named like a line of this transfer or of its reversal. */
  ghost predicate LinesNew(h: Hashes, ledger: Ledger, cmd: Command)
    requires HexDigests(h)
  {
    forall leg: nat :: EntryId(TransferOf(h, cmd), leg) !in LineIds(ledger.lines)
                       && EntryId(CompensationId(TransferOf(h, cmd)), leg) !in LineIds(ledger.lines)
  }

  /** A valid transfer between two wallets, covered by the sender's opening balance. */
  ghost predicate Covered(h: Hashes, opening: Ledger, cmd: Command)
    requires HexDigests(h)
  {
    && Opening(opening) && Validate(cmd).Ok? && LinesNew(h, opening, cmd) && cmd.amount.halalas > 0
    && Wallet(opening, cmd.fromAccount, cmd.amount.halalas) && Wallet(opening, cmd.toAccount, cmd.amount.halalas)
    && BalanceOf(opening, cmd.fromAccount) >= cmd.amount.halalas
  }

  function Listed(ledger: Ledger, tx: Transaction): seq<seq<Entry>> {
    RemainingListings(ledger, LockOrder(tx), 0)
  }

  /** A covered movement between two accounts with room is accepted. */
  lemma MovementAccepted(ledger: Ledger, tx: Transaction, from: string, to: string, amount: nat)
    requires SoundBooks(ledger) && Contention.Competes(ledger, tx, from, amount) && tx.entries[1].accountId == to
    requires amount > 0
    requires Contention.HasRoom(ledger.accounts[from], ledger.lines, tx.entries)
    requires Contention.HasRoom(ledger.accounts[to], ledger.lines, tx.entries)
    requires BalanceOf(ledger, from) >= amount && !Conflicts(ledger, tx)
    ensures Accepts(ledger, tx, Listed(ledger, tx))
  {
    hide SoundBooks, BalanceOf, IsListing, FirstRefusal, LockOrder, Conflicts, Balanced;
    Contention.PairTotals(tx.entries);
    assert KnownAccounts(ledger, tx);
    PlanIsKnown(ledger, tx);
    ListedIsListing(ledger, tx);
    Contention.CompetitorRefusal(ledger, tx, from, amount, Listed(ledger, tx));
  }

  lemma ListedIsListing(ledger: Ledger, tx: Transaction)
    ensures Listings(ledger, LockOrder(tx), Listed(ledger, tx)) && |Listed(ledger, tx)| == |LockOrder(tx)|
  {
    hide LockOrder;
  }

  lemma MovedCompetes(ledger: Ledger, txId: string, description: string, from: string, to: string, amount: Money)
    requires from != "" && to != "" && from != to && amount.halalas > 0
    requires from in ledger.accounts && to in ledger.accounts
    requires !ledger.accounts[from].IsDebitNormal() && !ledger.accounts[to].IsDebitNormal()
    ensures Contention.Competes(ledger, Transaction(txId, description, MovingLines(txId, from, to, amount)), from,
        amount.halalas)
    ensures LineIds(MovingLines(txId, from, to, amount)) == {EntryId(txId, 1), EntryId(txId, 2)}
    ensures DistinctIds(MovingLines(txId, from, to, amount)) && EntryId(txId, 1) != EntryId(txId, 2)
  {
    var lines := MovingLines(txId, from, to, amount);
    assert lines[0].id in LineIds(lines) && lines[1].id in LineIds(lines);
    if EntryId(txId, 1) == EntryId(txId, 2) {
      EntryIdInjective(txId, 1, txId, 2);
    }
  }

  function Empty(opening: Ledger): Tables {
    Tables(opening, map[], map[], map[])
  }

  /** The prepared journal of a valid command is the movement between its two accounts. */
  lemma PreparedIs(h: Hashes, cmd: Command)
    requires HexDigests(h) && Validate(cmd).Ok?
    ensures CommitFor(h, cmd).Ok? && cmd.fromAccount != "" && cmd.toAccount != "" && cmd.fromAccount != cmd.toAccount
    ensures var c := CommitFor(h, cmd).value;
            && cmd.amount.halalas > 0 && c.tx.id == TransferOf(h, cmd)
            && c.tx.entries == MovingLines(TransferOf(h, cmd), cmd.fromAccount, cmd.toAccount, cmd.amount)
  {
    CommitHangsTogether(h, cmd);
    hide ParseKey, ParseSAR, MovingTransaction, CommandFromJson, EncodeCommand, EventMatches, SettlementMatches;
    ValidKey(cmd);
    hide Validate;
  }

  lemma RoomAfter(ledger: Ledger, lines: seq<Entry>, tx: Transaction, from: string, to: string, amount: nat, id: string)
    requires Contention.Competes(ledger, tx, from, amount) && tx.entries[1].accountId == to && (id == from || id == to)
    requires ledger.accounts[id].id == id
    requires forall up :: Gross(ledger.accounts[id], lines, up) + amount <= MAX_INT64
    ensures Contention.HasRoom(ledger.accounts[id], lines, tx.entries)
  {
    Contention.PairMoves(ledger, tx, from, amount, id);
  }

  lemma CoveredAccepted(h: Hashes, opening: Ledger, cmd: Command)
    requires HexDigests(h) && Covered(h, opening, cmd)
    ensures CommitFor(h, cmd).Ok?
    ensures Accepts(opening, CommitFor(h, cmd).value.tx, Listed(opening, CommitFor(h, cmd).value.tx))
  {
    PreparedIs(h, cmd);
    hide Validate, CommitFor, SoundBooks, Gross, BalanceOf, Listed, KeyOf, EntryId, TransferId;
    var tx, amount: nat := CommitFor(h, cmd).value.tx, cmd.amount.halalas;
    FiledWallets(opening, cmd.fromAccount, cmd.toAccount);
    MovedCompetes(opening, tx.id, tx.description, cmd.fromAccount, cmd.toAccount, cmd.amount);
    RoomAfter(opening, opening.lines, tx, cmd.fromAccount, cmd.toAccount, amount, cmd.fromAccount);
    RoomAfter(opening, opening.lines, tx, cmd.fromAccount, cmd.toAccount, amount, cmd.toAccount);
    NewHeader(h, opening, cmd);
    MovementAccepted(opening, tx, cmd.fromAccount, cmd.toAccount, amount);
  }

  lemma FiledWallets(ledger: Ledger, from: string, to: string)
    requires SoundBooks(ledger) && from in ledger.accounts && to in ledger.accounts
    ensures ledger.accounts[from].id == from && ledger.accounts[to].id == to
    ensures BalanceOf(ledger, from) >= 0 && BalanceOf(ledger, to) >= 0
  {
  }

  lemma NewHeader(h: Hashes, opening: Ledger, cmd: Command)
    requires HexDigests(h) && Opening(opening)
    ensures TransferOf(h, cmd) !in opening.headers && CompensationId(TransferOf(h, cmd)) !in opening.headers
  {
    hide SoundBooks, KeyOf;
    assert "tx_idem_" <= TransferOf(h, cmd) && "tx_idem_" <= CompensationId(TransferOf(h, cmd));
  }

  /** The covered transfer commits, and its tables are those of one booking. */
  lemma CoveredCommits(h: Hashes, opening: Ledger, cmd: Command) returns (t': Tables)
    requires HexDigests(h) && Covered(h, opening, cmd)
    ensures CommitFor(h, cmd).Ok?
    ensures TransferCommits(h, Empty(opening), cmd, Listed(opening, CommitFor(h, cmd).value.tx), t')
  {
    CoveredAccepted(h, opening, cmd);
    CommitHangsTogether(h, cmd);
    hide Validate, SoundBooks, VerdictOn, Listed, KeyOf, Readable, MovingTransaction, ParseKey, Coherent;
    var c, listings := CommitFor(h, cmd).value, Listed(opening, CommitFor(h, cmd).value.tx);
    PostableFits(opening, c.tx, listings);
    BookingLinked(h, c);
    FirstPost(opening, c, listings);
    t' := TransferPosted(Empty(opening), c, listings).value;
  }

  lemma BookingLinked(h: Hashes, c: TransferCommit)
    requires HexDigests(h) && |c.events| == 1 && Coherent(h, BookingOf(c))
    ensures c.settlement.sagaId == c.saga.id && c.settlement.amountHalalas > 0
  {
    hide TransferLines, IdsDerived, EventMatches;
  }

  /** On empty tables only the ledger can refuse. */
  lemma FirstPost(opening: Ledger, c: TransferCommit, listings: seq<seq<Entry>>)
    requires |listings| <= |LockOrder(c.tx)| && VerdictOn(opening, c.tx, listings) == Posted
    requires |c.events| == 1 && c.settlement.sagaId == c.saga.id && c.settlement.amountHalalas > 0
    ensures TransferPosted(Empty(opening), c, listings).Ok?
  {
    hide VerdictOn;
    var t := Empty(opening);
    var t1 := InsertSaga(t, c.saga).value;
    var t2 := PostJournal(t1, c.tx, listings).value;
    assert c.events[..0] == [] && InsertEvents(t2, []) == Ok(t2);
  }

  /** Right after it, its reversal would be accepted as well. */
  lemma CoveredReversible(h: Hashes, opening: Ledger, cmd: Command, t': Tables) returns (id: string,
      listings: seq<seq<Entry>>)
    requires HexDigests(h) && Covered(h, opening, cmd) && CommitFor(h, cmd).Ok?
    requires TransferCommits(h, Empty(opening), cmd, Listed(opening, CommitFor(h, cmd).value.tx), t')
    requires BankInv(h, opening, Empty(opening))
    ensures SettlementRace.Reversible(t', id, listings)
  {
    var b := CommitIsBooking(h, Empty(opening), cmd, Listed(opening, CommitFor(h, cmd).value.tx), t');
    TransferKeepsInv(h, opening, Empty(opening), cmd, Listed(opening, CommitFor(h, cmd).value.tx), t');
    PreparedIs(h, cmd);
    id := b.settlement.id;
    ReversalIs(h, opening, t', b, cmd);
    var tx := ReversalOf(b.saga, b.settlement).value;
    listings := Listed(t'.ledger, tx);
    ReversalAccepted(h, opening, cmd, b.tx, tx, t'.ledger);
    hide BankInv, Covered, TransferCommits, Coherent, NewRows, ReversalOf, Accepts, Listed, CommitFor, Validate;
    BookedSettlement(h, b, t', Empty(opening));
  }

  lemma BookedSettlement(h: Hashes, b: Booking, t': Tables, t: Tables)
    requires HexDigests(h) && Coherent(h, b) && t' == Booked(t, b)
    ensures b.settlement.id in t'.settlements && t'.settlements[b.settlement.id] == b.settlement
    ensures b.settlement.sagaId == b.saga.id && b.saga.id in t'.sagas && t'.sagas[b.saga.id] == b.saga
  {
    hide TransferLines, IdsDerived, EventMatches, Decodes;
  }

  lemma ReversalIs(h: Hashes, opening: Ledger, t': Tables, b: Booking, cmd: Command)
    requires HexDigests(h) && BankInv(h, opening, t') && Coherent(h, b) && NewRows(Empty(opening), b)
    requires t' == Booked(Empty(opening), b)
    requires CommandOf(b.saga) == cmd && b.tx.id == TransferOf(h, cmd)
    ensures ReversalOf(b.saga, b.settlement).Ok?
    ensures var tx := ReversalOf(b.saga, b.settlement).value;
            && tx.id == CompensationId(TransferOf(h, cmd)) && cmd.toAccount != "" && cmd.fromAccount != ""
            && cmd.amount.halalas > 0
            && tx.entries == MovingLines(tx.id, cmd.toAccount, cmd.fromAccount, cmd.amount)
  {
    BookedSettlement(h, b, t', Empty(opening));
    hide SoundBooks, NothingElse, BalancesExplained, OneSagaPerJournal, Opening, IdsDerived, EventMatches,
        Contains, ReversalOf, KeyOf, TransferId;
    assert Bundled(h, t', t'.sagas[b.saga.id]);
    ReversalMirrors(h, t', b.saga, b.saga, b.settlement);
  }

  lemma ReversalAccepted(h: Hashes, opening: Ledger, cmd: Command, tx: Transaction, reversal: Transaction,
      after: Ledger)
    requires HexDigests(h) && Covered(h, opening, cmd) && SoundBooks(after) && after == WithJournal(opening, tx)
    requires cmd.toAccount != "" && cmd.fromAccount != "" && cmd.fromAccount != cmd.toAccount
    requires tx.id == TransferOf(h, cmd) && tx.entries == MovingLines(tx.id, cmd.fromAccount, cmd.toAccount, cmd.amount)
    requires reversal.id == CompensationId(tx.id)
    requires reversal.entries == MovingLines(reversal.id, cmd.toAccount, cmd.fromAccount, cmd.amount)
    ensures Accepts(after, reversal, Listed(after, reversal))
  {
    hide Validate, Gross, Listed, KeyOf, EntryId, TransferId, Net;
    var from, to, amount: nat := cmd.fromAccount, cmd.toAccount, cmd.amount.halalas;
    FiledWallets(opening, from, to);
    hide SoundBooks;
    MovedCompetes(opening, tx.id, tx.description, from, to, cmd.amount);
    MovedCompetes(after, reversal.id, reversal.description, to, from, cmd.amount);
    RoomForReversal(opening, after, tx, reversal, from, to, amount, from);
    RoomForReversal(opening, after, tx, reversal, from, to, amount, to);
    ReceiverHolds(opening, tx, from, to, amount);
    ReversalNew(h, opening, cmd, tx, reversal);
    MovementAccepted(after, reversal, to, from, amount);
  }

  lemma RoomForReversal(opening: Ledger, after: Ledger, tx: Transaction, reversal: Transaction, from: string,
      to: string, amount: nat, id: string)
    requires Contention.Competes(opening, tx, from, amount) && tx.entries[1].accountId == to && (id == from || id == to)
    requires after == WithJournal(opening, tx) && Contention.Competes(after, reversal, to, amount)
    requires reversal.entries[1].accountId == from
    requires opening.accounts[id].id == id
    requires forall up :: Gross(opening.accounts[id], opening.lines, up) + amount <= MAX_INT64
    ensures Contention.HasRoom(after.accounts[id], after.lines, reversal.entries)
  {
    hide Gross;
    var account := opening.accounts[id];
    Contention.PairMoves(opening, tx, from, amount, id);
    Contention.PairMoves(after, reversal, to, amount, id);
    GrossConcat(account, opening.lines, tx.entries, true);
    GrossConcat(account, opening.lines, tx.entries, false);
  }

  lemma ReceiverHolds(opening: Ledger, tx: Transaction, from: string, to: string, amount: nat)
    requires Contention.Competes(opening, tx, from, amount) && tx.entries[1].accountId == to
    requires opening.accounts[to].id == to && BalanceOf(opening, to) >= 0
    ensures BalanceOf(WithJournal(opening, tx), to) >= amount
  {
    hide Net;
    Contention.PairMoves(opening, tx, from, amount, to);
    NetConcat(opening.accounts[to], opening.lines, tx.entries);
  }

  lemma ReversalNew(h: Hashes, opening: Ledger, cmd: Command, tx: Transaction, reversal: Transaction)
    requires HexDigests(h) && Opening(opening) && LinesNew(h, opening, cmd) && tx.id == TransferOf(h, cmd)
    requires reversal.id == CompensationId(tx.id)
    requires LineIds(tx.entries) == {EntryId(tx.id, 1), EntryId(tx.id, 2)}
    requires LineIds(reversal.entries) == {EntryId(reversal.id, 1), EntryId(reversal.id, 2)}
    requires DistinctIds(reversal.entries)
    ensures !Conflicts(WithJournal(opening, tx), reversal)
  {
    hide SoundBooks, KeyOf, EntryId, TransferId, LineIds, DistinctIds, Opening;
    NewHeader(h, opening, cmd);
    LineIdsConcat(opening.lines, tx.entries);
    forall leg: nat, leg': nat
      ensures EntryId(reversal.id, leg) != EntryId(tx.id, leg')
    {
      if EntryId(reversal.id, leg) == EntryId(tx.id, leg') {
        EntryIdInjective(reversal.id, leg, tx.id, leg');
      }
    }
  }

  // ---- Settled and reversed, from an opening ----

  function Beginning(opening: Ledger, requests: map<nat, RequestSteps.Request>, workers: map<nat, Stage>): Bank {
    Bank(Empty(opening), map[], requests, workers)
  }

  lemma CoveredScreened(h: Hashes, opening: Ledger, cmd: Command)
    requires HexDigests(h) && Covered(h, opening, cmd)
    ensures Screened(Empty(opening), cmd, None).Ok?
  {
    hide Validate, SoundBooks, Gross, LinesNew, BalanceOf;
  }

  /** A run followed by a stretch of worker statements is a run. */
  lemma Joined(h: Hashes, opening: Ledger, states: seq<Bank>, actions: seq<Action>, more: seq<Bank>, moves: seq<Action>)
    requires HexDigests(h) && Run(h, opening, states, actions) && SettlementRace.Path(h, more, moves)
    requires more[0] == states[|actions|]
    ensures Run(h, opening, states + more[1..], actions + moves)
    ensures (states + more[1..])[|actions + moves|] == more[|moves|]
    ensures Smooth(actions) ==> Smooth(actions + moves)
  {
    hide Begins, Happens;
    var all, acts := states + more[1..], actions + moves;
    forall i | 0 <= i < |acts|
      ensures Happens(h, all[i], acts[i], all[i + 1])
    {
      if i >= |actions| {
        var k := i - |actions|;
        assert all[i] == more[k] && all[i + 1] == more[k + 1] && acts[i] == moves[k];
      }
    }
  }

  /** One request carries a covered transfer from its arrival to its commit, with nothing going wrong. */
  lemma TransferRuns(h: Hashes, opening: Ledger, cmd: Command, workers: map<nat, Stage>)
    returns (states: seq<Bank>, actions: seq<Action>, last: Bank)
    requires HexDigests(h) && Covered(h, opening, cmd) && forall w :: w in workers ==> workers[w] == Resting
    ensures |states| == |actions| + 1 && Run(h, opening, states, actions) && Smooth(actions)
    ensures last == states[|actions|]
    ensures last.workers == workers && CommitFor(h, cmd).Ok?
    ensures TransferCommits(h, Empty(opening), cmd, Listed(opening, CommitFor(h, cmd).value.tx), last.tables)
  {
    CoveredScreened(h, opening, cmd);
    var t' := CoveredCommits(h, opening, cmd);
    CoveredParts(h, opening, cmd);
    hide Covered, Opening, Validate, Run, Screened, TransferCommits, Listed, KeyOf, Fingerprint, CommitFor, Ready;
    last := Beginning(opening, map[0 := AtPhase(cmd, Arrived)], workers);
    states, actions := [last], [];
    Begun(h, opening, last);
    states, actions, last := Approaches(h, opening, states, actions, 0, cmd);
    states, actions, last := Enters(h, opening, states, actions, 0, cmd);
    states, actions,
        last := Transfers(h, opening, states, actions, 0, cmd, Listed(opening, CommitFor(h, cmd).value.tx), t');
  }

  lemma CoveredParts(h: Hashes, opening: Ledger, cmd: Command)
    requires HexDigests(h) && Covered(h, opening, cmd)
    ensures Opening(opening) && Validate(cmd).Ok?
  {
    hide Validate, SoundBooks, Gross, LinesNew, BalanceOf;
  }

  /**
   * From any opening and any covered transfer there is a run, with every statement done and reported,
   * in which one settlement ends up SETTLED although its transfer was sent back.
   */
  lemma SettledAndReversed(h: Hashes, opening: Ledger, cmd: Command, reason: string)
    returns (states: seq<Bank>, actions: seq<Action>, last: Bank, id: string)
    requires HexDigests(h) && Covered(h, opening, cmd)
    ensures Run(h, opening, states, actions) && Smooth(actions) && last == states[|actions|]
    ensures id in last.tables.settlements && last.tables.settlements[id].sagaId in last.tables.sagas
    ensures SettlementAgreement.StandingOf(last.tables, id) == SettlementAgreement.Standing(Settled, Compensated, true)
  {
    hide Covered, Run, Smooth, TransferCommits, Listed, CommitFor, SettlementRace.Path, SettlementRace.Reversible,
        SettlementAgreement.StandingOf, BankMachine.Inv, BankInv;
    states, actions, last := TransferRuns(h, opening, cmd, map[0 := Resting, 1 := Resting]);
    RunKeepsInv(h, opening, states, actions);
    EmptyIsSound(h, opening, cmd);
    var listings: seq<seq<Entry>>, more: seq<Bank>, moves: seq<Action>;
    id, listings := CoveredReversible(h, opening, cmd, last.tables);
    var s := last;
    more, moves, last := SettlementRace.TwoWorkersSettleAndReverse(h, opening, s, 0, 1, id, reason, listings);
    PathLength(h, more, moves);
    Joined(h, opening, states, actions, more, moves);
    states, actions := states + more[1..], actions + moves;
  }

  lemma PathLength(h: Hashes, states: seq<Bank>, actions: seq<Action>)
    requires HexDigests(h) && SettlementRace.Path(h, states, actions)
    ensures |states| == |actions| + 1
  {
    hide Happens;
  }

  lemma EmptyIsSound(h: Hashes, opening: Ledger, cmd: Command)
    requires HexDigests(h) && Covered(h, opening, cmd)
    ensures BankInv(h, opening, Empty(opening))
  {
    CoveredParts(h, opening, cmd);
    hide Covered, Opening, BankInv, Validate, StoreOk, RequestsOk;
    BeginningIsSound(h, opening, Beginning(opening, map[], map[]));
  }

  // ---- Two executors of one key, from an opening ----

  /** For any opening and any valid command, one expiry lets two requests of one key execute at once. */
  lemma TwoExecutors(h: Hashes, opening: Ledger, cmd: Command)
    returns (states: seq<Bank>, actions: seq<Action>, last: Bank)
    requires HexDigests(h) && Opening(opening) && Validate(cmd).Ok?
    ensures |states| == |actions| + 1 && Run(h, opening, states, actions) && last == states[|actions|]
    ensures last.requests == map[0 := AtPhase(cmd, Screening), 1 := AtPhase(cmd, Screening)]
    ensures GuardProtocol.Executing(last.requests[0]) && GuardProtocol.Executing(last.requests[1])
    ensures last.tables == Empty(opening)
    ensures last.store == map[KeyOf(cmd) := Record(Processing, Fingerprint(h, cmd), None)]
  {
    hide Opening, Validate, Run, KeyOf, Fingerprint;
    last := Beginning(opening, map[0 := AtPhase(cmd, Arrived), 1 := AtPhase(cmd, Arrived)], map[]);
    states, actions := [last], [];
    Begun(h, opening, last);
    states, actions, last := Approaches(h, opening, states, actions, 0, cmd);
    states, actions, last := Approaches(h, opening, states, actions, 1, cmd);
    states, actions, last := Enters(h, opening, states, actions, 0, cmd);
    states, actions, last := Expires(h, opening, states, actions, KeyOf(cmd));
    states, actions, last := Enters(h, opening, states, actions, 1, cmd);
    assert last.requests == map[0 := AtPhase(cmd, Screening), 1 := AtPhase(cmd, Screening)];
    assert last.store == map[KeyOf(cmd) := Record(Processing, Fingerprint(h, cmd), None)];
  }

  /** And then the one that came first can erase what the other has already completed. */
  lemma StaleOwnerErases(h: Hashes, opening: Ledger, cmd: Command)
    returns (states: seq<Bank>, actions: seq<Action>, last: Bank)
    requires HexDigests(h) && Covered(h, opening, cmd)
    ensures |states| == |actions| + 1 && Run(h, opening, states, actions) && last == states[|actions|]
    ensures KeyOf(cmd) !in last.store && 1 in last.requests
    ensures last.requests[1] == RequestSteps.Request(cmd, Answered(Decoded(Ok(Ready(h, cmd)), false)), true, false)
  {
    CoveredScreened(h, opening, cmd);
    var t' := CoveredCommits(h, opening, cmd);
    CoveredParts(h, opening, cmd);
    hide Covered, Opening, Validate, Run, Screened, TransferCommits, Listed, KeyOf, Fingerprint, CommitFor, Ready,
        Serve,
        Postable, Decoded;
    states, actions, last := TwoExecutors(h, opening, cmd);
    states, actions,
        last := Transfers(h, opening, states, actions, 1, cmd, Listed(opening, CommitFor(h, cmd).value.tx), t');
    Reads(h, World(last.tables, last.store), cmd);
    states, actions, last := Serving(h, opening, states, actions, 1, Plain([]));
    Stores(h, World(last.tables, last.store), cmd, last.store[KeyOf(cmd)]);
    states, actions, last := Serving(h, opening, states, actions, 1, Plain([]));
    TurnedDown(h, World(last.tables, last.store), cmd);
    states, actions, last := Serving(h, opening, states, actions, 0, Chance(Done, Some(Domain(Forbidden)), []));
    TurnedDown(h, World(last.tables, last.store), cmd);
    states, actions, last := Serving(h, opening, states, actions, 0, Plain([]));
  }
}
