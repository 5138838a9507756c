/** A committed transfer keeps the bank's invariant. */
module TransferKeeps {
  import opened Errors
  import opened MoneyDomain
  import opened IbanDomain
  import opened LedgerDomain
  import opened LedgerStore
  import opened TransferDomain
  import opened Schema
  import opened Transitions
  import opened BankInvariant

  /** A transfer as committed: four new rows and a journal that belong together. */
  datatype Booking = Booking(saga: Saga, tx: Transaction, settlement: Settlement, event: OutboxEvent)

  ghost predicate Coherent(h: Hashes, b: Booking)
    requires HexDigests(h)
  {
    && Decodes(b.saga) && IdsDerived(h, b.saga)
    && b.tx.id == b.saga.transactionId && b.tx.entries == TransferLines(b.saga)
    && SettlementMatches(b.settlement, b.saga) && EventMatches(b.event, b.saga)
  }

  function Booked(t: Tables, b: Booking): Tables {
    Tables(WithJournal(t.ledger, b.tx), t.sagas[b.saga.id := b.saga], t.settlements[b.settlement.id := b.settlement],
           t.outbox[b.event.id := b.event])
  }

  ghost predicate NewRows(t: Tables, b: Booking) {
    && b.saga.id !in t.sagas && b.tx.id !in t.ledger.headers
    && b.settlement.id !in t.settlements && b.event.id !in t.outbox
  }

  function BookingOf(c: TransferCommit): Booking
    requires c.events != []
  {
    Booking(c.saga.(state := SagaPosted), c.tx, c.settlement, c.events[0].(status := EventPending))
  }

  /** What the service prepares for a valid command hangs together. */
  lemma CommitHangsTogether(h: Hashes, cmd: Command)
    requires HexDigests(h) && Validate(cmd).Ok?
    ensures CommitFor(h, cmd).Ok? && |CommitFor(h, cmd).value.events| == 1
    ensures Coherent(h, BookingOf(CommitFor(h, cmd).value))
    ensures CommandOf(BookingOf(CommitFor(h, cmd).value).saga) == cmd
    ensures Balanced(CommitFor(h, cmd).value.tx.entries)
  {
    hide ParseKey, ParsedIban, ParseSAR, String, MovingTransaction;
    var txId := TransferId(h, ParseKey(cmd.idempotencyKey).value);
    var description := if cmd.description == "" then "transfer to " + cmd.iban else cmd.description;
    MovingTransactionMade(txId, description, cmd.fromAccount, cmd.toAccount, cmd.amount);
    CommandRoundTrip(cmd);
    MovedBalanced(txId, cmd.fromAccount, cmd.toAccount, cmd.amount);
  }

  /** The committed bundle is exactly the four rows and the journal, all new. */
  lemma PostedIsBooked(t: Tables, c: TransferCommit, listings: seq<seq<Entry>>)
    requires |listings| <= |LockOrder(c.tx)| && TransferPosted(t, c, listings).Ok? && |c.events| == 1
    ensures VerdictOn(t.ledger, c.tx, listings) == Posted
    ensures c.tx.id !in t.ledger.headers && c.saga.id !in t.sagas && c.settlement.id !in t.settlements
    ensures c.events[0].id !in t.outbox
    ensures forall id :: id in t.sagas ==> t.sagas[id].idempotencyKey != c.saga.idempotencyKey
    ensures c.saga.failureReason == "" && c.saga.transactionId != "" && c.saga.settlementId != ""
            ==> TransferPosted(t, c, listings).value == Booked(t, BookingOf(c))
  {
    hide VerdictOn;
    var t1 := InsertSaga(t, c.saga).value;
    var t2 := PostJournal(t1, c.tx, listings).value;
    assert c.events[..0] == [] && InsertEvents(t2, []) == Ok(t2);
    assert InsertEvents(t2, c.events) == InsertEvent(t2, c.events[0]);
    PostedMeansNoConflict(t.ledger, c.tx, listings);
  }

  lemma PostedMeansNoConflict(ledger: Ledger, tx: Transaction, listings: seq<seq<Entry>>)
    requires |listings| <= |LockOrder(tx)| && VerdictOn(ledger, tx, listings) == Posted
    ensures tx.id !in ledger.headers && !Conflicts(ledger, tx) && KnownAccounts(ledger, tx)
  {
  }

  lemma BookedRowsStay(t: Tables, b: Booking)
    requires NewRows(t, b)
    ensures RowsStay(t, Booked(t, b))
  {
  }

  /** No journal is the reversal of a transfer that is not there yet. */
  lemma NotYetReversed(h: Hashes, opening: Ledger, t: Tables, b: Booking)
    requires HexDigests(h) && Opening(opening) && AllBundled(h, t) && NothingElse(opening, t)
    requires Coherent(h, b) && NewRows(t, b)
    ensures !Reversed(Booked(t, b), b.saga)
  {
    hide Decodes, TransferLines, SettlementMatches, EventMatches, SoundBooks, SettlementHasSaga, EventHasSaga, ParseKey;
    var key := ParseKey(b.saga.idempotencyKey).value;
    var comp := CompensationId(b.saga.transactionId);
    IdShapes(h, key, key);
    assert "tx_idem_" <= comp;
    if comp in t.ledger.headers {
      assert HeaderExplained(opening, t, comp);
      var id :| id in t.sagas
          && (comp == t.sagas[id].transactionId || comp == CompensationId(t.sagas[id].transactionId));
      OthersApart(h, t, t.sagas[id], b.saga);
    }
  }

  /** Ids of transfers and of reversals never meet. */
  lemma OthersApart(h: Hashes, t: Tables, s: Saga, s': Saga)
    requires HexDigests(h) && Bundled(h, t, s) && IdsDerived(h, s')
    ensures s.transactionId in t.ledger.headers
    ensures s.transactionId != CompensationId(s'.transactionId) && CompensationId(s.transactionId) != s'.transactionId
    ensures CompensationId(s.transactionId) == CompensationId(s'.transactionId) ==> s.transactionId == s'.transactionId
  {
    hide Decodes, TransferLines, SettlementMatches, EventMatches, ParseKey, ReversalLines;
    IdShapes(h, ParseKey(s.idempotencyKey).value, ParseKey(s'.idempotencyKey).value);
    IdShapes(h, ParseKey(s'.idempotencyKey).value, ParseKey(s.idempotencyKey).value);
  }

  lemma AppendedContains(lines: seq<Entry>, added: seq<Entry>)
    ensures Contains(lines + added, added)
  {
    assert forall i :: 0 <= i < |added| ==> (lines + added)[|lines| + i] == added[i];
  }

  lemma NewBundle(h: Hashes, opening: Ledger, t: Tables, b: Booking)
    requires HexDigests(h) && Opening(opening) && AllBundled(h, t) && NothingElse(opening, t)
    requires Coherent(h, b) && NewRows(t, b)
    ensures Bundled(h, Booked(t, b), b.saga)
  {
    NotYetReversed(h, opening, t, b);
    AppendedContains(t.ledger.lines, b.tx.entries);
    hide AllBundled, NothingElse, Opening, NewRows, Decodes, TransferLines, ReversalLines, CommandOf, Contains,
        Reversed;
  }

  lemma OldBundle(h: Hashes, t: Tables, b: Booking, s: Saga)
    requires HexDigests(h) && Bundled(h, t, s) && IdsDerived(h, b.saga) && NewRows(t, b)
    requires b.tx.id == b.saga.transactionId
    ensures Bundled(h, Booked(t, b), s) && Reversed(Booked(t, b), s) == Reversed(t, s)
  {
    hide Decodes, TransferLines, ReversalLines, SettlementMatches, EventMatches, IdsDerived;
    OthersApart(h, t, s, b.saga);
    if Reversed(t, s) {
      ContainsMore(t.ledger.lines, Booked(t, b).ledger.lines, ReversalLines(s));
    }
    BundleStays(h, t, Booked(t, b), s, s);
  }

  lemma BookedBundles(h: Hashes, opening: Ledger, t: Tables, b: Booking)
    requires HexDigests(h) && Opening(opening) && AllBundled(h, t) && NothingElse(opening, t)
    requires Coherent(h, b) && NewRows(t, b)
    ensures AllBundled(h, Booked(t, b))
  {
    hide Bundled, NothingElse, Opening, Decodes, IdsDerived, TransferLines, SettlementMatches, EventMatches;
    NewBundle(h, opening, t, b);
    var t' := Booked(t, b);
    forall id | id in t'.sagas
      ensures t'.sagas[id].id == id && Bundled(h, t', t'.sagas[id])
    {
      if id in t.sagas {
        OldBundle(h, t, b, t.sagas[id]);
      }
    }
  }

  lemma BookedJournals(h: Hashes, t: Tables, b: Booking)
    requires HexDigests(h) && AllBundled(h, t) && OneSagaPerJournal(t) && Coherent(h, b) && NewRows(t, b)
    ensures OneSagaPerJournal(Booked(t, b))
  {
    hide Decodes, TransferLines, ReversalLines, SettlementMatches, EventMatches, IdsDerived;
    assert forall id :: id in t.sagas ==> t.sagas[id].transactionId in t.ledger.headers;
  }

  lemma BookedExplained(h: Hashes, opening: Ledger, t: Tables, b: Booking)
    requires HexDigests(h) && NothingElse(opening, t) && Coherent(h, b) && NewRows(t, b)
    ensures NothingElse(opening, Booked(t, b))
  {
    hide Decodes, TransferLines, IdsDerived;
    var t' := Booked(t, b);
    BookedRowsStay(t, b);
    ExplanationsStay(opening, t, t');
    assert b.saga.id in t'.sagas && t'.sagas[b.saga.id] == b.saga;
    NewRowsExplained(h, opening, t, b);
  }

  lemma NewRowsExplained(h: Hashes, opening: Ledger, t: Tables, b: Booking)
    requires HexDigests(h) && Coherent(h, b)
    ensures var t' := Booked(t, b);
            SettlementHasSaga(t', b.settlement.id) && EventHasSaga(t', b.event.id)
                && HeaderExplained(opening, t', b.tx.id)
  {
    hide Decodes, TransferLines;
    var t' := Booked(t, b);
    assert b.saga.id in t'.sagas && t'.sagas[b.saga.id] == b.saga;
  }

  lemma OldEffects(h: Hashes, t: Tables, b: Booking, account: Account)
    requires HexDigests(h) && AllBundled(h, t) && IdsDerived(h, b.saga) && NewRows(t, b)
    requires b.tx.id == b.saga.transactionId
    ensures Outstanding(account, t.sagas, Booked(t, b).ledger.headers)
        == Outstanding(account, t.sagas, t.ledger.headers)
  {
    hide Bundled, IdsDerived, Decodes, TransferLines, NewRows;
    forall id | id in t.sagas
      ensures Effect(account, t.sagas[id], t.ledger.headers)
          == Effect(account, t.sagas[id], Booked(t, b).ledger.headers)
    {
      OldBundle(h, t, b, t.sagas[id]);
    }
    OutstandingSame(account, t.sagas, t.sagas, t.ledger.headers, Booked(t, b).ledger.headers);
  }

  lemma NewEffect(h: Hashes, opening: Ledger, t: Tables, b: Booking, account: Account)
    requires HexDigests(h) && Opening(opening) && AllBundled(h, t) && NothingElse(opening, t)
    requires Coherent(h, b) && NewRows(t, b)
    ensures Effect(account, b.saga, Booked(t, b).ledger.headers) == Net(account, b.tx.entries)
    ensures IdsDerived(h, b.saga) && b.tx.id == b.saga.transactionId
  {
    NotYetReversed(h, opening, t, b);
    hide AllBundled, NothingElse, Opening, TransferLines, IdsDerived, SettlementMatches, EventMatches, Net;
  }

  /** Each account changes by the new transfer's effect. */
  lemma BookedOutstanding(h: Hashes, opening: Ledger, t: Tables, b: Booking, account: Account)
    requires HexDigests(h) && Opening(opening) && AllBundled(h, t) && NothingElse(opening, t)
    requires Coherent(h, b) && NewRows(t, b)
    ensures var t' := Booked(t, b);
            Outstanding(account, t'.sagas, t'.ledger.headers)
                == Outstanding(account, t.sagas, t.ledger.headers) + Net(account, b.tx.entries)
  {
    hide AllBundled, NothingElse, Opening, IdsDerived, Coherent, Outstanding, Effect, Net, HexDigests;
    NewEffect(h, opening, t, b, account);
    OldEffects(h, t, b, account);
    OutstandingSplits(account, Booked(t, b).sagas, Booked(t, b).ledger.headers, b.saga.id);
    assert Booked(t, b).sagas - {b.saga.id} == t.sagas;
  }

  lemma BookedBalances(h: Hashes, opening: Ledger, t: Tables, b: Booking)
    requires HexDigests(h) && BankInv(h, opening, t) && Coherent(h, b) && NewRows(t, b)
    ensures BalancesExplained(opening, Booked(t, b))
  {
    hide Bundled, NothingElse, Opening, SoundBooks, Coherent, NewRows;
    forall id | id in t.ledger.accounts
      ensures BalanceOf(Booked(t, b).ledger, id) == BalanceOf(t.ledger, id) + Net(t.ledger.accounts[id], b.tx.entries)
      ensures Outstanding(t.ledger.accounts[id], Booked(t, b).sagas, Booked(t, b).ledger.headers)
              == Outstanding(t.ledger.accounts[id], t.sagas, t.ledger.headers)
                  + Net(t.ledger.accounts[id], b.tx.entries)
    {
      NetConcat(t.ledger.accounts[id], t.ledger.lines, b.tx.entries);
      BookedOutstanding(h, opening, t, b, t.ledger.accounts[id]);
    }
  }

  /** A transfer request that commits, and the tables it leaves. */
  ghost predicate TransferCommits(h: Hashes, t: Tables, cmd: Command, listings: seq<seq<Entry>>, t': Tables)
    requires HexDigests(h)
  {
    && Validate(cmd).Ok? && CommitFor(h, cmd).Ok?
    && Readable(t.ledger, CommitFor(h, cmd).value.tx, listings)
    && TransferPosted(t, CommitFor(h, cmd).value, listings) == Ok(t')
  }

  lemma CommitIsBooking(h: Hashes, t: Tables, cmd: Command, listings: seq<seq<Entry>>, t': Tables) returns (b: Booking)
    requires HexDigests(h) && TransferCommits(h, t, cmd, listings, t')
    ensures Coherent(h, b) && NewRows(t, b) && t' == Booked(t, b)
    ensures CommandOf(b.saga) == cmd && b.saga.idempotencyKey == cmd.idempotencyKey
    ensures b.tx == CommitFor(h, cmd).value.tx && Accepts(t.ledger, b.tx, listings)
    ensures b.saga.state == SagaPosted && b.settlement.status == Pending && b.event.status == EventPending
    ensures b.saga.failureReason == "" && b.settlement.lastError == "" && b.settlement.attempts == 0
    ensures forall id :: id in t.sagas ==> t.sagas[id].idempotencyKey != cmd.idempotencyKey
  {
    CommitHangsTogether(h, cmd);
    hide ParseKey, ParsedIban, ParseSAR, String, MovingTransaction, Validate, Coherent, VerdictOn, Readable, IdsDerived;
    var c := CommitFor(h, cmd).value;
    b := BookingOf(c);
    PostedIsBooked(t, c, listings);
  }

  /** A committed transfer keeps the whole invariant. */
  lemma TransferKeepsInv(h: Hashes, opening: Ledger, t: Tables, cmd: Command, listings: seq<seq<Entry>>, t': Tables)
    requires HexDigests(h) && BankInv(h, opening, t) && TransferCommits(h, t, cmd, listings, t')
    ensures BankInv(h, opening, t')
  {
    var b := CommitIsBooking(h, t, cmd, listings, t');
    hide TransferCommits, Opening, SoundBooks, AllBundled, OneSagaPerJournal, NothingElse, BalancesExplained,
        Coherent, NewRows, Accepts;
    AcceptedKeepsBooksSound(t.ledger, b.tx, listings);
    BookedBundles(h, opening, t, b);
    BookedJournals(h, t, b);
    BookedExplained(h, opening, t, b);
    BookedBalances(h, opening, t, b);
  }
}
