/** A committed reversal keeps the bank's invariant: it takes exactly its transfer out of the balances. */
module ReversalKeeps {
  import opened Errors
  import opened MoneyDomain
  import opened LedgerDomain
  import opened LedgerStore
  import opened TransferDomain
  import opened Schema
  import opened Transitions
  import opened BankInvariant
  import opened TransferKeeps

  // ---- The journal a worker builds ----

  /** Whatever a worker read of a saga and its settlement, it builds the mirror image of the transfer. */
  lemma ReversalMirrors(h: Hashes, t: Tables, saga: Saga, seen: Saga, s: Settlement)
    requires HexDigests(h) && Bundled(h, t, saga) && SameSaga(saga, seen)
    requires SameSettlement(t.settlements[saga.settlementId], s)
    ensures ReversalOf(seen, s)
            == Ok(Transaction(CompensationId(saga.transactionId), "compensate failed sarie settlement",
                ReversalLines(saga)))
  {
    hide ParseSAR, MovingTransaction, Contains, IdsDerived, EventMatches, Reversed;
    var cmd := CommandOf(saga);
    MovingTransactionMade(CompensationId(saga.transactionId), "compensate failed sarie settlement", cmd.toAccount,
        cmd.fromAccount, cmd.amount);
  }

  /** A reversal undoes its transfer in every account. */
  lemma MirrorCancels(account: Account, saga: Saga)
    requires Decodes(saga)
    ensures Net(account, ReversalLines(saga)) == -Net(account, TransferLines(saga))
  {
    hide ParseSAR;
    var cmd := CommandOf(saga);
    TwoLines(account, saga.transactionId, cmd.fromAccount, cmd.toAccount, cmd.amount);
    TwoLines(account, CompensationId(saga.transactionId), cmd.toAccount, cmd.fromAccount, cmd.amount);
  }

  lemma TwoLines(account: Account, txId: string, debited: string, credited: string, amount: Money)
    requires debited != "" && credited != "" && amount.halalas > 0
    ensures var lines := MovingLines(txId, debited, credited, amount);
            Net(account, lines) == Delta(account, lines[0]) + Delta(account, lines[1])
  {
    var lines := MovingLines(txId, debited, credited, amount);
    assert lines[..1] == [lines[0]] && lines[..1][..0] == [];
    assert Net(account, lines[..1]) == Delta(account, lines[0]);
  }

  // ---- The journal posted ----

  function WithReversal(t: Tables, tx: Transaction): Tables {
    t.(ledger := WithJournal(t.ledger, tx))
  }

  ghost predicate Mirrors(t: Tables, id: string, tx: Transaction) {
    && id in t.sagas && Decodes(t.sagas[id])
    && tx.id == CompensationId(t.sagas[id].transactionId) && tx.entries == ReversalLines(t.sagas[id])
    && tx.id !in t.ledger.headers
  }

  lemma OtherReversals(h: Hashes, t: Tables, id: string, other: string, tx: Transaction)
    requires HexDigests(h) && AllBundled(h, t) && OneSagaPerJournal(t) && Mirrors(t, id, tx)
    requires other in t.sagas && other != id
    ensures Reversed(WithReversal(t, tx), t.sagas[other]) == Reversed(t, t.sagas[other])
  {
    hide Bundled, Decodes, TransferLines, ReversalLines;
    DerivedIdsInjective(t.sagas[id].transactionId, t.sagas[other].transactionId);
  }

  lemma ReversalKeepsBundle(h: Hashes, t: Tables, id: string, other: string, tx: Transaction)
    requires HexDigests(h) && AllBundled(h, t) && OneSagaPerJournal(t) && Mirrors(t, id, tx)
    requires other in t.sagas
    ensures Bundled(h, WithReversal(t, tx), t.sagas[other])
  {
    hide Decodes, TransferLines, ReversalLines, SettlementMatches, EventMatches, IdsDerived, OneSagaPerJournal,
        Contains;
    var t' := WithReversal(t, tx);
    if other == id {
      AppendedContains(t.ledger.lines, tx.entries);
    } else {
      OtherReversals(h, t, id, other, tx);
      if Reversed(t, t.sagas[other]) {
        StillContains(t.ledger.lines, tx.entries, ReversalLines(t.sagas[other]));
      }
    }
    BundleStays(h, t, t', t.sagas[other], t.sagas[other]);
  }

  lemma StillContains(lines: seq<Entry>, added: seq<Entry>, some: seq<Entry>)
    requires Contains(lines, some)
    ensures Contains(lines + added, some)
  {
  }

  lemma ReversalKeepsRows(h: Hashes, opening: Ledger, t: Tables, id: string, tx: Transaction)
    requires HexDigests(h) && AllBundled(h, t) && OneSagaPerJournal(t) && NothingElse(opening, t) && Mirrors(t, id, tx)
    ensures AllBundled(h, WithReversal(t, tx)) && NothingElse(opening, WithReversal(t, tx))
  {
    hide Bundled, OneSagaPerJournal, Decodes, ReversalLines, SettlementHasSaga, EventHasSaga;
    var t' := WithReversal(t, tx);
    forall other | other in t'.sagas
      ensures t'.sagas[other].id == other && Bundled(h, t', t'.sagas[other])
    {
      ReversalKeepsBundle(h, t, id, other, tx);
    }
    ExplanationsStay(opening, t, t');
    forall header | header in t'.ledger.headers
      ensures HeaderExplained(opening, t', header)
    {
      assert header in t.ledger.headers || header == tx.id;
    }
  }

  /** Each account loses the transfer's effect, and nothing else. */
  lemma ReversedOutstanding(h: Hashes, t: Tables, id: string, tx: Transaction, account: Account)
    requires HexDigests(h) && AllBundled(h, t) && OneSagaPerJournal(t) && Mirrors(t, id, tx)
    ensures Outstanding(account, t.sagas, WithReversal(t, tx).ledger.headers)
            == Outstanding(account, t.sagas, t.ledger.headers) + Net(account, tx.entries)
  {
    hide Bundled, OneSagaPerJournal, Decodes, ReversalLines, TransferLines, Outstanding, Net;
    var headers, headers' := t.ledger.headers, WithReversal(t, tx).ledger.headers;
    forall other | other in t.sagas && other != id
      ensures Effect(account, t.sagas[other], headers) == Effect(account, t.sagas[other], headers')
    {
      OtherReversals(h, t, id, other, tx);
    }
    OutstandingSame(account, t.sagas - {id}, t.sagas - {id}, headers, headers');
    OutstandingSplits(account, t.sagas, headers, id);
    OutstandingSplits(account, t.sagas, headers', id);
    MirrorCancels(account, t.sagas[id]);
  }

  lemma ReversalKeepsBalances(h: Hashes, opening: Ledger, t: Tables, id: string, tx: Transaction)
    requires HexDigests(h) && BankInv(h, opening, t) && Mirrors(t, id, tx)
    ensures BalancesExplained(opening, WithReversal(t, tx))
  {
    hide Bundled, NothingElse, Opening, SoundBooks, OneSagaPerJournal, Mirrors;
    forall account | account in t.ledger.accounts
      ensures BalanceOf(WithReversal(t, tx).ledger, account)
          == BalanceOf(t.ledger, account) + Net(t.ledger.accounts[account], tx.entries)
      ensures Outstanding(t.ledger.accounts[account], t.sagas, WithReversal(t, tx).ledger.headers)
              == Outstanding(t.ledger.accounts[account], t.sagas, t.ledger.headers)
                  + Net(t.ledger.accounts[account], tx.entries)
    {
      NetConcat(t.ledger.accounts[account], t.ledger.lines, tx.entries);
      ReversedOutstanding(h, t, id, tx, t.ledger.accounts[account]);
    }
  }

  lemma JournalKeepsInv(h: Hashes, opening: Ledger, t: Tables, id: string, tx: Transaction, listings: seq<seq<Entry>>)
    requires HexDigests(h) && BankInv(h, opening, t) && Mirrors(t, id, tx) && Accepts(t.ledger, tx, listings)
    ensures BankInv(h, opening, WithReversal(t, tx))
  {
    hide Opening, SoundBooks, AllBundled, NothingElse, BalancesExplained, Mirrors, Accepts;
    AcceptedKeepsBooksSound(t.ledger, tx, listings);
    ReversalKeepsRows(h, opening, t, id, tx);
    ReversalKeepsBalances(h, opening, t, id, tx);
  }

  // ---- The compensation as committed ----

  /** A compensation that commits for a saga and a settlement as some worker read them, perhaps long ago. */
  ghost predicate CompensationCommits(t: Tables, seen: Saga, s: Settlement, listings: seq<seq<Entry>>, t': Tables) {
    && ReversalOf(seen, s).Ok?
    && Readable(t.ledger, ReversalOf(seen, s).value, listings)
    && CompensationPosted(t, ReversalOf(seen, s).value, seen.id, listings) == Ok(t')
  }

  /** What was read belongs to the tables, up to states and statuses. */
  ghost predicate SeenIn(t: Tables, seen: Saga, s: Settlement) {
    && s.id in t.settlements && SameSettlement(t.settlements[s.id], s)
    && s.sagaId in t.sagas && SameSaga(t.sagas[s.sagaId], seen)
  }

  lemma SeenIsMirrored(h: Hashes, opening: Ledger, t: Tables, seen: Saga, s: Settlement)
    requires HexDigests(h) && AllBundled(h, t) && NothingElse(opening, t) && SeenIn(t, seen, s)
    ensures ReversalOf(seen, s).Ok? && seen.id == s.sagaId && seen.id in t.sagas
    ensures var tx := ReversalOf(seen, s).value;
            && tx.id == CompensationId(t.sagas[seen.id].transactionId)
            && Decodes(t.sagas[seen.id]) && tx.entries == ReversalLines(t.sagas[seen.id])
  {
    hide Bundled, HeaderExplained, EventHasSaga, ReversalOf;
    assert SettlementHasSaga(t, s.id);
    ReversalMirrors(h, t, t.sagas[s.sagaId], seen, s);
    assert Bundled(h, t, t.sagas[s.sagaId]);
    BundledDecodes(h, t, t.sagas[s.sagaId]);
  }

  lemma BundledDecodes(h: Hashes, t: Tables, saga: Saga)
    requires HexDigests(h) && Bundled(h, t, saga)
    ensures Decodes(saga) && saga.transactionId in t.ledger.headers
  {
    hide Decodes, TransferLines, ReversalLines, IdsDerived;
  }

  /** The tables a compensation leaves: the mirror journal, and the saga's new state. */
  lemma CompensatedIs(t: Tables, tx: Transaction, id: string, listings: seq<seq<Entry>>)
    requires |listings| <= |LockOrder(tx)| && CompensationPosted(t, tx, id, listings).Ok?
    ensures VerdictOn(t.ledger, tx, listings) == Posted && tx.id !in t.ledger.headers
    ensures CompensationPosted(t, tx, id, listings).value
        == UpdateSagaState(WithReversal(t, tx), id, Compensated, COMPENSATION_REASON)
  {
    hide VerdictOn;
    assert PostJournal(t, tx, listings).Ok?;
    PostedMeansNoConflict(t.ledger, tx, listings);
  }

  /** A committed compensation keeps the whole invariant. */
  lemma CompensationKeepsInv(h: Hashes, opening: Ledger, t: Tables, seen: Saga, s: Settlement,
      listings: seq<seq<Entry>>, t': Tables)
    requires HexDigests(h) && BankInv(h, opening, t) && SeenIn(t, seen, s)
    requires CompensationCommits(t, seen, s, listings, t')
    ensures BankInv(h, opening, t')
  {
    hide Opening, SoundBooks, AllBundled, NothingElse, BalancesExplained, VerdictOn, ReversalOf, UpdateSagaState,
        SeenIn, OneSagaPerJournal;
    SeenIsMirrored(h, opening, t, seen, s);
    var tx := ReversalOf(seen, s).value;
    CompensatedIs(t, tx, seen.id, listings);
    JournalKeepsInv(h, opening, t, seen.id, tx, listings);
    SagaUpdateIsStatus(WithReversal(t, tx), seen.id, Compensated, COMPENSATION_REASON);
    StatusesKeepInv(h, opening, WithReversal(t, tx), t');
  }

  /** A transfer already reversed is never reversed again, whatever a worker read and whenever. */
  lemma NoSecondReversal(h: Hashes, opening: Ledger, t: Tables, seen: Saga, s: Settlement, tx: Transaction,
      listings: seq<seq<Entry>>)
    requires HexDigests(h) && BankInv(h, opening, t) && SeenIn(t, seen, s) && Reversed(t, t.sagas[s.sagaId])
    requires ReversalOf(seen, s) == Ok(tx) && |listings| <= |LockOrder(tx)|
    ensures CompensationPosted(t, tx, seen.id, listings).Err?
  {
    hide Opening, SoundBooks, AllBundled, NothingElse, BalancesExplained, VerdictOn, ReversalOf, OneSagaPerJournal,
        CompensationPosted, SameSaga, SameSettlement;
    SeenIsMirrored(h, opening, t, seen, s);
    if CompensationPosted(t, tx, seen.id, listings).Ok? {
      CompensatedIs(t, tx, seen.id, listings);
    }
  }
}
