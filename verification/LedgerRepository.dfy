/** The ledger adapter: the statements of a post, run one after another in one database transaction. */
module LedgerRepository {
  import opened Errors
  import opened MoneyDomain
  import opened LedgerDomain
  import opened Ordering
  import opened LedgerStore
  import opened TransferDomain
  import opened Schema

  /** Collects the distinct account ids of a transaction and sorts them. */
  method UniqueAccountIds(tx: Transaction) returns (ids: seq<string>)
    ensures ids == LockOrder(tx)
  {
    var seen: set<string> := {};
    for i := 0 to |tx.entries|
      invariant seen == set j | 0 <= j < i :: tx.entries[j].accountId
    {
      seen := seen + {tx.entries[i].accountId};
    }
    ids := [];
    ghost var all := seen;
    while seen != {}
      invariant seen + Members(ids) == all
      decreases seen
    {
      var id :| id in seen;
      seen := seen - {id};
      assert forall x :: x in Members(ids + [id]) <==> x in Members(ids) || x == id by {
        MembersSnoc(ids, id);
      }
      ids := ids + [id];
    }
    SortedIsOrdered(ids);
    MembersIs(ids);
    ids := Sorted(ids);
    SameSorted(tx, ids, all);
  }

  lemma MembersSnoc(ids: seq<string>, id: string)
    ensures Members(ids + [id]) == Members(ids) + {id}
  {
    assert (ids + [id])[|ids|] == id;
    assert forall i :: 0 <= i < |ids| ==> (ids + [id])[i] == ids[i];
  }

  lemma SameSorted(tx: Transaction, ids: seq<string>, all: set<string>)
    requires StrictlyIncreasing(ids) && forall id :: id in ids <==> id in all
    requires all == set j | 0 <= j < |tx.entries| :: tx.entries[j].accountId
    ensures ids == LockOrder(tx)
  {
    LockOrderCovers(tx);
    forall id
      ensures id in ids <==> id in LockOrder(tx)
    {
      if e :| e in tx.entries && e.accountId == id {
        var j :| 0 <= j < |tx.entries| && tx.entries[j] == e;
        assert tx.entries[j].accountId in all;
      }
      if id in all {
        var j :| 0 <= j < |tx.entries| && tx.entries[j].accountId == id;
        assert tx.entries[j] in tx.entries;
      }
    }
    IncreasingIsUnique(ids, LockOrder(tx));
  }

  /** Locks the rows that exist, in order, and insists that every id was found. */
  method LockAccounts(dbTx: DbTx, accountIds: seq<string>) returns (r: Result<seq<Account>>)
    requires StrictlyIncreasing(accountIds)
    ensures r.Ok? <==> PlanKnown(dbTx.view.ledger, accountIds)
    ensures r.Ok? ==> |r.value| == |accountIds| &&
                      forall i :: 0 <= i < |accountIds| ==> r.value[i] == dbTx.view.ledger.accounts[accountIds[i]]
    ensures r.Err? ==> r.error == Domain(Validation)
  {
    var rows := KnownPart(dbTx.view.ledger, accountIds);
    KnownPartIs(dbTx.view.ledger, accountIds);
    var accounts: seq<Account> := [];
    var found: set<string> := {};
    for i := 0 to |rows|
      invariant found == Members(rows[..i]) && |found| == i
      invariant |accounts| == i && forall j :: 0 <= j < i ==> accounts[j] == dbTx.view.ledger.accounts[rows[j]]
    {
      accounts := accounts + [dbTx.view.ledger.accounts[rows[i]]];
      assert rows[..i + 1] == rows[..i] + [rows[i]];
      MembersSnoc(rows[..i], rows[i]);
      NotAmongEarlier(rows, i);
      found := found + {rows[i]};
    }
    if |found| != |accountIds| {
      return Err(Domain(Validation));
    }
    return Ok(accounts);
  }

  lemma NotAmongEarlier(ids: seq<string>, i: nat)
    requires StrictlyIncreasing(ids) && i < |ids|
    ensures ids[i] !in Members(ids[..i])
  {
    LessIrreflexive(ids[i]);
    assert forall j :: 0 <= j < i ==> Less(ids[j], ids[i]);
  }

  /** The account's lines, in an order the caller may not rely on. */
  method ListEntriesByAccount(dbTx: DbTx, accountId: string) returns (entries: seq<Entry>)
    ensures IsListing(dbTx.view.ledger, accountId, entries)
  {
    entries := EntriesForAccount(accountId, dbTx.view.ledger.lines);
  }

  lemma ReadOneMore(ledger: Ledger, plan: seq<string>, listings: seq<seq<Entry>>, listing: seq<Entry>,
      added: seq<Entry>)
    requires PlanKnown(ledger, plan) && Listings(ledger, plan, listings) && |listings| < |plan|
    requires IsListing(ledger, plan[|listings|], listing)
    requires FirstRefusal(ledger.accounts, plan, listings, added).None?
    ensures Listings(ledger, plan, listings + [listing])
    ensures FirstRefusal(ledger.accounts, plan, listings + [listing], added)
            == CheckAccount(ledger.accounts[plan[|listings|]], listing, added)
  {
    hide CheckAccount, IsListing;
    assert (listings + [listing])[..|listings|] == listings;
  }

  /** Reads and projects one account after another, stopping at the first that would fail. */
  method ValidateSufficientFunds(dbTx: DbTx, accounts: seq<Account>, tx: Transaction, ghost plan: seq<string>)
    returns (r: Option<Error>, ghost listings: seq<seq<Entry>>)
    requires PlanKnown(dbTx.view.ledger, plan) && |accounts| == |plan|
    requires forall i :: 0 <= i < |plan| ==>
        accounts[i] == dbTx.view.ledger.accounts[plan[i]] && accounts[i].id == plan[i]
    ensures Listings(dbTx.view.ledger, plan, listings)
    ensures r == FirstRefusal(dbTx.view.ledger.accounts, plan, listings, tx.entries)
    ensures r.None? ==> |listings| == |plan|
  {
    listings := [];
    var txEntries := tx.entries;
    for i := 0 to |accounts|
      invariant |listings| == i && Listings(dbTx.view.ledger, plan, listings)
      invariant FirstRefusal(dbTx.view.ledger.accounts, plan, listings, txEntries).None?
    {
      var account := accounts[i];
      var existing := ListEntriesByAccount(dbTx, account.id);
      ReadOneMore(dbTx.view.ledger, plan, listings, existing, txEntries);
      listings := listings + [existing];
      var current := BalanceFromEntries(account, existing);
      if current.Err? {
        return Some(current.error), listings;
      }
      var projected := ApplyEntries(account, current.value, txEntries);
      if projected.Err? {
        return Some(projected.error), listings;
      }
      if projected.value.halalas < 0 {
        return Some(Domain(InsufficientFunds)), listings;
      }
    }
    return None, listings;
  }

  /** The header and the first n lines of a journal, written but not yet committed. */
  function Staged(ledger: Ledger, tx: Transaction, n: nat): Ledger
    requires n <= |tx.entries|
  {
    Ledger(ledger.accounts, ledger.headers + {tx.id}, ledger.lines + tx.entries[..n])
  }

  ghost predicate FiledById(ledger: Ledger) {
    forall id :: id in ledger.accounts ==> ledger.accounts[id].id == id
  }

  /** Reading the rest of the accounts cannot change a refusal already met. */
  lemma RefusedEarly(ledger: Ledger, tx: Transaction, listings: seq<seq<Entry>>) returns (full: seq<seq<Entry>>)
    requires Balanced(tx.entries) && KnownAccounts(ledger, tx) && PlanKnown(ledger, LockOrder(tx))
    requires Listings(ledger, LockOrder(tx), listings)
    requires FirstRefusal(ledger.accounts, LockOrder(tx), listings, tx.entries).Some?
    ensures Readable(ledger, tx, full)
    ensures FirstRefusal(ledger.accounts, LockOrder(tx), full, tx.entries)
        == FirstRefusal(ledger.accounts, LockOrder(tx), listings, tx.entries)
  {
    full := listings + RemainingListings(ledger, LockOrder(tx), |listings|);
    FirstRefusalExtends(ledger.accounts, LockOrder(tx), listings, RemainingListings(ledger, LockOrder(tx), |listings|),
        tx.entries);
  }

  /** The first line of the journal whose id is taken. */
  ghost predicate FirstTaken(ledger: Ledger, tx: Transaction, n: nat) {
    n < |tx.entries| && LineTaken(ledger, tx, n) && forall k: nat :: k < n ==> !LineTaken(ledger, tx, k)
  }

  /**
   * What a refused post leaves in its own view: the header and the lines before the first taken one if
   * that is why it was refused, otherwise nothing.
   */
  ghost predicate LeftBehind(ledger: Ledger, tx: Transaction, error: Error, view: Ledger) {
    if error == Domain(Conflict) && tx.id !in ledger.headers then
      exists n: nat :: FirstTaken(ledger, tx, n) && view == Staged(ledger, tx, n)
    else view == ledger
  }

  lemma {:induction false} RefusalIsNoConflict(accounts: map<string, Account>, plan: seq<string>,
      listings: seq<seq<Entry>>, added: seq<Entry>)
    requires |listings| <= |plan| && forall i :: 0 <= i < |plan| ==> plan[i] in accounts
    ensures FirstRefusal(accounts, plan, listings, added) != Some(Domain(Conflict))
  {
    if listings != [] {
      RefusalIsNoConflict(accounts, plan, listings[..|listings| - 1], added);
    }
  }

  /**
   * Posts inside an open database transaction. The outcome is the verdict of an atomic post on the
   * view; a refusal leaves behind what had been written to the view before it.
   */
  method PostTransactionInTx(dbTx: DbTx, tx: Transaction) returns (r: Result<Unit>, ghost listings: seq<seq<Entry>>)
    requires FiledById(dbTx.view.ledger)
    modifies dbTx
    ensures Readable(old(dbTx.view.ledger), tx, listings)
    ensures r == match VerdictOn(old(dbTx.view.ledger), tx, listings) case Posted => Ok(Unit) case Refused(e) => Err(e)
    ensures r.Ok? ==> dbTx.view == old(dbTx.view).(ledger := WithJournal(old(dbTx.view.ledger), tx))
    ensures r.Err? ==> LeftBehind(old(dbTx.view.ledger), tx, r.error, dbTx.view.ledger)
                       && dbTx.view == old(dbTx.view).(ledger := dbTx.view.ledger)
  {
    hide Balanced, FirstRefusal, KnownPart, IsListing;
    listings := [];
    var balanced := ValidateBalanced(tx.entries);
    if balanced.Err? {
      return Err(Domain(UnbalancedTransaction)), listings;
    }
    ghost var ledger := dbTx.view.ledger;
    var accountIds := UniqueAccountIds(tx);
    LockOrderCovers(tx);
    PlanIsKnown(ledger, tx);
    var accounts := LockAccounts(dbTx, accountIds);
    if accounts.Err? {
      return Err(accounts.error), listings;
    }
    var refusal: Option<Error>;
    refusal, listings := ValidateSufficientFunds(dbTx, accounts.value, tx, accountIds);
    if refusal.Some? {
      RefusalIsNoConflict(ledger.accounts, accountIds, listings, tx.entries);
      listings := RefusedEarly(ledger, tx, listings);
      return Err(refusal.value), listings;
    }
    if tx.id in dbTx.view.ledger.headers {
      return Err(Domain(Conflict)), listings;
    }
    dbTx.view := dbTx.view.(ledger := dbTx.view.ledger.(headers := dbTx.view.ledger.headers + {tx.id}));
    assert tx.entries[..0] == [] && ledger.lines + [] == ledger.lines;
    for i := 0 to |tx.entries|
      invariant dbTx.view == old(dbTx.view).(ledger := Staged(ledger, tx, i))
      invariant LineIds(tx.entries[..i]) !! LineIds(ledger.lines) && DistinctIds(tx.entries[..i])
      invariant forall k: nat :: k < i ==> !LineTaken(ledger, tx, k)
    {
      var entry := tx.entries[i];
      LineIdsConcat(ledger.lines, tx.entries[..i]);
      if entry.id in LineIds(dbTx.view.ledger.lines) {
        TakenLineConflicts(ledger, tx, i);
        assert FirstTaken(ledger, tx, i);
        return Err(Domain(Conflict)), listings;
      }
      assert tx.entries[..i + 1] == tx.entries[..i] + [entry];
      LineIdsConcat(tx.entries[..i], [entry]);
      LineNew(tx.entries[..i], entry);
      assert ledger.lines + tx.entries[..i + 1] == ledger.lines + tx.entries[..i] + [entry];
      dbTx.view := dbTx.view.(ledger := dbTx.view.ledger.(lines := dbTx.view.ledger.lines + [entry]));
    }
    assert tx.entries[..|tx.entries|] == tx.entries;
    return Ok(Unit), listings;
  }

  lemma LineNew(lines: seq<Entry>, entry: Entry)
    requires DistinctIds(lines) && entry.id !in LineIds(lines)
    ensures DistinctIds(lines + [entry]) && LineIds([entry]) == {entry.id}
  {
    assert forall i :: 0 <= i < |lines| ==> lines[i].id in LineIds(lines);
    assert [entry][0].id == entry.id;
  }

  /** One post in a database transaction of its own: all of it or nothing of it, as the commit goes. */
  method PostTransaction(db: Database, tx: Transaction, fate: Fate) returns (r: Result<Unit>, ghost verdict: Verdict)
    requires FiledById(db.tables.ledger)
    modifies db
    ensures exists after ::
              && AtomicPost(old(db.tables.ledger), tx, verdict, after)
              && db.tables == old(db.tables).(ledger := if fate.Applied() then after else old(db.tables.ledger))
    ensures r == if fate.Lost? then Err(Infrastructure)
                 else if verdict.Refused? then Err(verdict.error)
                 else if fate.Done? then Ok(Unit) else Err(Infrastructure)
  {
    var dbTx := new DbTx.Begin(db);
    ghost var listings := RemainingListings(db.tables.ledger, LockOrder(tx), 0);
    if fate.Lost? {
      verdict := VerdictOn(db.tables.ledger, tx, listings);
      ghost var after := if verdict == Posted then WithJournal(db.tables.ledger, tx) else db.tables.ledger;
      assert AtomicPost(db.tables.ledger, tx, verdict, after) by {
        assert Readable(db.tables.ledger, tx, listings);
      }
      return Err(Infrastructure), verdict;
    }
    r, listings := PostTransactionInTx(dbTx, tx);
    verdict := VerdictOn(db.tables.ledger, tx, listings);
    if r.Err? {
      assert AtomicPost(db.tables.ledger, tx, verdict, db.tables.ledger);
      return;
    }
    assert AtomicPost(db.tables.ledger, tx, verdict, dbTx.view.ledger);
    r := dbTx.Commit(fate);
  }

  /**
   * Opens an account, unless its id is taken. Sound books stay sound, nobody's balance moves, and the
   * new account starts at zero.
   */
  method CreateAccount(db: Database, account: Account, fate: Fate) returns (r: Result<Unit>)
    modifies db
    ensures r == if fate.Lost? then Err(Infrastructure)
                 else if account.id in old(db.tables.ledger.accounts) then Err(Domain(Conflict))
                 else if fate.Done? then Ok(Unit) else Err(Infrastructure)
    ensures db.tables == if fate.Lost? || account.id in old(db.tables.ledger.accounts) then old(db.tables)
                         else old(db.tables).(ledger := Opened(old(db.tables.ledger), account))
    ensures SoundBooks(old(db.tables.ledger)) ==>
              && SoundBooks(db.tables.ledger)
              && (forall id :: id in old(db.tables.ledger.accounts) ==>
                    id in db.tables.ledger.accounts
                        && BalanceOf(db.tables.ledger, id) == BalanceOf(old(db.tables.ledger), id))
              && (r.Ok? ==> account.id in db.tables.ledger.accounts && BalanceOf(db.tables.ledger, account.id) == 0)
  {
    if fate.Lost? {
      return Err(Infrastructure);
    }
    if account.id in db.tables.ledger.accounts {
      return Err(Domain(Conflict));
    }
    if SoundBooks(db.tables.ledger) {
      AccountKeepsBooksSound(db.tables.ledger, account);
    }
    db.tables := db.tables.(ledger := Opened(db.tables.ledger, account));
    return if fate.Done? then Ok(Unit) else Err(Infrastructure);
  }

  /** Whatever order the lines are listed in, a balance that comes back is the account's net. */
  method GetBalance(db: Database, account: Account) returns (r: Result<Money>)
    ensures r.Ok? ==> r.value.halalas == Net(account, db.tables.ledger.lines) && r.value.currency == CURRENCY_SAR
    ensures GrossFits(account, db.tables.ledger.lines) ==> r.Ok?
    ensures r.Err? ==> r.error == Domain(InvalidMoney)
  {
    var dbTx := new DbTx.Begin(db);
    var entries := ListEntriesByAccount(dbTx, account.id);
    r := BalanceFromEntries(account, entries);
    var own := OfAccount(account.id, db.tables.ledger.lines);
    NetOfPermutation(account, entries, own);
    NetOfOwnLines(account, db.tables.ledger.lines);
    if GrossFits(account, db.tables.ledger.lines) {
      GrossOfOwnLines(account, db.tables.ledger.lines, true);
      GrossOfOwnLines(account, db.tables.ledger.lines, false);
      EveryOrderSucceedsIff(account, own);
    }
  }

  /**
   * The reconciler's check. Over sound books it never reports a difference: it succeeds, or the
   * common total no longer fits the int64 it is scanned into.
   */
  method VerifyGlobalLedgerBalanced(db: Database) returns (r: Result<Unit>)
    ensures SoundBooks(db.tables.ledger) ==>
      r == if Total(db.tables.ledger.lines, Debit) <= MAX_INT64 then Ok(Unit) else Err(Infrastructure)
    ensures r.Ok? ==> Total(db.tables.ledger.lines, Debit) == Total(db.tables.ledger.lines, Credit)
  {
    var lines := db.tables.ledger.lines;
    var debits, credits := 0, 0;
    for i := 0 to |lines|
      invariant debits == Total(lines[..i], Debit) && credits == Total(lines[..i], Credit)
    {
      assert lines[..i + 1][..i] == lines[..i];
      if lines[i].side == Debit {
        debits := debits + lines[i].amount.halalas;
      } else {
        credits := credits + lines[i].amount.halalas;
      }
    }
    assert lines[..|lines|] == lines;
    if !Fits(debits) || !Fits(credits) {
      return Err(Infrastructure);
    }
    if debits != credits {
      return Err(Domain(UnbalancedTransaction));
    }
    return Ok(Unit);
  }
}
