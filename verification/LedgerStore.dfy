/** The ledger tables, and one post as an atomic change of them. */
module LedgerStore {
  import opened Errors
  import opened MoneyDomain
  import opened LedgerDomain
  import opened Ordering

  /** Accounts by id, journal headers by id, and every journal line in commit order. */
  datatype Ledger = Ledger(accounts: map<string, Account>, headers: set<string>, lines: seq<Entry>)

  datatype Verdict = Posted | Refused(error: Error)

  function LineIds(lines: seq<Entry>): set<string> {
    set i | 0 <= i < |lines| :: lines[i].id
  }

  ghost predicate DistinctIds(lines: seq<Entry>) {
    forall i, j :: 0 <= i < j < |lines| ==> lines[i].id != lines[j].id
  }

  function AccountsOf(entries: seq<Entry>): seq<string> {
    seq(|entries|, i requires 0 <= i < |entries| => entries[i].accountId)
  }

  /** The touched accounts, each once, in locking order. */
  function LockOrder(tx: Transaction): seq<string> {
    Sorted(AccountsOf(tx.entries))
  }

  lemma LockOrderCovers(tx: Transaction)
    ensures StrictlyIncreasing(LockOrder(tx))
    ensures forall id :: id in LockOrder(tx) <==> exists e :: e in tx.entries && e.accountId == id
  {
    SortedIsOrdered(AccountsOf(tx.entries));
    forall id
      ensures id in AccountsOf(tx.entries) <==> exists e :: e in tx.entries && e.accountId == id
    {
      if id in AccountsOf(tx.entries) {
        var i :| 0 <= i < |tx.entries| && AccountsOf(tx.entries)[i] == id;
        assert tx.entries[i] in tx.entries;
      }
      if e :| e in tx.entries && e.accountId == id {
        var i :| 0 <= i < |tx.entries| && tx.entries[i] == e;
        assert AccountsOf(tx.entries)[i] == id;
      }
    }
  }

  /** A listing is ordered by creation time, which is not commit order: any order is possible. */
  predicate IsListing(ledger: Ledger, accountId: string, listing: seq<Entry>) {
    SameLines(listing, OfAccount(accountId, ledger.lines))
  }

  /** The verdict on one locked account: overflow, overdraft, or nothing wrong. */
  function CheckAccount(account: Account, listing: seq<Entry>, added: seq<Entry>): Option<Error> {
    match Projected(account, 0, listing)
    case Err(e) => Some(e)
    case Ok(current) =>
      match Projected(account, current, added)
      case Err(e) => Some(e)
      case Ok(projected) => if projected < 0 then Some(Domain(InsufficientFunds)) else None
  }

  /** The first refusal met when the accounts are checked in locking order. */
  function FirstRefusal(accounts: map<string, Account>, plan: seq<string>, listings: seq<seq<Entry>>,
      added: seq<Entry>): Option<Error>
    requires |listings| <= |plan| && forall i :: 0 <= i < |plan| ==> plan[i] in accounts
  {
    if listings == [] then None
    else
      var n := |listings| - 1;
      match FirstRefusal(accounts, plan, listings[..n], added)
      case Some(e) => Some(e)
      case None => CheckAccount(accounts[plan[n]], listings[n], added)
  }

  predicate Listings(ledger: Ledger, plan: seq<string>, listings: seq<seq<Entry>>) {
    |listings| <= |plan| && forall i :: 0 <= i < |listings| ==> IsListing(ledger, plan[i], listings[i])
  }

  /** The ids, in order, that name an account. */
  function KnownPart(ledger: Ledger, ids: seq<string>): seq<string> {
    if ids == [] then []
    else
      var before := KnownPart(ledger, ids[..|ids| - 1]);
      if ids[|ids| - 1] in ledger.accounts then before + [ids[|ids| - 1]] else before
  }

  predicate PlanKnown(ledger: Ledger, plan: seq<string>) {
    forall i :: 0 <= i < |plan| ==> plan[i] in ledger.accounts
  }

  lemma {:induction false} KnownPartIs(ledger: Ledger, ids: seq<string>)
    requires StrictlyIncreasing(ids)
    ensures StrictlyIncreasing(KnownPart(ledger, ids)) && PlanKnown(ledger, KnownPart(ledger, ids))
    ensures forall id :: id in KnownPart(ledger, ids) ==> id in ids
    ensures |KnownPart(ledger, ids)| <= |ids|
    ensures KnownPart(ledger, ids) == ids <==> PlanKnown(ledger, ids)
    ensures |KnownPart(ledger, ids)| == |ids| <==> PlanKnown(ledger, ids)
  {
    if ids != [] {
      var before, last := ids[..|ids| - 1], ids[|ids| - 1];
      KnownPartIs(ledger, before);
      assert ids == before + [last];
      var part := KnownPart(ledger, before);
      forall j | 0 <= j < |part|
        ensures Less(part[j], last)
      {
        assert part[j] in before;
        var i :| 0 <= i < |before| && before[i] == part[j];
        assert ids[i] == before[i] && ids[|ids| - 1] == last;
      }
    }
  }

  predicate KnownAccounts(ledger: Ledger, tx: Transaction) {
    forall e :: e in tx.entries ==> e.accountId in ledger.accounts
  }

  lemma PlanIsKnown(ledger: Ledger, tx: Transaction)
    ensures KnownAccounts(ledger, tx) <==> PlanKnown(ledger, LockOrder(tx))
  {
    LockOrderCovers(tx);
    if PlanKnown(ledger, LockOrder(tx)) {
      forall e | e in tx.entries
        ensures e.accountId in ledger.accounts
      {
        assert e.accountId in LockOrder(tx);
      }
    }
    if KnownAccounts(ledger, tx) {
      forall i | 0 <= i < |LockOrder(tx)|
        ensures LockOrder(tx)[i] in ledger.accounts
      {
        assert LockOrder(tx)[i] in LockOrder(tx);
      }
    }
  }

  /** The journal id is taken, or some line id is taken or used twice. */
  ghost predicate Conflicts(ledger: Ledger, tx: Transaction) {
    tx.id in ledger.headers || !DistinctIds(tx.entries) || !(LineIds(tx.entries) !! LineIds(ledger.lines))
  }

  function WithJournal(ledger: Ledger, tx: Transaction): Ledger {
    Ledger(ledger.accounts, ledger.headers + {tx.id}, ledger.lines + tx.entries)
  }

  /** The verdict of one undisturbed post that reads the given listings. */
  ghost function VerdictOn(ledger: Ledger, tx: Transaction, listings: seq<seq<Entry>>): Verdict
    requires |listings| <= |LockOrder(tx)|
  {
    PlanIsKnown(ledger, tx);
    if !Balanced(tx.entries) then Refused(Domain(UnbalancedTransaction))
    else if !KnownAccounts(ledger, tx) then Refused(Domain(Validation))
    else match FirstRefusal(ledger.accounts, LockOrder(tx), listings, tx.entries)
      case Some(e) => Refused(e)
      case None => if Conflicts(ledger, tx) then Refused(Domain(Conflict)) else Posted
  }

  /** A true listing of every account the post gets to read. */
  ghost predicate Readable(ledger: Ledger, tx: Transaction, listings: seq<seq<Entry>>) {
    && Listings(ledger, LockOrder(tx), listings)
    && (Balanced(tx.entries) && KnownAccounts(ledger, tx) ==> |listings| == |LockOrder(tx)|)
  }

  /** One post as a single step: some listing of each account leads to this verdict and ledger. */
  ghost predicate AtomicPost(before: Ledger, tx: Transaction, verdict: Verdict, after: Ledger) {
    exists listings ::
      && Readable(before, tx, listings)
      && verdict == VerdictOn(before, tx, listings)
      && after == if verdict == Posted then WithJournal(before, tx) else before
  }

  predicate LineTaken(ledger: Ledger, tx: Transaction, n: nat)
    requires n < |tx.entries|
  {
    tx.entries[n].id in LineIds(ledger.lines) || tx.entries[n].id in LineIds(tx.entries[..n])
  }

  lemma LineIdsConcat(x: seq<Entry>, y: seq<Entry>)
    ensures LineIds(x + y) == LineIds(x) + LineIds(y)
  {
    forall id
      ensures id in LineIds(x) + LineIds(y) ==> id in LineIds(x + y)
    {
      if i :| 0 <= i < |x| && x[i].id == id {
        assert (x + y)[i].id == id;
      } else if j :| 0 <= j < |y| && y[j].id == id {
        assert (x + y)[|x| + j].id == id;
      }
    }
  }

  lemma {:induction false} FirstRefusalExtends(accounts: map<string, Account>, plan: seq<string>,
      listings: seq<seq<Entry>>, more: seq<seq<Entry>>, added: seq<Entry>)
    requires |listings| + |more| <= |plan| && forall i :: 0 <= i < |plan| ==> plan[i] in accounts
    requires FirstRefusal(accounts, plan, listings, added).Some?
    ensures FirstRefusal(accounts, plan, listings + more, added) == FirstRefusal(accounts, plan, listings, added)
  {
    if more == [] {
      assert listings + more == listings;
    } else {
      var less := more[..|more| - 1];
      assert (listings + more)[..|listings + more| - 1] == listings + less;
      FirstRefusalExtends(accounts, plan, listings, less, added);
    }
  }

  /** The accounts not read yet, each read in commit order. */
  function RemainingListings(ledger: Ledger, plan: seq<string>, n: nat): seq<seq<Entry>>
    requires n <= |plan|
  {
    seq(|plan| - n, i requires 0 <= i < |plan| - n => OfAccount(plan[n + i], ledger.lines))
  }

  lemma TakenLineConflicts(ledger: Ledger, tx: Transaction, n: nat)
    requires n < |tx.entries| && LineTaken(ledger, tx, n)
    ensures Conflicts(ledger, tx)
  {
    assert tx.entries[n].id in LineIds(tx.entries);
    if tx.entries[n].id in LineIds(tx.entries[..n]) {
      var i :| 0 <= i < n && tx.entries[..n][i].id == tx.entries[n].id;
      assert tx.entries[i].id == tx.entries[n].id;
    }
  }

  // ---- What every post keeps ----

  function BalanceOf(ledger: Ledger, id: string): int
    requires id in ledger.accounts
  {
    Net(ledger.accounts[id], ledger.lines)
  }

  /** Accounts filed under their ids, lines on known accounts with ids of their own, books in balance, no overdraft. */
  ghost predicate SoundBooks(ledger: Ledger) {
    && (forall id :: id in ledger.accounts ==> ledger.accounts[id].id == id)
    && (forall e :: e in ledger.lines ==> e.accountId in ledger.accounts)
    && DistinctIds(ledger.lines)
    && Total(ledger.lines, Debit) == Total(ledger.lines, Credit)
    && (forall id :: id in ledger.accounts ==> BalanceOf(ledger, id) >= 0)
  }

  lemma DistinctIdsConcat(x: seq<Entry>, y: seq<Entry>)
    requires DistinctIds(x) && DistinctIds(y) && LineIds(y) !! LineIds(x)
    ensures DistinctIds(x + y)
  {
    forall i, j | 0 <= i < j < |x + y|
      ensures (x + y)[i].id != (x + y)[j].id
    {
      if i < |x| <= j {
        assert x[i].id in LineIds(x) && y[j - |x|].id in LineIds(y);
      }
    }
  }

  /** Nothing refused on the way through the accounts means nothing refused at any of them. */
  lemma {:induction false} NoneRefused(accounts: map<string, Account>, plan: seq<string>, listings: seq<seq<Entry>>,
      added: seq<Entry>, k: nat)
    requires |listings| <= |plan| && forall i :: 0 <= i < |plan| ==> plan[i] in accounts
    requires FirstRefusal(accounts, plan, listings, added).None? && k < |listings|
    ensures CheckAccount(accounts[plan[k]], listings[k], added).None?
  {
    var n := |listings| - 1;
    if k < n {
      NoneRefused(accounts, plan, listings[..n], added, k);
    }
  }

  /** An account that passes its check stays in credit once the lines are in. */
  lemma CheckedStaysPositive(ledger: Ledger, id: string, listing: seq<Entry>, added: seq<Entry>)
    requires id in ledger.accounts && ledger.accounts[id].id == id
    requires IsListing(ledger, id, listing)
    requires CheckAccount(ledger.accounts[id], listing, added).None?
    ensures Net(ledger.accounts[id], ledger.lines + added) >= 0
  {
    var account := ledger.accounts[id];
    NetOfPermutation(account, listing, OfAccount(id, ledger.lines));
    NetOfOwnLines(account, ledger.lines);
    NetConcat(account, ledger.lines, added);
  }

  ghost predicate Accepts(ledger: Ledger, tx: Transaction, listings: seq<seq<Entry>>) {
    && Readable(ledger, tx, listings)
    && VerdictOn(ledger, tx, listings) == Posted
  }

  lemma AcceptedKeepsCredit(ledger: Ledger, tx: Transaction, listings: seq<seq<Entry>>, id: string)
    requires SoundBooks(ledger) && Accepts(ledger, tx, listings) && id in ledger.accounts
    ensures BalanceOf(WithJournal(ledger, tx), id) >= 0
  {
    var plan := LockOrder(tx);
    LockOrderCovers(tx);
    PlanIsKnown(ledger, tx);
    if k: nat :| k < |plan| && plan[k] == id {
      NoneRefused(ledger.accounts, plan, listings, tx.entries, k);
      CheckedStaysPositive(ledger, id, listings[k], tx.entries);
    } else {
      assert id !in plan;
      NetConcat(ledger.accounts[id], ledger.lines, tx.entries);
      NetElsewhere(ledger.accounts[id], tx.entries);
    }
  }

  lemma AcceptedKeepsBooksSound(ledger: Ledger, tx: Transaction, listings: seq<seq<Entry>>)
    requires SoundBooks(ledger) && Accepts(ledger, tx, listings)
    ensures SoundBooks(WithJournal(ledger, tx))
  {
    var after := WithJournal(ledger, tx);
    TotalConcat(ledger.lines, tx.entries, Debit);
    TotalConcat(ledger.lines, tx.entries, Credit);
    DistinctIdsConcat(ledger.lines, tx.entries);
    forall id | id in after.accounts
      ensures BalanceOf(after, id) >= 0
    {
      AcceptedKeepsCredit(ledger, tx, listings, id);
    }
  }

  /** A post, accepted or refused, leaves the books sound. */
  lemma PostKeepsBooksSound(before: Ledger, tx: Transaction, verdict: Verdict, after: Ledger)
    requires SoundBooks(before) && AtomicPost(before, tx, verdict, after)
    ensures SoundBooks(after)
  {
    if verdict == Posted {
      var listings :| && Readable(before, tx, listings)
                      && verdict == VerdictOn(before, tx, listings)
                      && after == WithJournal(before, tx);
      AcceptedKeepsBooksSound(before, tx, listings);
    }
  }

  function Opened(ledger: Ledger, account: Account): Ledger {
    ledger.(accounts := ledger.accounts[account.id := account])
  }

  /** A new account starts at zero, moves no balance, and leaves the books sound. */
  lemma AccountKeepsBooksSound(ledger: Ledger, account: Account)
    requires SoundBooks(ledger) && account.id !in ledger.accounts
    ensures SoundBooks(Opened(ledger, account)) && BalanceOf(Opened(ledger, account), account.id) == 0
    ensures forall id :: id in ledger.accounts ==> BalanceOf(Opened(ledger, account), id) == BalanceOf(ledger, id)
  {
    NetElsewhere(account, ledger.lines);
  }

  // ---- What a verdict says ----

  lemma {:induction false} RefusedSomewhere(accounts: map<string, Account>, plan: seq<string>,
      listings: seq<seq<Entry>>, added: seq<Entry>) returns (k: nat)
    requires |listings| <= |plan| && forall i :: 0 <= i < |plan| ==> plan[i] in accounts
    requires FirstRefusal(accounts, plan, listings, added).Some?
    ensures k < |listings|
    ensures CheckAccount(accounts[plan[k]], listings[k], added) == FirstRefusal(accounts, plan, listings, added)
  {
    var n := |listings| - 1;
    if FirstRefusal(accounts, plan, listings[..n], added).Some? {
      k := RefusedSomewhere(accounts, plan, listings[..n], added);
    } else {
      k := n;
    }
  }

  /** An account is refused for an overdraft only if the new lines would leave it below zero. */
  lemma OverdraftIsReal(ledger: Ledger, id: string, listing: seq<Entry>, added: seq<Entry>)
    requires id in ledger.accounts && ledger.accounts[id].id == id && IsListing(ledger, id, listing)
    ensures CheckAccount(ledger.accounts[id], listing, added) == Some(Domain(InsufficientFunds)) ==>
              Net(ledger.accounts[id], ledger.lines + added) < 0
    ensures var refusal := CheckAccount(ledger.accounts[id], listing, added);
            refusal.Some? ==> refusal.value in {Domain(InsufficientFunds), Domain(InvalidMoney)}
  {
    var account := ledger.accounts[id];
    NetOfPermutation(account, listing, OfAccount(id, ledger.lines));
    NetOfOwnLines(account, ledger.lines);
    NetConcat(account, ledger.lines, added);
  }

  ghost predicate Overdraws(ledger: Ledger, tx: Transaction, id: string) {
    id in ledger.accounts && id in AccountsOf(tx.entries) && BalanceOf(WithJournal(ledger, tx), id) < 0
  }

  /** Each verdict, over sound books, in terms of the journal: sides, accounts, ids, and balances once it is in. */
  lemma VerdictMeans(ledger: Ledger, tx: Transaction, listings: seq<seq<Entry>>)
    requires SoundBooks(ledger) && Readable(ledger, tx, listings)
    ensures var verdict := VerdictOn(ledger, tx, listings);
            var even := Total(tx.entries, Debit) == Total(tx.entries, Credit) <= MAX_INT64;
            && (verdict == Refused(Domain(UnbalancedTransaction)) <==> !even)
            && (verdict == Refused(Domain(Validation)) <==> even && !KnownAccounts(ledger, tx))
            && (verdict == Refused(Domain(InsufficientFunds)) ==> exists id :: Overdraws(ledger, tx, id))
            && (verdict == Refused(Domain(Conflict)) ==> Conflicts(ledger, tx))
            && (verdict == Posted ==> !Conflicts(ledger, tx) && forall id :: !Overdraws(ledger, tx, id))
            && (verdict.Refused? ==>
                  verdict.error in {Domain(UnbalancedTransaction), Domain(Validation), Domain(InsufficientFunds),
                                    Domain(InvalidMoney), Domain(Conflict)})
  {
    hide SoundBooks, IsListing, CheckAccount, FirstRefusal, LockOrder, Conflicts, BalanceOf;
    var plan := LockOrder(tx);
    PlanIsKnown(ledger, tx);
    if VerdictOn(ledger, tx, listings) == Posted {
      PostedKeepsCredit(ledger, tx, listings);
    } else if Balanced(tx.entries) && KnownAccounts(ledger, tx)
        && FirstRefusal(ledger.accounts, plan, listings, tx.entries).Some? {
      var k := RefusedSomewhere(ledger.accounts, plan, listings, tx.entries);
      RefusalIsReal(ledger, tx, plan[k], listings[k]);
    }
  }

  lemma PostedKeepsCredit(ledger: Ledger, tx: Transaction, listings: seq<seq<Entry>>)
    requires SoundBooks(ledger) && Accepts(ledger, tx, listings)
    ensures forall id :: !Overdraws(ledger, tx, id)
  {
    hide SoundBooks, Accepts, BalanceOf;
    forall id
      ensures !Overdraws(ledger, tx, id)
    {
      if id in ledger.accounts {
        AcceptedKeepsCredit(ledger, tx, listings, id);
      }
    }
  }

  lemma RefusalIsReal(ledger: Ledger, tx: Transaction, id: string, listing: seq<Entry>)
    requires SoundBooks(ledger) && id in ledger.accounts && id in LockOrder(tx) && IsListing(ledger, id, listing)
    ensures var refusal := CheckAccount(ledger.accounts[id], listing, tx.entries);
            && (refusal == Some(Domain(InsufficientFunds)) ==> Overdraws(ledger, tx, id))
            && (refusal.Some? ==> refusal.value in {Domain(InsufficientFunds), Domain(InvalidMoney)})
  {
    hide CheckAccount, IsListing, LockOrder;
    OverdraftIsReal(ledger, id, listing, tx.entries);
    LockOrderCovers(tx);
    var e :| e in tx.entries && e.accountId == id;
    var i :| 0 <= i < |tx.entries| && tx.entries[i] == e;
    assert AccountsOf(tx.entries)[i] == id;
  }
}
