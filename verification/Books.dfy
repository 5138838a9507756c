/** The accounting equation: a swap of sums per account and sums per line. */
module Books {
  import opened LedgerDomain
  import opened PostingMachine

  /** An account's balance if it is an asset or expense, or is not, as asked; otherwise nothing. */
  function Share(account: Account, lines: seq<Entry>, debitNormal: bool): int {
    if (account.typ in {Asset, Expense}) == debitNormal then Net(account, lines) else 0
  }

  /** The balances of the assets and expenses, or of the liabilities, equity and revenue, among ids. */
  ghost function SumOfBalances(accounts: map<string, Account>, ids: set<string>, lines: seq<Entry>,
      debitNormal: bool): int
    requires ids <= accounts.Keys
  {
    if ids == {} then 0
    else
      var id :| id in ids;
      Share(accounts[id], lines, debitNormal) + SumOfBalances(accounts, ids - {id}, lines, debitNormal)
  }

  lemma {:induction false} SumSplits(accounts: map<string, Account>, ids: set<string>, lines: seq<Entry>,
      debitNormal: bool, id: string)
    requires ids <= accounts.Keys && id in ids
    ensures SumOfBalances(accounts, ids, lines, debitNormal)
            == Share(accounts[id], lines, debitNormal) + SumOfBalances(accounts, ids - {id}, lines, debitNormal)
    decreases ids
  {
    var picked :| picked in ids &&
      SumOfBalances(accounts, ids, lines, debitNormal)
      == Share(accounts[picked], lines, debitNormal) + SumOfBalances(accounts, ids - {picked}, lines, debitNormal);
    if picked != id {
      SumSplits(accounts, ids - {picked}, lines, debitNormal, id);
      SumSplits(accounts, ids - {id}, lines, debitNormal, picked);
      assert ids - {picked} - {id} == ids - {id} - {picked};
    }
  }

  /** A line moves no sum over accounts it does not touch. */
  lemma {:induction false} SumElsewhere(accounts: map<string, Account>, ids: set<string>, lines: seq<Entry>,
      e: Entry, debitNormal: bool)
    requires ids <= accounts.Keys && e.accountId !in ids
    requires forall id :: id in ids ==> accounts[id].id == id
    ensures SumOfBalances(accounts, ids, lines + [e], debitNormal) == SumOfBalances(accounts, ids, lines, debitNormal)
    decreases ids
  {
    if ids != {} {
      var id :| id in ids;
      SumSplits(accounts, ids, lines + [e], debitNormal, id);
      SumSplits(accounts, ids, lines, debitNormal, id);
      SumElsewhere(accounts, ids - {id}, lines, e, debitNormal);
      assert (lines + [e])[..|lines|] == lines;
    }
  }

  lemma {:induction false} SumOfNothing(accounts: map<string, Account>, ids: set<string>, debitNormal: bool)
    requires ids <= accounts.Keys
    ensures SumOfBalances(accounts, ids, [], debitNormal) == 0
    decreases ids
  {
    if ids != {} {
      var id :| id in ids;
      SumSplits(accounts, ids, [], debitNormal, id);
      SumOfNothing(accounts, ids - {id}, debitNormal);
    }
  }

  /** Assets and expenses less liabilities, equity and revenue are all debits less all credits. */
  lemma {:induction false} SidesAndBalances(accounts: map<string, Account>, lines: seq<Entry>)
    requires forall id :: id in accounts ==> accounts[id].id == id
    requires forall e :: e in lines ==> e.accountId in accounts
    ensures SumOfBalances(accounts, accounts.Keys, lines, true) - SumOfBalances(accounts, accounts.Keys, lines, false)
            == Total(lines, Debit) - Total(lines, Credit)
  {
    if lines == [] {
      SumOfNothing(accounts, accounts.Keys, true);
      SumOfNothing(accounts, accounts.Keys, false);
    } else {
      var before, e := lines[..|lines| - 1], lines[|lines| - 1];
      assert lines == before + [e];
      SidesAndBalances(accounts, before);
      forall debitNormal: bool
        ensures SumOfBalances(accounts, accounts.Keys, lines, debitNormal) - SumOfBalances(accounts, accounts.Keys,
            before, debitNormal)
                == Share(accounts[e.accountId], lines, debitNormal) - Share(accounts[e.accountId], before, debitNormal)
      {
        SumSplits(accounts, accounts.Keys, lines, debitNormal, e.accountId);
        SumSplits(accounts, accounts.Keys, before, debitNormal, e.accountId);
        SumElsewhere(accounts, accounts.Keys - {e.accountId}, before, e, debitNormal);
      }
      assert SumOfBalances(accounts, accounts.Keys, lines, true) - SumOfBalances(accounts, accounts.Keys, before, true)
             == Share(accounts[e.accountId], lines, true) - Share(accounts[e.accountId], before, true);
    }
  }

  /** In every reachable state, assets and expenses together equal liabilities, equity and revenue. */
  lemma AccountingEquation(trace: seq<State>)
    requires Trace(trace)
    ensures var ledger := trace[|trace| - 1].ledger;
            SumOfBalances(ledger.accounts, ledger.accounts.Keys, ledger.lines, true)
            == SumOfBalances(ledger.accounts, ledger.accounts.Keys, ledger.lines, false)
  {
    TraceKeepsInv(trace);
    SidesAndBalances(trace[|trace| - 1].ledger.accounts, trace[|trace| - 1].ledger.lines);
  }
}
