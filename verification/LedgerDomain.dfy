/** Accounts, entries, balanced transactions and balances derived from entries. */
module LedgerDomain {
  import opened Errors
  import opened MoneyDomain

  datatype AccountType = Asset | Liability | Equity | Revenue | Expense

  datatype Account = Account(id: string, typ: AccountType, name: string) {
    predicate IsDebitNormal() {
      typ.Asset? || typ.Expense?
    }
  }

  function NewAccount(id: string, typ: AccountType, name: string): Result<Account> {
    if id == "" then Err(Domain(InvalidAccount))
    else if name == "" then Err(Domain(InvalidAccount))
    else Ok(Account(id, typ, name))
  }

  datatype Side = Debit | Credit

  datatype Line = Line(id: string, accountId: string, side: Side, amount: Money)

  /** One immutable journal line: its amount is always a positive number of halalas. */
  type Entry = e: Line | e.id != "" && e.accountId != "" && e.amount.halalas > 0
    witness Line("e", "a", Debit, Amount(1, CURRENCY_SAR))

  function NewEntry(id: string, accountId: string, side: Side, amount: Money): Result<Entry> {
    if id == "" then Err(Domain(InvalidLedgerEntry))
    else if accountId == "" then Err(Domain(InvalidLedgerEntry))
    else if amount.halalas <= 0 then Err(Domain(InvalidLedgerEntry))
    else Ok(Line(id, accountId, side, amount))
  }

  datatype Transaction = Transaction(id: string, description: string, entries: seq<Entry>)

  // ---- Double entry ----

  /** The unbounded sum of one side of the lines. */
  function Total(entries: seq<Entry>, side: Side): nat {
    if entries == [] then 0
    else Total(entries[..|entries| - 1], side)
         + if entries[|entries| - 1].side == side then entries[|entries| - 1].amount.halalas else 0
  }

  /** Debits equal credits, and the common total is a representable amount. */
  predicate Balanced(entries: seq<Entry>) {
    Total(entries, Debit) == Total(entries, Credit) <= MAX_INT64
  }

  lemma {:induction false} TotalOfPrefix(entries: seq<Entry>, n: nat, side: Side)
    requires n <= |entries|
    ensures Total(entries[..n], side) <= Total(entries, side)
    decreases |entries| - n
  {
    if n == |entries| {
      assert entries[..n] == entries;
    } else {
      TotalOfPrefix(entries, n + 1, side);
      assert entries[..n + 1][..n] == entries[..n];
    }
  }

  method SumBySide(entries: seq<Entry>, side: Side) returns (r: Result<Money>)
    ensures r.Ok? <==> Total(entries, side) <= MAX_INT64
    ensures r.Ok? ==> r.value == Amount(Total(entries, side), CURRENCY_SAR)
    ensures r.Err? ==> r.error == Domain(InvalidMoney)
  {
    var total := ZeroSAR();
    for i := 0 to |entries|
      invariant Total(entries[..i], side) <= MAX_INT64
      invariant total == Amount(Total(entries[..i], side), CURRENCY_SAR)
    {
      var e := entries[i];
      assert entries[..i + 1][..i] == entries[..i];
      if e.side == side {
        TotalOfPrefix(entries, i + 1, side);
        var sum := Add(total, e.amount);
        if sum.Err? {
          return sum;
        }
        total := sum.value;
      }
    }
    assert entries[..|entries|] == entries;
    return Ok(total);
  }

  /** Accepts exactly the balanced lists; every rejection carries the same code. */
  method ValidateBalanced(entries: seq<Entry>) returns (r: Result<Unit>)
    ensures r == if Balanced(entries) then Ok(Unit) else Err(Domain(UnbalancedTransaction))
  {
    var debits := SumBySide(entries, Debit);
    if debits.Err? {
      return Err(Domain(UnbalancedTransaction));
    }
    var credits := SumBySide(entries, Credit);
    if credits.Err? {
      return Err(Domain(UnbalancedTransaction));
    }
    var cmp := Cmp(debits.value, credits.value);
    if cmp.Err? {
      return Err(Domain(UnbalancedTransaction));
    }
    if cmp.value != 0 {
      return Err(Domain(UnbalancedTransaction));
    }
    return Ok(Unit);
  }

  function MadeTransaction(id: string, description: string, entries: seq<Entry>): Result<Transaction> {
    if id == "" || |entries| < 2 then Err(Domain(InvalidLedgerEntry))
    else if !Balanced(entries) then Err(Domain(UnbalancedTransaction))
    else Ok(Transaction(id, description, entries))
  }

  method NewTransaction(id: string, description: string, entries: seq<Entry>) returns (r: Result<Transaction>)
    ensures r == MadeTransaction(id, description, entries)
  {
    if id == "" {
      return Err(Domain(InvalidLedgerEntry));
    }
    if |entries| < 2 {
      return Err(Domain(InvalidLedgerEntry));
    }
    var valid := ValidateBalanced(entries);
    if valid.Err? {
      return Err(valid.error);
    }
    return Ok(Transaction(id, description, entries));
  }

  // ---- Balances ----

  /** What one line does to an account's balance, in the account's normal direction. */
  function Delta(account: Account, e: Entry): int {
    if e.accountId != account.id then 0
    else if account.IsDebitNormal() == e.side.Debit? then e.amount.halalas
    else -(e.amount.halalas as int)
  }

  /** The unbounded balance of an account over a list of lines. */
  function Net(account: Account, entries: seq<Entry>): int {
    if entries == [] then 0
    else Net(account, entries[..|entries| - 1]) + Delta(account, entries[|entries| - 1])
  }

  /** No running balance leaves int64. */
  predicate RunsWithinBounds(account: Account, starting: int, entries: seq<Entry>) {
    if entries == [] then Fits(starting)
    else RunsWithinBounds(account, starting, entries[..|entries| - 1]) && Fits(starting + Net(account, entries))
  }

  /** The projected balance, or the overflow error of the first step that leaves int64. */
  function Projected(account: Account, starting: int, entries: seq<Entry>): Result<int> {
    if RunsWithinBounds(account, starting, entries) then Ok(starting + Net(account, entries))
    else Err(Domain(InvalidMoney))
  }

  /** A loop's money result agrees with a projected balance. */
  predicate Agrees(r: Result<Money>, projected: Result<int>) {
    match projected
    case Ok(balance) => Fits(balance) && r == Ok(Amount(balance, CURRENCY_SAR))
    case Err(e) => r == Err(e)
  }

  /** One line applied to a running balance, with its overflow check. */
  function ApplyLine(account: Account, balance: Money, entry: Entry): (r: Result<Money>)
    requires balance.currency == CURRENCY_SAR && entry.accountId == account.id
    ensures r == if Fits(balance.halalas + Delta(account, entry))
                 then Ok(Amount(balance.halalas + Delta(account, entry), CURRENCY_SAR))
                 else Err(Domain(InvalidMoney))
  {
    if account.IsDebitNormal() && entry.side == Debit then Add(balance, entry.amount)
    else if account.IsDebitNormal() && entry.side == Credit then Sub(balance, entry.amount)
    else if !account.IsDebitNormal() && entry.side == Credit then Add(balance, entry.amount)
    else Sub(balance, entry.amount)
  }

  /** What the next line does to a projection. */
  lemma RunsOneMore(account: Account, starting: int, entries: seq<Entry>, i: nat)
    requires i < |entries|
    ensures Net(account, entries[..i + 1]) == Net(account, entries[..i]) + Delta(account, entries[i])
    ensures RunsWithinBounds(account, starting, entries[..i + 1])
            <==> RunsWithinBounds(account, starting, entries[..i]) && Fits(starting + Net(account, entries[..i + 1]))
  {
    assert entries[..i + 1][..i] == entries[..i];
  }

  method ApplyEntries(account: Account, starting: Money, entries: seq<Entry>) returns (r: Result<Money>)
    requires starting.currency == CURRENCY_SAR
    ensures Agrees(r, Projected(account, starting.halalas, entries))
  {
    var balance := starting;
    for i := 0 to |entries|
      invariant RunsWithinBounds(account, starting.halalas, entries[..i])
      invariant balance == Amount(starting.halalas + Net(account, entries[..i]), CURRENCY_SAR)
    {
      var entry := entries[i];
      RunsOneMore(account, starting.halalas, entries, i);
      if entry.accountId == account.id {
        var next := ApplyLine(account, balance, entry);
        if next.Err? {
          RunsPrefix(account, starting.halalas, entries, i + 1);
          return next;
        }
        balance := next.value;
      }
    }
    assert entries[..|entries|] == entries;
    return Ok(balance);
  }

  method BalanceFromEntries(account: Account, entries: seq<Entry>) returns (r: Result<Money>)
    ensures Agrees(r, Projected(account, 0, entries))
  {
    var balance := ZeroSAR();
    for i := 0 to |entries|
      invariant RunsWithinBounds(account, 0, entries[..i])
      invariant balance == Amount(Net(account, entries[..i]), CURRENCY_SAR)
    {
      var entry := entries[i];
      RunsOneMore(account, 0, entries, i);
      if entry.accountId == account.id {
        var next := ApplyLine(account, balance, entry);
        if next.Err? {
          RunsPrefix(account, 0, entries, i + 1);
          return next;
        }
        balance := next.value;
      }
    }
    assert entries[..|entries|] == entries;
    return Ok(balance);
  }

  method EntriesForAccount(accountId: string, entries: seq<Entry>) returns (out: seq<Entry>)
    ensures out == OfAccount(accountId, entries)
  {
    out := [];
    for i := 0 to |entries|
      invariant out == OfAccount(accountId, entries[..i])
    {
      assert entries[..i + 1][..i] == entries[..i];
      if entries[i].accountId == accountId {
        out := out + [entries[i]];
      }
    }
    assert entries[..|entries|] == entries;
  }

  function OfAccount(accountId: string, entries: seq<Entry>): seq<Entry> {
    if entries == [] then []
    else
      var before := OfAccount(accountId, entries[..|entries| - 1]);
      if entries[|entries| - 1].accountId == accountId then before + [entries[|entries| - 1]] else before
  }

  // ---- Lines added one after another, or in another order ----

  lemma {:induction false} NetConcat(account: Account, x: seq<Entry>, y: seq<Entry>)
    ensures Net(account, x + y) == Net(account, x) + Net(account, y)
  {
    if y == [] {
      assert x + y == x;
    } else {
      var z := y[..|y| - 1];
      assert (x + y)[..|x + y| - 1] == x + z;
      NetConcat(account, x, z);
    }
  }

  lemma {:induction false} RunsConcat(account: Account, starting: int, before: seq<Entry>, added: seq<Entry>)
    ensures RunsWithinBounds(account, starting, before + added)
            <==> RunsWithinBounds(account, starting, before)
                 && RunsWithinBounds(account, starting + Net(account, before), added)
  {
    if added == [] {
      assert before + added == before;
      if RunsWithinBounds(account, starting, before) {
        RunsEnds(account, starting, before);
      }
    } else {
      var less := added[..|added| - 1];
      assert (before + added)[..|before + added| - 1] == before + less;
      RunsConcat(account, starting, before, less);
      NetConcat(account, before, added);
    }
  }

  lemma {:induction false} RunsEnds(account: Account, starting: int, entries: seq<Entry>)
    requires RunsWithinBounds(account, starting, entries)
    ensures Fits(starting) && Fits(starting + Net(account, entries))
  {
    if entries != [] {
      RunsEnds(account, starting, entries[..|entries| - 1]);
    }
  }

  lemma RunsPrefix(account: Account, starting: int, entries: seq<Entry>, n: nat)
    requires n <= |entries|
    ensures RunsWithinBounds(account, starting, entries) ==> RunsWithinBounds(account, starting, entries[..n])
  {
    assert entries == entries[..n] + entries[n..];
    RunsConcat(account, starting, entries[..n], entries[n..]);
  }

  /** Projecting new lines onto the balance of the old ones is taking the balance of them all. */
  lemma IncrementalEqualsFull(account: Account, before: seq<Entry>, added: seq<Entry>)
    ensures Projected(account, 0, before + added) ==
            match Projected(account, 0, before)
            case Ok(balance) => Projected(account, balance, added)
            case Err(e) => Err(e)
  {
    NetConcat(account, before, added);
    RunsConcat(account, 0, before, added);
  }

  predicate SameLines(x: seq<Entry>, y: seq<Entry>) {
    multiset(x) == multiset(y)
  }

  /** Takes the last line of x out of both orders. */
  lemma Peel(x: seq<Entry>, y: seq<Entry>) returns (i: nat)
    requires SameLines(x, y) && x != []
    ensures i < |y| && y[i] == x[|x| - 1]
    ensures SameLines(x[..|x| - 1], y[..i] + y[i + 1..])
  {
    var last := x[|x| - 1];
    assert x == x[..|x| - 1] + [last];
    assert last in multiset(x);
    assert last in multiset(y);
    i :| i < |y| && y[i] == last;
    Pluck(y, i);
    assert multiset(x) == multiset(x[..|x| - 1]) + multiset{last};
    assert multiset(x[..|x| - 1]) == multiset(x) - multiset{last};
    assert multiset(y[..i] + y[i + 1..]) == multiset(y) - multiset{last};
  }

  lemma Pluck(y: seq<Entry>, i: nat)
    requires i < |y|
    ensures multiset(y) == multiset(y[..i] + y[i + 1..]) + multiset{y[i]}
  {
    assert y == y[..i] + [y[i]] + y[i + 1..];
    assert multiset(y) == multiset(y[..i]) + multiset{y[i]} + multiset(y[i + 1..]);
  }

  /** The net of a list does not depend on the order of its lines. */
  lemma {:induction false} NetOfPermutation(account: Account, x: seq<Entry>, y: seq<Entry>)
    requires SameLines(x, y)
    ensures Net(account, x) == Net(account, y)
    decreases |x|
  {
    if x == [] {
      assert |y| == |multiset(y)| == |multiset(x)| == 0;
    } else {
      var last := x[|x| - 1];
      var i := Peel(x, y);
      var x', y' := x[..|x| - 1], y[..i] + y[i + 1..];
      NetOfPermutation(account, x', y');
      assert y == y[..i] + [last] + y[i + 1..];
      NetConcat(account, y[..i] + [last], y[i + 1..]);
      NetConcat(account, y[..i], [last]);
      NetConcat(account, y[..i], y[i + 1..]);
      assert [last][..0] == [];
    }
  }

  /** Two listings of the same lines that both succeed give the same balance. */
  lemma OrderDoesNotMatter(account: Account, x: seq<Entry>, y: seq<Entry>)
    requires SameLines(x, y)
    requires Projected(account, 0, x).Ok? && Projected(account, 0, y).Ok?
    ensures Projected(account, 0, x) == Projected(account, 0, y)
  {
    NetOfPermutation(account, x, y);
  }

  /** The account's gross increases (up) or decreases (not up). */
  function Gross(account: Account, entries: seq<Entry>, up: bool): nat {
    if entries == [] then 0
    else
      var d := Delta(account, entries[|entries| - 1]);
      Gross(account, entries[..|entries| - 1], up) + if up && d > 0 then d else if !up && d < 0 then -d else 0
  }

  lemma {:induction false} NetIsGrossDifference(account: Account, entries: seq<Entry>)
    ensures Net(account, entries) == Gross(account, entries, true) - Gross(account, entries, false)
  {
    if entries != [] {
      NetIsGrossDifference(account, entries[..|entries| - 1]);
    }
  }

  lemma {:induction false} GrossConcat(account: Account, x: seq<Entry>, y: seq<Entry>, up: bool)
    ensures Gross(account, x + y, up) == Gross(account, x, up) + Gross(account, y, up)
  {
    if y == [] {
      assert x + y == x;
    } else {
      var z := y[..|y| - 1];
      assert (x + y)[..|x + y| - 1] == x + z;
      GrossConcat(account, x, z, up);
    }
  }

  lemma {:induction false} GrossOfPermutation(account: Account, x: seq<Entry>, y: seq<Entry>, up: bool)
    requires SameLines(x, y)
    ensures Gross(account, x, up) == Gross(account, y, up)
    decreases |x|
  {
    if x == [] {
      assert |y| == |multiset(y)| == |multiset(x)| == 0;
    } else {
      var last := x[|x| - 1];
      var i := Peel(x, y);
      var x', y' := x[..|x| - 1], y[..i] + y[i + 1..];
      GrossOfPermutation(account, x', y', up);
      assert y == y[..i] + [last] + y[i + 1..];
      GrossConcat(account, y[..i] + [last], y[i + 1..], up);
      GrossConcat(account, y[..i], [last], up);
      GrossConcat(account, y[..i], y[i + 1..], up);
      assert [last][..0] == [];
    }
  }

  predicate GrossFits(account: Account, entries: seq<Entry>) {
    Gross(account, entries, true) <= MAX_INT64 && -(Gross(account, entries, false) as int) >= MIN_INT64
  }

  lemma {:induction false} GrossFitsRuns(account: Account, entries: seq<Entry>)
    requires GrossFits(account, entries)
    ensures RunsWithinBounds(account, 0, entries)
  {
    NetIsGrossDifference(account, entries);
    if entries != [] {
      GrossFitsRuns(account, entries[..|entries| - 1]);
    }
  }

  /** The increases (or decreases), and everything else. */
  function OneWay(account: Account, entries: seq<Entry>, up: bool, taken: bool): seq<Entry> {
    if entries == [] then []
    else
      var last := entries[|entries| - 1];
      var d := Delta(account, last);
      var before := OneWay(account, entries[..|entries| - 1], up, taken);
      if ((up && d > 0) || (!up && d < 0)) == taken then before + [last] else before
  }

  lemma {:induction false} OneWaySplits(account: Account, entries: seq<Entry>, up: bool)
    ensures SameLines(OneWay(account, entries, up, true) + OneWay(account, entries, up, false), entries)
  {
    if entries != [] {
      var before, last := entries[..|entries| - 1], entries[|entries| - 1];
      OneWaySplits(account, before, up);
      assert entries == before + [last];
      var first, rest := OneWay(account, before, up, true), OneWay(account, before, up, false);
      assert multiset(first + rest) == multiset(first) + multiset(rest);
    }
  }

  lemma {:induction false} OneWayNet(account: Account, entries: seq<Entry>, up: bool)
    ensures Net(account, OneWay(account, entries, up, true))
            == if up then Gross(account, entries, up) else -(Gross(account, entries, up) as int)
  {
    if entries != [] {
      var before := entries[..|entries| - 1];
      OneWayNet(account, before, up);
      var first := OneWay(account, entries, up, true);
      assert first == OneWay(account, before, up, true)
             || first[..|first| - 1] == OneWay(account, before, up, true);
    }
  }

  /** The gross totals decide whether the balance can be computed in every order. */
  lemma EveryOrderSucceedsIff(account: Account, entries: seq<Entry>)
    ensures (forall listing :: SameLines(listing, entries) ==> Projected(account, 0, listing).Ok?)
            <==> GrossFits(account, entries)
  {
    if GrossFits(account, entries) {
      forall listing | SameLines(listing, entries)
        ensures Projected(account, 0, listing).Ok?
      {
        GrossOfPermutation(account, listing, entries, true);
        GrossOfPermutation(account, listing, entries, false);
        GrossFitsRuns(account, listing);
      }
    } else {
      var up := Gross(account, entries, true) > MAX_INT64;
      var first := OneWay(account, entries, up, true);
      var listing := first + OneWay(account, entries, up, false);
      OneWaySplits(account, entries, up);
      OneWayNet(account, entries, up);
      RunsConcat(account, 0, first, OneWay(account, entries, up, false));
      if RunsWithinBounds(account, 0, listing) {
        RunsEnds(account, 0, first);
      }
    }
  }

  /** Lines of other accounts change nothing. */
  lemma {:induction false} NetElsewhere(account: Account, entries: seq<Entry>)
    requires forall e :: e in entries ==> e.accountId != account.id
    ensures Net(account, entries) == 0 && OfAccount(account.id, entries) == []
  {
    if entries != [] {
      NetElsewhere(account, entries[..|entries| - 1]);
    }
  }

  lemma {:induction false} OfAccountConcat(accountId: string, x: seq<Entry>, y: seq<Entry>)
    ensures OfAccount(accountId, x + y) == OfAccount(accountId, x) + OfAccount(accountId, y)
  {
    if y == [] {
      assert x + y == x;
    } else {
      var z := y[..|y| - 1];
      assert (x + y)[..|x + y| - 1] == x + z;
      OfAccountConcat(accountId, x, z);
    }
  }

  /** An account's own lines carry its whole net and gross. */
  lemma {:induction false} NetOfOwnLines(account: Account, entries: seq<Entry>)
    ensures Net(account, OfAccount(account.id, entries)) == Net(account, entries)
  {
    if entries != [] {
      var before := entries[..|entries| - 1];
      NetOfOwnLines(account, before);
      var own := OfAccount(account.id, entries);
      assert own == OfAccount(account.id, before) || own[..|own| - 1] == OfAccount(account.id, before);
    }
  }

  lemma {:induction false} GrossOfOwnLines(account: Account, entries: seq<Entry>, up: bool)
    ensures Gross(account, OfAccount(account.id, entries), up) == Gross(account, entries, up)
  {
    if entries != [] {
      var before := entries[..|entries| - 1];
      GrossOfOwnLines(account, before, up);
      var own := OfAccount(account.id, entries);
      assert own == OfAccount(account.id, before) || own[..|own| - 1] == OfAccount(account.id, before);
    }
  }

  lemma {:induction false} TotalConcat(x: seq<Entry>, y: seq<Entry>, side: Side)
    ensures Total(x + y, side) == Total(x, side) + Total(y, side)
  {
    if y == [] {
      assert x + y == x;
    } else {
      var z := y[..|y| - 1];
      assert (x + y)[..|x + y| - 1] == x + z;
      TotalConcat(x, z, side);
    }
  }

  /** The decreases of an account within a list of lines. */
  method NetDebitExposure(account: Account, entries: seq<Entry>) returns (r: Result<Money>)
    ensures r.Ok? <==> Gross(account, entries, false) <= MAX_INT64
    ensures r.Ok? ==> r.value == Amount(Gross(account, entries, false), CURRENCY_SAR)
  {
    var total := ZeroSAR();
    for i := 0 to |entries|
      invariant Gross(account, entries[..i], false) <= MAX_INT64
      invariant total == Amount(Gross(account, entries[..i], false), CURRENCY_SAR)
    {
      var entry := entries[i];
      assert entries[..i + 1][..i] == entries[..i];
      var reducesBalance :=
        (account.IsDebitNormal() && entry.side == Credit) || (!account.IsDebitNormal() && entry.side == Debit);
      if entry.accountId == account.id && reducesBalance {
        assert entries == entries[..i + 1] + entries[i + 1..];
        GrossConcat(account, entries[..i + 1], entries[i + 1..], false);
        var sum := Add(total, entry.amount);
        if sum.Err? {
          return sum;
        }
        total := sum.value;
      }
    }
    assert entries[..|entries|] == entries;
    return Ok(total);
  }
}
