/** Equal transfers competing for one account: how many can succeed is decided by the balance alone. */
module Contention {
  import opened Errors
  import opened MoneyDomain
  import opened LedgerDomain
  import opened LedgerStore
  import opened PostingMachine

  /** A transfer of amount out of source into one other credit-normal account. */
  ghost predicate Competes(ledger: Ledger, tx: Transaction, source: string, amount: nat) {
    && |tx.entries| == 2
    && tx.entries[0].accountId == source && tx.entries[0].side == Debit && tx.entries[0].amount.halalas == amount
    && tx.entries[1].accountId != source && tx.entries[1].side == Credit && tx.entries[1].amount.halalas == amount
    && tx.entries[0].id != tx.entries[1].id
    && source in ledger.accounts && !ledger.accounts[source].IsDebitNormal()
    && tx.entries[1].accountId in ledger.accounts && !ledger.accounts[tx.entries[1].accountId].IsDebitNormal()
  }

  /** What all these posts together may add to an account's gross increases, or decreases. */
  ghost function Potential(account: Account, posts: map<PostId, Post>, up: bool): nat
    decreases |posts|
  {
    if posts == map[] then 0
    else
      var p :| p in posts;
      Gross(account, posts[p].tx.entries, up) + Potential(account, posts - {p}, up)
  }

  lemma {:induction false} PotentialSplits(account: Account, posts: map<PostId, Post>, up: bool, p: PostId)
    requires p in posts
    ensures Potential(account, posts, up)
        == Gross(account, posts[p].tx.entries, up) + Potential(account, posts - {p}, up)
    decreases |posts|
  {
    var q :| q in posts &&
      Potential(account, posts, up) == Gross(account, posts[q].tx.entries, up) + Potential(account, posts - {q}, up);
    if q != p {
      PotentialSplits(account, posts - {q}, up, p);
      PotentialSplits(account, posts - {p}, up, q);
      assert posts - {q} - {p} == posts - {p} - {q};
    }
  }

  /** Each competitor's journal id and line ids are its own, and new. */
  ghost predicate Distinct(s: State, group: set<PostId>) {
    && (forall p, q :: p in group && p in s.posts && q in s.posts && p != q ==>
          s.posts[p].tx.id != s.posts[q].tx.id && LineIds(s.posts[p].tx.entries) !! LineIds(s.posts[q].tx.entries))
    && (forall p :: p in group && p in s.posts ==>
          s.posts[p].tx.id !in s.ledger.headers && LineIds(s.posts[p].tx.entries) !! LineIds(s.ledger.lines))
  }

  /** An account that some competitor debits or credits. */
  ghost predicate Contested(s: State, group: set<PostId>, id: string) {
    exists p :: p in group && p in s.posts && exists e :: e in s.posts[p].tx.entries && e.accountId == id
  }

  /** Even with every post of all posted, no contested account's gross totals leave int64. */
  ghost predicate Roomy(s: State, group: set<PostId>) {
    forall id, up :: Contested(s, group, id) && id in s.ledger.accounts ==>
      Gross(s.ledger.accounts[id], s.ledger.lines, up) + Potential(s.ledger.accounts[id], s.posts, up) <= MAX_INT64
  }

  /** No other post has a line on the contested source; on other accounts they may do as they please. */
  ghost predicate OthersKeepOff(s: State, source: string, group: set<PostId>) {
    forall p, e :: p in s.posts && p !in group && e in s.posts[p].tx.entries ==> e.accountId != source
  }

  /** A group of posts competes for the source, among any other posts. */
  ghost predicate Contest(s: State, source: string, amount: nat, group: set<PostId>) {
    && Init(s) && amount > 0 && group <= s.posts.Keys
    && source in s.ledger.accounts
    && (forall p :: p in group ==> Competes(s.ledger, s.posts[p].tx, source, amount))
    && OthersKeepOff(s, source, group)
    && Distinct(s, group) && Roomy(s, group)
  }

  // ---- The verdict on one competitor ----

  /** Room for these lines in an account's gross totals. */
  predicate HasRoom(account: Account, lines: seq<Entry>, added: seq<Entry>) {
    && Gross(account, lines, true) + Gross(account, added, true) <= MAX_INT64
    && Gross(account, lines, false) + Gross(account, added, false) <= MAX_INT64
  }

  lemma OneLine(account: Account, e: Entry, starting: int)
    ensures Net(account, [e]) == Delta(account, e)
    ensures Gross(account, [e], true) == (if Delta(account, e) > 0 then Delta(account, e) else 0)
    ensures Gross(account, [e], false) == (if Delta(account, e) < 0 then -Delta(account, e) else 0)
    ensures RunsWithinBounds(account, starting, [e]) <==> Fits(starting) && Fits(starting + Delta(account, e))
  {
    assert [e][..0] == [];
  }

  lemma PairNet(account: Account, entries: seq<Entry>, starting: int)
    requires |entries| == 2
    ensures Net(account, entries) == Delta(account, entries[0]) + Delta(account, entries[1])
    ensures RunsWithinBounds(account, starting, entries)
            <==> Fits(starting) && Fits(starting + Delta(account, entries[0])) && Fits(starting + Net(account, entries))
  {
    assert entries[..1] == [entries[0]];
    OneLine(account, entries[0], starting);
  }

  /** What a competitor's two lines do to one of its two accounts. */
  lemma PairMoves(ledger: Ledger, tx: Transaction, source: string, amount: nat, id: string)
    requires Competes(ledger, tx, source, amount) && (id == source || id == tx.entries[1].accountId)
    requires ledger.accounts[id].id == id
    ensures var account := ledger.accounts[id];
            && Gross(account, tx.entries, true) == (if id == source then 0 else amount)
            && Gross(account, tx.entries, false) == (if id == source then amount else 0)
            && Net(account, tx.entries) == (if id == source then -(amount as int) else amount)
            && Delta(account, tx.entries[0]) == (if id == source then -(amount as int) else 0)
  {
    var account, entries := ledger.accounts[id], tx.entries;
    PairNet(account, entries, 0);
    assert entries == [entries[0]] + [entries[1]];
    OneLine(account, entries[0], 0);
    OneLine(account, entries[1], 0);
    GrossConcat(account, [entries[0]], [entries[1]], true);
    GrossConcat(account, [entries[0]], [entries[1]], false);
  }

  /** With room to spare only the sign of the projected balance matters. */
  lemma CompetitorCheck(ledger: Ledger, tx: Transaction, source: string, amount: nat, id: string, listing: seq<Entry>)
    requires Competes(ledger, tx, source, amount) && amount > 0
    requires id == source || id == tx.entries[1].accountId
    requires ledger.accounts[id].id == id && BalanceOf(ledger, id) >= 0
    requires HasRoom(ledger.accounts[id], ledger.lines, tx.entries)
    requires IsListing(ledger, id, listing)
    ensures CheckAccount(ledger.accounts[id], listing, tx.entries)
            == if id == source && BalanceOf(ledger, id) < amount then Some(Domain(InsufficientFunds)) else None
  {
    var account, own := ledger.accounts[id], OfAccount(id, ledger.lines);
    GrossOfPermutation(account, listing, own, true);
    GrossOfPermutation(account, listing, own, false);
    GrossOfOwnLines(account, ledger.lines, true);
    GrossOfOwnLines(account, ledger.lines, false);
    GrossFitsRuns(account, listing);
    NetOfPermutation(account, listing, own);
    NetOfOwnLines(account, ledger.lines);
    NetIsGrossDifference(account, ledger.lines);
    PairNet(account, tx.entries, BalanceOf(ledger, id));
    PairMoves(ledger, tx, source, amount, id);
  }

  lemma {:induction false} OnlyThisRefusal(accounts: map<string, Account>, plan: seq<string>,
      listings: seq<seq<Entry>>, added: seq<Entry>, source: string, e: Option<Error>)
    requires |listings| <= |plan| && forall i :: 0 <= i < |plan| ==> plan[i] in accounts
    requires forall k :: 0 <= k < |listings| ==>
               CheckAccount(accounts[plan[k]], listings[k], added) == if plan[k] == source then e else None
    ensures FirstRefusal(accounts, plan, listings, added) == if source in plan[..|listings|] then e else None
  {
    if listings != [] {
      var n := |listings| - 1;
      assert plan[..n + 1] == plan[..n] + [plan[n]];
      OnlyThisRefusal(accounts, plan, listings[..n], added, source, e);
    }
  }

  lemma PairTotals(entries: seq<Entry>)
    requires |entries| == 2 && entries[0].side == Debit && entries[1].side == Credit
    requires entries[0].amount.halalas == entries[1].amount.halalas
    ensures Balanced(entries)
  {
    var one := entries[..1];
    assert one[..0] == [];
    assert Total(one, Debit) == entries[0].amount.halalas && Total(one, Credit) == 0;
  }

  lemma CompetitorRefusal(ledger: Ledger, tx: Transaction, source: string, amount: nat, listings: seq<seq<Entry>>)
    requires SoundBooks(ledger) && Competes(ledger, tx, source, amount) && amount > 0
    requires HasRoom(ledger.accounts[source], ledger.lines, tx.entries)
    requires HasRoom(ledger.accounts[tx.entries[1].accountId], ledger.lines, tx.entries)
    requires Listings(ledger, LockOrder(tx), listings) && |listings| == |LockOrder(tx)|
    requires PlanKnown(ledger, LockOrder(tx))
    ensures FirstRefusal(ledger.accounts, LockOrder(tx), listings, tx.entries)
            == if BalanceOf(ledger, source) < amount then Some(Domain(InsufficientFunds)) else None
  {
    var plan := LockOrder(tx);
    LockOrderCovers(tx);
    var e := if BalanceOf(ledger, source) < amount then Some(Domain(InsufficientFunds)) else None;
    forall k | 0 <= k < |listings|
      ensures CheckAccount(ledger.accounts[plan[k]], listings[k], tx.entries) == if plan[k] == source then e else None
    {
      PlanOfPair(tx, k);
      CompetitorCheck(ledger, tx, source, amount, plan[k], listings[k]);
    }
    OnlyThisRefusal(ledger.accounts, plan, listings, tx.entries, source, e);
    assert tx.entries[0] in tx.entries && source in plan && plan[..|listings|] == plan;
  }

  lemma PlanOfPair(tx: Transaction, k: nat)
    requires |tx.entries| == 2 && k < |LockOrder(tx)|
    ensures LockOrder(tx)[k] == tx.entries[0].accountId || LockOrder(tx)[k] == tx.entries[1].accountId
  {
    LockOrderCovers(tx);
    assert LockOrder(tx)[k] in LockOrder(tx);
  }

  /** A competitor is posted when the balance covers it and refused for lack of funds otherwise. */
  lemma CompetitorVerdict(ledger: Ledger, tx: Transaction, source: string, amount: nat, verdict: Verdict, after: Ledger)
    requires SoundBooks(ledger) && Competes(ledger, tx, source, amount) && amount > 0
    requires !Conflicts(ledger, tx)
    requires HasRoom(ledger.accounts[source], ledger.lines, tx.entries)
    requires HasRoom(ledger.accounts[tx.entries[1].accountId], ledger.lines, tx.entries)
    requires AtomicPost(ledger, tx, verdict, after)
    ensures verdict == if BalanceOf(ledger, source) >= amount then Posted else Refused(Domain(InsufficientFunds))
    ensures after == if verdict == Posted then WithJournal(ledger, tx) else ledger
  {
    PairTotals(tx.entries);
    assert KnownAccounts(ledger, tx);
    PlanIsKnown(ledger, tx);
    var listings :| && Readable(ledger, tx, listings)
                    && verdict == VerdictOn(ledger, tx, listings)
                    && after == if verdict == Posted then WithJournal(ledger, tx) else ledger;
    CompetitorRefusal(ledger, tx, source, amount, listings);
  }

  // ---- The whole history of a contest ----

  /** The competitors that were posted. */
  function Winners(log: seq<Event>, group: set<PostId>): set<PostId> {
    if log == [] then {}
    else
      var e := log[|log| - 1];
      Winners(log[..|log| - 1], group) + if e.Decided? && e.verdict == Posted && e.who in group then {e.who} else {}
  }

  /** What the winners together took from the source. */
  function Spent(log: seq<Event>, group: set<PostId>, amount: nat): nat {
    if log == [] then 0
    else
      var e := log[|log| - 1];
      Spent(log[..|log| - 1], group, amount) + if e.Decided? && e.verdict == Posted && e.who in group then amount else 0
  }

  /** Everybody decided so far. */
  function Deciders(log: seq<Event>): set<PostId> {
    if log == [] then {}
    else Deciders(log[..|log| - 1]) + if log[|log| - 1].Decided? then {log[|log| - 1].who} else {}
  }

  /** Each post decided at most once, on its own transaction. */
  ghost predicate EachOnce(log: seq<Event>, posts: map<PostId, Post>)
    decreases |log|
  {
    log != [] ==>
      var before, e := log[..|log| - 1], log[|log| - 1];
      && EachOnce(before, posts)
      && (e.Decided? ==> e.who in posts && posts[e.who].tx == e.tx && e.who !in Deciders(before))
  }

  /** The posts still undecided. */
  function Open(log: seq<Event>, posts: map<PostId, Post>): map<PostId, Post> {
    posts - Deciders(log)
  }

  /** What the ledger looks like after part of the history. */
  ghost predicate Standing(first: State, log: seq<Event>, now: Ledger, source: string, amount: nat,
      group: set<PostId>) {
    && SoundBooks(now) && source in first.ledger.accounts
    && (forall id :: id in first.ledger.accounts ==>
        id in now.accounts && now.accounts[id] == first.ledger.accounts[id])
    && (forall p :: p in group && p in Open(log, first.posts) ==> NewIds(first.posts[p].tx, now))
    && (forall id, up :: Contested(first, group, id) && id in first.ledger.accounts ==>
          Gross(first.ledger.accounts[id], now.lines, up)
              + Potential(first.ledger.accounts[id], Open(log, first.posts), up) <= MAX_INT64)
    && BalanceOf(now, source) == BalanceOf(first.ledger, source) - Spent(log, group, amount)
  }

  predicate NewIds(tx: Transaction, ledger: Ledger) {
    tx.id !in ledger.headers && LineIds(tx.entries) !! LineIds(ledger.lines)
  }

  /** Verdicts on competitors so far: winners and the short of funds; once one is short, no more can win. */
  ghost predicate Fair(first: State, log: seq<Event>, source: string, amount: nat, group: set<PostId>)
    requires source in first.ledger.accounts
    decreases |log|
  {
    log != [] ==>
      var before, e := log[..|log| - 1], log[|log| - 1];
      && Fair(first, before, source, amount, group)
      && (e.Decided? && e.who in group ==>
            var left := BalanceOf(first.ledger, source) - Spent(before, group, amount);
            if e.verdict == Posted then left >= amount
            else e.verdict == Refused(Domain(InsufficientFunds)) && left < amount)
  }

  lemma {:induction false} WinnersDecided(log: seq<Event>, group: set<PostId>)
    ensures Winners(log, group) <= Deciders(log) * group
  {
    if log != [] {
      WinnersDecided(log[..|log| - 1], group);
    }
  }

  lemma MoreWinnersMoreAmount(k: nat, n: nat, amount: nat)
    requires k <= n
    ensures k * amount <= n * amount
    ensures (k + 1) * amount == k * amount + amount
  {
  }

  lemma SubsetCount(a: set<PostId>, b: set<PostId>)
    requires a <= b
    ensures |a| <= |b|
    ensures |b - a| == |b| - |a|
  {
    assert b == a + (b - a);
  }

  lemma {:induction false} SpentIsCount(log: seq<Event>, posts: map<PostId, Post>, group: set<PostId>, amount: nat)
    requires EachOnce(log, posts)
    ensures Spent(log, group, amount) == |Winners(log, group)| * amount
  {
    if log != [] {
      var before, e := log[..|log| - 1], log[|log| - 1];
      SpentIsCount(before, posts, group, amount);
      if e.Decided? && e.verdict == Posted && e.who in group {
        WinnersDecided(before, group);
        var winners := Winners(before, group);
        MoreWinnersMoreAmount(|winners|, |winners| + 1, amount);
        assert e.who !in winners && Winners(log, group) == winners + {e.who};
        assert |winners + {e.who}| == |winners| + 1;
      }
    }
  }

  lemma OpenLess(log: seq<Event>, e: Event, posts: map<PostId, Post>)
    ensures Deciders(log + [e]) == Deciders(log) + if e.Decided? then {e.who} else {}
    ensures Open(log + [e], posts) == if e.Decided? then Open(log, posts) - {e.who} else Open(log, posts)
  {
    assert (log + [e])[..|log|] == log;
  }

  // ---- One event of the history ----

  lemma NewAccountStands(first: State, log: seq<Event>, e: Event, source: string, amount: nat, group: set<PostId>)
    requires e.Created? && EventOk(e) && Standing(first, log, e.before, source, amount, group)
    ensures Standing(first, log + [e], e.after, source, amount, group)
  {
    hide Contested;
    assert (log + [e])[..|log|] == log;
    OpenLess(log, e, first.posts);
    AccountKeepsBooksSound(e.before, e.account);
  }

  /** How the totals of a contested account, and the balance of the source, stand after a decision. */
  lemma TotalsAfter(first: State, log: seq<Event>, e: Event, account: Account, up: bool)
    requires e.Decided? && e.who in Open(log, first.posts) && first.posts[e.who].tx == e.tx
    requires e.after.lines == if e.verdict == Posted then e.before.lines + e.tx.entries else e.before.lines
    requires Gross(account, e.before.lines, up) + Potential(account, Open(log, first.posts), up) <= MAX_INT64
    ensures Gross(account, e.after.lines, up) + Potential(account, Open(log + [e], first.posts), up) <= MAX_INT64
    ensures Gross(account, e.before.lines, up) + Gross(account, e.tx.entries, up) <= MAX_INT64
  {
    OpenLess(log, e, first.posts);
    PotentialSplits(account, Open(log, first.posts), up, e.who);
    GrossConcat(account, e.before.lines, e.tx.entries, up);
  }

  lemma IdsStayNew(first: State, e: Event, p: PostId, group: set<PostId>)
    requires Distinct(first, group) && p in group && p in first.posts && e.Decided? && e.who in first.posts
    requires e.who != p
    requires first.posts[e.who].tx == e.tx && NewIds(first.posts[p].tx, e.before)
    requires e.after == if e.verdict == Posted then WithJournal(e.before, e.tx) else e.before
    ensures NewIds(first.posts[p].tx, e.after)
  {
    LineIdsConcat(e.before.lines, e.tx.entries);
  }

  /** What a decision does, whoever it is about. */
  lemma DecisionShape(e: Event)
    requires e.Decided? && EventOk(e) && SoundBooks(e.before)
    ensures e.after == if e.verdict == Posted then WithJournal(e.before, e.tx) else e.before
    ensures SoundBooks(e.after)
  {
    PostKeepsBooksSound(e.before, e.tx, e.verdict, e.after);
  }

  /** A competitor whose turn it is still competes, with new ids and with room in both accounts. */
  lemma CompetitorReady(first: State, log: seq<Event>, e: Event, source: string, amount: nat, group: set<PostId>)
    requires Contest(first, source, amount, group) && Standing(first, log, e.before, source, amount, group)
    requires e.Decided? && e.who in group && e.who in Open(log, first.posts) && first.posts[e.who].tx == e.tx
    ensures Competes(e.before, e.tx, source, amount) && !Conflicts(e.before, e.tx)
    ensures HasRoom(e.before.accounts[source], e.before.lines, e.tx.entries)
    ensures HasRoom(e.before.accounts[e.tx.entries[1].accountId], e.before.lines, e.tx.entries)
  {
    var tx := e.tx;
    assert Competes(first.ledger, tx, source, amount);
    assert DistinctIds(tx.entries);
    assert NewIds(tx, e.before);
    RoomFor(first, log, e, source, amount, group, tx.entries[0]);
    RoomFor(first, log, e, source, amount, group, tx.entries[1]);
  }

  lemma RoomFor(first: State, log: seq<Event>, e: Event, source: string, amount: nat, group: set<PostId>, line: Entry)
    requires Standing(first, log, e.before, source, amount, group)
    requires e.Decided? && e.who in group && e.who in Open(log, first.posts) && first.posts[e.who].tx == e.tx
    requires line in e.tx.entries && line.accountId in first.ledger.accounts
    ensures HasRoom(e.before.accounts[line.accountId], e.before.lines, e.tx.entries)
  {
    var account := first.ledger.accounts[line.accountId];
    assert Contested(first, group, line.accountId);
    PotentialSplits(account, Open(log, first.posts), true, e.who);
    PotentialSplits(account, Open(log, first.posts), false, e.who);
  }

  /** The verdict on a competitor, given how things stand when it is decided. */
  lemma CompetitorDecided(first: State, log: seq<Event>, e: Event, source: string, amount: nat, group: set<PostId>)
    requires Contest(first, source, amount, group) && Standing(first, log, e.before, source, amount, group)
    requires e.Decided? && EventOk(e) && e.who in group && e.who in Open(log, first.posts)
    requires first.posts[e.who].tx == e.tx
    ensures e.verdict == if BalanceOf(e.before, source) >= amount then Posted else Refused(Domain(InsufficientFunds))
    ensures e.verdict == Posted ==> Net(first.ledger.accounts[source], e.tx.entries) == -(amount as int)
  {
    CompetitorReady(first, log, e, source, amount, group);
    hide Contest, Roomy, Distinct, OthersKeepOff, Contested;
    CompetitorVerdict(e.before, e.tx, source, amount, e.verdict, e.after);
    PairNet(first.ledger.accounts[source], e.tx.entries, 0);
  }

  /** The balance of the source moves only with a winner. */
  lemma SourceAfter(first: State, log: seq<Event>, e: Event, source: string, amount: nat, group: set<PostId>)
    requires Contest(first, source, amount, group) && Standing(first, log, e.before, source, amount, group)
    requires e.Decided? && EventOk(e) && e.who in Open(log, first.posts) && first.posts[e.who].tx == e.tx
    ensures source in e.after.accounts
    ensures BalanceOf(e.after, source) == BalanceOf(first.ledger, source) - Spent(log + [e], group, amount)
  {
    DecisionShape(e);
    assert (log + [e])[..|log|] == log;
    var account := first.ledger.accounts[source];
    if e.who in group {
      CompetitorDecided(first, log, e, source, amount, group);
    } else {
      assert forall line :: line in e.tx.entries ==> line.accountId != source;
      SourceFiled(first, source, amount, group);
      NetElsewhere(account, e.tx.entries);
    }
    hide Contest, Contested;
    if e.verdict == Posted {
      NetConcat(account, e.before.lines, e.tx.entries);
    }
  }

  lemma SourceFiled(first: State, source: string, amount: nat, group: set<PostId>)
    requires Contest(first, source, amount, group)
    ensures first.ledger.accounts[source].id == source
  {
    hide Roomy, Distinct, OthersKeepOff;
  }

  lemma DecisionStands(first: State, log: seq<Event>, e: Event, source: string, amount: nat, group: set<PostId>)
    requires Contest(first, source, amount, group) && Standing(first, log, e.before, source, amount, group)
    requires e.Decided? && EventOk(e) && e.who in Open(log, first.posts) && first.posts[e.who].tx == e.tx
    ensures Standing(first, log + [e], e.after, source, amount, group)
  {
    DecisionShape(e);
    SourceAfter(first, log, e, source, amount, group);
    OpenLess(log, e, first.posts);
    DistinctGroup(first, source, amount, group);
    hide Contest, Contested, NewIds, SoundBooks, EventOk, BalanceOf, Distinct;
    forall id, up | Contested(first, group, id) && id in first.ledger.accounts
      ensures Gross(first.ledger.accounts[id], e.after.lines, up)
              + Potential(first.ledger.accounts[id], Open(log + [e], first.posts), up) <= MAX_INT64
    {
      TotalsAfter(first, log, e, first.ledger.accounts[id], up);
    }
    forall p | p in group && p in Open(log + [e], first.posts)
      ensures NewIds(first.posts[p].tx, e.after)
    {
      IdsStayNew(first, e, p, group);
    }
  }

  lemma DistinctGroup(first: State, source: string, amount: nat, group: set<PostId>)
    requires Contest(first, source, amount, group)
    ensures Distinct(first, group)
  {
    hide Distinct, Roomy, OthersKeepOff;
  }

  lemma ContestStands(first: State, source: string, amount: nat, group: set<PostId>)
    requires Contest(first, source, amount, group)
    ensures Standing(first, [], first.ledger, source, amount, group)
  {
    assert Open([], first.posts) == first.posts;
  }

  lemma {:induction false} HistoryStands(first: State, log: seq<Event>, now: Ledger, source: string, amount: nat,
      group: set<PostId>)
    requires Contest(first, source, amount, group)
    requires SerialRun(first.ledger, log, now) && EachOnce(log, first.posts)
    ensures Standing(first, log, now, source, amount, group) && Fair(first, log, source, amount, group)
    decreases |log|
  {
    if log == [] {
      ContestStands(first, source, amount, group);
    } else {
      hide Standing, EventOk, Contest;
      var before, e := log[..|log| - 1], log[|log| - 1];
      assert log == before + [e];
      HistoryStands(first, before, e.before, source, amount, group);
      if e.Created? {
        NewAccountStands(first, before, e, source, amount, group);
      } else {
        DecisionStands(first, before, e, source, amount, group);
        if e.who in group {
          CompetitorDecided(first, before, e, source, amount, group);
          BalanceStands(first, before, e.before, source, amount, group);
        }
      }
    }
  }

  lemma BalanceStands(first: State, log: seq<Event>, now: Ledger, source: string, amount: nat, group: set<PostId>)
    requires Standing(first, log, now, source, amount, group)
    ensures source in first.ledger.accounts && source in now.accounts
    ensures BalanceOf(now, source) == BalanceOf(first.ledger, source) - Spent(log, group, amount)
    ensures BalanceOf(now, source) >= 0
  {
    hide Contested, NewIds;
  }

  // ---- The count ----

  /** How many multiples of an amount fit under a balance. */
  lemma CountFromBalance(balance: nat, amount: nat, winners: nat, total: nat)
    requires amount > 0 && winners <= total && winners * amount <= balance
    requires winners < total ==> balance - winners * amount < amount
    ensures winners == if total <= balance / amount then total else balance / amount
  {
    QuotientBounds(balance, amount, winners);
  }

  lemma QuotientBounds(balance: nat, amount: nat, n: nat)
    requires amount > 0 && n * amount <= balance
    ensures n <= balance / amount
    ensures balance - n * amount < amount ==> n == balance / amount
  {
    var q := balance / amount;
    assert q * amount <= balance < q * amount + amount;
    ProductOrder(n, q + 1, amount);
    ProductOrder(q, n + 1, amount);
  }

  lemma ProductOrder(a: nat, b: nat, c: nat)
    requires c > 0
    ensures a * c < b * c <==> a < b
  {
    if a < b {
      assert b * c == a * c + (b - a) * c;
    } else {
      assert a * c == b * c + (a - b) * c;
    }
  }

  /** The verdict in the history on one post. */
  lemma {:induction false} VerdictInLog(log: seq<Event>, posts: map<PostId, Post>, group: set<PostId>, p: PostId,
      verdict: Verdict,
      first: State, source: string, amount: nat)
    requires InLog(log, p, verdict) && EachOnce(log, posts) && p in group
    requires source in first.ledger.accounts && Fair(first, log, source, amount, group)
    ensures p in Deciders(log) && (verdict == Posted <==> p in Winners(log, group))
    ensures verdict == Posted || verdict == Refused(Domain(InsufficientFunds))
    ensures verdict != Posted ==> BalanceOf(first.ledger, source) - Spent(log, group, amount) < amount
  {
    var before, e := log[..|log| - 1], log[|log| - 1];
    var i :| 0 <= i < |log| && log[i].Decided? && log[i].who == p && log[i].verdict == verdict;
    WinnersDecided(before, group);
    if i < |before| {
      assert before[i] == log[i];
      VerdictInLog(before, posts, group, p, verdict, first, source, amount);
    }
  }

  /** Every competitor ended with a verdict of the ledger, none with a lost connection. */
  ghost predicate AllAnswered(s: State, group: set<PostId>) {
    forall p :: p in group && p in s.posts ==>
      s.posts[p].phase.Finished? && s.posts[p].phase.verdict != Refused(Infrastructure)
  }

  ghost function PostedSet(s: State): set<PostId> {
    set p | p in s.posts && s.posts[p].phase == Finished(Posted)
  }

  ghost predicate RestShortOfFunds(s: State, group: set<PostId>) {
    forall p :: p in group && p in s.posts && p !in PostedSet(s) ==>
      s.posts[p].phase == Finished(Refused(Domain(InsufficientFunds)))
  }

  lemma {:induction false} EventsAreOnce(log: seq<Event>, posts: map<PostId, Post>)
    requires forall i :: 0 <= i < |log| && log[i].Decided? ==> log[i].who in posts && posts[log[i].who].tx == log[i].tx
    requires forall i, j :: 0 <= i < j < |log| && log[i].Decided? && log[j].Decided? ==> log[i].who != log[j].who
    ensures EachOnce(log, posts)
  {
    if log != [] {
      var before := log[..|log| - 1];
      EventsAreOnce(before, posts);
      DecidersOccur(before, log[|log| - 1]);
    }
  }

  lemma {:induction false} DecidersOccur(log: seq<Event>, e: Event)
    requires e.Decided? ==> forall i :: 0 <= i < |log| && log[i].Decided? ==> log[i].who != e.who
    ensures e.Decided? ==> e.who !in Deciders(log)
  {
    if log != [] {
      DecidersOccur(log[..|log| - 1], e);
    }
  }

  lemma RecordedOnce(first: State, s: State)
    requires Recorded(s) && s.posts.Keys == first.posts.Keys
    requires forall p :: p in first.posts ==> s.posts[p].tx == first.posts[p].tx
    ensures EachOnce(s.log, first.posts)
  {
    forall i | 0 <= i < |s.log| && s.log[i].Decided?
      ensures s.log[i].who in first.posts && first.posts[s.log[i].who].tx == s.log[i].tx
    {
      assert Answers(s.log[i], s.posts);
    }
    EventsAreOnce(s.log, first.posts);
  }

  lemma {:induction false} WinnerInLog(log: seq<Event>, group: set<PostId>, p: PostId)
    requires p in Winners(log, group)
    ensures p in group && InLog(log, p, Posted)
  {
    var before := log[..|log| - 1];
    if p in Winners(before, group) {
      WinnerInLog(before, group, p);
      var i :| 0 <= i < |before| && before[i].Decided? && before[i].who == p && before[i].verdict == Posted;
      assert log[i] == before[i];
    } else {
      assert log[|log| - 1].who == p;
    }
  }

  /** The competitors that ended posted are the winners of the history. */
  lemma WinnersArePosted(s: State, group: set<PostId>)
    requires Recorded(s) && AllAnswered(s, group) && group <= s.posts.Keys
    requires forall p, verdict :: p in group && InLog(s.log, p, verdict) ==>
        (verdict == Posted <==> p in Winners(s.log, group))
    ensures Winners(s.log, group) == PostedSet(s) * group
  {
    forall p | p in group
      ensures p in Winners(s.log, group) <==> p in PostedSet(s)
    {
      assert InLog(s.log, p, s.posts[p].phase.verdict);
    }
    forall p | p in Winners(s.log, group)
      ensures p in group
    {
      WinnerInLog(s.log, group, p);
    }
  }

  /** What was posted was covered, and a refusal means that the next one would not have been. */
  lemma FundsDecide(first: State, s: State, source: string, amount: nat, group: set<PostId>)
    requires Contest(first, source, amount, group) && SerialRun(first.ledger, s.log, s.ledger)
    requires EachOnce(s.log, first.posts)
    ensures source in first.ledger.accounts && Fair(first, s.log, source, amount, group)
    ensures Spent(s.log, group, amount) == |Winners(s.log, group)| * amount <= BalanceOf(first.ledger, source)
  {
    hide EachOnce, SerialRun, Contest, Fair, Spent, Winners, Standing;
    HistoryStands(first, s.log, s.ledger, source, amount, group);
    BalanceStands(first, s.log, s.ledger, source, amount, group);
    SpentIsCount(s.log, first.posts, group, amount);
  }

  lemma WinnersCounted(first: State, s: State, source: string, amount: nat, group: set<PostId>)
    requires Contest(first, source, amount, group) && AllAnswered(s, group)
    requires SerialRun(first.ledger, s.log, s.ledger) && Recorded(s) && s.posts.Keys == first.posts.Keys
    requires forall p :: p in first.posts ==> s.posts[p].tx == first.posts[p].tx
    ensures source in first.ledger.accounts
    ensures var n, covered := |group|, BalanceOf(first.ledger, source) / amount;
            |PostedSet(s) * group| == if n <= covered then n else covered
    ensures RestShortOfFunds(s, group)
  {
    assert group <= s.posts.Keys && amount > 0 by { hide Init, Competes, Roomy, Distinct, OthersKeepOff; }
    hide SerialRun, EachOnce, BalanceOf, Spent, Winners, Contest, Fair, Recorded;
    RecordedOnce(first, s);
    FundsDecide(first, s, source, amount, group);
    forall p, verdict | p in group && InLog(s.log, p, verdict)
      ensures verdict == Posted <==> p in Winners(s.log, group)
      ensures verdict == Posted || verdict == Refused(Domain(InsufficientFunds))
      ensures verdict != Posted ==> BalanceOf(first.ledger, source) - Spent(s.log, group, amount) < amount
    {
      VerdictInLog(s.log, first.posts, group, p, verdict, first, source, amount);
    }
    WinnersArePosted(s, group);
    forall p | p in group
      ensures InLog(s.log, p, s.posts[p].phase.verdict)
    {
      AnsweredInLog(s, group, p);
    }
    var winners := Winners(s.log, group);
    SubsetCount(winners, group);
    if |winners| < |group| {
      var p :| p in group - winners;
      assert InLog(s.log, p, s.posts[p].phase.verdict);
    }
    CountFromBalance(BalanceOf(first.ledger, source), amount, |winners|, |group|);
  }

  lemma AnsweredInLog(s: State, group: set<PostId>, p: PostId)
    requires Recorded(s) && AllAnswered(s, group) && p in group && p in s.posts
    ensures InLog(s.log, p, s.posts[p].phase.verdict)
  {
  }

  lemma {:induction false} PostsStay(trace: seq<State>)
    requires Trace(trace)
    ensures trace[|trace| - 1].posts.Keys == trace[0].posts.Keys
    ensures forall p :: p in trace[0].posts ==> trace[|trace| - 1].posts[p].tx == trace[0].posts[p].tx
  {
    if |trace| > 1 {
      var before := trace[..|trace| - 1];
      PostsStay(before);
      assert PostingMachine.Step(trace[|trace| - 2], trace[|trace| - 1]);
      assert before[|before| - 1] == trace[|trace| - 2];
    }
  }

  /**
   * A group of transfers of the same amount competes for an account on which no other post has a
   * line. Whatever the schedule, and whatever other posts do elsewhere meanwhile, as many of the group
   * succeed as the balance covers, and all its others are refused for lack of funds.
   */
  lemma ContentionCount(trace: seq<State>, source: string, amount: nat, group: set<PostId>)
    requires Trace(trace) && Contest(trace[0], source, amount, group) && AllAnswered(trace[|trace| - 1], group)
    ensures source in trace[0].ledger.accounts
    ensures var n, covered := |group|, BalanceOf(trace[0].ledger, source) / amount;
            |PostedSet(trace[|trace| - 1]) * group| == if n <= covered then n else covered
    ensures RestShortOfFunds(trace[|trace| - 1], group)
  {
    TraceKeepsInv(trace);
    PostsStay(trace);
    hide AllAnswered, SerialRun, Recorded, RestShortOfFunds, PostedSet, SoundBooks, PostsOk, Exclusive;
    WinnersCounted(trace[0], trace[|trace| - 1], source, amount, group);
  }
}
