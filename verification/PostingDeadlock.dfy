/**
 * Sorted account locks alone do not rule deadlock out: line ids are primary keys too. For two posts
 * this is exactly when they can block each other for ever.
 */
module PostingDeadlock {
  import opened Errors
  import opened MoneyDomain
  import opened LedgerDomain
  import opened Ordering
  import opened LedgerStore
  import opened PostingMachine
  import opened PostingProgress
  import opened PostingStuck

  // ---- The condition ----

  /** The post passes all its checks on this ledger, with these listings, and goes on to insert. */
  ghost predicate Passes(ledger: Ledger, tx: Transaction, listings: seq<seq<Entry>>) {
    && Balanced(tx.entries) && PlanKnown(ledger, LockOrder(tx))
    && |listings| == |LockOrder(tx)| && Listings(ledger, LockOrder(tx), listings)
    && FirstRefusal(ledger.accounts, LockOrder(tx), listings, tx.entries) == None
  }

  ghost predicate MayInsert(ledger: Ledger, tx: Transaction) {
    exists listings :: Passes(ledger, tx, listings)
  }

  /**
   * After i lines of one journal and j of the other, all of them new and none in common, each wants
   * next a line id that the other has used.
   */
  ghost predicate CrossAt(ledger: Ledger, tx: Transaction, tx': Transaction, i: nat, j: nat) {
    && i < |tx.entries| && j < |tx'.entries|
    && KeysFresh(ledger, tx, i) && KeysFresh(ledger, tx', j)
    && LineIds(tx.entries[..i]) !! LineIds(tx'.entries[..j])
    && tx.entries[i].id in LineIds(tx'.entries[..j]) && tx'.entries[j].id in LineIds(tx.entries[..i])
  }

  ghost predicate LinesCross(ledger: Ledger, tx: Transaction, tx': Transaction) {
    exists i: nat, j: nat :: CrossAt(ledger, tx, tx', i, j)
  }

  /** Both get to insert, on different accounts, under different journal ids, and their line ids cross. */
  ghost predicate MayBlockEachOther(ledger: Ledger, tx: Transaction, tx': Transaction) {
    && MayInsert(ledger, tx) && MayInsert(ledger, tx') && tx.id != tx'.id
    && Members(LockOrder(tx)) !! Members(LockOrder(tx'))
    && LinesCross(ledger, tx, tx')
  }

  // ---- Running one post up to its n-th line ----

  /** Nothing stands between this post and its first n lines. */
  ghost predicate Unhindered(s: State, p: PostId, n: nat, listings: seq<seq<Entry>>) {
    && p in s.posts
    && var tx := s.posts[p].tx;
       && Passes(s.ledger, tx, listings) && KeysFresh(s.ledger, tx, n) && HeaderFree(s, p, tx.id)
       && (forall id :: id in Members(LockOrder(tx)) ==> AccountFree(s, p, id))
       && (forall id :: id in LineIds(tx.entries[..n]) ==> LineFree(s, p, id))
  }

  /** On the way to the n-th line. */
  predicate Underway(post: Post, n: nat, listings: seq<seq<Entry>>) {
    match post.phase
    case Idle => true
    case Locking(plan, _, doomed) => plan == LockOrder(post.tx) && !doomed
    case Checking(plan, read) => plan == LockOrder(post.tx) && read <= listings
    case Inserting(_, _, written) => written <= n
    case _ => false
  }

  predicate Arrived(post: Post, n: nat) {
    post.phase.Inserting? && post.phase.written == n + 1
  }

  /** The same state but for the phase of one post. */
  ghost predicate OnlyMoved(s: State, s': State, p: PostId) {
    && s'.ledger == s.ledger && s'.log == s.log && s'.posts.Keys == s.posts.Keys
    && (forall q :: q in s.posts ==> s'.posts[q].tx == s.posts[q].tx)
    && (forall q :: q in s.posts && q != p ==> s'.posts[q] == s.posts[q])
  }

  lemma UnhinderedStays(s: State, s': State, p: PostId, n: nat, listings: seq<seq<Entry>>)
    requires Unhindered(s, p, n, listings) && OnlyMoved(s, s', p)
    ensures Unhindered(s', p, n, listings)
  {
    hide Passes, KeysFresh, LineIds, Members;
  }

  lemma OnlyMovedTwice(s: State, s': State, s'': State, p: PostId)
    requires OnlyMoved(s, s', p) && OnlyMoved(s', s'', p)
    ensures OnlyMoved(s, s'', p)
  {
  }

  lemma FreshLine(ledger: Ledger, tx: Transaction, n: nat, k: nat)
    requires KeysFresh(ledger, tx, n) && k < n
    ensures !LineTaken(ledger, tx, k) && tx.entries[k].id in LineIds(tx.entries[..n])
  {
    var lines := tx.entries[..n];
    assert lines[k] == tx.entries[k] && lines[k].id in LineIds(lines);
    assert forall i :: 0 <= i < k ==> tx.entries[..k][i] == lines[i] && lines[i].id != lines[k].id;
  }

  lemma PassesEach(ledger: Ledger, tx: Transaction, listings: seq<seq<Entry>>)
    requires Passes(ledger, tx, listings)
    ensures KnownAccounts(ledger, tx) && KnownPart(ledger, LockOrder(tx)) == LockOrder(tx)
    ensures forall k :: 0 <= k < |listings| ==>
              IsListing(ledger, LockOrder(tx)[k], listings[k])
              && CheckAccount(ledger.accounts[LockOrder(tx)[k]], listings[k], tx.entries).None?
  {
    hide CheckAccount, IsListing;
    LockOrderCovers(tx);
    PlanIsKnown(ledger, tx);
    KnownPartIs(ledger, LockOrder(tx));
    forall k | 0 <= k < |listings|
      ensures CheckAccount(ledger.accounts[LockOrder(tx)[k]], listings[k], tx.entries).None?
    {
      NoneRefused(ledger.accounts, LockOrder(tx), listings, tx.entries, k);
    }
  }

  /** An unhindered post is enabled, and its next statement neither decides nor commits anything. */
  lemma NextStatement(s: State, p: PostId, n: nat, listings: seq<seq<Entry>>) returns (listing: seq<Entry>)
    requires PostsOk(s) && Unhindered(s, p, n, listings) && Underway(s.posts[p], n, listings)
    ensures Enabled(s, p) && ReadsTruly(s.ledger, s.posts[p], listing)
    ensures var o := Advance(s.ledger, s.posts[p], listing);
            && o.decision.None? && !o.commits
            && (Underway(Post(s.posts[p].tx, o.phase), n, listings) || Arrived(Post(s.posts[p].tx, o.phase), n))
  {
    hide CheckAccount, IsListing, FirstRefusal, Balanced, LineTaken, WrittenLines, LineIds, KnownPart;
    var post := s.posts[p];
    var plan := LockOrder(post.tx);
    listing := [];
    PassesEach(s.ledger, post.tx, listings);
    assert PostOk(s.ledger, post);
    if post.phase.Locking? && post.phase.held < |plan| {
      MembersIs(plan);
      assert plan[post.phase.held] in Members(plan);
    }
    if post.phase.Checking? && |post.phase.listings| < |plan| {
      listing := listings[|post.phase.listings|];
    }
    if post.phase.Inserting? && 1 <= post.phase.written {
      FreshLine(s.ledger, post.tx, n, post.phase.written - 1);
    }
  }

  lemma StepTowardsLine(s: State, p: PostId, n: nat, listings: seq<seq<Entry>>) returns (s': State)
    requires PostsOk(s) && Unhindered(s, p, n, listings) && Underway(s.posts[p], n, listings)
    ensures PostingMachine.Step(s, s') && OnlyMoved(s, s', p)
    ensures Work(s'.posts[p]) < Work(s.posts[p])
    ensures Underway(s'.posts[p], n, listings) || Arrived(s'.posts[p], n)
  {
    var listing := NextStatement(s, p, n, listings);
    hide Enabled, Advance, Unhindered, Underway, Arrived, Work, ReadsTruly, PostOk;
    var o := Advance(s.ledger, s.posts[p], listing);
    s' := State(s.ledger, s.posts[p := Post(s.posts[p].tx, o.phase)], s.log);
    assert Move(s, s', p, listing);
    assert !s.posts[p].phase.Finished? by { UnderwayUnfinished(s.posts[p], n, listings); }
    AdvanceDoesWork(s.ledger, s.posts[p], listing);
  }

  lemma UnderwayUnfinished(post: Post, n: nat, listings: seq<seq<Entry>>)
    requires Underway(post, n, listings)
    ensures !post.phase.Finished?
  {
  }

  lemma {:induction false} RunToLine(trace: seq<State>, p: PostId, n: nat,
      listings: seq<seq<Entry>>) returns (longer: seq<State>)
    requires Trace(trace) && Unhindered(trace[|trace| - 1], p, n, listings)
    requires Underway(trace[|trace| - 1].posts[p], n, listings)
    ensures Trace(longer) && longer[0] == trace[0] && OnlyMoved(trace[|trace| - 1], longer[|longer| - 1], p)
    ensures Arrived(longer[|longer| - 1].posts[p], n)
    decreases Work(trace[|trace| - 1].posts[p])
  {
    var s := trace[|trace| - 1];
    TraceKeepsInv(trace);
    hide Unhindered, Underway, Arrived, Work, OnlyMoved, SoundBooks, Exclusive, SerialRun, Recorded, PostOk;
    assert p in s.posts by { UnhinderedKnown(s, p, n, listings); }
    var s' := StepTowardsLine(s, p, n, listings);
    TraceGrows(trace, s');
    longer := trace + [s'];
    assert longer[|longer| - 1] == s';
    if Underway(s'.posts[p], n, listings) {
      UnhinderedStays(s, s', p, n, listings);
      longer := RunToLine(longer, p, n, listings);
      OnlyMovedTwice(s, s', longer[|longer| - 1], p);
    }
  }

  lemma UnhinderedKnown(s: State, p: PostId, n: nat, listings: seq<seq<Entry>>)
    requires Unhindered(s, p, n, listings)
    ensures p in s.posts
  {
  }

  // ---- Two posts that can block each other, do ----

  ghost predicate Pair(s: State, p: PostId, q: PostId) {
    Init(s) && p != q && s.posts.Keys == {p, q}
  }

  /** The same books with perhaps more accounts, as opening accounts leaves them. */
  ghost predicate Extends(ledger: Ledger, ledger': Ledger) {
    && ledger'.lines == ledger.lines && ledger'.headers == ledger.headers
    && (forall id :: id in ledger.accounts ==> id in ledger'.accounts && ledger'.accounts[id] == ledger.accounts[id])
    && (forall id :: id in ledger'.accounts ==> ledger'.accounts[id].id == id)
  }

  lemma {:induction false} OpenAccounts(trace: seq<State>, target: Ledger) returns (longer: seq<State>)
    requires Trace(trace) && Extends(trace[|trace| - 1].ledger, target)
    ensures Trace(longer) && longer[0] == trace[0]
    ensures longer[|longer| - 1].ledger == target && longer[|longer| - 1].posts == trace[|trace| - 1].posts
    decreases |target.accounts.Keys - trace[|trace| - 1].ledger.accounts.Keys|
  {
    hide PostingMachine.Step, Extends, Init;
    var s := trace[|trace| - 1];
    longer := trace;
    if target.accounts.Keys <= s.ledger.accounts.Keys {
      NothingToOpen(s.ledger, target);
    } else {
      var id :| id in target.accounts.Keys && id !in s.ledger.accounts.Keys;
      var s' := OpenNext(s, target, id);
      TraceGrows(trace, s');
      longer := OpenAccounts(trace + [s'], target);
    }
  }

  lemma NothingToOpen(ledger: Ledger, target: Ledger)
    requires Extends(ledger, target) && target.accounts.Keys <= ledger.accounts.Keys
    ensures ledger == target
  {
    assert forall id :: id in target.accounts <==> id in ledger.accounts;
    assert target.accounts == ledger.accounts;
  }

  lemma OpenNext(s: State, target: Ledger, id: string) returns (s': State)
    requires Extends(s.ledger, target) && id in target.accounts && id !in s.ledger.accounts
    ensures PostingMachine.Step(s, s') && s'.posts == s.posts && Extends(s'.ledger, target)
    ensures target.accounts.Keys - s'.ledger.accounts.Keys == target.accounts.Keys - s.ledger.accounts.Keys - {id}
  {
    hide PostingMachine.Step;
    s' := OpenOne(s, target.accounts[id]);
  }

  lemma OpenOne(s: State, account: Account) returns (s': State)
    requires account.id !in s.ledger.accounts
    ensures PostingMachine.Step(s, s') && s'.posts == s.posts && s'.ledger == Opened(s.ledger, account)
  {
    s' := State(Opened(s.ledger, account), s.posts, s.log + [Created(account, s.ledger, Opened(s.ledger, account))]);
    assert Create(s, s', account);
  }

  /** While all others idle, a post that passes its checks is unhindered. */
  lemma AloneUnhindered(s: State, p: PostId, n: nat, listings: seq<seq<Entry>>)
    requires p in s.posts && Passes(s.ledger, s.posts[p].tx, listings) && KeysFresh(s.ledger, s.posts[p].tx, n)
    requires forall r :: r in s.posts ==> s.posts[r].phase == Idle
    ensures Unhindered(s, p, n, listings)
  {
    hide Passes, KeysFresh;
  }

  /** What a post holds that has written its first n lines. */
  lemma ArrivedHolds(ledger: Ledger, post: Post, n: nat)
    requires PostOk(ledger, post) && Arrived(post, n) && n <= |post.tx.entries|
    ensures Held(post.phase) == Members(LockOrder(post.tx)) && WrittenLines(post) == post.tx.entries[..n]
  {
  }

  /** A post on other accounts, other keys and other lines stays unhindered. */
  lemma SecondUnhindered(s: State, s': State, p: PostId, q: PostId, i: nat, j: nat, listings: seq<seq<Entry>>)
    requires PostsOk(s') && p != q && s.posts.Keys == {p, q} && OnlyMoved(s, s', p) && Arrived(s'.posts[p], i)
    requires i <= |s.posts[p].tx.entries| && Unhindered(s, q, j, listings) && s.posts[q].phase == Idle
    requires s.posts[p].tx.id != s.posts[q].tx.id
    requires Members(LockOrder(s.posts[p].tx)) !! Members(LockOrder(s.posts[q].tx))
    requires LineIds(s.posts[p].tx.entries[..i]) !! LineIds(s.posts[q].tx.entries[..j])
    ensures Unhindered(s', q, j, listings) && s'.posts[q].phase == Idle
  {
    hide Passes, KeysFresh, Members, LineIds, PostOk;
    ArrivedHolds(s'.ledger, s'.posts[p], i);
  }

  /** Both wait for a line of the other. */
  lemma BothBlocked(s: State, p: PostId, q: PostId, i: nat, j: nat)
    requires PostsOk(s) && p != q && s.posts.Keys == {p, q} && Arrived(s.posts[p], i) && Arrived(s.posts[q], j)
    requires CrossAt(s.ledger, s.posts[p].tx, s.posts[q].tx, i, j)
    ensures NobodyMoves(s)
  {
    hide KeysFresh, Members, LineIds, PostOk;
    ArrivedHolds(s.ledger, s.posts[p], i);
    ArrivedHolds(s.ledger, s.posts[q], j);
    NextIsNew(s.ledger, s.posts[p].tx, s.posts[q].tx, i, j);
    NextIsNew(s.ledger, s.posts[q].tx, s.posts[p].tx, j, i);
    assert AwaitsLine(s, p, q) && AwaitsLine(s, q, p);
    assert Awaits(s, p, q) && Awaits(s, q, p);
    BlockedIffAwaits(s, p);
    BlockedIffAwaits(s, q);
    assert Unfinished(s, p);
  }

  /** The line that is waited for is neither committed nor an earlier line of the waiting journal. */
  lemma NextIsNew(ledger: Ledger, tx: Transaction, tx': Transaction, i: nat, j: nat)
    requires i < |tx.entries| && j <= |tx'.entries| && KeysFresh(ledger, tx', j)
    requires LineIds(tx.entries[..i]) !! LineIds(tx'.entries[..j]) && tx.entries[i].id in LineIds(tx'.entries[..j])
    ensures !LineTaken(ledger, tx, i)
  {
    hide LineIds;
  }

  /** From the start of two such posts, a run in which both end up blocked. */
  lemma RunIntoBlock(s: State, p: PostId, q: PostId, target: Ledger) returns (trace: seq<State>)
    requires Pair(s, p, q) && Extends(s.ledger, target) && MayBlockEachOther(target, s.posts[p].tx, s.posts[q].tx)
    ensures Trace(trace) && trace[0] == s && NobodyMoves(trace[|trace| - 1])
  {
    var tx, tx' := s.posts[p].tx, s.posts[q].tx;
    var listings :| Passes(target, tx, listings);
    var listings' :| Passes(target, tx', listings');
    var i: nat, j: nat :| CrossAt(target, tx, tx', i, j);
    hide Passes, SoundBooks, Unhindered, NobodyMoves;
    assert Trace([s]);
    trace := OpenAccounts([s], target);
    var s1 := trace[|trace| - 1];
    AloneUnhindered(s1, p, i, listings);
    AloneUnhindered(s1, q, j, listings');
    hide Init, Arrived, PostsOk, KeysFresh, LineIds, Members;
    trace := RunToLine(trace, p, i, listings);
    var s2 := trace[|trace| - 1];
    TraceKeepsInv(trace);
    SecondUnhindered(s1, s2, p, q, i, j, listings');
    trace := RunToLine(trace, q, j, listings');
    TraceKeepsInv(trace);
    BothBlocked(trace[|trace| - 1], p, q, i, j);
  }

  // ---- Two posts that block each other could be told beforehand ----

  ghost predicate NonePosted(s: State) {
    forall p :: p in s.posts ==> s.posts[p].phase != Finished(Posted)
  }

  lemma StepWithoutPost(s: State, s': State)
    requires PostsOk(s) && Step(s, s') && NonePosted(s')
    requires (forall id :: id in s.ledger.accounts ==> s.ledger.accounts[id].id == id)
    ensures NonePosted(s) && Extends(s.ledger, s'.ledger)
    ensures s'.posts.Keys == s.posts.Keys && forall p :: p in s.posts ==> s'.posts[p].tx == s.posts[p].tx
  {
    hide LineTaken, CheckAccount, PostOk, LineIds, Members, AccountFree, HeaderFree, LineFree, KnownPart;
    if p, listing :| Move(s, s', p, listing) {
      assert p in s'.posts && s'.posts[p].phase != Finished(Posted);
      forall q | q in s.posts
        ensures s.posts[q].phase != Finished(Posted)
      {
        assert q in s'.posts;
      }
    } else if p :| Abort(s, s', p) {
      forall q | q in s.posts
        ensures s.posts[q].phase != Finished(Posted)
      {
        assert q in s'.posts;
      }
    } else {
      var account :| Create(s, s', account);
      assert s'.posts == s.posts;
    }
  }

  lemma {:induction false} NothingPostedYet(trace: seq<State>)
    requires Trace(trace) && NonePosted(trace[|trace| - 1])
    ensures Extends(trace[0].ledger, trace[|trace| - 1].ledger)
    ensures trace[|trace| - 1].posts.Keys == trace[0].posts.Keys
    ensures forall p :: p in trace[0].posts ==> trace[|trace| - 1].posts[p].tx == trace[0].posts[p].tx
  {
    if |trace| > 1 {
      var before := trace[..|trace| - 1];
      var s, s' := trace[|trace| - 2], trace[|trace| - 1];
      assert before[|before| - 1] == s && Step(s, s');
      TraceKeepsInv(before);
      hide Step, Init, PostsOk, Exclusive, SerialRun, Recorded, NonePosted;
      StepWithoutPost(s, s');
      NothingPostedYet(before);
    }
  }

  /** In a knot of two each waits for the other. */
  lemma KnotOfTwo(s: State, p: PostId, q: PostId, group: set<PostId>)
    requires s.posts.Keys == {p, q} && Knot(s, group)
    ensures AwaitsLine(s, p, q) && AwaitsLine(s, q, p)
  {
    hide AwaitsLine, Awaits;
    assert group != {} by { KnotIsDeadlocked(s, group); AtLeastOne(s, group); }
    hide Knot;
    var x :| x in group;
    var y := KnotPartner(s, group, x);
    var z := KnotPartner(s, group, y);
    AwaitsLineKnown(s, x, y);
    AwaitsLineKnown(s, y, z);
  }

  /** Two inserters that wait for each other's lines passed their checks, and their line ids cross. */
  lemma BlockedPairCrosses(s: State, p: PostId, q: PostId)
    requires PostsOk(s) && Exclusive(s) && AwaitsLine(s, p, q) && AwaitsLine(s, q, p)
    ensures MayBlockEachOther(s.ledger, s.posts[p].tx, s.posts[q].tx)
  {
    hide Balanced, IsListing, Listings, FirstRefusal, LineTaken, LockOrder, PlanKnown, Members;
    var a, b := s.posts[p], s.posts[q];
    assert PostOk(s.ledger, a) && PostOk(s.ledger, b) && Apart(a, b);
    hide PostsOk, Exclusive;
    assert Passes(s.ledger, a.tx, a.phase.listings) && Passes(s.ledger, b.tx, b.phase.listings);
    hide Passes;
    assert CrossAt(s.ledger, a.tx, b.tx, a.phase.written - 1, b.phase.written - 1);
  }

  /** A run from these two posts that ends with nobody able to move. */
  ghost predicate BlocksAfter(s: State, trace: seq<State>) {
    Trace(trace) && trace[0] == s && NobodyMoves(trace[|trace| - 1])
  }

  ghost predicate CanBlock(s: State) {
    exists trace :: BlocksAfter(s, trace)
  }

  ghost predicate Condition(s: State, p: PostId, q: PostId)
    requires p in s.posts && q in s.posts
  {
    exists ledger :: Extends(s.ledger, ledger) && MayBlockEachOther(ledger, s.posts[p].tx, s.posts[q].tx)
  }

  lemma BlockedMeansCondition(s: State, p: PostId, q: PostId, trace: seq<State>)
    requires Pair(s, p, q) && BlocksAfter(s, trace)
    ensures Condition(s, p, q)
  {
    var t := trace[|trace| - 1];
    TraceKeepsInv(trace);
    hide Trace, Init, PostsOk, Exclusive, SerialRun, Recorded, SoundBooks, AwaitsLine, Knot, NobodyMoves,
        MayBlockEachOther;
    var group := NobodyMovesKnot(trace);
    KeysStay(trace);
    KnotOfTwo(t, p, q, group);
    BothUnfinished(t, p, q);
    NothingPostedYet(trace);
    BlockedPairCrosses(t, p, q);
  }

  lemma {:induction false} KeysStay(trace: seq<State>)
    requires Trace(trace)
    ensures trace[|trace| - 1].posts.Keys == trace[0].posts.Keys
  {
    if |trace| > 1 {
      hide Step, Init;
      KeysStay(trace[..|trace| - 1]);
      assert Step(trace[|trace| - 2], trace[|trace| - 1]);
      TransactionsStay(trace[|trace| - 2], trace[|trace| - 1]);
    }
  }

  lemma BothUnfinished(s: State, p: PostId, q: PostId)
    requires s.posts.Keys == {p, q} && AwaitsLine(s, p, q) && AwaitsLine(s, q, p)
    ensures NonePosted(s)
  {
    hide LineTaken, LineIds, WrittenLines;
  }

  /**
   * The exact condition for two posts. Some schedule leaves both unfinished and unable to move, if and
   * only if, on these books or once missing accounts have been opened, both get to insert on different
   * accounts and under different journal ids, and their line ids cross.
   */
  lemma TwoPostsBlockIff(s: State, p: PostId, q: PostId)
    requires Pair(s, p, q)
    ensures CanBlock(s) <==> Condition(s, p, q)
  {
    hide Init, Trace, NobodyMoves, MayBlockEachOther, Extends;
    if trace :| BlocksAfter(s, trace) {
      BlockedMeansCondition(s, p, q, trace);
    }
    if ledger :| Extends(s.ledger, ledger) && MayBlockEachOther(ledger, s.posts[p].tx, s.posts[q].tx) {
      var trace := RunIntoBlock(s, p, q, ledger);
      assert BlocksAfter(s, trace);
    }
  }

  // ---- Crossing, read off the line ids ----

  /** The first line of a journal whose id the other journal uses as well. */
  ghost predicate FirstShared(tx: Transaction, tx': Transaction, a: nat) {
    && a < |tx.entries| && tx.entries[a].id in LineIds(tx'.entries)
    && forall k :: 0 <= k < a ==> tx.entries[k].id !in LineIds(tx'.entries)
  }

  ghost predicate FirstsDiffer(tx: Transaction, tx': Transaction) {
    exists a: nat, b: nat :: FirstShared(tx, tx', a) && FirstShared(tx', tx, b) && tx.entries[a].id != tx'.entries[b].id
  }

  lemma IdAt(lines: seq<Entry>, n: nat, id: string) returns (k: nat)
    requires n <= |lines| && id in LineIds(lines[..n])
    ensures k < n && lines[k].id == id && id in LineIds(lines)
  {
    k :| 0 <= k < n && lines[..n][k].id == id;
    assert lines[k].id in LineIds(lines);
  }

  lemma AtId(lines: seq<Entry>, n: nat, k: nat)
    requires k < n <= |lines|
    ensures lines[k].id in LineIds(lines[..n]) && lines[k].id in LineIds(lines)
  {
    assert lines[..n][k] == lines[k];
  }

  /** The first index that uses an id of the set, if any index below n does. */
  lemma {:induction false} LeastUse(lines: seq<Entry>, ids: set<string>, n: nat) returns (k: nat)
    requires n < |lines| && lines[n].id in ids
    ensures k <= n && lines[k].id in ids && forall i :: 0 <= i < k ==> lines[i].id !in ids
    decreases n
  {
    k := n;
    if m: nat :| m < n && lines[m].id in ids {
      k := LeastUse(lines, ids, m);
    }
  }

  /** Of two journals whose ids are all new, the crossing is decided by the first id that each shares with the other. */
  lemma CrossIffFirstsDiffer(ledger: Ledger, tx: Transaction, tx': Transaction)
    requires KeysFresh(ledger, tx, |tx.entries|) && KeysFresh(ledger, tx', |tx'.entries|)
    ensures LinesCross(ledger, tx, tx') <==> FirstsDiffer(tx, tx')
  {
    if i: nat, j: nat :| CrossAt(ledger, tx, tx', i, j) {
      CrossedFirstsDiffer(ledger, tx, tx', i, j);
    }
    if a: nat, b: nat :| FirstShared(tx, tx', a) && FirstShared(tx', tx, b) && tx.entries[a].id != tx'.entries[b].id {
      DifferingFirstsCross(ledger, tx, tx', a, b);
    }
  }

  lemma CrossedFirstsDiffer(ledger: Ledger, tx: Transaction, tx': Transaction, i: nat, j: nat)
    requires CrossAt(ledger, tx, tx', i, j)
    ensures FirstsDiffer(tx, tx')
  {
    hide LineIds, KeysFresh;
    var m := IdAt(tx.entries, i, tx'.entries[j].id);
    var m' := IdAt(tx'.entries, j, tx.entries[i].id);
    AtId(tx'.entries, |tx'.entries|, j);
    AtId(tx.entries, |tx.entries|, i);
    var a := LeastUse(tx.entries, LineIds(tx'.entries), m);
    var b := LeastUse(tx'.entries, LineIds(tx.entries), m');
    AtId(tx.entries, i, a);
    AtId(tx'.entries, j, b);
    assert FirstShared(tx, tx', a) && FirstShared(tx', tx, b);
  }

  lemma FreshPrefix(ledger: Ledger, tx: Transaction, n: nat)
    requires KeysFresh(ledger, tx, |tx.entries|) && n <= |tx.entries|
    ensures KeysFresh(ledger, tx, n)
    ensures forall x, y :: 0 <= x < y < |tx.entries| ==> tx.entries[x].id != tx.entries[y].id
  {
    assert tx.entries[..|tx.entries|] == tx.entries;
    assert tx.entries == tx.entries[..n] + tx.entries[n..];
    LineIdsConcat(tx.entries[..n], tx.entries[n..]);
  }

  lemma DifferingFirstsCross(ledger: Ledger, tx: Transaction, tx': Transaction, a: nat, b: nat)
    requires KeysFresh(ledger, tx, |tx.entries|) && KeysFresh(ledger, tx', |tx'.entries|)
    requires FirstShared(tx, tx', a) && FirstShared(tx', tx, b) && tx.entries[a].id != tx'.entries[b].id
    ensures LinesCross(ledger, tx, tx')
  {
    hide LineIds, KeysFresh;
    assert tx.entries[..|tx.entries|] == tx.entries && tx'.entries[..|tx'.entries|] == tx'.entries;
    var i := IdAt(tx.entries, |tx.entries|, tx'.entries[b].id);
    var later := IdAt(tx'.entries, |tx'.entries|, tx.entries[a].id);
    AtId(tx'.entries, |tx'.entries|, b);
    assert a < i;
    AtId(tx.entries, i, a);
    var j := LeastUse(tx'.entries, LineIds(tx.entries[..i]), later);
    FreshPrefix(ledger, tx, i);
    FreshPrefix(ledger, tx', j);
    var x := IdAt(tx.entries, i, tx'.entries[j].id);
    PrefixApart(tx.entries[..i], tx'.entries, j);
    assert b < j;
    AtId(tx'.entries, j, b);
    assert CrossAt(ledger, tx, tx', i, j);
  }

  lemma PrefixApart(lines: seq<Entry>, lines': seq<Entry>, j: nat)
    requires j <= |lines'| && forall k :: 0 <= k < j ==> lines'[k].id !in LineIds(lines)
    ensures LineIds(lines) !! LineIds(lines'[..j])
  {
    forall id | id in LineIds(lines'[..j])
      ensures id !in LineIds(lines)
    {
      var k := IdAt(lines', j, id);
    }
  }

  // ---- A pair that does it ----

  /** Two posts on four different accounts, whose two line ids come in opposite order. */
  function CrossedTx(id: string, debited: string, credited: string, first: string, second: string): Transaction
    requires id != "" && debited != "" && credited != "" && first != "" && second != ""
  {
    Transaction(id, "", [Line(first, debited, Debit, Amount(1, CURRENCY_SAR)),
                         Line(second, credited, Credit, Amount(1, CURRENCY_SAR))])
  }

  function CrossedLedger(): Ledger {
    Ledger(map["a" := Account("a", Asset, "A"), "b" := Account("b", Liability, "B"),
               "c" := Account("c", Asset, "C"), "d" := Account("d", Liability, "D")], {}, [])
  }

  function CrossedStart(): State {
    State(CrossedLedger(),
          map[0 := Post(CrossedTx("t0", "a", "b", "x", "y"), Idle),
              1 := Post(CrossedTx("t1", "c", "d", "y", "x"), Idle)],
          [])
  }

  lemma CrossedTotals(tx: Transaction)
    requires |tx.entries| == 2 && tx.entries[0].side == Debit && tx.entries[1].side == Credit
    requires tx.entries[0].amount == tx.entries[1].amount == Amount(1, CURRENCY_SAR)
    ensures Balanced(tx.entries)
  {
    var one := tx.entries[..1];
    assert one[..0] == [];
    assert Total(one, Debit) == 1 && Total(one, Credit) == 0;
  }

  lemma CrossedCheck(account: Account, tx: Transaction)
    requires |tx.entries| == 2 && tx.entries[0].side == Debit && tx.entries[1].side == Credit
    requires tx.entries[0].amount == tx.entries[1].amount == Amount(1, CURRENCY_SAR)
    requires account.id == (if account.IsDebitNormal() then tx.entries[0].accountId else tx.entries[1].accountId)
    requires tx.entries[0].accountId != tx.entries[1].accountId
    ensures CheckAccount(account, [], tx.entries).None?
  {
    var one := tx.entries[..1];
    assert one[..0] == [];
    assert Net(account, one) == if account.IsDebitNormal() then 1 else 0;
    assert Net(account, tx.entries) == 1;
    assert RunsWithinBounds(account, 0, one);
  }

  lemma {:induction false} NothingRefused(accounts: map<string, Account>, plan: seq<string>, listings: seq<seq<Entry>>,
      added: seq<Entry>)
    requires |listings| <= |plan| && forall i :: 0 <= i < |plan| ==> plan[i] in accounts
    requires forall k :: 0 <= k < |listings| ==> CheckAccount(accounts[plan[k]], listings[k], added).None?
    ensures FirstRefusal(accounts, plan, listings, added) == None
  {
    if listings != [] {
      NothingRefused(accounts, plan, listings[..|listings| - 1], added);
    }
  }

  lemma CrossedInserts(tx: Transaction, debited: Account, credited: Account)
    requires debited.IsDebitNormal() && !credited.IsDebitNormal() && debited.id != credited.id
    requires var accounts := CrossedLedger().accounts;
             && debited.id in accounts && accounts[debited.id] == debited
             && credited.id in accounts && accounts[credited.id] == credited
    requires |tx.entries| == 2 && tx.entries[0].side == Debit && tx.entries[1].side == Credit
    requires tx.entries[0].accountId == debited.id && tx.entries[1].accountId == credited.id
    requires tx.entries[0].amount == tx.entries[1].amount == Amount(1, CURRENCY_SAR)
    ensures MayInsert(CrossedLedger(), tx)
    ensures forall id :: id in Members(LockOrder(tx)) ==> id == debited.id || id == credited.id
  {
    var ledger, plan := CrossedLedger(), LockOrder(tx);
    CrossedTotals(tx);
    CrossedCheck(debited, tx);
    CrossedCheck(credited, tx);
    hide CheckAccount, Balanced, FirstRefusal;
    LockOrderCovers(tx);
    MembersIs(plan);
    forall id | id in plan
      ensures id == debited.id || id == credited.id
    {
      var e :| e in tx.entries && e.accountId == id;
    }
    var listings := seq(|plan|, k => []);
    forall k | 0 <= k < |plan|
      ensures plan[k] in ledger.accounts && CheckAccount(ledger.accounts[plan[k]], listings[k], tx.entries).None?
    {
      assert plan[k] in plan;
    }
    NothingRefused(ledger.accounts, plan, listings, tx.entries);
    assert Passes(ledger, tx, listings);
  }

  lemma CrossedCross()
    ensures CrossAt(CrossedLedger(), CrossedTx("t0", "a", "b", "x", "y"), CrossedTx("t1", "c", "d", "y", "x"), 1, 1)
  {
    var tx, tx' := CrossedTx("t0", "a", "b", "x", "y"), CrossedTx("t1", "c", "d", "y", "x");
    assert tx.entries[..1] == [tx.entries[0]] && tx'.entries[..1] == [tx'.entries[0]];
    assert [tx.entries[0]][0].id == "x" && [tx'.entries[0]][0].id == "y";
    assert LineIds(tx.entries[..1]) == {"x"} && LineIds(tx'.entries[..1]) == {"y"};
    assert "x" != "y";
  }

  lemma CrossedInit()
    ensures Pair(CrossedStart(), 0, 1)
  {
    var ledger := CrossedLedger();
    forall id | id in ledger.accounts
      ensures BalanceOf(ledger, id) >= 0
    {
    }
  }

  lemma CrossedMayBlock()
    ensures MayBlockEachOther(CrossedLedger(), CrossedTx("t0", "a", "b", "x", "y"), CrossedTx("t1", "c", "d", "y", "x"))
  {
    hide MayInsert, CrossAt, Members, LockOrder;
    CrossedInserts(CrossedTx("t0", "a", "b", "x", "y"), Account("a", Asset, "A"), Account("b", Liability, "B"));
    CrossedInserts(CrossedTx("t1", "c", "d", "y", "x"), Account("c", Asset, "C"), Account("d", Liability, "D"));
    CrossedCross();
  }

  /** A run of two posts that ends with both unfinished and neither able ever to move again. */
  lemma CrossedLinesDeadlock() returns (trace: seq<State>)
    ensures Trace(trace) && trace[0] == CrossedStart() && NobodyMoves(trace[|trace| - 1])
  {
    hide MayBlockEachOther, Init, CrossedTx;
    CrossedInit();
    CrossedMayBlock();
    trace := RunIntoBlock(CrossedStart(), 0, 1, CrossedLedger());
  }
}
