/**
 * Any number of posts interleaved statement by statement: lock the next account, read and check the
 * next account, insert the header, insert the next line, commit or roll back. Locks and freshly
 * inserted keys are held until the post finishes.
 */
module PostingMachine {
  import opened Errors
  import opened LedgerDomain
  import opened Ordering
  import opened LedgerStore

  /** What each post has done so far; written counts the header and then the lines. */
  datatype Phase =
    | Idle
    | Locking(plan: seq<string>, held: nat, doomed: bool)
    | Checking(plan: seq<string>, listings: seq<seq<Entry>>)
    | Inserting(plan: seq<string>, listings: seq<seq<Entry>>, written: nat)
    | Failing(plan: seq<string>, written: nat, verdict: Verdict)
    | Finished(verdict: Verdict)

  datatype Post = Post(tx: Transaction, phase: Phase)

  type PostId = nat

  /** The history: who was decided how, and the committed ledger before and after. */
  datatype Event =
    | Decided(who: PostId, tx: Transaction, verdict: Verdict, before: Ledger, after: Ledger)
    | Created(account: Account, before: Ledger, after: Ledger)

  datatype State = State(ledger: Ledger, posts: map<PostId, Post>, log: seq<Event>)

  // ---- Locks and keys ----

  function Held(phase: Phase): set<string> {
    match phase
    case Idle => {}
    case Locking(plan, held, _) => Members(if held <= |plan| then plan[..held] else plan)
    case Checking(plan, _) => Members(plan)
    case Inserting(plan, _, _) => Members(plan)
    case Failing(plan, _, _) => Members(plan)
    case Finished(_) => {}
  }

  function Written(phase: Phase): nat {
    match phase
    case Inserting(_, _, written) => written
    case Failing(_, written, _) => written
    case _ => 0
  }

  predicate HoldsHeader(post: Post) {
    Written(post.phase) >= 1
  }

  function WrittenLines(post: Post): seq<Entry> {
    var n := Written(post.phase);
    if 1 <= n <= |post.tx.entries| + 1 then post.tx.entries[..n - 1] else []
  }

  ghost predicate AccountFree(s: State, p: PostId, id: string) {
    forall q :: q in s.posts && q != p ==> id !in Held(s.posts[q].phase)
  }

  ghost predicate HeaderFree(s: State, p: PostId, id: string) {
    forall q :: q in s.posts && q != p && HoldsHeader(s.posts[q]) ==> s.posts[q].tx.id != id
  }

  ghost predicate LineFree(s: State, p: PostId, id: string) {
    forall q :: q in s.posts && q != p ==> id !in LineIds(WrittenLines(s.posts[q]))
  }

  // ---- One statement of one post ----

  /** The phase a statement leads to, the verdict it settles, and whether it commits. */
  datatype Outcome = Outcome(phase: Phase, decision: Option<Verdict>, commits: bool)

  ghost function Advance(ledger: Ledger, post: Post, listing: seq<Entry>): Outcome
    requires post.phase.Checking? ==> PlanKnown(ledger, post.phase.plan)
  {
    var tx := post.tx;
    var conflict := Refused(Domain(Conflict));
    match post.phase
    case Idle =>
      if !Balanced(tx.entries) then
        var verdict := Refused(Domain(UnbalancedTransaction));
        Outcome(Finished(verdict), Some(verdict), false)
      else
        var doomed := !KnownAccounts(ledger, tx);
        Outcome(Locking(KnownPart(ledger, LockOrder(tx)), 0, doomed),
                if doomed then Some(Refused(Domain(Validation))) else None, false)
    case Locking(plan, held, doomed) =>
      if held < |plan| then Outcome(Locking(plan, held + 1, doomed), None, false)
      else if doomed then Outcome(Failing(plan, 0, Refused(Domain(Validation))), None, false)
      else Outcome(Checking(plan, []), None, false)
    case Checking(plan, listings) =>
      if |listings| < |plan| then
        match CheckAccount(ledger.accounts[plan[|listings|]], listing, tx.entries)
        case Some(e) => Outcome(Failing(plan, 0, Refused(e)), Some(Refused(e)), false)
        case None => Outcome(Checking(plan, listings + [listing]), None, false)
      else Outcome(Inserting(plan, listings, 0), None, false)
    case Inserting(plan, listings, written) =>
      if written == 0 then
        if tx.id in ledger.headers then Outcome(Failing(plan, 0, conflict), Some(conflict), false)
        else Outcome(Inserting(plan, listings, 1), None, false)
      else if written <= |tx.entries| then
        if LineTaken(ledger, tx, written - 1) then Outcome(Failing(plan, written, conflict), Some(conflict), false)
        else Outcome(Inserting(plan, listings, written + 1), None, false)
      else Outcome(Finished(Posted), Some(Posted), true)
    case Failing(_, _, verdict) => Outcome(Finished(verdict), None, false)
    case Finished(_) => Outcome(post.phase, None, false)
  }

  /** Whether the next statement can run now, instead of waiting for another post to finish. */
  ghost predicate Enabled(s: State, p: PostId)
    requires p in s.posts
  {
    var post := s.posts[p];
    match post.phase
    case Locking(plan, held, _) => held < |plan| ==> AccountFree(s, p, plan[held])
    case Inserting(_, _, written) =>
      if written == 0 then post.tx.id in s.ledger.headers || HeaderFree(s, p, post.tx.id)
      else if written <= |post.tx.entries| then
        LineTaken(s.ledger, post.tx, written - 1) || LineFree(s, p, post.tx.entries[written - 1].id)
      else true
    case Finished(_) => false
    case _ => true
  }

  /** A read in the check phase returns some listing of the account it reads. */
  ghost predicate ReadsTruly(ledger: Ledger, post: Post, listing: seq<Entry>) {
    post.phase.Checking? ==>
      && PlanKnown(ledger, post.phase.plan)
      && (|post.phase.listings| < |post.phase.plan| ==>
          IsListing(ledger, post.phase.plan[|post.phase.listings|], listing))
  }

  ghost predicate Move(s: State, s': State, p: PostId, listing: seq<Entry>) {
    && p in s.posts && Enabled(s, p)
    && ReadsTruly(s.ledger, s.posts[p], listing)
    && var o := Advance(s.ledger, s.posts[p], listing);
       var after := if o.commits then WithJournal(s.ledger, s.posts[p].tx) else s.ledger;
       s' == State(after, s.posts[p := Post(s.posts[p].tx, o.phase)],
                   if o.decision.None? then s.log
                   else s.log + [Decided(p, s.posts[p].tx, o.decision.value, s.ledger, after)])
  }

  /** A lost connection: the database rolls the post back and the caller learns no verdict. */
  ghost predicate Abort(s: State, s': State, p: PostId) {
    && p in s.posts && !s.posts[p].phase.Finished?
    && s' == s.(posts := s.posts[p := Post(s.posts[p].tx, Finished(Refused(Infrastructure)))])
  }

  ghost predicate Create(s: State, s': State, account: Account) {
    && account.id !in s.ledger.accounts
    && var after := Opened(s.ledger, account);
       s' == State(after, s.posts, s.log + [Created(account, s.ledger, after)])
  }

  ghost predicate Step(s: State, s': State) {
    || (exists p, listing :: Move(s, s', p, listing))
    || (exists p :: Abort(s, s', p))
    || (exists account :: Create(s, s', account))
  }

  ghost predicate Init(s: State) {
    && SoundBooks(s.ledger) && s.log == []
    && forall p :: p in s.posts ==> s.posts[p].phase == Idle
  }

  ghost predicate Trace(trace: seq<State>) {
    && trace != [] && Init(trace[0])
    && forall i :: 0 <= i < |trace| - 1 ==> Step(trace[i], trace[i + 1])
  }

  // ---- The invariant of one post ----

  ghost predicate PostOk(ledger: Ledger, post: Post) {
    var tx := post.tx;
    match post.phase
    case Idle => true
    case Locking(plan, held, doomed) =>
      && held <= |plan| && StrictlyIncreasing(plan) && PlanKnown(ledger, plan) && Balanced(tx.entries)
      && (!doomed ==> plan == LockOrder(tx))
    case Checking(plan, listings) =>
      && plan == LockOrder(tx) && PlanKnown(ledger, plan) && Balanced(tx.entries)
      && Listings(ledger, plan, listings)
      && FirstRefusal(ledger.accounts, plan, listings, tx.entries) == None
    case Inserting(plan, listings, written) =>
      && plan == LockOrder(tx) && PlanKnown(ledger, plan) && Balanced(tx.entries)
      && Listings(ledger, plan, listings) && |listings| == |plan|
      && FirstRefusal(ledger.accounts, plan, listings, tx.entries) == None
      && written <= |tx.entries| + 1
      && (written >= 1 ==> KeysFresh(ledger, tx, written - 1))
    case Failing(plan, written, verdict) => written <= |tx.entries| + 1 && verdict.Refused?
    case Finished(_) => true
  }

  /** The header and the first n lines collide with nothing committed. */
  ghost predicate KeysFresh(ledger: Ledger, tx: Transaction, n: nat) {
    && n <= |tx.entries|
    && tx.id !in ledger.headers
    && LineIds(tx.entries[..n]) !! LineIds(ledger.lines)
    && DistinctIds(tx.entries[..n])
  }

  ghost predicate Exclusive(s: State) {
    forall p, q :: p in s.posts && q in s.posts && p != q ==> Apart(s.posts[p], s.posts[q])
  }

  /** Two posts share no locked account and no freshly written key. */
  ghost predicate Apart(a: Post, b: Post) {
    && Held(a.phase) !! Held(b.phase)
    && (HoldsHeader(a) && HoldsHeader(b) ==> a.tx.id != b.tx.id)
    && LineIds(WrittenLines(a)) !! LineIds(WrittenLines(b))
  }

  lemma IdleKeepsPost(ledger: Ledger, tx: Transaction)
    requires Balanced(tx.entries)
    ensures PostOk(ledger, Post(tx, Locking(KnownPart(ledger, LockOrder(tx)), 0, !KnownAccounts(ledger, tx))))
  {
    LockOrderCovers(tx);
    PlanIsKnown(ledger, tx);
    KnownPartIs(ledger, LockOrder(tx));
  }

  lemma LockingKeepsPost(ledger: Ledger, post: Post, listing: seq<Entry>)
    requires PostOk(ledger, post) && post.phase.Locking?
    ensures PostOk(ledger, Post(post.tx, Advance(ledger, post, listing).phase))
  {
    if Advance(ledger, post, listing).phase.Checking? {
      assert Listings(ledger, post.phase.plan, []);
    }
  }

  lemma CheckingKeepsPost(ledger: Ledger, post: Post, listing: seq<Entry>)
    requires PostOk(ledger, post) && ReadsTruly(ledger, post, listing) && post.phase.Checking?
    ensures PostOk(ledger, Post(post.tx, Advance(ledger, post, listing).phase))
  {
    var o := Advance(ledger, post, listing);
    if o.phase.Checking? {
      assert o.phase.listings[..|post.phase.listings|] == post.phase.listings;
    }
  }

  lemma InsertingKeepsPost(ledger: Ledger, post: Post, listing: seq<Entry>)
    requires PostOk(ledger, post) && post.phase.Inserting?
    ensures PostOk(ledger, Post(post.tx, Advance(ledger, post, listing).phase))
  {
    var o, n := Advance(ledger, post, listing), post.phase.written;
    if n == 0 {
      assert post.tx.entries[..0] == [];
    } else if n <= |post.tx.entries| && o.phase.Inserting? {
      LineJoins(ledger, post.tx, n - 1);
    }
  }

  /** A post keeps its own invariant through its own statements. */
  lemma AdvanceKeepsPost(ledger: Ledger, post: Post, listing: seq<Entry>)
    requires PostOk(ledger, post) && ReadsTruly(ledger, post, listing)
    ensures PostOk(ledger, Post(post.tx, Advance(ledger, post, listing).phase))
    ensures Advance(ledger, post, listing).commits ==> Advance(ledger, post, listing).phase.Finished?
  {
    match post.phase
    case Idle => if Balanced(post.tx.entries) { IdleKeepsPost(ledger, post.tx); }
    case Locking(_, _, _) => LockingKeepsPost(ledger, post, listing);
    case Checking(_, _) => CheckingKeepsPost(ledger, post, listing);
    case Inserting(_, _, _) => InsertingKeepsPost(ledger, post, listing);
    case _ =>
  }

  lemma LineJoins(ledger: Ledger, tx: Transaction, n: nat)
    requires KeysFresh(ledger, tx, n) && n < |tx.entries| && !LineTaken(ledger, tx, n)
    ensures KeysFresh(ledger, tx, n + 1)
  {
    var lines := tx.entries[..n];
    assert tx.entries[..n + 1] == lines + [tx.entries[n]];
    assert forall i :: 0 <= i < n ==> lines[i].id in LineIds(lines);
  }

  // ---- What other posts may do meanwhile ----

  /** A commit that touches none of a post's accounts or keys leaves the post's findings standing. */
  lemma CommitElsewhere(ledger: Ledger, tx: Transaction, other: Post)
    requires PostOk(ledger, other)
    requires forall e :: e in tx.entries ==> e.accountId !in Held(other.phase)
    requires HoldsHeader(other) ==> other.tx.id != tx.id
    requires LineIds(tx.entries) !! LineIds(WrittenLines(other))
    ensures PostOk(WithJournal(ledger, tx), other)
  {
    var after := WithJournal(ledger, tx);
    if other.phase.Checking? || other.phase.Inserting? {
      var plan, listings := other.phase.plan, other.phase.listings;
      MembersIs(plan);
      forall i | 0 <= i < |listings|
        ensures IsListing(after, plan[i], listings[i])
      {
        OfAccountConcat(plan[i], ledger.lines, tx.entries);
        NothingFor(plan[i], tx.entries);
      }
      if HoldsHeader(other) {
        LineIdsConcat(ledger.lines, tx.entries);
      }
    }
  }

  lemma {:induction false} NothingFor(id: string, entries: seq<Entry>)
    requires forall e :: e in entries ==> e.accountId != id
    ensures OfAccount(id, entries) == []
  {
    if entries != [] {
      NothingFor(id, entries[..|entries| - 1]);
    }
  }

  lemma {:induction false} SameRefusal(a: map<string, Account>, b: map<string, Account>, plan: seq<string>,
      listings: seq<seq<Entry>>, added: seq<Entry>)
    requires |listings| <= |plan|
    requires forall i :: 0 <= i < |plan| ==> plan[i] in a && plan[i] in b && a[plan[i]] == b[plan[i]]
    ensures FirstRefusal(a, plan, listings, added) == FirstRefusal(b, plan, listings, added)
  {
    if listings != [] {
      SameRefusal(a, b, plan, listings[..|listings| - 1], added);
    }
  }

  lemma CreationElsewhere(ledger: Ledger, account: Account, other: Post)
    requires PostOk(ledger, other) && account.id !in ledger.accounts
    ensures PostOk(Opened(ledger, account), other)
  {
    var after := Opened(ledger, account);
    if other.phase.Checking? || other.phase.Inserting? {
      SameRefusal(ledger.accounts, after.accounts, other.phase.plan, other.phase.listings, other.tx.entries);
    }
  }

  // ---- Mutual exclusion ----

  lemma LockTaken(plan: seq<string>, held: nat)
    requires held <= |plan|
    ensures held < |plan| ==> Members(plan[..held + 1]) == Members(plan[..held]) + {plan[held]}
    ensures held == |plan| ==> Members(plan[..held]) == Members(plan)
  {
    if held < |plan| {
      assert plan[..held + 1] == plan[..held] + [plan[held]];
    } else {
      assert plan[..held] == plan;
    }
  }

  lemma LineWritten(tx: Transaction, n: nat)
    requires n < |tx.entries|
    ensures LineIds(tx.entries[..n + 1]) == LineIds(tx.entries[..n]) + {tx.entries[n].id}
  {
    assert tx.entries[..n + 1] == tx.entries[..n] + [tx.entries[n]];
    LineIdsConcat(tx.entries[..n], [tx.entries[n]]);
  }

  /** What a statement adds to the locks and keys of its post. */
  lemma AdvanceTakes(ledger: Ledger, post: Post, listing: seq<Entry>)
    requires PostOk(ledger, post) && ReadsTruly(ledger, post, listing)
    ensures var next := Post(post.tx, Advance(ledger, post, listing).phase);
            && Held(next.phase) <= Held(post.phase) + (if post.phase.Locking?
                && post.phase.held < |post.phase.plan| then {post.phase.plan[post.phase.held]} else {})
            && (HoldsHeader(next) ==> HoldsHeader(post) || (post.phase.Inserting? && post.tx.id !in ledger.headers))
            && LineIds(WrittenLines(next)) <= LineIds(WrittenLines(post))
               + (if post.phase.Inserting? && 1 <= post.phase.written <= |post.tx.entries|
                   && !LineTaken(ledger, post.tx, post.phase.written - 1)
                  then {post.tx.entries[post.phase.written - 1].id} else {})
  {
    hide CheckAccount, FirstRefusal, IsListing, LockOrder, StrictlyIncreasing, PlanKnown, DistinctIds, LineTaken,
        Total, KnownAccounts;
    match post.phase
    case Idle => assert KnownPart(ledger, LockOrder(post.tx))[..0] == [];
    case Locking(plan, held, doomed) => LockTaken(plan, held);
    case Inserting(plan, listings, written) =>
      if written == 0 {
        assert post.tx.entries[..0] == [];
      } else if written <= |post.tx.entries| {
        LineWritten(post.tx, written - 1);
      }
    case _ =>
  }

  /** A statement takes at most the lock or key that Enabled found free. */
  lemma AdvanceTakesOneThing(s: State, p: PostId, listing: seq<Entry>, q: PostId)
    requires p in s.posts && q in s.posts && p != q
    requires Enabled(s, p) && PostOk(s.ledger, s.posts[p]) && ReadsTruly(s.ledger, s.posts[p], listing)
    requires Apart(s.posts[p], s.posts[q])
    ensures Apart(Post(s.posts[p].tx, Advance(s.ledger, s.posts[p], listing).phase), s.posts[q])
  {
    AdvanceTakes(s.ledger, s.posts[p], listing);
  }

  // ---- The decisions are those of an undisturbed post ----

  /** Refused at the check of one account: an undisturbed post here and now is refused alike. */
  lemma CheckDecides(ledger: Ledger, post: Post, listing: seq<Entry>, e: Error)
    requires PostOk(ledger, post) && ReadsTruly(ledger, post, listing)
    requires post.phase.Checking? && |post.phase.listings| < |post.phase.plan|
    requires CheckAccount(ledger.accounts[post.phase.plan[|post.phase.listings|]], listing, post.tx.entries) == Some(e)
    ensures AtomicPost(ledger, post.tx, Refused(e), ledger)
  {
    hide Projected, RunsWithinBounds, CheckAccount;
    var plan, listings := post.phase.plan, post.phase.listings;
    var read := listings + [listing];
    assert read[..|listings|] == listings;
    var more := RemainingListings(ledger, plan, |read|);
    FirstRefusalExtends(ledger.accounts, plan, read, more, post.tx.entries);
    PlanIsKnown(ledger, post.tx);
    assert Readable(ledger, post.tx, read + more);
    assert VerdictOn(ledger, post.tx, read + more) == Refused(e);
  }

  lemma InsertDecides(ledger: Ledger, post: Post)
    requires PostOk(ledger, post) && post.phase.Inserting?
    ensures Conflicts(ledger, post.tx) ==> AtomicPost(ledger, post.tx, Refused(Domain(Conflict)), ledger)
    ensures !Conflicts(ledger, post.tx) ==> AtomicPost(ledger, post.tx, Posted, WithJournal(ledger, post.tx))
  {
    PlanIsKnown(ledger, post.tx);
    assert Readable(ledger, post.tx, post.phase.listings);
  }

  /** Every verdict is the verdict of the whole post run alone at the moment it is decided. */
  lemma AdvanceDecidesAtomically(ledger: Ledger, post: Post, listing: seq<Entry>)
    requires PostOk(ledger, post) && ReadsTruly(ledger, post, listing)
    ensures var o := Advance(ledger, post, listing);
            o.decision.Some? ==>
              AtomicPost(ledger, post.tx, o.decision.value, if o.commits then WithJournal(ledger, post.tx) else ledger)
  {
    var tx := post.tx;
    var o := Advance(ledger, post, listing);
    match post.phase
    case Idle =>
      if o.decision.Some? {
        assert Readable(ledger, tx, []);
        assert VerdictOn(ledger, tx, []) == o.decision.value;
      }
    case Checking(plan, listings) =>
      if o.decision.Some? {
        CheckDecides(ledger, post, listing, o.decision.value.error);
      }
    case Inserting(plan, listings, written) =>
      InsertDecides(ledger, post);
      if 1 <= written <= |tx.entries| {
        if LineTaken(ledger, tx, written - 1) {
          TakenLineConflicts(ledger, tx, written - 1);
        }
      } else if written > |tx.entries| {
        assert tx.entries[..written - 1] == tx.entries;
      }
    case _ =>
  }

  // ---- The history ----

  ghost predicate EventOk(e: Event) {
    match e
    case Decided(_, tx, verdict, before, after) => AtomicPost(before, tx, verdict, after)
    case Created(account, before, after) =>
      account.id !in before.accounts && after == Opened(before, account)
  }

  /** The events happen one after another, each on the ledger the one before it left. */
  ghost predicate SerialRun(first: Ledger, log: seq<Event>, last: Ledger)
    decreases |log|
  {
    if log == [] then first == last
    else
      var e := log[|log| - 1];
      EventOk(e) && e.after == last && SerialRun(first, log[..|log| - 1], e.before)
  }

  /** The verdict a post already carries, whether or not it has released its locks. */
  function Carried(phase: Phase): Option<Verdict> {
    match phase
    case Locking(_, _, doomed) => if doomed then Some(Refused(Domain(Validation))) else None
    case Failing(_, _, verdict) => Some(verdict)
    case Finished(verdict) => Some(verdict)
    case _ => None
  }

  ghost predicate Answers(e: Event, posts: map<PostId, Post>) {
    e.Decided? ==>
      && e.who in posts && posts[e.who].tx == e.tx
      && (Carried(posts[e.who].phase) == Some(e.verdict) || posts[e.who].phase == Finished(Refused(Infrastructure)))
  }

  ghost predicate InLog(log: seq<Event>, p: PostId, verdict: Verdict) {
    exists i :: 0 <= i < |log| && log[i].Decided? && log[i].who == p && log[i].verdict == verdict
  }

  /** Each post is decided at most once, and those that carry a verdict got it from the history. */
  ghost predicate Recorded(s: State) {
    && (forall i :: 0 <= i < |s.log| ==> Answers(s.log[i], s.posts))
    && (forall i, j :: 0 <= i < j < |s.log| && s.log[i].Decided? && s.log[j].Decided? ==> s.log[i].who != s.log[j].who)
    && (forall p ::
          p in s.posts && Carried(s.posts[p].phase).Some? && s.posts[p].phase != Finished(Refused(Infrastructure))
          ==> InLog(s.log, p, Carried(s.posts[p].phase).value))
  }

  ghost predicate PostsOk(s: State) {
    forall p :: p in s.posts ==> PostOk(s.ledger, s.posts[p])
  }

  ghost predicate Inv(first: Ledger, s: State) {
    && SoundBooks(first) && SoundBooks(s.ledger)
    && PostsOk(s) && Exclusive(s)
    && SerialRun(first, s.log, s.ledger) && Recorded(s)
  }

  // ---- Every step keeps the invariant ----

  lemma MoveKeepsPosts(s: State, s': State, p: PostId, listing: seq<Entry>)
    requires PostsOk(s) && Exclusive(s) && Move(s, s', p, listing)
    ensures PostsOk(s') && Exclusive(s')
  {
    var post := s.posts[p];
    var o := Advance(s.ledger, post, listing);
    AdvanceKeepsPost(s.ledger, post, listing);
    forall q | q in s'.posts
      ensures PostOk(s'.ledger, s'.posts[q])
      ensures q != p ==> Apart(s'.posts[p], s'.posts[q]) && Apart(s'.posts[q], s'.posts[p])
    {
      if q != p {
        assert Apart(post, s.posts[q]);
        AdvanceTakesOneThing(s, p, listing, q);
        if o.commits {
          CommitterHoldsItsAccounts(s.ledger, post);
          CommitElsewhere(s.ledger, post.tx, s.posts[q]);
        }
      }
    }
  }

  lemma CommitterHoldsItsAccounts(ledger: Ledger, post: Post)
    requires PostOk(ledger, post) && post.phase.Inserting? && post.phase.written == |post.tx.entries| + 1
    ensures forall e :: e in post.tx.entries ==> e.accountId in Held(post.phase)
    ensures WrittenLines(post) == post.tx.entries && HoldsHeader(post)
  {
    LockOrderCovers(post.tx);
    MembersIs(post.phase.plan);
    forall e | e in post.tx.entries
      ensures e.accountId in Held(post.phase)
    {
      assert e.accountId in LockOrder(post.tx);
    }
  }

  lemma MoveKeepsHistory(first: Ledger, s: State, s': State, p: PostId, listing: seq<Entry>)
    requires SoundBooks(s.ledger) && PostsOk(s) && SerialRun(first, s.log, s.ledger)
    requires Move(s, s', p, listing)
    ensures SerialRun(first, s'.log, s'.ledger) && SoundBooks(s'.ledger)
  {
    AdvanceDecidesAtomically(s.ledger, s.posts[p], listing);
    var o := Advance(s.ledger, s.posts[p], listing);
    if o.decision.Some? {
      PostKeepsBooksSound(s.ledger, s.posts[p].tx, o.decision.value, s'.ledger);
      assert s'.log[..|s'.log| - 1] == s.log;
    }
  }

  lemma MoveKeepsRecord(s: State, s': State, p: PostId, listing: seq<Entry>)
    requires PostsOk(s) && Recorded(s) && Move(s, s', p, listing)
    ensures Recorded(s')
  {
    var o := Advance(s.ledger, s.posts[p], listing);
    CarriedGrows(s.ledger, s.posts[p], listing);
    forall i | 0 <= i < |s'.log|
      ensures Answers(s'.log[i], s'.posts)
    {
      if i < |s.log| {
        assert s'.log[i] == s.log[i] && Answers(s.log[i], s.posts);
      }
    }
    forall q | q in s'.posts && Carried(s'.posts[q].phase).Some?
        && s'.posts[q].phase != Finished(Refused(Infrastructure))
      ensures InLog(s'.log, q, Carried(s'.posts[q].phase).value)
    {
      if q == p && o.decision.Some? {
        assert s'.log[|s.log|].who == p;
      } else {
        assert InLog(s.log, q, Carried(s'.posts[q].phase).value);
        var i :| 0 <= i < |s.log| && s.log[i].Decided? && s.log[i].who == q
            && s.log[i].verdict == Carried(s'.posts[q].phase).value;
        assert s'.log[i] == s.log[i];
      }
    }
  }

  /** A verdict, once carried, is never exchanged for another, and a decision is news. */
  lemma CarriedGrows(ledger: Ledger, post: Post, listing: seq<Entry>)
    requires PostOk(ledger, post) && !post.phase.Finished? && ReadsTruly(ledger, post, listing)
    ensures var o := Advance(ledger, post, listing);
            && (o.decision.Some? ==> Carried(post.phase).None? && Carried(o.phase) == o.decision)
            && (o.decision.None? ==> Carried(o.phase) == Carried(post.phase))
            && (post.phase.Failing? ==> o.decision.None?)
  {
  }

  lemma MoveKeepsInv(first: Ledger, s: State, s': State, p: PostId, listing: seq<Entry>)
    requires Inv(first, s) && Move(s, s', p, listing)
    ensures Inv(first, s')
  {
    MoveKeepsPosts(s, s', p, listing);
    MoveKeepsHistory(first, s, s', p, listing);
    MoveKeepsRecord(s, s', p, listing);
  }

  lemma AbortKeepsRecord(s: State, s': State, p: PostId)
    requires Recorded(s) && Abort(s, s', p)
    ensures Recorded(s')
  {
    forall i | 0 <= i < |s'.log|
      ensures Answers(s'.log[i], s'.posts)
    {
      assert Answers(s.log[i], s.posts);
    }
    forall q | q in s'.posts && Carried(s'.posts[q].phase).Some?
        && s'.posts[q].phase != Finished(Refused(Infrastructure))
      ensures InLog(s'.log, q, Carried(s'.posts[q].phase).value)
    {
      assert q != p;
    }
  }

  lemma AbortKeepsPosts(s: State, s': State, p: PostId)
    requires PostsOk(s) && Exclusive(s) && Abort(s, s', p)
    ensures PostsOk(s') && Exclusive(s')
  {
    var ended := Post(s.posts[p].tx, Finished(Refused(Infrastructure)));
    assert PostOk(s.ledger, ended);
    forall q | q in s.posts
      ensures Apart(ended, s.posts[q]) && Apart(s.posts[q], ended)
    {
    }
  }

  lemma AbortKeepsInv(first: Ledger, s: State, s': State, p: PostId)
    requires Inv(first, s) && Abort(s, s', p)
    ensures Inv(first, s')
  {
    hide SoundBooks, SerialRun, PostsOk, Exclusive, Recorded;
    AbortKeepsPosts(s, s', p);
    AbortKeepsRecord(s, s', p);
  }

  lemma CreateKeepsInv(first: Ledger, s: State, s': State, account: Account)
    requires Inv(first, s) && Create(s, s', account)
    ensures Inv(first, s')
  {
    forall q | q in s'.posts
      ensures PostOk(s'.ledger, s'.posts[q])
    {
      CreationElsewhere(s.ledger, account, s.posts[q]);
    }
    assert s'.log[..|s.log|] == s.log;
    NetElsewhere(account, s.ledger.lines);
    forall i | 0 <= i < |s'.log|
      ensures Answers(s'.log[i], s'.posts)
    {
      if i < |s.log| {
        assert Answers(s.log[i], s.posts);
      }
    }
    forall q | q in s'.posts && Carried(s'.posts[q].phase).Some?
        && s'.posts[q].phase != Finished(Refused(Infrastructure))
      ensures InLog(s'.log, q, Carried(s'.posts[q].phase).value)
    {
      assert InLog(s.log, q, Carried(s.posts[q].phase).value);
      var i :| 0 <= i < |s.log| && s.log[i].Decided? && s.log[i].who == q
          && s.log[i].verdict == Carried(s.posts[q].phase).value;
      assert s'.log[i] == s.log[i];
    }
  }

  lemma StepKeepsInv(first: Ledger, s: State, s': State)
    requires Inv(first, s) && Step(s, s')
    ensures Inv(first, s')
  {
    if p, listing :| Move(s, s', p, listing) {
      MoveKeepsInv(first, s, s', p, listing);
    } else if p :| Abort(s, s', p) {
      AbortKeepsInv(first, s, s', p);
    } else {
      var account :| Create(s, s', account);
      CreateKeepsInv(first, s, s', account);
    }
  }

  lemma {:induction false} TraceKeepsInv(trace: seq<State>)
    requires Trace(trace)
    ensures Inv(trace[0].ledger, trace[|trace| - 1])
  {
    if |trace| > 1 {
      var before := trace[..|trace| - 1];
      TraceKeepsInv(before);
      assert Step(trace[|trace| - 2], trace[|trace| - 1]);
      StepKeepsInv(trace[0].ledger, before[|before| - 1], trace[|trace| - 1]);
    }
  }

  /**
   * Serializability. However the posts interleave, the committed ledger is the one that single,
   * undisturbed posts leave when run in the order of the history; every post that finished with a
   * verdict of its own stands in that history exactly once, with that verdict.
   */
  lemma Serializable(trace: seq<State>)
    requires Trace(trace)
    ensures var s := trace[|trace| - 1];
            && SerialRun(trace[0].ledger, s.log, s.ledger)
            && (forall i, j :: 0 <= i < j < |s.log| && s.log[i].Decided? && s.log[j].Decided? ==>
                s.log[i].who != s.log[j].who)
            && (forall p ::
                  p in s.posts && s.posts[p].phase.Finished? && s.posts[p].phase.verdict != Refused(Infrastructure)
                  ==> InLog(s.log, p, s.posts[p].phase.verdict))
            && (forall i :: 0 <= i < |s.log| ==> Answers(s.log[i], s.posts))
  {
    TraceKeepsInv(trace);
  }

  /** No overdraft ever: in every reachable state every account's balance is at least zero. */
  lemma NeverOverdrawn(trace: seq<State>, id: string)
    requires Trace(trace) && id in trace[|trace| - 1].ledger.accounts
    ensures BalanceOf(trace[|trace| - 1].ledger, id) >= 0
  {
    TraceKeepsInv(trace);
  }
}
