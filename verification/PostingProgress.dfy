/** Interleaved posts never wait for each other for ever, and every schedule runs out of work. */
module PostingProgress {
  import opened Errors
  import opened LedgerDomain
  import opened Ordering
  import opened LedgerStore
  import opened PostingMachine
  import opened TransferDomain

  /** Line ids are derived from the journal id, so two journals never share one. */
  ghost predicate LinesOwned(posts: map<PostId, Post>) {
    forall p, q, i, j ::
      p in posts && q in posts && 0 <= i < |posts[p].tx.entries| && 0 <= j < |posts[q].tx.entries|
      && posts[p].tx.entries[i].id == posts[q].tx.entries[j].id
      ==> posts[p].tx.id == posts[q].tx.id
  }

  /** Lines numbered after their journal, as transfers and their reversals are. */
  ghost predicate DerivedLineIds(tx: Transaction) {
    forall i :: 0 <= i < |tx.entries| ==> tx.entries[i].id == EntryId(tx.id, i + 1)
  }

  /** Journals whose line ids are derived from their own ids never contend for a line. */
  lemma DerivedLinesAreOwned(posts: map<PostId, Post>)
    requires forall p :: p in posts ==> DerivedLineIds(posts[p].tx)
    ensures LinesOwned(posts)
  {
    forall p, q, i, j |
      p in posts && q in posts && 0 <= i < |posts[p].tx.entries| && 0 <= j < |posts[q].tx.entries|
      && posts[p].tx.entries[i].id == posts[q].tx.entries[j].id
      ensures posts[p].tx.id == posts[q].tx.id
    {
      EntryIdInjective(posts[p].tx.id, i + 1, posts[q].tx.id, j + 1);
    }
  }

  ghost predicate Unfinished(s: State, p: PostId) {
    p in s.posts && !s.posts[p].phase.Finished?
  }

  /** Lines already written by another post are not this header holder's lines. */
  lemma LinesOfOthers(s: State, p: PostId, q: PostId, n: nat, j: nat)
    requires PostsOk(s) && Exclusive(s) && LinesOwned(s.posts)
    requires p in s.posts && q in s.posts && p != q && HoldsHeader(s.posts[p])
    requires n < |s.posts[p].tx.entries| && j < |WrittenLines(s.posts[q])|
    ensures WrittenLines(s.posts[q])[j].id != s.posts[p].tx.entries[n].id
  {
    assert Apart(s.posts[p], s.posts[q]);
    assert HoldsHeader(s.posts[q]) && WrittenLines(s.posts[q])[j] == s.posts[q].tx.entries[j];
  }

  /** Whoever has inserted a header waits for nobody. */
  lemma HeaderHolderRuns(s: State, p: PostId)
    requires PostsOk(s) && Exclusive(s) && LinesOwned(s.posts)
    requires p in s.posts && HoldsHeader(s.posts[p])
    ensures Enabled(s, p)
  {
    var post := s.posts[p];
    if post.phase.Inserting? && post.phase.written <= |post.tx.entries| {
      forall q | q in s.posts && q != p
        ensures post.tx.entries[post.phase.written - 1].id !in LineIds(WrittenLines(s.posts[q]))
      {
        forall j | 0 <= j < |WrittenLines(s.posts[q])|
          ensures WrittenLines(s.posts[q])[j].id != post.tx.entries[post.phase.written - 1].id
        {
          LinesOfOthers(s, p, q, post.phase.written - 1, j);
        }
      }
    }
  }

  lemma InserterLeadsToRunner(s: State, p: PostId) returns (r: PostId)
    requires PostsOk(s) && Exclusive(s) && LinesOwned(s.posts)
    requires p in s.posts && s.posts[p].phase.Inserting?
    ensures Unfinished(s, r) && Enabled(s, r)
  {
    r := p;
    if HoldsHeader(s.posts[p]) {
      HeaderHolderRuns(s, p);
    } else if !Enabled(s, p) {
      r :| r in s.posts && r != p && HoldsHeader(s.posts[r]) && s.posts[r].tx.id == s.posts[p].tx.id;
      HeaderHolderRuns(s, r);
    }
  }

  /** The accounts beyond an id in locking order. */
  ghost function Beyond(ledger: Ledger, id: string): set<string> {
    set a | a in ledger.accounts && Less(id, a)
  }

  lemma HigherWantIsLess(ledger: Ledger, low: string, high: string)
    requires Less(low, high) && high in ledger.accounts
    ensures Beyond(ledger, high) < Beyond(ledger, low)
  {
    LessIrreflexive(high);
    assert high in Beyond(ledger, low) && high !in Beyond(ledger, high);
    forall a | a in Beyond(ledger, high)
      ensures a in Beyond(ledger, low)
    {
      LessTransitive(low, high, a);
    }
  }

  predicate WaitsFor(post: Post, id: string) {
    post.phase.Locking? && post.phase.held < |post.phase.plan| && post.phase.plan[post.phase.held] == id
  }

  /** A holder that is itself still locking wants an account beyond all it holds. */
  lemma HolderWantsMore(ledger: Ledger, holder: Post, held: string)
    requires PostOk(ledger, holder) && holder.phase.Locking? && held in Held(holder.phase)
    requires holder.phase.held < |holder.phase.plan|
    ensures Less(held, holder.phase.plan[holder.phase.held])
    ensures holder.phase.plan[holder.phase.held] in ledger.accounts
  {
    var plan := holder.phase.plan;
    var i :| 0 <= i < holder.phase.held && plan[..holder.phase.held][i] == held;
    assert plan[i] == held;
  }

  /**
   * From any waiting post, follow who holds what it waits for. Each hop asks for a strictly greater
   * account, because everyone locks in increasing order, so the chase ends at a post that can run.
   */
  lemma ChaseHolders(s: State, p: PostId, wanted: string) returns (r: PostId)
    requires PostsOk(s) && Exclusive(s) && LinesOwned(s.posts)
    requires p in s.posts && WaitsFor(s.posts[p], wanted)
    ensures Unfinished(s, r) && Enabled(s, r)
    decreases Beyond(s.ledger, wanted)
  {
    r := p;
    if !AccountFree(s, p, wanted) {
      var q :| q in s.posts && q != p && wanted in Held(s.posts[q].phase);
      var holder := s.posts[q];
      r := q;
      if holder.phase.Inserting? {
        r := InserterLeadsToRunner(s, q);
      } else if holder.phase.Locking? && holder.phase.held < |holder.phase.plan| {
        HolderWantsMore(s.ledger, holder, wanted);
        HigherWantIsLess(s.ledger, wanted, holder.phase.plan[holder.phase.held]);
        r := ChaseHolders(s, q, holder.phase.plan[holder.phase.held]);
      }
    }
  }

  /** An enabled post has a statement to run, whatever the state. */
  lemma EnabledCanMove(s: State, p: PostId) returns (s': State, listing: seq<Entry>)
    requires PostsOk(s) && p in s.posts && Enabled(s, p)
    ensures Move(s, s', p, listing)
  {
    var post := s.posts[p];
    listing := [];
    if post.phase.Checking? && |post.phase.listings| < |post.phase.plan| {
      listing := OfAccount(post.phase.plan[|post.phase.listings|], s.ledger.lines);
    }
    var o := Advance(s.ledger, post, listing);
    var after := if o.commits then WithJournal(s.ledger, post.tx) else s.ledger;
    s' := State(after, s.posts[p := Post(post.tx, o.phase)],
                if o.decision.None? then s.log else s.log + [Decided(p, post.tx, o.decision.value, s.ledger, after)]);
  }

  /** Deadlock freedom: while any post is unfinished, some post can run its next statement. */
  lemma DeadlockFree(trace: seq<State>, waiting: PostId) returns (s': State, p: PostId, listing: seq<Entry>)
    requires Trace(trace) && LinesOwned(trace[|trace| - 1].posts)
    requires Unfinished(trace[|trace| - 1], waiting)
    ensures Move(trace[|trace| - 1], s', p, listing)
  {
    var s := trace[|trace| - 1];
    TraceKeepsInv(trace);
    p := waiting;
    var phase := s.posts[waiting].phase;
    if phase.Inserting? {
      p := InserterLeadsToRunner(s, waiting);
    } else if phase.Locking? && phase.held < |phase.plan| {
      p := ChaseHolders(s, waiting, phase.plan[phase.held]);
    }
    s', listing := EnabledCanMove(s, p);
  }

  // ---- Work runs out ----

  /** An upper bound on the statements a post still has to run. */
  function Work(post: Post): nat {
    var accounts, lines := |LockOrder(post.tx)|, |post.tx.entries|;
    match post.phase
    case Idle => 2 * accounts + lines + 6
    case Locking(plan, held, _) => (if held <= |plan| then |plan| - held else 0) + accounts + lines + 5
    case Checking(plan, listings) => (if |listings| <= |plan| then |plan| - |listings| else 0) + lines + 4
    case Inserting(_, _, written) => (if written <= lines + 1 then lines + 1 - written else 0) + 2
    case Failing(_, _, _) => 1
    case Finished(_) => 0
  }

  lemma AdvanceDoesWork(ledger: Ledger, post: Post, listing: seq<Entry>)
    requires PostOk(ledger, post) && ReadsTruly(ledger, post, listing) && !post.phase.Finished?
    ensures Work(Post(post.tx, Advance(ledger, post, listing).phase)) < Work(post)
  {
    if post.phase.Idle? {
      LockOrderCovers(post.tx);
      KnownPartIs(ledger, LockOrder(post.tx));
    }
  }

  ghost function TotalWork(posts: map<PostId, Post>): nat {
    if posts == map[] then 0
    else
      var p :| p in posts;
      Work(posts[p]) + TotalWork(posts - {p})
  }

  /** The total does not depend on the order in which the posts are added up. */
  lemma {:induction false} TotalWorkSplits(posts: map<PostId, Post>, p: PostId)
    requires p in posts
    ensures TotalWork(posts) == Work(posts[p]) + TotalWork(posts - {p})
    decreases |posts|
  {
    var q :| q in posts && TotalWork(posts) == Work(posts[q]) + TotalWork(posts - {q});
    if q != p {
      TotalWorkSplits(posts - {q}, p);
      TotalWorkSplits(posts - {p}, q);
      assert posts - {q} - {p} == posts - {p} - {q};
    }
  }

  lemma TotalWorkUpdates(posts: map<PostId, Post>, p: PostId, post: Post)
    requires p in posts
    ensures TotalWork(posts[p := post]) - Work(post) == TotalWork(posts) - Work(posts[p])
  {
    TotalWorkSplits(posts, p);
    TotalWorkSplits(posts[p := post], p);
    assert posts[p := post] - {p} == posts - {p};
  }

  ghost predicate IsMoveOrAbort(s: State, s': State) {
    (exists p, listing :: Move(s, s', p, listing)) || (exists p :: Abort(s, s', p))
  }

  /** Every statement and every abort leaves strictly less to do; new accounts leave as much. */
  lemma StepDoesWork(s: State, s': State)
    requires PostsOk(s) && Step(s, s')
    ensures TotalWork(s'.posts) <= TotalWork(s.posts)
    ensures IsMoveOrAbort(s, s') ==> TotalWork(s'.posts) < TotalWork(s.posts)
  {
    if p, listing :| Move(s, s', p, listing) {
      AdvanceDoesWork(s.ledger, s.posts[p], listing);
      TotalWorkUpdates(s.posts, p, s'.posts[p]);
    } else if p :| Abort(s, s', p) {
      TotalWorkUpdates(s.posts, p, s'.posts[p]);
    }
  }

  /** The number of steps of a run that some post takes. */
  ghost function PostSteps(trace: seq<State>): nat {
    if |trace| <= 1 then 0
    else PostSteps(trace[..|trace| - 1])
         + if IsMoveOrAbort(trace[|trace| - 2], trace[|trace| - 1]) then 1 else 0
  }

  ghost predicate AllFinished(posts: map<PostId, Post>) {
    forall p :: p in posts ==> posts[p].phase.Finished?
  }

  /** Work is used up exactly when every post has finished. */
  lemma NoWorkMeansFinished(s: State)
    ensures TotalWork(s.posts) == 0 <==> AllFinished(s.posts)
  {
    if AllFinished(s.posts) {
      AllFinishedNoWork(s.posts);
    }
    if TotalWork(s.posts) == 0 {
      forall p | p in s.posts
        ensures s.posts[p].phase.Finished?
      {
        TotalWorkSplits(s.posts, p);
      }
    }
  }

  lemma {:induction false} AllFinishedNoWork(posts: map<PostId, Post>)
    requires AllFinished(posts)
    ensures TotalWork(posts) == 0
    decreases |posts|
  {
    if posts != map[] {
      var p :| p in posts && TotalWork(posts) == Work(posts[p]) + TotalWork(posts - {p});
      assert Work(posts[p]) == 0;
      AllFinishedNoWork(posts - {p});
    }
  }

  /**
   * No schedule runs longer than the work there was, whoever is favoured and whoever is aborted; one
   * that runs that long has finished every post.
   */
  lemma {:induction false} EveryRunIsBounded(trace: seq<State>)
    requires Trace(trace)
    ensures PostSteps(trace) + TotalWork(trace[|trace| - 1].posts) <= TotalWork(trace[0].posts)
    ensures PostSteps(trace) == TotalWork(trace[0].posts) ==> AllFinished(trace[|trace| - 1].posts)
  {
    NoWorkMeansFinished(trace[|trace| - 1]);
    if |trace| > 1 {
      var before := trace[..|trace| - 1];
      EveryRunIsBounded(before);
      TraceKeepsInv(before);
      assert Step(trace[|trace| - 2], trace[|trace| - 1]);
      StepDoesWork(before[|before| - 1], trace[|trace| - 1]);
    }
  }

  lemma TransactionsStay(s: State, s': State)
    requires Step(s, s')
    ensures s'.posts.Keys == s.posts.Keys
    ensures forall p :: p in s.posts ==> s'.posts[p].tx == s.posts[p].tx
  {
  }

  lemma OwnershipStays(s: State, s': State)
    requires Step(s, s') && LinesOwned(s.posts)
    ensures LinesOwned(s'.posts)
  {
    TransactionsStay(s, s');
  }

  lemma TraceGrows(trace: seq<State>, s': State)
    requires Trace(trace) && Step(trace[|trace| - 1], s')
    ensures Trace(trace + [s'])
  {
  }

  /** One more statement of some post, if any post is unfinished. */
  lemma OneMoreStep(trace: seq<State>, waiting: PostId) returns (s': State)
    requires Trace(trace) && LinesOwned(trace[|trace| - 1].posts)
    requires Unfinished(trace[|trace| - 1], waiting)
    ensures Trace(trace + [s']) && LinesOwned(s'.posts)
    ensures TotalWork(s'.posts) < TotalWork(trace[|trace| - 1].posts)
  {
    var p, listing;
    s', p, listing := DeadlockFree(trace, waiting);
    assert Step(trace[|trace| - 1], s');
    TraceKeepsInv(trace);
    StepDoesWork(trace[|trace| - 1], s');
    OwnershipStays(trace[|trace| - 1], s');
    TraceGrows(trace, s');
  }

  /** Whatever has happened so far, the posts can all still finish: no run is a dead end. */
  lemma {:induction false} CanAlwaysFinish(trace: seq<State>) returns (finished: seq<State>)
    requires Trace(trace) && LinesOwned(trace[|trace| - 1].posts)
    ensures Trace(finished) && trace <= finished
    ensures AllFinished(finished[|finished| - 1].posts)
    decreases TotalWork(trace[|trace| - 1].posts)
  {
    var s := trace[|trace| - 1];
    if AllFinished(s.posts) {
      finished := trace;
    } else {
      var p :| p in s.posts && !s.posts[p].phase.Finished?;
      var s' := OneMoreStep(trace, p);
      finished := CanAlwaysFinish(trace + [s']);
    }
  }
}
