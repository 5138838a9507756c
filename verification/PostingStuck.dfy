/**
 * What a deadlock among posts is, exactly: a group of posts that have inserted their headers, each
 * waiting for a line that another of the group has inserted. Account locks play no part in it.
 */
module PostingStuck {
  import opened LedgerDomain
  import opened Ordering
  import opened LedgerStore
  import opened PostingMachine
  import opened PostingProgress

  /** What p needs next is held by q: an account, its journal id, or its next line id. */
  ghost predicate Awaits(s: State, p: PostId, q: PostId) {
    && p in s.posts && q in s.posts && p != q
    && match s.posts[p].phase
       case Locking(plan, held, _) => held < |plan| && plan[held] in Held(s.posts[q].phase)
       case Inserting(_, _, written) => if written == 0 then AwaitsHeader(s, p, q) else AwaitsLine(s, p, q)
       case _ => false
  }

  ghost predicate AwaitsHeader(s: State, p: PostId, q: PostId)
    requires p in s.posts && q in s.posts
  {
    s.posts[p].tx.id !in s.ledger.headers && HoldsHeader(s.posts[q]) && s.posts[q].tx.id == s.posts[p].tx.id
  }

  /** The next line of p is new, but q has inserted a line with its id and not committed yet. */
  ghost predicate AwaitsLine(s: State, p: PostId, q: PostId) {
    && p in s.posts && q in s.posts && p != q
    && s.posts[p].phase.Inserting?
    && var post, n := s.posts[p], s.posts[p].phase.written;
       && 1 <= n <= |post.tx.entries| && !LineTaken(s.ledger, post.tx, n - 1)
       && post.tx.entries[n - 1].id in LineIds(WrittenLines(s.posts[q]))
  }

  /** A post cannot move exactly when it is finished or what it needs is held by another. */
  lemma BlockedIffAwaits(s: State, p: PostId)
    requires p in s.posts
    ensures !Enabled(s, p) <==> s.posts[p].phase.Finished? || exists q :: Awaits(s, p, q)
  {
    hide LineTaken, WrittenLines, Held, LineIds;
    var post := s.posts[p];
    if !Enabled(s, p) && !post.phase.Finished? {
      if post.phase.Locking? {
        var q :| q in s.posts && q != p && post.phase.plan[post.phase.held] in Held(s.posts[q].phase);
        assert Awaits(s, p, q);
      } else if post.phase.written == 0 {
        var q :| q in s.posts && q != p && HoldsHeader(s.posts[q]) && s.posts[q].tx.id == post.tx.id;
        assert Awaits(s, p, q);
      } else {
        var q :| q in s.posts && q != p
            && post.tx.entries[post.phase.written - 1].id in LineIds(WrittenLines(s.posts[q]));
        assert Awaits(s, p, q);
      }
    }
  }

  ghost predicate WaitsWithin(s: State, group: set<PostId>, p: PostId) {
    exists q :: q in group && Awaits(s, p, q)
  }

  ghost predicate LineWithin(s: State, group: set<PostId>, p: PostId) {
    exists q :: q in group && AwaitsLine(s, p, q)
  }

  /** A group in which each post waits for another of the group. */
  ghost predicate Deadlocked(s: State, group: set<PostId>) {
    group != {} && forall p {:trigger WaitsWithin(s, group, p)} :: p in group ==> WaitsWithin(s, group, p)
  }

  /** The same, with every wait a wait for a line. */
  ghost predicate Knot(s: State, group: set<PostId>) {
    group != {} && forall p {:trigger LineWithin(s, group, p)} :: p in group ==> LineWithin(s, group, p)
  }

  /** Whoever holds a header, and waits at all, waits for a line. */
  lemma HolderAwaitsLine(s: State, q: PostId, r: PostId)
    requires q in s.posts && HoldsHeader(s.posts[q]) && Awaits(s, q, r)
    ensures AwaitsLine(s, q, r)
  {
    hide LineTaken, WrittenLines, LineIds;
  }

  lemma WriterHoldsHeader(s: State, p: PostId, q: PostId)
    requires AwaitsLine(s, p, q)
    ensures HoldsHeader(s.posts[q])
  {
  }

  /** Follow the waits from a post of the group: accounts only lead upwards, so they end at a wait for a line. */
  lemma {:induction false} ChaseToLine(s: State, group: set<PostId>, p: PostId, bound: string) returns (r: PostId,
      next: PostId)
    requires PostsOk(s) && Deadlocked(s, group) && p in group && p in s.posts
    requires s.posts[p].phase.Locking? && s.posts[p].phase.held < |s.posts[p].phase.plan|
             ==> s.posts[p].phase.plan[s.posts[p].phase.held] == bound
    ensures r in group && next in group && AwaitsLine(s, r, next)
    decreases Beyond(s.ledger, bound), if s.posts[p].phase.Locking? then 1 else 0
  {
    hide LineTaken, WrittenLines, LineIds, Members, PostOk;
    var q := Partner(s, group, p);
    var onward := Partner(s, group, q);
    hide Deadlocked;
    if s.posts[p].phase.Inserting? && s.posts[p].phase.written > 0 {
      r, next := p, q;
    } else if s.posts[p].phase.Inserting? {
      HolderAwaitsLine(s, q, onward);
      r, next := q, onward;
    } else if s.posts[q].phase.Locking? {
      assert PostOk(s.ledger, s.posts[q]);
      HolderWantsMore(s.ledger, s.posts[q], bound);
      HigherWantIsLess(s.ledger, bound, s.posts[q].phase.plan[s.posts[q].phase.held]);
      r, next := ChaseToLine(s, group, q, s.posts[q].phase.plan[s.posts[q].phase.held]);
    } else {
      r, next := ChaseToLine(s, group, q, bound);
    }
  }

  lemma Partner(s: State, group: set<PostId>, p: PostId) returns (q: PostId)
    requires Deadlocked(s, group) && p in group
    ensures q in group && Awaits(s, p, q)
  {
    hide Awaits;
    assert WaitsWithin(s, group, p);
    q :| q in group && Awaits(s, p, q);
  }

  lemma KnotPartner(s: State, group: set<PostId>, p: PostId) returns (q: PostId)
    requires Knot(s, group) && p in group
    ensures q in group && AwaitsLine(s, p, q) && Awaits(s, p, q)
  {
    assert LineWithin(s, group, p) by { hide AwaitsLine; }
    q :| q in group && AwaitsLine(s, p, q);
    hide LineTaken, WrittenLines, LineIds;
  }

  ghost function LineWaiters(s: State, group: set<PostId>): set<PostId> {
    set p | p in group && LineWithin(s, group, p)
  }

  /** Those of a deadlocked group that wait for lines are a knot of their own. */
  lemma WaitersKnot(s: State, group: set<PostId>)
    requires PostsOk(s) && Deadlocked(s, group)
    ensures Knot(s, LineWaiters(s, group))
  {
    hide Awaits, AwaitsLine, PostsOk, Deadlocked;
    AtLeastOne(s, group);
    var p :| p in group;
    Known(s, group, p);
    var bound := if s.posts[p].phase.Locking? && s.posts[p].phase.held < |s.posts[p].phase.plan|
                 then s.posts[p].phase.plan[s.posts[p].phase.held] else "";
    var r, next := ChaseToLine(s, group, p, bound);
    assert LineWithin(s, group, r);
    assert r in LineWaiters(s, group);
    forall w | w in LineWaiters(s, group)
      ensures LineWithin(s, LineWaiters(s, group), w)
    {
      var q :| q in group && AwaitsLine(s, w, q);
      var onward := Partner(s, group, q);
      AwaitsLineKnown(s, w, q);
      WriterHoldsHeader(s, w, q);
      HolderAwaitsLine(s, q, onward);
      assert LineWithin(s, group, q);
      assert q in LineWaiters(s, group);
    }
  }

  lemma AtLeastOne(s: State, group: set<PostId>)
    requires Deadlocked(s, group)
    ensures group != {}
  {
  }

  lemma Known(s: State, group: set<PostId>, p: PostId)
    requires Deadlocked(s, group) && p in group
    ensures p in s.posts
  {
    var q := Partner(s, group, p);
  }

  lemma KnotIsDeadlocked(s: State, group: set<PostId>)
    requires Knot(s, group)
    ensures Deadlocked(s, group)
  {
    forall p | p in group
      ensures WaitsWithin(s, group, p)
    {
      var q := KnotPartner(s, group, p);
    }
    hide LineWithin, WaitsWithin;
  }

  ghost predicate SomeDeadlock(s: State) {
    exists group :: Deadlocked(s, group)
  }

  ghost predicate SomeKnot(s: State) {
    exists group :: Knot(s, group)
  }

  /**
   * The exact form of a deadlock, in every reachable state: some group of posts waits for itself if
   * and only if some group of inserters forms a knot.
   */
  lemma DeadlockIffKnot(trace: seq<State>)
    requires Trace(trace)
    ensures SomeDeadlock(trace[|trace| - 1]) <==> SomeKnot(trace[|trace| - 1])
  {
    TraceKeepsInv(trace);
    hide Trace, Deadlocked, Knot, SoundBooks, SerialRun, Recorded, Exclusive, PostOk, LineWaiters;
    var s := trace[|trace| - 1];
    if group :| Deadlocked(s, group) {
      WaitersKnot(s, group);
    }
    if group :| Knot(s, group) {
      KnotIsDeadlocked(s, group);
    }
  }

  ghost predicate NobodyMoves(s: State) {
    && (exists p :: Unfinished(s, p))
    && forall p :: Unfinished(s, p) ==> !Enabled(s, p)
  }

  /** If posts are unfinished and none can move, a knot is why. */
  lemma NobodyMovesKnot(trace: seq<State>) returns (group: set<PostId>)
    requires Trace(trace) && NobodyMoves(trace[|trace| - 1])
    ensures Knot(trace[|trace| - 1], group)
  {
    TraceKeepsInv(trace);
    hide Trace, SoundBooks, SerialRun, Recorded, Exclusive, NobodyMoves, Knot, PostOk, LineWaiters;
    var s := trace[|trace| - 1];
    AllDeadlocked(s);
    WaitersKnot(s, AllUnfinished(s));
    group := LineWaiters(s, AllUnfinished(s));
  }

  ghost function AllUnfinished(s: State): set<PostId> {
    set p | p in s.posts && !s.posts[p].phase.Finished?
  }

  lemma AllDeadlocked(s: State)
    requires NobodyMoves(s)
    ensures Deadlocked(s, AllUnfinished(s))
  {
    hide Awaits, Enabled;
    forall p | p in AllUnfinished(s)
      ensures WaitsWithin(s, AllUnfinished(s), p)
    {
      assert Unfinished(s, p);
      BlockedIffAwaits(s, p);
      var q :| Awaits(s, p, q);
      HolderUnfinished(s, p, q);
      assert q in AllUnfinished(s);
    }
    hide WaitsWithin;
    var p :| Unfinished(s, p);
    assert p in AllUnfinished(s);
  }

  lemma HolderUnfinished(s: State, p: PostId, q: PostId)
    requires Awaits(s, p, q)
    ensures q in s.posts && !s.posts[q].phase.Finished?
  {
  }

  // ---- A knot never comes loose by itself ----

  lemma KnottedCannotMove(s: State, group: set<PostId>, p: PostId)
    requires Knot(s, group) && p in group
    ensures p in s.posts && !Enabled(s, p)
  {
    var q := KnotPartner(s, group, p);
    BlockedIffAwaits(s, p);
  }

  /** A commit elsewhere does not take the line that is waited for: its writer still holds it. */
  lemma AwaitedStays(s: State, s': State, p: PostId, q: PostId, mover: PostId)
    requires PostsOk(s) && Exclusive(s) && AwaitsLine(s, p, q) && mover in s.posts && mover != p && mover != q
    requires s'.posts.Keys == s.posts.Keys && s'.posts[p] == s.posts[p] && s'.posts[q] == s.posts[q]
    requires s'.ledger.lines == s.ledger.lines
             || (s'.ledger.lines == s.ledger.lines + s.posts[mover].tx.entries
                 && WrittenLines(s.posts[mover]) == s.posts[mover].tx.entries)
    ensures AwaitsLine(s', p, q)
  {
    assert Apart(s.posts[mover], s.posts[q]);
    LineIdsConcat(s.ledger.lines, s.posts[mover].tx.entries);
  }

  lemma MoverCommitsItsLines(s: State, s': State, p: PostId, listing: seq<Entry>)
    requires PostsOk(s) && Move(s, s', p, listing)
    ensures s'.posts.Keys == s.posts.Keys && forall q :: q in s.posts && q != p ==> s'.posts[q] == s.posts[q]
    ensures s'.ledger.lines == s.ledger.lines
            || (s'.ledger.lines == s.ledger.lines + s.posts[p].tx.entries
                && WrittenLines(s.posts[p]) == s.posts[p].tx.entries)
  {
    hide LineTaken, LineIds, Enabled;
    if Advance(s.ledger, s.posts[p], listing).commits {
      CommitterHoldsItsAccounts(s.ledger, s.posts[p]);
    }
  }

  lemma KnotSurvives(s: State, s': State, group: set<PostId>, mover: PostId)
    requires PostsOk(s) && Exclusive(s) && Knot(s, group) && mover in s.posts && mover !in group
    requires s'.posts.Keys == s.posts.Keys && forall q :: q in s.posts && q != mover ==> s'.posts[q] == s.posts[q]
    requires s'.ledger.lines == s.ledger.lines
             || (s'.ledger.lines == s.ledger.lines + s.posts[mover].tx.entries
                 && WrittenLines(s.posts[mover]) == s.posts[mover].tx.entries)
    ensures Knot(s', group)
  {
    hide AwaitsLine, WrittenLines, PostsOk, Exclusive, Awaits;
    forall p | p in group
      ensures LineWithin(s', group, p)
    {
      var q := KnotPartner(s, group, p);
      AwaitsLineKnown(s, p, q);
      AwaitedStays(s, s', p, q, mover);
    }
  }

  lemma AwaitsLineKnown(s: State, p: PostId, q: PostId)
    requires AwaitsLine(s, p, q)
    ensures p in s.posts && q in s.posts && p != q
  {
  }

  /** Unless one of its posts loses its connection, a knot outlives every step. */
  lemma KnotStays(s: State, s': State, group: set<PostId>)
    requires PostsOk(s) && Exclusive(s) && Knot(s, group) && Step(s, s')
    ensures Knot(s', group) || exists p :: p in group && Abort(s, s', p)
  {
    hide Enabled, Advance, ReadsTruly, PostOk, Knot, Apart;
    if p, listing :| Move(s, s', p, listing) {
      if p in group {
        KnottedCannotMove(s, group, p);
      }
      MoverCommitsItsLines(s, s', p, listing);
      KnotSurvives(s, s', group, p);
    } else if p :| Abort(s, s', p) {
      if p !in group {
        KnotSurvives(s, s', group, p);
      }
    } else {
      var account :| Create(s, s', account);
      KnotOfSameLines(s, s', group);
    }
  }

  lemma KnotOfSameLines(s: State, s': State, group: set<PostId>)
    requires Knot(s, group) && s'.posts == s.posts && s'.ledger.lines == s.ledger.lines
    ensures Knot(s', group)
  {
    forall p | p in group
      ensures LineWithin(s', group, p)
    {
      var q := KnotPartner(s, group, p);
      hide WrittenLines, LineIds;
      assert AwaitsLine(s', p, q);
    }
  }
}
