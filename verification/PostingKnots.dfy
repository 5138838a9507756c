/** Any number of posts: exactly when a group of them can end up waiting for each other's lines for ever. */
module PostingKnots {
  import opened Errors
  import opened LedgerDomain
  import opened Ordering
  import opened LedgerStore
  import opened PostingMachine
  import opened PostingProgress
  import opened PostingStuck
  import opened PostingDeadlock

  // ---- The condition ----

  /** The first lines of a post of the group, as many as are marked. */
  function Marked(posts: map<PostId, Post>, marks: map<PostId, nat>, p: PostId): seq<Entry> {
    if p in marks && p in posts && marks[p] <= |posts[p].tx.entries| then posts[p].tx.entries[..marks[p]] else []
  }

  /** The post gets to insert its marked lines, all of them new, and has another one to insert. */
  ghost predicate Insertable(ledger: Ledger, posts: map<PostId, Post>, marks: map<PostId, nat>, p: PostId) {
    && p in marks && p in posts && marks[p] < |posts[p].tx.entries|
    && MayInsert(ledger, posts[p].tx) && KeysFresh(ledger, posts[p].tx, marks[p])
  }

  /** Two posts of the group get in each other's way with nothing up to their marks. */
  ghost predicate Compatible(posts: map<PostId, Post>, marks: map<PostId, nat>, p: PostId, q: PostId) {
    && p in posts && q in posts && posts[p].tx.id != posts[q].tx.id
    && Members(LockOrder(posts[p].tx)) !! Members(LockOrder(posts[q].tx))
    && LineIds(Marked(posts, marks, p)) !! LineIds(Marked(posts, marks, q))
  }

  /** The line after p's mark has an id that q has used up to its own. */
  ghost predicate Crosses(posts: map<PostId, Post>, marks: map<PostId, nat>, p: PostId, q: PostId) {
    && p in marks && q in marks && p in posts && q in posts && p != q && marks[p] < |posts[p].tx.entries|
    && posts[p].tx.entries[marks[p]].id in LineIds(Marked(posts, marks, q))
  }

  ghost predicate CrossesSome(posts: map<PostId, Post>, marks: map<PostId, nat>, p: PostId) {
    exists q :: Crosses(posts, marks, p, q)
  }

  ghost predicate AllInsertable(ledger: Ledger, posts: map<PostId, Post>, marks: map<PostId, nat>) {
    forall p {:trigger Insertable(ledger, posts, marks, p)} :: p in marks ==> Insertable(ledger, posts, marks, p)
  }

  ghost predicate AllCompatible(posts: map<PostId, Post>, marks: map<PostId, nat>) {
    forall p, q {:trigger Compatible(posts, marks, p, q)} :: p in marks && q in marks && p != q ==>
      Compatible(posts, marks, p, q)
  }

  ghost predicate AllCross(posts: map<PostId, Post>, marks: map<PostId, nat>) {
    forall p {:trigger CrossesSome(posts, marks, p)} :: p in marks ==> CrossesSome(posts, marks, p)
  }

  /** Each of the marked posts crosses another of them, and nothing else is in their way. */
  ghost predicate CrossedRound(ledger: Ledger, posts: map<PostId, Post>, marks: map<PostId, nat>) {
    marks != map[] && AllInsertable(ledger, posts, marks) && AllCompatible(posts, marks) && AllCross(posts, marks)
  }

  ghost predicate Idling(s: State, group: set<PostId>) {
    forall p :: p in group ==> p in s.posts && s.posts[p].phase == Idle
  }

  lemma InsertableAnyway(ledger: Ledger, posts: map<PostId, Post>, posts': map<PostId, Post>, marks: map<PostId, nat>,
      p: PostId)
    requires p in marks && Insertable(ledger, posts, marks, p) && p in posts' && posts'[p].tx == posts[p].tx
    ensures Insertable(ledger, posts', marks, p)
  {
    hide MayInsert, KeysFresh;
  }

  lemma CrossesAnyway(posts: map<PostId, Post>, posts': map<PostId, Post>, marks: map<PostId, nat>, p: PostId)
    requires CrossesSome(posts, marks, p)
    requires forall q :: q in marks && q in posts ==> q in posts' && posts'[q].tx == posts[q].tx
    ensures CrossesSome(posts', marks, p)
  {
    hide LineIds;
    var q :| Crosses(posts, marks, p, q);
    assert Crosses(posts', marks, p, q);
  }

  /** Only the transactions matter, not the phases. */
  lemma SameRound(ledger: Ledger, posts: map<PostId, Post>, posts': map<PostId, Post>, marks: map<PostId, nat>)
    requires CrossedRound(ledger, posts, marks)
    requires forall p :: p in marks && p in posts ==> p in posts' && posts'[p].tx == posts[p].tx
    ensures CrossedRound(ledger, posts', marks)
  {
    hide Insertable, Compatible, CrossesSome, AllCompatible, AllCross;
    forall p | p in marks
      ensures Insertable(ledger, posts', marks, p)
    {
      assert Insertable(ledger, posts, marks, p);
      InsertableKnown(ledger, posts, marks, p);
      InsertableAnyway(ledger, posts, posts', marks, p);
    }
    hide AllInsertable;
    SameCrossing(posts, posts', marks);
    SameCompatible(posts, posts', marks);
  }

  lemma InsertableKnown(ledger: Ledger, posts: map<PostId, Post>, marks: map<PostId, nat>, p: PostId)
    requires Insertable(ledger, posts, marks, p)
    ensures p in marks && p in posts && marks[p] < |posts[p].tx.entries|
  {
    hide MayInsert, KeysFresh;
  }

  lemma SameCrossing(posts: map<PostId, Post>, posts': map<PostId, Post>, marks: map<PostId, nat>)
    requires AllCross(posts, marks)
    requires forall p :: p in marks && p in posts ==> p in posts' && posts'[p].tx == posts[p].tx
    ensures AllCross(posts', marks)
  {
    hide CrossesSome;
    forall p | p in marks
      ensures CrossesSome(posts', marks, p)
    {
      assert CrossesSome(posts, marks, p);
      CrossesAnyway(posts, posts', marks, p);
    }
  }

  lemma SameCompatible(posts: map<PostId, Post>, posts': map<PostId, Post>, marks: map<PostId, nat>)
    requires AllCompatible(posts, marks)
    requires forall p :: p in marks && p in posts ==> p in posts' && posts'[p].tx == posts[p].tx
    ensures AllCompatible(posts', marks)
  {
    hide Compatible;
    forall p, q | p in marks && q in marks && p != q
      ensures Compatible(posts', marks, p, q)
    {
      assert Compatible(posts, marks, p, q);
      CompatibleAnyway(posts, posts', marks, p, q);
    }
  }

  lemma CompatibleAnyway(posts: map<PostId, Post>, posts': map<PostId, Post>, marks: map<PostId, nat>, p: PostId,
      q: PostId)
    requires p in marks && q in marks && Compatible(posts, marks, p, q)
    requires forall r :: r in marks && r in posts ==> r in posts' && posts'[r].tx == posts[r].tx
    ensures Compatible(posts', marks, p, q)
  {
    hide Members, LineIds, LockOrder;
  }

  // ---- Taking a group out of a run ----

  function Without(s: State, group: set<PostId>): State {
    s.(posts := map p | p in s.posts :: if p in group then Post(s.posts[p].tx, Idle) else s.posts[p])
  }

  /** Nothing has been decided about the group, and none of it has finished. */
  ghost predicate Quiet(s: State, group: set<PostId>) {
    && (forall p :: p in group && p in s.posts ==> !s.posts[p].phase.Finished?)
    && (forall i :: 0 <= i < |s.log| && s.log[i].Decided? ==> s.log[i].who !in group)
  }

  lemma QuietBefore(s: State, s': State, group: set<PostId>)
    requires Step(s, s') && Quiet(s', group)
    ensures Quiet(s, group) && s.log <= s'.log && s'.posts.Keys == s.posts.Keys
  {
    hide Advance, LineTaken, AccountFree, HeaderFree, LineFree;
    if p, listing :| Move(s, s', p, listing) {
      assert forall q :: q in s.posts && q != p ==> s'.posts[q] == s.posts[q];
    } else if p :| Abort(s, s', p) {
      assert forall q :: q in s.posts && q != p ==> s'.posts[q] == s.posts[q];
    }
    forall p | p in group && p in s.posts
      ensures !s.posts[p].phase.Finished?
    {
      assert p in s'.posts;
    }
    forall i | 0 <= i < |s.log| && s.log[i].Decided?
      ensures s.log[i].who !in group
    {
      assert s'.log[i] == s.log[i];
    }
  }

  /** Whatever an outsider can do, it can do while the group idles. */
  lemma EnabledWithout(s: State, group: set<PostId>, p: PostId)
    requires p in s.posts && p !in group && Enabled(s, p)
    ensures Enabled(Without(s, group), p) && Without(s, group).posts[p] == s.posts[p]
  {
    hide LineTaken, LineIds, Members, WrittenLines, HoldsHeader, Held;
    var s' := Without(s, group);
    forall q | q in s.posts
      ensures s'.posts[q].tx == s.posts[q].tx && Held(s'.posts[q].phase) <= Held(s.posts[q].phase)
      ensures HoldsHeader(s'.posts[q]) ==> HoldsHeader(s.posts[q])
      ensures LineIds(WrittenLines(s'.posts[q])) <= LineIds(WrittenLines(s.posts[q]))
    {
      if q in group {
        HoldsNothing(s'.posts[q]);
      }
    }
  }

  lemma HoldsNothing(post: Post)
    requires post.phase == Idle || post.phase.Finished?
    ensures Held(post.phase) == {} && !HoldsHeader(post) && LineIds(WrittenLines(post)) == {}
  {
  }

  lemma OutsiderMoves(s: State, s': State, group: set<PostId>, p: PostId, listing: seq<Entry>)
    requires Move(s, s', p, listing) && p !in group
    ensures Move(Without(s, group), Without(s', group), p, listing)
  {
    EnabledWithout(s, group, p);
    hide Enabled, Advance, ReadsTruly;
    assert Without(s', group).posts == Without(s, group).posts[p := s'.posts[p]];
  }

  lemma NothingDecided(s: State, s': State, group: set<PostId>, p: PostId, listing: seq<Entry>)
    requires Move(s, s', p, listing) && p in group && Quiet(s', group)
    ensures Advance(s.ledger, s.posts[p], listing).decision.None? && s'.log == s.log
  {
    hide Enabled, Advance;
    if Advance(s.ledger, s.posts[p], listing).decision.Some? {
      DecisionLogged(s, s', p, listing);
    }
  }

  lemma DecisionLogged(s: State, s': State, p: PostId, listing: seq<Entry>)
    requires Move(s, s', p, listing) && Advance(s.ledger, s.posts[p], listing).decision.Some?
    ensures |s'.log| == |s.log| + 1 && s'.log[|s.log|].Decided? && s'.log[|s.log|].who == p
  {
    hide Enabled, Advance;
  }

  /** The group's own statements change nothing else, as long as they decide nothing. */
  lemma MemberMoves(s: State, s': State, group: set<PostId>, p: PostId, listing: seq<Entry>)
    requires Move(s, s', p, listing) && p in group && Quiet(s', group)
    ensures Without(s', group) == Without(s, group)
  {
    hide Enabled, LineTaken, ReadsTruly;
    assert s'.log == s.log by { NothingDecided(s, s', group, p, listing); }
    assert Without(s', group).posts == Without(s, group).posts;
  }

  lemma StepWithout(s: State, s': State, group: set<PostId>)
    requires Step(s, s') && Quiet(s', group)
    ensures Without(s', group) == Without(s, group) || Step(Without(s, group), Without(s', group))
  {
    var t, t' := Without(s, group), Without(s', group);
    hide Enabled, Advance, ReadsTruly, LineTaken;
    if p, listing :| Move(s, s', p, listing) {
      if p in group {
        MemberMoves(s, s', group, p, listing);
      } else {
        OutsiderMoves(s, s', group, p, listing);
      }
    } else if p :| Abort(s, s', p) {
      assert p in s'.posts && s'.posts[p].phase.Finished?;
      assert p !in group;
      assert t'.posts == t.posts[p := s'.posts[p]];
      assert Abort(t, t', p);
    } else {
      var account :| Create(s, s', account);
      assert Create(t, t', account);
    }
  }

  /** So a run in which a group stays undecided is, for everybody else, a run in which it idles. */
  lemma {:induction false} RunWithout(trace: seq<State>, group: set<PostId>) returns (trace': seq<State>)
    requires Trace(trace) && Quiet(trace[|trace| - 1], group)
    ensures Trace(trace') && trace'[0] == trace[0] && trace'[|trace'| - 1] == Without(trace[|trace| - 1], group)
  {
    hide Step, SoundBooks, Quiet;
    if |trace| == 1 {
      assert Without(trace[0], group).posts == trace[0].posts;
      trace' := trace;
    } else {
      var s, s' := trace[|trace| - 2], trace[|trace| - 1];
      assert Step(s, s');
      QuietBefore(s, s', group);
      trace' := RunWithout(trace[..|trace| - 1], group);
      StepWithout(s, s', group);
      if Without(s', group) != Without(s, group) {
        TraceGrows(trace', Without(s', group));
        trace' := trace' + [Without(s', group)];
      }
    }
  }

  // ---- A knot was a crossed round ----

  function MarksOf(s: State, group: set<PostId>): map<PostId, nat>
    requires forall p :: p in group ==> p in s.posts && Written(s.posts[p].phase) >= 1
  {
    map p | p in group :: Written(s.posts[p].phase) - 1
  }

  lemma KnotMember(s: State, group: set<PostId>, p: PostId)
    requires PostsOk(s) && Knot(s, group) && p in group
    ensures p in s.posts && s.posts[p].phase.Inserting? && PostOk(s.ledger, s.posts[p])
    ensures 1 <= Written(s.posts[p].phase) <= |s.posts[p].tx.entries|
  {
    hide PostOk, Knot;
    var q := KnotPartner(s, group, p);
    hide LineTaken, WrittenLines, LineIds;
  }

  lemma KnotIsQuiet(s: State, group: set<PostId>)
    requires PostsOk(s) && Recorded(s) && Knot(s, group)
    ensures Quiet(s, group)
  {
    hide PostOk, Knot, PostsOk, InLog;
    forall p | p in group
      ensures p in s.posts && s.posts[p].phase.Inserting?
    {
      KnotMember(s, group, p);
    }
    forall i | 0 <= i < |s.log| && s.log[i].Decided?
      ensures s.log[i].who !in group
    {
      assert Answers(s.log[i], s.posts);
    }
  }

  lemma MemberInsertable(s: State, group: set<PostId>, p: PostId, marks: map<PostId, nat>)
    requires PostsOk(s) && Knot(s, group) && p in group && p in marks && p in s.posts
    requires marks[p] == Written(s.posts[p].phase) - 1
    ensures Insertable(s.ledger, s.posts, marks, p) && Marked(s.posts, marks, p) == WrittenLines(s.posts[p])
    ensures Held(s.posts[p].phase) == Members(LockOrder(s.posts[p].tx)) && HoldsHeader(s.posts[p])
  {
    KnotMember(s, group, p);
    hide PostsOk, Knot, KeysFresh, Balanced, FirstRefusal, Listings, PlanKnown, LockOrder, Members;
    assert Passes(s.ledger, s.posts[p].tx, s.posts[p].phase.listings);
  }

  lemma KnotIsCrossed(s: State, group: set<PostId>) returns (marks: map<PostId, nat>)
    requires PostsOk(s) && Exclusive(s) && Knot(s, group)
    ensures marks.Keys == group && CrossedRound(s.ledger, Without(s, group).posts, marks)
  {
    hide PostsOk, Exclusive, Knot, PostOk, Insertable;
    KnotNonempty(s, group);
    forall p | p in group
      ensures p in s.posts && 1 <= Written(s.posts[p].phase)
    {
      KnotMember(s, group, p);
    }
    marks := MarksOf(s, group);
    hide AllInsertable, AllCompatible, AllCross, Written, Without;
    KnotInsertable(s, group, marks);
    KnotCompatible(s, group, marks);
    KnotCrosses(s, group, marks);
    WithoutKeepsTransactions(s, group);
    SameRound(s.ledger, s.posts, Without(s, group).posts, marks);
  }

  ghost predicate MarksOfGroup(s: State, group: set<PostId>, marks: map<PostId, nat>) {
    marks.Keys == group && forall p :: p in group ==> p in s.posts && marks[p] == Written(s.posts[p].phase) - 1
  }

  lemma KnotInsertable(s: State, group: set<PostId>, marks: map<PostId, nat>)
    requires PostsOk(s) && Knot(s, group) && MarksOfGroup(s, group, marks)
    ensures AllInsertable(s.ledger, s.posts, marks)
  {
    hide PostsOk, Knot, Insertable, Written;
    forall p | p in marks
      ensures Insertable(s.ledger, s.posts, marks, p)
    {
      MemberInsertable(s, group, p, marks);
    }
  }

  lemma KnotCompatible(s: State, group: set<PostId>, marks: map<PostId, nat>)
    requires PostsOk(s) && Exclusive(s) && Knot(s, group) && MarksOfGroup(s, group, marks)
    ensures AllCompatible(s.posts, marks)
  {
    hide PostsOk, Exclusive, Knot, Compatible, Written;
    forall p, q | p in marks && q in marks && p != q
      ensures Compatible(s.posts, marks, p, q)
    {
      MembersCompatible(s, group, p, q, marks);
    }
  }

  lemma KnotCrosses(s: State, group: set<PostId>, marks: map<PostId, nat>)
    requires PostsOk(s) && Knot(s, group) && MarksOfGroup(s, group, marks)
    ensures AllCross(s.posts, marks)
  {
    hide PostsOk, Knot, CrossesSome, Written;
    forall p | p in marks
      ensures CrossesSome(s.posts, marks, p)
    {
      MemberCrosses(s, group, p, marks);
    }
  }

  lemma WithoutKeepsTransactions(s: State, group: set<PostId>)
    ensures var posts := Without(s, group).posts;
            forall p :: p in s.posts ==> p in posts && posts[p].tx == s.posts[p].tx
  {
  }

  lemma MembersCompatible(s: State, group: set<PostId>, p: PostId, q: PostId, marks: map<PostId, nat>)
    requires PostsOk(s) && Exclusive(s) && Knot(s, group) && p in group && q in group && p != q
    requires p in marks && q in marks && p in s.posts && q in s.posts
    requires marks[p] == Written(s.posts[p].phase) - 1 && marks[q] == Written(s.posts[q].phase) - 1
    ensures Compatible(s.posts, marks, p, q)
  {
    hide PostsOk, Knot, Members, LineIds, LockOrder, WrittenLines, Insertable, Held, HoldsHeader;
    MemberInsertable(s, group, p, marks);
    MemberInsertable(s, group, q, marks);
    assert Apart(s.posts[p], s.posts[q]);
  }

  lemma MemberCrosses(s: State, group: set<PostId>, p: PostId, marks: map<PostId, nat>)
    requires PostsOk(s) && Knot(s, group) && p in group && marks.Keys == group
    requires forall q :: q in group ==> q in s.posts && marks[q] == Written(s.posts[q].phase) - 1
    ensures CrossesSome(s.posts, marks, p)
  {
    hide PostsOk, Knot, AwaitsLine, Awaits, Insertable, Marked, WrittenLines, LineIds, Crosses;
    var q := KnotPartner(s, group, p);
    MemberInsertable(s, group, q, marks);
    WaitIsCrossing(s, p, q, marks, s.posts);
  }

  lemma KnotNonempty(s: State, group: set<PostId>)
    requires Knot(s, group)
    ensures group != {}
  {
  }

  lemma WaitIsCrossing(s: State, p: PostId, q: PostId, marks: map<PostId, nat>, posts: map<PostId, Post>)
    requires AwaitsLine(s, p, q) && p in marks && q in marks && p in posts && q in posts
    requires posts[p].tx == s.posts[p].tx && posts[q].tx == s.posts[q].tx
    requires marks[p] == Written(s.posts[p].phase) - 1 && Marked(s.posts, marks, q) == WrittenLines(s.posts[q])
    ensures CrossesSome(posts, marks, p)
  {
    hide LineTaken, WrittenLines, LineIds;
    assert Crosses(posts, marks, p, q);
  }

  // ---- A crossed round can become a knot ----

  ghost function Unsettled(s: State, group: set<PostId>): set<PostId> {
    set p | p in s.posts && p !in group && !s.posts[p].phase.Finished?
  }

  /** Everybody else loses the connection. */
  lemma {:induction false} OthersGone(trace: seq<State>, group: set<PostId>) returns (longer: seq<State>)
    requires Trace(trace) && Idling(trace[|trace| - 1], group)
    ensures Trace(longer) && longer[0] == trace[0] && Idling(longer[|longer| - 1], group)
    ensures var s, s' := trace[|trace| - 1], longer[|longer| - 1];
            && s'.ledger == s.ledger && Unsettled(s', group) == {}
            && s'.posts.Keys == s.posts.Keys && forall p :: p in group ==> s'.posts[p] == s.posts[p]
    decreases |Unsettled(trace[|trace| - 1], group)|
  {
    hide Step;
    var s := trace[|trace| - 1];
    longer := trace;
    if Unsettled(s, group) != {} {
      var p :| p in Unsettled(s, group);
      var s' := LosesConnection(s, p);
      assert Unsettled(s', group) == Unsettled(s, group) - {p};
      TraceGrows(trace, s');
      longer := trace + [s'];
      assert longer[|longer| - 1] == s';
      longer := OthersGone(longer, group);
    }
  }

  lemma LosesConnection(s: State, p: PostId) returns (s': State)
    requires p in s.posts && !s.posts[p].phase.Finished?
    ensures Step(s, s') && s'.ledger == s.ledger
    ensures s'.posts == s.posts[p := Post(s.posts[p].tx, Finished(Refused(Infrastructure)))]
  {
    s' := s.(posts := s.posts[p := Post(s.posts[p].tx, Finished(Refused(Infrastructure)))]);
    assert Abort(s, s', p);
  }

  /** Some of the group have come to their marks, the others idle, and everybody else is gone. */
  ghost predicate Assembled(s: State, marks: map<PostId, nat>, arrived: set<PostId>) {
    && arrived <= marks.Keys && CrossedRound(s.ledger, s.posts, marks) && Unsettled(s, marks.Keys) == {}
    && (forall p :: p in arrived ==> p in s.posts && Arrived(s.posts[p], marks[p]))
    && (forall p :: p in marks && p !in arrived ==> p in s.posts && s.posts[p].phase == Idle)
  }

  lemma ArrivedAtMark(s: State, marks: map<PostId, nat>, arrived: set<PostId>, p: PostId)
    requires PostsOk(s) && Assembled(s, marks, arrived) && p in arrived
    ensures p in marks && p in s.posts && Held(s.posts[p].phase) == Members(LockOrder(s.posts[p].tx))
    ensures HoldsHeader(s.posts[p]) && WrittenLines(s.posts[p]) == Marked(s.posts, marks, p)
    ensures marks[p] < |s.posts[p].tx.entries|
  {
    assert Insertable(s.ledger, s.posts, marks, p);
    hide CrossedRound, Members, LockOrder, KeysFresh, MayInsert;
    ArrivedHolds(s.ledger, s.posts[p], marks[p]);
  }

  lemma NextUnhindered(s: State, marks: map<PostId, nat>, arrived: set<PostId>, p: PostId, listings: seq<seq<Entry>>)
    requires PostsOk(s) && Assembled(s, marks, arrived) && p in marks && p !in arrived
    requires p in s.posts && Passes(s.ledger, s.posts[p].tx, listings)
    ensures Unhindered(s, p, marks[p], listings) && Underway(s.posts[p], marks[p], listings)
  {
    hide Passes, KeysFresh, PostsOk, Members, LineIds, LockOrder, MayInsert, Arrived;
    assert Insertable(s.ledger, s.posts, marks, p);
    forall q | q in s.posts && q != p
      ensures Held(s.posts[q].phase) !! Members(LockOrder(s.posts[p].tx))
      ensures HoldsHeader(s.posts[q]) ==> s.posts[q].tx.id != s.posts[p].tx.id
      ensures LineIds(WrittenLines(s.posts[q])) !! LineIds(Marked(s.posts, marks, p))
    {
      if q in arrived {
        ArrivedAtMark(s, marks, arrived, q);
        assert Compatible(s.posts, marks, q, p);
      } else {
        assert q in marks || q !in Unsettled(s, marks.Keys);
        HoldsNothing(s.posts[q]);
      }
    }
  }

  lemma TracePostsOk(trace: seq<State>)
    requires Trace(trace)
    ensures trace != [] && PostsOk(trace[|trace| - 1])
  {
    TraceKeepsInv(trace);
  }

  lemma {:induction false} Assembles(trace: seq<State>, marks: map<PostId, nat>, arrived: set<PostId>)
    returns (longer: seq<State>)
    requires Trace(trace) && Assembled(trace[|trace| - 1], marks, arrived)
    ensures Trace(longer) && longer[0] == trace[0] && Assembled(longer[|longer| - 1], marks, marks.Keys)
    decreases marks.Keys - arrived
  {
    hide Trace, PostsOk, Unhindered, Underway, Passes, Assembled, OnlyMoved, Arrived;
    TracePostsOk(trace);
    var s := trace[|trace| - 1];
    longer := trace;
    if p :| p in marks.Keys - arrived {
      var listings := NextMember(s, marks, arrived, p);
      NextUnhindered(s, marks, arrived, p, listings);
      longer := RunToLine(trace, p, marks[p], listings);
      TracePostsOk(longer);
      OneMoreArrived(s, longer[|longer| - 1], marks, arrived, p);
      assert marks.Keys - (arrived + {p}) < marks.Keys - arrived;
      longer := Assembles(longer, marks, arrived + {p});
    } else {
      AllArrived(s, marks, arrived);
    }
  }

  lemma AllArrived(s: State, marks: map<PostId, nat>, arrived: set<PostId>)
    requires Assembled(s, marks, arrived) && marks.Keys - arrived == {}
    ensures arrived == marks.Keys
  {
    hide CrossedRound, Arrived;
    assert forall p :: p in marks.Keys ==> p in arrived || p in marks.Keys - arrived;
  }

  lemma NextMember(s: State, marks: map<PostId, nat>, arrived: set<PostId>, p: PostId)
    returns (listings: seq<seq<Entry>>)
    requires Assembled(s, marks, arrived) && p in marks && p !in arrived
    ensures p in s.posts && Passes(s.ledger, s.posts[p].tx, listings)
  {
    hide Passes, Arrived, KeysFresh;
    assert Insertable(s.ledger, s.posts, marks, p);
    listings :| Passes(s.ledger, s.posts[p].tx, listings);
  }

  lemma OneMoreArrived(s: State, s': State, marks: map<PostId, nat>, arrived: set<PostId>, p: PostId)
    requires Assembled(s, marks, arrived) && p in marks && OnlyMoved(s, s', p) && p in s.posts
    requires Arrived(s'.posts[p], marks[p])
    ensures Assembled(s', marks, arrived + {p})
  {
    hide CrossedRound, Arrived;
    SameRound(s.ledger, s.posts, s'.posts, marks);
    forall q | q in s'.posts && q !in marks.Keys
      ensures s'.posts[q].phase.Finished?
    {
      assert q !in Unsettled(s, marks.Keys);
    }
  }

  lemma AssembledIsKnot(s: State, marks: map<PostId, nat>)
    requires PostsOk(s) && Assembled(s, marks, marks.Keys)
    ensures Knot(s, marks.Keys)
  {
    hide PostsOk, Members, LineIds, LockOrder, MayInsert, WrittenLines;
    forall p | p in marks.Keys
      ensures LineWithin(s, marks.Keys, p)
    {
      assert CrossesSome(s.posts, marks, p);
      var q :| Crosses(s.posts, marks, p, q);
      ArrivedAtMark(s, marks, marks.Keys, p);
      ArrivedAtMark(s, marks, marks.Keys, q);
      assert Compatible(s.posts, marks, p, q) && Insertable(s.ledger, s.posts, marks, q);
      NextIsNew(s.ledger, s.posts[p].tx, s.posts[q].tx, marks[p], marks[q]);
      assert AwaitsLine(s, p, q);
    }
    hide LineWithin;
    assert marks.Keys != {};
  }

  // ---- The exact condition ----

  ghost predicate KnotsAfter(s: State, group: set<PostId>, trace: seq<State>) {
    Trace(trace) && trace[0] == s && Knot(trace[|trace| - 1], group)
  }

  /** Some schedule ties the group into a knot. */
  ghost predicate CanKnot(s: State, group: set<PostId>) {
    exists trace :: KnotsAfter(s, group, trace)
  }

  /** While the group idles, the others bring the books to where its line ids cross in a round. */
  ghost predicate CrossesAfter(s: State, group: set<PostId>, trace: seq<State>, marks: map<PostId, nat>) {
    && Trace(trace) && trace[0] == s && Idling(trace[|trace| - 1], group)
    && marks.Keys == group && CrossedRound(trace[|trace| - 1].ledger, trace[|trace| - 1].posts, marks)
  }

  ghost predicate CanCross(s: State, group: set<PostId>) {
    exists trace, marks :: CrossesAfter(s, group, trace, marks)
  }

  /**
   * The exact condition for any group among any posts: some schedule ties it into a knot if and only
   * if, after some schedule of the others alone, its posts all get to insert, on different accounts and
   * under different journal ids, and the next line id of each is one that another has used.
   */
  lemma KnotIffCrossedRound(s: State, group: set<PostId>)
    requires Init(s)
    ensures CanKnot(s, group) <==> CanCross(s, group)
  {
    hide Trace, Knot, Init, CrossedRound, CrossesAfter, KnotsAfter;
    if trace :| KnotsAfter(s, group, trace) {
      var trace', marks := KnotCrossed(s, group, trace);
    }
    if trace, marks :| CrossesAfter(s, group, trace, marks) {
      var longer := CrossedKnots(s, group, trace, marks);
    }
  }

  lemma KnotCrossed(s: State, group: set<PostId>, trace: seq<State>)
    returns (trace': seq<State>, marks: map<PostId, nat>)
    requires KnotsAfter(s, group, trace)
    ensures CrossesAfter(s, group, trace', marks)
  {
    TraceKeepsInv(trace);
    hide Trace, Knot, Init, CrossedRound, PostsOk, Exclusive, Recorded, SerialRun, SoundBooks, Quiet;
    var last := trace[|trace| - 1];
    KnotIsQuiet(last, group);
    trace' := RunWithout(trace, group);
    marks := KnotIsCrossed(last, group);
    forall p | p in group
      ensures p in last.posts
    {
      KnotMember(last, group, p);
    }
  }

  lemma CrossedKnots(s: State, group: set<PostId>, trace: seq<State>, marks: map<PostId, nat>)
    returns (longer: seq<State>)
    requires CrossesAfter(s, group, trace, marks)
    ensures KnotsAfter(s, group, longer)
  {
    hide Trace, Knot, CrossedRound, PostsOk, Exclusive, Recorded, SerialRun, SoundBooks;
    longer := OthersGone(trace, group);
    TracePostsOk(trace);
    TracePostsOk(longer);
    var start, last := trace[|trace| - 1], longer[|longer| - 1];
    SameRound(start.ledger, start.posts, last.posts, marks);
    longer := Assembles(longer, marks, {});
    TracePostsOk(longer);
    AssembledIsKnot(longer[|longer| - 1], marks);
  }

  /** These books, once some accounts have been opened, let the line ids of all posts cross in a round. */
  ghost predicate CrossedFrom(s: State, ledger: Ledger, marks: map<PostId, nat>) {
    Extends(s.ledger, ledger) && marks.Keys == s.posts.Keys && CrossedRound(ledger, s.posts, marks)
  }

  /** When the group is everybody, nobody else moves the books: the condition can be read off before the start. */
  lemma EverybodyKnotsIff(s: State)
    requires Init(s)
    ensures CanKnot(s, s.posts.Keys) <==> exists ledger, marks :: CrossedFrom(s, ledger, marks)
  {
    var group := s.posts.Keys;
    KnotIffCrossedRound(s, group);
    hide CanKnot, CrossedFrom, CrossesAfter;
    if trace, marks :| CrossesAfter(s, group, trace, marks) {
      ReadOffBefore(s, trace, marks);
    }
    if ledger, marks :| CrossedFrom(s, ledger, marks) {
      var trace := OpensAccounts(s, ledger, marks);
      assert CrossesAfter(s, group, trace, marks);
    }
  }

  lemma ReadOffBefore(s: State, trace: seq<State>, marks: map<PostId, nat>)
    requires CrossesAfter(s, s.posts.Keys, trace, marks)
    ensures CrossedFrom(s, trace[|trace| - 1].ledger, marks)
  {
    hide Trace, CrossedRound, Extends;
    TracePostsOk(trace);
    KeysStay(trace);
    NothingPostedYet(trace);
    var last := trace[|trace| - 1];
    SameRound(last.ledger, last.posts, s.posts, marks);
  }

  lemma OpensAccounts(s: State, ledger: Ledger, marks: map<PostId, nat>) returns (trace: seq<State>)
    requires Init(s) && CrossedFrom(s, ledger, marks)
    ensures CrossesAfter(s, s.posts.Keys, trace, marks)
  {
    hide CrossedRound, SoundBooks, Step;
    assert Trace([s]);
    trace := OpenAccounts([s], ledger);
  }
}
