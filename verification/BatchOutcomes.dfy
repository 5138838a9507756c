/** What a whole batch comes to: every row it gets to is marked as the rail answers, and the count tells how many. */
module BatchOutcomes {
  import opened Errors
  import opened LedgerDomain
  import opened LedgerStore
  import opened TransferDomain
  import opened Schema
  import opened Transitions
  import opened BankInvariant
  import opened ReversalKeeps
  import opened SettlementSteps
  import opened SettlementAgreement
  import opened SettlementProcessor
  import opened SkipLocked
  import opened SagaRepository

  // ---- Reversals ----

  /** Between these tables a journal was added only to send back a settlement that the rail rejects. */
  ghost predicate SendsBackRejected(rail: string -> RailOutcome, t: Tables, t': Tables) {
    forall header :: header in t'.ledger.headers && header !in t.ledger.headers ==>
      exists id :: IsRejected(rail, t, id, header)
  }

  ghost predicate IsRejected(rail: string -> RailOutcome, t: Tables, id: string, header: string) {
    && id in t.settlements && rail(id).Rejected? && t.settlements[id].sagaId in t.sagas
    && header == t.sagas[t.settlements[id].sagaId].transactionId + "-comp"
  }

  lemma StatementSendsBack(h: Hashes, opening: Ledger, o: Outside, t: Tables, stage: Stage, choice: Choice)
    requires HexDigests(h) && BankInv(h, opening, t) && Remembers(t, stage) && Possible(t, stage, choice)
    requires StageHeeds(o.rail, stage)
    ensures SendsBackRejected(o.rail, t, Drive(t, stage, choice).0)
  {
    hide BankInv, Drive, Possible, SeenIn, CompensationCommits, StageHeeds;
    var t' := Drive(t, stage, choice).0;
    if stage.PostReversal? {
      DriveReverses(t, stage, choice);
      if t' != t {
        RememberedQueue(t, stage);
        assert SeenIn(t, stage.saga, stage.queue[0]) by { assert Queue(stage)[0] == stage.queue[0]; }
        hide Remembers;
        CompensationAdds(h, opening, t, stage.saga, stage.queue[0], choice.listings, t');
        RejectedInHand(o, stage);
        var id := stage.queue[0].id;
        assert IsRejected(o.rail, t, id, t.sagas[t.settlements[id].sagaId].transactionId + "-comp");
      }
    } else {
      DriveIsBookkeeping(t, stage, choice);
    }
  }

  lemma RejectedInHand(o: Outside, stage: Stage)
    requires stage.PostReversal? && stage.queue != [] && StageHeeds(o.rail, stage)
    ensures o.rail(stage.queue[0].id).Rejected?
  {
  }

  lemma CompensationAdds(h: Hashes, opening: Ledger, t: Tables, seen: Saga, row: Settlement, listings: seq<seq<Entry>>,
      t': Tables)
    requires HexDigests(h) && BankInv(h, opening, t) && SeenIn(t, seen, row)
    requires CompensationCommits(t, seen, row, listings, t')
    ensures row.id in t.settlements && t.settlements[row.id].sagaId in t.sagas
    ensures t'.ledger.headers == t.ledger.headers + {t.sagas[t.settlements[row.id].sagaId].transactionId + "-comp"}
  {
    hide SoundBooks, BalancesExplained, Opening, VerdictOn, Readable, ReversalOf, AllBundled, OneSagaPerJournal,
        NothingElse;
    var tx := ReversalOf(seen, row).value;
    ReadableFits(t.ledger, tx, listings);
    SeenIsMirrored(h, opening, t, seen, row);
    CompensatedIs(t, tx, seen.id, listings);
  }

  /** Every statement of a batch among polite others sends back only what the rail rejects. */
  lemma {:induction false} BatchSendsBackRejected(h: Hashes, opening: Ledger, o: Outside, t: Tables, trail: seq<Choice>,
      n: nat)
    requires HexDigests(h) && Polite(h, opening, o) && BankInv(h, opening, t) && Played(o, t, trail).Some?
    requires n < |trail|
    ensures SendsBackRejected(o.rail, Before(o, t, trail, n), After(o, t, trail, n))
  {
    PlayedBefore(o, t, trail, n + 1);
    var before := trail[..n];
    assert trail[..n + 1][..n] == before;
    PlayedBefore(o, t, trail, n);
    hide BankInv, Drive, Possible, Dictated, Remembers, StageHeeds, Polite, SendsBackRejected, RowsStay;
    BatchKeepsInv(h, opening, o, t, before);
    TrailHeedsRail(o, t, before);
    var s := Played(o, t, before).value;
    PoliteStep(h, opening, o, n, s.0, s.1);
    StatementSendsBack(h, opening, o, o.others(n, s.0), s.1, trail[n]);
  }

  lemma {:induction false} PlayedBefore(o: Outside, t: Tables, trail: seq<Choice>, n: nat)
    requires Played(o, t, trail).Some? && n <= |trail|
    ensures Played(o, t, trail[..n]).Some?
    decreases |trail|
  {
    hide Drive, Possible, Dictated;
    if n < |trail| {
      PlayedBefore(o, t, trail[..|trail| - 1], n);
      assert trail[..|trail| - 1][..n] == trail[..n];
    } else {
      assert trail[..n] == trail;
    }
  }

  // ---- Every row gets its mark ----

  /** The status and the error text that an answer of the rail calls for. */
  predicate MarkedAs(row: Settlement, rail: RailOutcome) {
    match rail
    case Cleared => row.status == Settled && row.lastError == ""
    case Rejected(reason) => row.status == SettlementFailed && row.lastError == reason
    case RailError => false
  }

  /** Right after some statement of the batch, the row stands as the rail answered. */
  ghost predicate GetsMark(o: Outside, t: Tables, trail: seq<Choice>, id: string) {
    exists n: nat :: n < |trail| && MarkStands(o, t, trail, n, id)
  }

  ghost predicate MarkStands(o: Outside, t: Tables, trail: seq<Choice>, n: nat, id: string) {
    id in After(o, t, trail, n).settlements && MarkedAs(After(o, t, trail, n).settlements[id], o.rail(id))
  }

  lemma MarkRemains(o: Outside, t: Tables, trail: seq<Choice>, id: string)
    requires trail != [] && GetsMark(o, t, trail[..|trail| - 1], id)
    ensures GetsMark(o, t, trail, id)
  {
    var before := trail[..|trail| - 1];
    var n: nat :| n < |before| && MarkStands(o, t, before, n, id);
    assert before[..n + 1] == trail[..n + 1];
    assert MarkStands(o, t, trail, n, id);
  }

  /** The batch has given the first k rows their marks, and has the rest in its line. */
  ghost predicate Progress(o: Outside, t: Tables, trail: seq<Choice>, stage: Stage, rows: seq<Settlement>, k: nat) {
    && k <= |rows| && (forall j :: 0 <= j < k ==> GetsMark(o, t, trail, rows[j].id))
    && if stage.Resting? then k < |rows| ==> o.rail(rows[k].id).RailError?
       else
         && k < |rows| && stage.queue == rows[k..]
         && (stage.MarkCompleted? || stage.MarkSagaFailed? ==> GetsMark(o, t, trail, rows[k].id))
  }

  /** The rows a batch claimed, as it read them. */
  function ClaimedRows(o: Outside, t: Tables, trail: seq<Choice>): seq<Settlement>
    requires trail != []
    requires forall i :: 0 <= i < |trail[0].claimed| ==> trail[0].claimed[i] in o.others(0, t).settlements
  {
    Rows(o.others(0, t), trail[0].claimed)
  }

  predicate AllDone(o: Outside, n: nat) {
    forall i: nat :: i < n ==> o.fates(i).Done?
  }

  /** One statement, done and reported, keeps the batch going or ends it where the rail breaks. */
  lemma StatementProgresses(o: Outside, t: Tables, trail: seq<Choice>, u: Tables, stage: Stage,
      rows: seq<Settlement>, k: nat)
    returns (k': nat)
    requires trail != [] && Played(o, t, trail).Some? && |trail| > 1
    requires var n, choice := |trail| - 1, trail[|trail| - 1];
             && Played(o, t, trail[..n]).Some? && Played(o, t, trail[..n]).value.1 == stage
             && u == o.others(n, Played(o, t, trail[..n]).value.0) && !stage.Resting?
             && Possible(u, stage, choice) && Dictated(o, n, u, stage, choice) && choice.fate.Done?
             && Played(o, t, trail) == Some(Drive(u, stage, choice))
    requires Progress(o, t, trail[..|trail| - 1], stage, rows, k) && StageHeeds(o.rail, stage)
    requires stage.queue[0].id in u.settlements
    ensures Progress(o, t, trail, Played(o, t, trail).value.1, rows, k')
  {
    hide Played, Dictated, Possible, Drive, GetsMark, StageHeeds;
    var n, choice := |trail| - 1, trail[|trail| - 1];
    var next := Drive(u, stage, choice).1;
    forall j | 0 <= j < k
      ensures GetsMark(o, t, trail, rows[j].id)
    {
      MarkRemains(o, t, trail, rows[j].id);
    }
    if stage.MarkCompleted? || stage.MarkSagaFailed? {
      MarkRemains(o, t, trail, rows[k].id);
    }
    StageLeads(o, n, u, stage, choice);
    if stage.MarkSettled? || stage.MarkFailed? {
      OwnMark(o, t, trail, u, stage);
    }
    assert rows[k..][1..] == rows[k + 1..] && rows[k..][0] == rows[k];
    var leaves := stage.MarkCompleted? || stage.MarkSagaFailed? || (stage.MarkFailed? && stage.compensated);
    k' := if leaves then k + 1 else k;
  }

  /** Where a statement that is done and reported leads. */
  lemma StageLeads(o: Outside, n: nat, u: Tables, stage: Stage, choice: Choice)
    requires Possible(u, stage, choice) && Dictated(o, n, u, stage, choice) && choice.fate.Done? && !stage.Resting?
    ensures var next := Drive(u, stage, choice).1;
            && stage.queue != []
            && match stage
               case MarkSettling(queue) => next == AtRail(queue)
               case AtRail(queue) =>
                 if o.rail(queue[0].id).RailError? then next.Resting?
                 else !next.Resting? && next.queue == queue && !next.MarkCompleted? && !next.MarkSagaFailed?
               case MarkSettled(queue) => next == MarkCompleted(queue)
               case MarkFailed(queue, reason, compensated) =>
                 next == if compensated then Next(queue[1..]) else MarkSagaFailed(queue, reason)
               case MarkCompleted(queue) => next == Next(queue[1..])
               case MarkSagaFailed(queue, _) => next == Next(queue[1..])
               case Resting => true
               case _ => !next.Resting? && next.queue == stage.queue && !next.MarkCompleted? && !next.MarkSagaFailed?
  {
    hide ReversalOf, CompensationPosted, UpdateSaga, UpdateSettlementStatus, Readable;
  }

  lemma OwnMark(o: Outside, t: Tables, trail: seq<Choice>, u: Tables, stage: Stage)
    requires trail != [] && (stage.MarkSettled? || stage.MarkFailed?) && StageHeeds(o.rail, stage) && stage.queue != []
    requires Possible(u, stage, trail[|trail| - 1]) && trail[|trail| - 1].fate.Done?
    requires Played(o, t, trail) == Some(Drive(u, stage, trail[|trail| - 1])) && stage.queue[0].id in u.settlements
    ensures GetsMark(o, t, trail, stage.queue[0].id)
  {
    hide Played;
    assert trail[..|trail|] == trail;
    assert MarkStands(o, t, trail, |trail| - 1, stage.queue[0].id);
  }

  lemma {:induction false} FirstClaim(o: Outside, t: Tables, trail: seq<Choice>)
    requires trail != [] && Played(o, t, trail).Some?
    ensures Claimable(o.others(0, t), trail[0].claimed)
    ensures Selected(PendingSettlements(o.others(0, t)), trail[0].claimed, o.limit, o.locked)
  {
    PlayedBefore(o, t, trail, 1);
    assert trail[..1][..0] == [] && trail[..1][0] == trail[0];
    hide Drive, Claimable;
  }

  lemma ClaimStarts(o: Outside, t: Tables, trail: seq<Choice>)
    requires |trail| == 1 && Played(o, t, trail).Some? && o.fates(0).Done?
    ensures Claimable(o.others(0, t), trail[0].claimed)
    ensures Played(o, t, trail).value.1 == Next(ClaimedRows(o, t, trail))
  {
    FirstClaim(o, t, trail);
    assert trail[..0] == [];
    hide Claim, Claimable;
  }

  /** As long as every statement is done and reported, a batch among polite others makes progress. */
  lemma {:induction false} BatchProgresses(h: Hashes, opening: Ledger, o: Outside, t: Tables, trail: seq<Choice>)
    returns (k: nat)
    requires HexDigests(h) && Polite(h, opening, o) && BankInv(h, opening, t) && Played(o, t, trail).Some?
    requires trail != [] && AllDone(o, |trail|)
    ensures Claimable(o.others(0, t), trail[0].claimed)
    ensures Progress(o, t, trail, Played(o, t, trail).value.1, ClaimedRows(o, t, trail), k)
  {
    hide BankInv, Drive, Possible, Dictated, Remembers, StageHeeds, Polite, Claimable, RowsStay, GetsMark;
    FirstClaim(o, t, trail);
    if |trail| == 1 {
      ClaimStarts(o, t, trail);
      k := 0;
    } else {
      var n, before := |trail| - 1, trail[..|trail| - 1];
      var s := Played(o, t, before).value;
      assert before[0] == trail[0];
      var k' := BatchProgresses(h, opening, o, t, before);
      BatchKeepsInv(h, opening, o, t, before);
      PoliteStep(h, opening, o, n, s.0, s.1);
      TrailHeedsRail(o, t, before);
      RememberedQueue(o.others(n, s.0), s.1);
      HeadRemembered(o.others(n, s.0), s.1);
      var fate := o.fates(n);
      hide Progress;
      DictatedFate(o, n, o.others(n, s.0), s.1, trail[n]);
      k := StatementProgresses(o, t, trail, o.others(n, s.0), s.1, ClaimedRows(o, t, trail), k');
    }
  }

  lemma DictatedFate(o: Outside, n: nat, t: Tables, stage: Stage, choice: Choice)
    requires Dictated(o, n, t, stage, choice)
    ensures choice.fate == o.fates(n)
  {
  }

  /**
   * When every statement is done and reported, each row that the batch claimed, up to the first one for
   * which the rail breaks, is marked as the rail answers: SETTLED if it clears that settlement, FAILED
   * with its reason if it rejects it.
   */
  lemma EveryRowGetsMark(h: Hashes, opening: Ledger, o: Outside, t: Tables, trail: seq<Choice>, k: nat)
    requires HexDigests(h) && Polite(h, opening, o) && BankInv(h, opening, t) && AllDone(o, |trail|)
    requires trail != [] && Played(o, t, trail).Some? && Played(o, t, trail).value.1 == Resting
    requires k < |trail[0].claimed| && forall j :: 0 <= j <= k ==> !o.rail(trail[0].claimed[j]).RailError?
    ensures GetsMark(o, t, trail, trail[0].claimed[k])
  {
    hide BankInv, Played, Polite, RowsStay, GetsMark;
    var reached := BatchProgresses(h, opening, o, t, trail);
    var rows := ClaimedRows(o, t, trail);
    forall j | 0 <= j < |rows|
      ensures rows[j].id == trail[0].claimed[j]
    {
      ClaimedFiled(h, opening, o, t, trail[0].claimed[j]);
    }
  }

  lemma ClaimedFiled(h: Hashes, opening: Ledger, o: Outside, t: Tables, id: string)
    requires HexDigests(h) && Polite(h, opening, o) && BankInv(h, opening, t) && id in o.others(0, t).settlements
    ensures o.others(0, t).settlements[id].id == id
  {
    hide BankInv, RowsStay;
    FiledUnderItsId(h, opening, o.others(0, t), id);
  }

  // ---- The count ----

  /** The statement marks a settlement SETTLED, or posts a reversal, and its caller hears that it was done. */
  ghost predicate Achieves(o: Outside, t: Tables, trail: seq<Choice>)
    requires trail != [] && Played(o, t, trail).Some? && Played(o, t, trail[..|trail| - 1]).Some?
  {
    var stage := Played(o, t, trail[..|trail| - 1]).value.1;
    && trail[|trail| - 1].fate.Done?
    && (|| stage.MarkSettled?
        || (stage.PostReversal? && After(o, t, trail, |trail| - 1).ledger.headers
                                   != Before(o, t, trail, |trail| - 1).ledger.headers))
  }

  ghost function Achievements(o: Outside, t: Tables, trail: seq<Choice>): nat
    requires Played(o, t, trail).Some?
  {
    if trail == [] then 0
    else
      PlayedBefore(o, t, trail, |trail| - 1);
      Achievements(o, t, trail[..|trail| - 1]) + if Achieves(o, t, trail) then 1 else 0
  }

  lemma StatementAchieves(o: Outside, t: Tables, trail: seq<Choice>)
    requires trail != [] && Played(o, t, trail).Some? && Played(o, t, trail[..|trail| - 1]).Some?
    ensures var stage, next := LastStage(o, t, trail), Played(o, t, trail).value.1;
            (if Finishes(next) then 1 else 0) + (if Finishes(stage) then 1 else 0)
            == (if Finishes(stage) then 1 else 0) + (if Achieves(o, t, trail) then 1 else 0)
  {
    var n, s := |trail| - 1, Played(o, t, trail[..|trail| - 1]).value;
    var u := o.others(n, s.0);
    assert trail[..n + 1] == trail;
    assert Before(o, t, trail, n) == u && After(o, t, trail, n) == Drive(u, s.1, trail[n]).0;
    hide Played;
    NextFinishes(u, s.1, trail[n]);
  }

  lemma NextFinishes(u: Tables, stage: Stage, choice: Choice)
    requires Possible(u, stage, choice)
    ensures var after := Drive(u, stage, choice);
            Finishes(after.1) <==>
            && choice.fate.Done?
            && (stage.MarkSettled? || (stage.PostReversal? && after.0.ledger.headers != u.ledger.headers))
  {
    hide VerdictOn, ReversalOf, Readable, Claim;
    if stage.PostReversal? {
      var tx := ReversalOf(stage.saga, stage.queue[0]).value;
      ReadableFits(u.ledger, tx, choice.listings);
      if CompensationPosted(u, tx, stage.queue[0].sagaId, choice.listings).Ok? {
        CompensatedIs(u, tx, stage.queue[0].sagaId, choice.listings);
      }
    }
  }

  /** When a batch is over, it has counted the settlements it marked SETTLED and the reversals it posted, as told. */
  lemma {:induction false} ProcessedAreAchievements(o: Outside, t: Tables, trail: seq<Choice>)
    requires Played(o, t, trail).Some?
    ensures Achievements(o, t, trail)
            == Processed(o, t, trail) + if Finishes(Played(o, t, trail).value.1) then 1 else 0
    ensures Played(o, t, trail).value.1.Resting? ==> Processed(o, t, trail) == Achievements(o, t, trail)
  {
    hide Drive, Possible, Dictated, Achieves;
    if trail != [] {
      PlayedBefore(o, t, trail, |trail| - 1);
      ProcessedAreAchievements(o, t, trail[..|trail| - 1]);
      StatementAchieves(o, t, trail);
    }
  }
}
