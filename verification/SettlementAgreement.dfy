/** When settlements and sagas tell the same story, and exactly which lost writes and which claims break it. */
module SettlementAgreement {
  import opened Errors
  import opened LedgerDomain
  import opened LedgerStore
  import opened TransferDomain
  import opened Schema
  import opened Transitions
  import opened BankInvariant
  import opened TransferKeeps
  import opened ReversalKeeps
  import opened SettlementSteps
  import opened RequestSteps
  import opened BankMachine

  /** What the tables say of one settlement: its status, its saga's state, and whether the money went back. */
  datatype Standing = Standing(status: SettlementStatus, state: SagaState, reversed: bool)

  ghost predicate Linked(t: Tables) {
    forall id :: id in t.settlements ==>
      t.settlements[id].id == id && t.settlements[id].sagaId in t.sagas && SettlementHasSaga(t, id)
  }

  function StandingOf(t: Tables, id: string): Standing
    requires id in t.settlements && t.settlements[id].sagaId in t.sagas
  {
    var saga := t.sagas[t.settlements[id].sagaId];
    Standing(t.settlements[id].status, saga.state, Reversed(t, saga))
  }

  predicate Untried(st: Standing) {
    st.status.Pending? && (st.state.SagaPosted? || st.state.Settling?) && !st.reversed
  }

  /** Settlement and saga tell the same story, and the reversal is there exactly when they say so. */
  predicate Agreed(st: Standing) {
    match st.status
    case Pending => Untried(st)
    case Settled => st.state.Completed? && !st.reversed
    case SettlementFailed => (st.state.Compensated? && st.reversed) || (st.state.SagaFailed? && !st.reversed)
  }

  /** Neither sent back nor given up. */
  predicate Undecided(st: Standing) {
    !st.reversed && !st.state.Compensated? && !st.state.SagaFailed?
  }

  /** What holds of the settlement a worker has in hand. */
  predicate InHand(stage: Stage, st: Standing) {
    match stage
    case Resting => Agreed(st)
    case MarkSettling(_) => Untried(st)
    case AtRail(_) => Untried(st)
    case MarkSettled(_) => Untried(st)
    case MarkCompleted(_) => st.status.Settled? && !st.reversed && !st.state.Completed?
    case LoadSaga(_, _) => Untried(st)
    case MarkCompensating(_, _, _) => Untried(st)
    case PostReversal(_, _, _) => st.status.Pending? && Undecided(st)
    case MarkFailed(_, _, compensated) =>
      st.status.Pending? && if compensated then st.reversed && st.state.Compensated? else Undecided(st)
    case MarkSagaFailed(_, _) => st.status.SettlementFailed? && Undecided(st)
  }

  ghost predicate Held(stage: Stage, id: string) {
    exists i :: 0 <= i < |Queue(stage)| && Queue(stage)[i].id == id
  }

  predicate Heads(stage: Stage, id: string) {
    Queue(stage) != [] && Queue(stage)[0].id == id
  }

  /** No settlement is in the hands of two workers. */
  ghost predicate Apart(workers: map<nat, Stage>) {
    forall v, w, id :: v in workers && w in workers && Held(workers[v], id) && Held(workers[w], id) ==> v == w
  }

  ghost predicate Headed(workers: map<nat, Stage>, id: string) {
    exists w :: w in workers && Heads(workers[w], id)
  }

  /** A settlement in hand fits its worker's stage, every other one agrees with its saga. */
  ghost predicate FitsAt(t: Tables, workers: map<nat, Stage>, id: string) {
    && id in t.settlements && t.settlements[id].sagaId in t.sagas
    && (forall w :: w in workers && Heads(workers[w], id) ==> InHand(workers[w], StandingOf(t, id)))
    && (!Headed(workers, id) ==> Agreed(StandingOf(t, id)))
  }

  /** What waits behind the settlement in hand is pending, each row once. */
  ghost predicate LineOk(t: Tables, queue: seq<Settlement>) {
    && (forall i :: 0 < i < |queue| ==> queue[i].id in t.settlements && t.settlements[queue[i].id].status == Pending)
    && (forall i, j :: 0 <= i < j < |queue| ==> queue[i].id != queue[j].id)
  }

  ghost predicate TeamOk(t: Tables, workers: map<nat, Stage>) {
    && Linked(t) && Apart(workers)
    && (forall w :: w in workers ==> LineOk(t, Queue(workers[w])))
    && (forall id :: id in t.settlements ==> FitsAt(t, workers, id))
  }

  /** With one worker. */
  ghost predicate Consistent(t: Tables, stage: Stage) {
    TeamOk(t, map[0 := stage])
  }

  /** The claimed rows are in nobody else's hands. */
  ghost predicate ClaimsAlone(workers: map<nat, Stage>, w: nat, claimed: seq<string>) {
    forall v, i :: v in workers && v != w && 0 <= i < |claimed| ==> !Held(workers[v], claimed[i])
  }

  /** A compensation that commits although its worker is told that it failed. */
  ghost predicate Unreported(t: Tables, stage: Stage, choice: Choice)
    requires Possible(t, stage, choice) && stage.PostReversal?
  {
    && choice.fate.DoneUnreported?
    && CompensationPosted(t, ReversalOf(stage.saga, stage.queue[0]).value, stage.queue[0].sagaId, choice.listings).Ok?
  }

  /** The writes that must reach the database, and the two whose errors must mean that they did not. */
  ghost predicate Faithful(t: Tables, stage: Stage, choice: Choice)
    requires Possible(t, stage, choice)
  {
    match stage
    case MarkSettled(_) => !choice.fate.DoneUnreported?
    case MarkCompleted(_) => choice.fate.Applied()
    case PostReversal(_, _, _) => !Unreported(t, stage, choice)
    case MarkFailed(_, _, _) => choice.fate.Applied()
    case MarkSagaFailed(_, _) => choice.fate.Applied()
    case _ => true
  }

  // ---- What each write does to standings ----

  /** Every settlement but one keeps its standing. */
  ghost predicate OthersStand(t: Tables, t': Tables, id: string) {
    && Linked(t) && Linked(t') && t'.settlements.Keys == t.settlements.Keys
    && forall other :: other in t.settlements && other != id ==> StandingOf(t', other) == StandingOf(t, other)
  }

  lemma NothingStands(t: Tables, id: string)
    requires Linked(t)
    ensures OthersStand(t, t, id)
  {
  }

  lemma SagaWriteStands(t: Tables, id: string, state: SagaState, failure: string)
    requires Linked(t) && id in t.settlements
    ensures var t' := UpdateSagaState(t, t.settlements[id].sagaId, state, failure);
            OthersStand(t, t', id) && StandingOf(t', id) == StandingOf(t, id).(state := state)
  {
    var t' := UpdateSagaState(t, t.settlements[id].sagaId, state, failure);
    assert SettlementHasSaga(t, id);
    forall other | other in t.settlements
      ensures SettlementHasSaga(t', other)
      ensures other != id ==> t.settlements[other].sagaId != t.settlements[id].sagaId
    {
      assert SettlementHasSaga(t, other);
    }
  }

  lemma StatusWriteStands(t: Tables, id: string, status: SettlementStatus, lastError: string)
    requires Linked(t) && id in t.settlements
    ensures var t' := UpdateSettlementStatus(t, id, status, lastError);
            OthersStand(t, t', id) && StandingOf(t', id) == StandingOf(t, id).(status := status)
  {
    var t' := UpdateSettlementStatus(t, id, status, lastError);
    forall other | other in t.settlements
      ensures SettlementHasSaga(t', other)
    {
      assert SettlementHasSaga(t, other);
    }
  }

  lemma {:induction false} ClaimStands(t: Tables, ids: seq<string>)
    requires Linked(t)
    ensures var t' := Claim(t, ids);
            && Linked(t') && t'.settlements.Keys == t.settlements.Keys && t'.sagas == t.sagas && t'.ledger == t.ledger
            && forall id :: id in t.settlements ==> StandingOf(t', id) == StandingOf(t, id)
  {
    if ids != [] {
      var before, id := Claim(t, ids[..|ids| - 1]), ids[|ids| - 1];
      ClaimStands(t, ids[..|ids| - 1]);
      forall other | other in before.settlements
        ensures SettlementHasSaga(Claim(t, ids), other)
      {
        assert SettlementHasSaga(before, other);
      }
    }
  }

  lemma BankIsLinked(h: Hashes, opening: Ledger, t: Tables)
    requires HexDigests(h) && BankInv(h, opening, t)
    ensures Linked(t)
  {
    hide Bundled, SettlementHasSaga, EventHasSaga, HeaderExplained, SoundBooks, BalancesExplained, Opening;
    forall id | id in t.settlements
      ensures t.settlements[id].id == id && t.settlements[id].sagaId in t.sagas
    {
      FiledUnderItsId(h, opening, t, id);
    }
  }

  /** A committed compensation marks its own settlement reversed, and no other. */
  lemma CompensationStands(h: Hashes, opening: Ledger, t: Tables, seen: Saga, s: Settlement,
      listings: seq<seq<Entry>>, t': Tables)
    requires HexDigests(h) && BankInv(h, opening, t) && SeenIn(t, seen, s)
    requires CompensationCommits(t, seen, s, listings, t')
    ensures OthersStand(t, t', s.id)
    ensures StandingOf(t', s.id) == StandingOf(t, s.id).(state := Compensated, reversed := true)
  {
    BankIsLinked(h, opening, t);
    hide Opening, SoundBooks, BalancesExplained, NothingElse, VerdictOn, Readable, ReversalOf, Bundled, UpdateSagaState;
    var tx := ReversalOf(seen, s).value;
    ReadableFits(t.ledger, tx, listings);
    SeenIsMirrored(h, opening, t, seen, s);
    CompensatedIs(t, tx, seen.id, listings);
    var u := WithReversal(t, tx);
    JournalStands(h, t, seen.id, tx, s.id);
    SagaWriteStands(u, s.id, Compensated, COMPENSATION_REASON);
  }

  lemma JournalStands(h: Hashes, t: Tables, sagaId: string, tx: Transaction, id: string)
    requires HexDigests(h) && AllBundled(h, t) && OneSagaPerJournal(t) && Linked(t) && Mirrors(t, sagaId, tx)
    requires id in t.settlements && t.settlements[id].sagaId == sagaId
    ensures var u := WithReversal(t, tx);
            OthersStand(t, u, id) && StandingOf(u, id) == StandingOf(t, id).(reversed := true)
  {
    hide AllBundled, OneSagaPerJournal, Mirrors;
    var u := WithReversal(t, tx);
    MirrorsIs(t, sagaId, tx);
    assert SettlementHasSaga(t, id);
    forall other | other in t.settlements
      ensures SettlementHasSaga(u, other)
      ensures other != id ==> StandingOf(u, other) == StandingOf(t, other)
    {
      assert SettlementHasSaga(t, other);
      if other != id {
        OtherReversals(h, t, sagaId, t.settlements[other].sagaId, tx);
      }
    }
  }

  lemma MirrorsIs(t: Tables, sagaId: string, tx: Transaction)
    requires Mirrors(t, sagaId, tx)
    ensures sagaId in t.sagas && tx.id == CompensationId(t.sagas[sagaId].transactionId)
  {
  }

  // ---- One statement of the worker ----

  /** The standing of the settlement in hand after a statement. */
  ghost function StandingAfter(t: Tables, stage: Stage, choice: Choice, st: Standing): Standing
    requires Possible(t, stage, choice)
  {
    if !choice.fate.Applied() then st
    else match stage
      case MarkSettling(_) => st.(state := Settling)
      case MarkSettled(_) => st.(status := Settled)
      case MarkCompleted(_) => st.(state := Completed)
      case MarkCompensating(_, _, _) => st.(state := Compensating)
      case PostReversal(_, _, _) =>
        if CompensationPosted(t, ReversalOf(stage.saga, stage.queue[0]).value, stage.queue[0].sagaId,
            choice.listings).Ok?
        then st.(state := Compensated, reversed := true) else st
      case MarkFailed(_, _, _) => st.(status := SettlementFailed)
      case MarkSagaFailed(_, _) => st.(state := SagaFailed)
      case _ => st
  }

  lemma ReversalStands(h: Hashes, opening: Ledger, t: Tables, stage: Stage, choice: Choice)
    requires HexDigests(h) && BankInv(h, opening, t) && Remembers(t, stage) && Possible(t, stage, choice)
    requires stage.PostReversal?
    requires stage.queue[0].id in t.settlements && t.settlements[stage.queue[0].id].sagaId in t.sagas
    ensures var t', id := Drive(t, stage, choice).0, stage.queue[0].id;
            OthersStand(t, t', id) && StandingOf(t', id) == StandingAfter(t, stage, choice, StandingOf(t, id))
  {
    hide BankInv, OthersStand, StandingOf, Linked, ReversalOf, Readable, SeenIn, CompensationPosted, UpdateSaga,
        UpdateSettlementStatus, Claim, Claimable, SameSettlement;
    BankIsLinked(h, opening, t);
    NothingStands(t, stage.queue[0].id);
    var tx := ReversalOf(stage.saga, stage.queue[0]).value;
    ReadableFits(t.ledger, tx, choice.listings);
    if CompensationPosted(t, tx, stage.queue[0].sagaId, choice.listings).Ok? && choice.fate.Applied() {
      CompensationStands(h, opening, t, stage.saga, stage.queue[0], choice.listings, Drive(t, stage, choice).0);
    }
  }

  lemma DriveStands(h: Hashes, opening: Ledger, t: Tables, stage: Stage, choice: Choice)
    requires HexDigests(h) && BankInv(h, opening, t) && Remembers(t, stage) && Possible(t, stage, choice)
    requires !stage.Resting?
    ensures var t', id := Drive(t, stage, choice).0, stage.queue[0].id;
            && id in t.settlements && OthersStand(t, t', id)
            && t.settlements[id].sagaId in t.sagas && id in t'.settlements && t'.settlements[id].sagaId in t'.sagas
            && StandingOf(t', id) == StandingAfter(t, stage, choice, StandingOf(t, id))
  {
    BankIsLinked(h, opening, t);
    LinkedSame(h, opening, t, stage);
    if stage.PostReversal? {
      hide BankInv, OthersStand, StandingOf, ReversalOf, Remembers, Drive, StandingAfter;
      ReversalStands(h, opening, t, stage, choice);
    } else {
      hide BankInv, StandingOf, UpdateSaga, UpdateSettlementStatus, Remembers;
      OwnWriteStands(t, stage, choice);
    }
  }

  lemma OwnWriteStands(t: Tables, stage: Stage, choice: Choice)
    requires Possible(t, stage, choice) && !stage.Resting? && !stage.PostReversal? && Linked(t)
    requires stage.queue[0].id in t.settlements && stage.queue[0].sagaId in t.sagas
    requires t.settlements[stage.queue[0].id].sagaId == stage.queue[0].sagaId
    ensures var t', id := Drive(t, stage, choice).0, stage.queue[0].id;
            OthersStand(t, t', id) && StandingOf(t', id) == StandingAfter(t, stage, choice, StandingOf(t, id))
  {
    hide OthersStand, StandingOf, Linked, UpdateSaga, UpdateSettlementStatus, ReversalOf;
    var s := stage.queue[0];
    NothingStands(t, s.id);
    match stage {
      case MarkSettling(_) => SagaWriteStands(t, s.id, Settling, "");
      case MarkSettled(_) => StatusWriteStands(t, s.id, Settled, "");
      case MarkCompleted(_) => SagaWriteStands(t, s.id, Completed, "");
      case MarkCompensating(_, _, _) => SagaWriteStands(t, s.id, Compensating, "");
      case MarkFailed(_, reason, _) => StatusWriteStands(t, s.id, SettlementFailed, reason);
      case MarkSagaFailed(_, reason) => SagaWriteStands(t, s.id, SagaFailed, reason);
      case _ =>
    }
  }

  lemma LinkedSame(h: Hashes, opening: Ledger, t: Tables, stage: Stage)
    requires HexDigests(h) && BankInv(h, opening, t) && Remembers(t, stage) && !stage.Resting?
    ensures var s := stage.queue[0];
            s.id in t.settlements && t.settlements[s.id].sagaId == s.sagaId && t.settlements[s.id].sagaId in t.sagas
  {
    hide BankInv, ReversalOf, SeenIn;
    assert Queue(stage)[0] == stage.queue[0];
    FiledUnderItsId(h, opening, t, stage.queue[0].id);
  }

  /** The exact condition for the settlement in hand: it still fits afterwards if and only if the write was faithful. */
  lemma FitsIffFaithful(t: Tables, stage: Stage, choice: Choice, st: Standing)
    requires Possible(t, stage, choice) && !stage.Resting? && InHand(stage, st)
    ensures var after, next := StandingAfter(t, stage, choice, st), Drive(t, stage, choice).1;
            (if Queue(next) == stage.queue then InHand(next, after) else Agreed(after)) <==> Faithful(t, stage, choice)
  {
    hide CompensationPosted, ReversalOf, UpdateSaga, UpdateSettlementStatus, Readable;
    if stage.PostReversal? {
    } else {
      assert Queue(Next(stage.queue[1..])) == stage.queue[1..];
    }
  }

  lemma NextInLine(stage: Stage, choice: Choice, t: Tables)
    requires Possible(t, stage, choice) && !stage.Resting?
    ensures var next := Drive(t, stage, choice).1;
            stage.queue != [] ==> Follows(stage, next)
  {
    hide CompensationPosted, ReversalOf, UpdateSaga, UpdateSettlementStatus, Readable;
  }

  ghost predicate Follows(stage: Stage, next: Stage) {
    && !stage.Resting? && stage.queue != []
    && (|| (!next.Resting? && next.queue == stage.queue)
        || (next == MarkSettling(stage.queue[1..]) && |stage.queue| > 1)
        || next.Resting?)
  }

  lemma HeadHeld(stage: Stage, id: string)
    requires Heads(stage, id)
    ensures Held(stage, id)
  {
  }

  /** A row that waits in line is nobody's head, and untried. */
  lemma WaitingUntried(t: Tables, workers: map<nat, Stage>, w: nat, i: nat)
    requires TeamOk(t, workers) && w in workers && 0 < i < |Queue(workers[w])|
    ensures var id := Queue(workers[w])[i].id;
            && id in t.settlements && t.settlements[id].sagaId in t.sagas && !Headed(workers, id)
            && Untried(StandingOf(t, id))
  {
    hide SettlementHasSaga, Reversed;
    var id := Queue(workers[w])[i].id;
    assert Held(workers[w], id) && LineOk(t, Queue(workers[w]));
    forall v | v in workers
      ensures !Heads(workers[v], id)
    {
      if Heads(workers[v], id) {
        HeadHeld(workers[v], id);
      }
    }
    assert FitsAt(t, workers, id);
  }

  lemma HeldBefore(stage: Stage, next: Stage, id: string)
    requires Follows(stage, next) && Held(next, id)
    ensures Held(stage, id)
  {
    var i :| 0 <= i < |Queue(next)| && Queue(next)[i].id == id;
    assert Queue(stage)[if next.queue == stage.queue then i else i + 1].id == id;
  }

  lemma StayApart(workers: map<nat, Stage>, w: nat, next: Stage)
    requires Apart(workers) && w in workers && Follows(workers[w], next)
    ensures Apart(workers[w := next])
  {
    hide Held, Follows;
    var after := workers[w := next];
    forall u, v, id | u in after && v in after && Held(after[u], id) && Held(after[v], id)
      ensures u == v
    {
      if u == w {
        HeldBefore(workers[w], next, id);
      }
      if v == w {
        HeldBefore(workers[w], next, id);
      }
    }
  }

  lemma LineStaysOk(t: Tables, t': Tables, workers: map<nat, Stage>, w: nat, next: Stage, v: nat)
    requires TeamOk(t, workers) && w in workers && v in workers && Follows(workers[w], next)
    requires OthersStand(t, t', workers[w].queue[0].id)
    ensures LineOk(t', Queue(workers[w := next][v]))
  {
    hide SettlementHasSaga, FitsAt;
    var queue := Queue(workers[v]);
    assert LineOk(t, queue) && Heads(workers[w], workers[w].queue[0].id);
    forall i | 0 < i < |queue|
      ensures queue[i].id in t'.settlements && t'.settlements[queue[i].id].status == Pending
    {
      WaitingUntried(t, workers, v, i);
      assert queue[i].id != workers[w].queue[0].id;
      assert StandingOf(t', queue[i].id) == StandingOf(t, queue[i].id);
    }
  }

  /** Any settlement but the one in hand fits afterwards as it fitted before. */
  lemma OthersFit(t: Tables, t': Tables, workers: map<nat, Stage>, w: nat, next: Stage, id: string)
    requires TeamOk(t, workers) && w in workers && Follows(workers[w], next)
    requires OthersStand(t, t', workers[w].queue[0].id)
    requires id in t.settlements && id != workers[w].queue[0].id
    ensures FitsAt(t', workers[w := next], id)
  {
    hide SettlementHasSaga, Reversed, Agreed, LineOk, Apart, Held, SameSettlement, Undecided;
    var stage, after := workers[w], workers[w := next];
    assert FitsAt(t, workers, id);
    if next == MarkSettling(stage.queue[1..]) && |stage.queue| > 1 && stage.queue[1].id == id {
      WaitingUntried(t, workers, w, 1);
      assert forall v :: v in workers && v != w ==> after[v] == workers[v];
      assert Heads(after[w], id);
    } else {
      assert !Heads(next, id) && !Heads(stage, id);
      assert forall v :: v in after && v != w ==> after[v] == workers[v];
      if Headed(workers, id) {
        var v :| v in workers && Heads(workers[v], id);
        assert Heads(after[v], id);
      }
    }
  }

  /** Whether the team stays in order is decided by the settlement in hand. */
  lemma HeadFitsIff(t: Tables, t': Tables, workers: map<nat, Stage>, w: nat, next: Stage)
    requires TeamOk(t, workers) && w in workers && Follows(workers[w], next)
    requires var id := workers[w].queue[0].id; id in t'.settlements && t'.settlements[id].sagaId in t'.sagas
    ensures var id := workers[w].queue[0].id;
            FitsAt(t', workers[w := next], id) <==>
            (if Queue(next) == workers[w].queue then InHand(next, StandingOf(t', id)) else Agreed(StandingOf(t', id)))
  {
    hide InHand, Agreed, StandingOf, Linked;
    var stage, after := workers[w], workers[w := next];
    var id := stage.queue[0].id;
    assert Heads(stage, id) && LineOk(t, Queue(stage));
    HeadHeld(stage, id);
    forall v | v in after && v != w
      ensures !Heads(after[v], id)
    {
      if Heads(workers[v], id) {
        HeadHeld(workers[v], id);
      }
    }
    if Queue(next) == stage.queue {
      assert Heads(after[w], id);
    } else {
      assert !Heads(after[w], id);
    }
  }

  lemma HeadDecides(t: Tables, t': Tables, workers: map<nat, Stage>, w: nat, next: Stage)
    requires TeamOk(t, workers) && w in workers && Follows(workers[w], next)
    requires OthersStand(t, t', workers[w].queue[0].id)
    requires var id := workers[w].queue[0].id;
             id in t.settlements && id in t'.settlements && t'.settlements[id].sagaId in t'.sagas
    ensures var id := workers[w].queue[0].id;
            TeamOk(t', workers[w := next]) <==>
            (if Queue(next) == workers[w].queue then InHand(next, StandingOf(t', id)) else Agreed(StandingOf(t', id)))
  {
    HeadFitsIff(t, t', workers, w, next);
    hide LineOk, FitsAt, InHand, Agreed, StandingOf, SettlementHasSaga, Apart, Follows;
    StayApart(workers, w, next);
    forall v | v in workers
      ensures LineOk(t', Queue(workers[w := next][v]))
    {
      LineStaysOk(t, t', workers, w, next, v);
    }
    forall id | id in t.settlements && id != workers[w].queue[0].id
      ensures FitsAt(t', workers[w := next], id)
    {
      OthersFit(t, t', workers, w, next, id);
    }
  }

  /** What a worker has in hand stands as its stage says. */
  lemma HeadInHand(t: Tables, workers: map<nat, Stage>, w: nat, id: string)
    requires TeamOk(t, workers) && w in workers && Heads(workers[w], id) && id in t.settlements
    ensures t.settlements[id].sagaId in t.sagas && InHand(workers[w], StandingOf(t, id))
  {
    hide SettlementHasSaga, InHand, Agreed;
    assert FitsAt(t, workers, id);
  }

  lemma QueueNonempty(t: Tables, stage: Stage, choice: Choice)
    requires Possible(t, stage, choice) && !stage.Resting?
    ensures stage.queue != [] && Heads(stage, stage.queue[0].id)
  {
    hide ReversalOf;
  }

  /** A claim whose worker learns what it has claimed. */
  predicate ClaimHeard(stage: Stage, choice: Choice) {
    stage.Resting? && choice.fate.Done?
  }

  /** A faithful write, or a claim that takes nothing out of another's hands. */
  ghost predicate Proper(t: Tables, workers: map<nat, Stage>, w: nat, choice: Choice)
    requires w in workers && Possible(t, workers[w], choice)
  {
    && Faithful(t, workers[w], choice)
    && (ClaimHeard(workers[w], choice) ==> ClaimsAlone(workers, w, choice.claimed))
  }

  /**
   * The exact condition, statement by statement, for any number of workers: a statement of one of them
   * leaves the team in order if and only if it was faithful, and a claim took nothing out of another's hands.
   */
  lemma TeamOkIffFaithful(h: Hashes, opening: Ledger, t: Tables, workers: map<nat, Stage>, w: nat, choice: Choice)
    requires HexDigests(h) && BankInv(h, opening, t) && TeamOk(t, workers)
    requires w in workers && Remembers(t, workers[w]) && Possible(t, workers[w], choice)
    ensures var after := Drive(t, workers[w], choice);
            TeamOk(after.0, workers[w := after.1])
            <==> Proper(t, workers, w, choice)
  {
    hide BankInv, Drive, Remembers, TeamOk, Faithful;
    if workers[w].Resting? {
      ClaimFaithful(t, choice);
      ClaimDecides(t, workers, w, choice);
    } else {
      WriteDecides(h, opening, t, workers, w, choice);
    }
  }

  lemma ClaimFaithful(t: Tables, choice: Choice)
    requires Possible(t, Resting, choice)
    ensures Faithful(t, Resting, choice)
  {
  }

  lemma WriteDecides(h: Hashes, opening: Ledger, t: Tables, workers: map<nat, Stage>, w: nat, choice: Choice)
    requires HexDigests(h) && BankInv(h, opening, t) && TeamOk(t, workers)
    requires w in workers && Remembers(t, workers[w]) && Possible(t, workers[w], choice) && !workers[w].Resting?
    ensures var after := Drive(t, workers[w], choice);
            TeamOk(after.0, workers[w := after.1]) <==> Faithful(t, workers[w], choice)
  {
    hide BankInv, Drive, Remembers, Possible, TeamOk, Agreed, InHand, Faithful, OthersStand, StandingOf,
        StandingAfter, Follows, Heads;
    var stage := workers[w];
    QueueNonempty(t, stage, choice);
    var t', next, id := Drive(t, stage, choice).0, Drive(t, stage, choice).1, stage.queue[0].id;
    DriveStands(h, opening, t, stage, choice);
    HeadInHand(t, workers, w, id);
    FitsIffFaithful(t, stage, choice, StandingOf(t, id));
    NextInLine(stage, choice, t);
    HeadDecides(t, t', workers, w, next);
  }

  /** With one worker there is nobody to take anything from. */
  lemma ConsistentIffFaithful(h: Hashes, opening: Ledger, t: Tables, stage: Stage, choice: Choice)
    requires HexDigests(h) && BankInv(h, opening, t) && Remembers(t, stage) && Possible(t, stage, choice)
    requires Consistent(t, stage)
    ensures Consistent(Drive(t, stage, choice).0, Drive(t, stage, choice).1) <==> Faithful(t, stage, choice)
  {
    hide BankInv, Drive, Remembers, Possible, TeamOk, Faithful;
    var next := Drive(t, stage, choice).1;
    TeamOkIffFaithful(h, opening, t, map[0 := stage], 0, choice);
    assert map[0 := stage][0 := next] == map[0 := next];
  }

  // ---- A crash ----

  /** The row in hand, if there is one, is still untried. */
  ghost predicate Droppable(t: Tables, stage: Stage) {
    forall id :: Heads(stage, id) && id in t.settlements && t.settlements[id].sagaId in t.sagas ==>
      Untried(StandingOf(t, id))
  }

  /** A worker that crashes and is restarted leaves the team in order if and only if its row is still untried. */
  lemma TeamOkIffDroppable(t: Tables, workers: map<nat, Stage>, w: nat)
    requires TeamOk(t, workers) && w in workers && Remembers(t, workers[w])
    ensures TeamOk(t, workers[w := Resting]) <==> Droppable(t, workers[w])
  {
    hide TeamOk, Remembers, StandingOf, OthersStand, InHand, Agreed, Untried;
    var stage := workers[w];
    HeadRemembered(t, stage);
    RememberedQueue(t, stage);
    if stage.Resting? {
      assert workers[w := Resting] == workers;
    } else {
      var id := stage.queue[0].id;
      HeadInHand(t, workers, w, id);
      InHandAgrees(stage, StandingOf(t, id));
      TeamLinked(t, workers);
      NothingStands(t, id);
      HeadDecides(t, t, workers, w, Resting);
    }
  }

  lemma RememberedQueue(t: Tables, stage: Stage)
    requires Remembers(t, stage)
    ensures !stage.Resting? ==> stage.queue != [] && Heads(stage, stage.queue[0].id)
  {
    hide ReversalOf, SeenIn;
  }

  lemma TeamLinked(t: Tables, workers: map<nat, Stage>)
    requires TeamOk(t, workers)
    ensures Linked(t)
  {
  }

  /** Of a row in hand, only an untried one agrees. */
  lemma InHandAgrees(stage: Stage, st: Standing)
    requires !stage.Resting? && InHand(stage, st)
    ensures Agreed(st) <==> Untried(st)
  {
  }

  /** Up to the settled mark, and up to the post of the reversal, a crash is always harmless. */
  lemma EarlyIsDroppable(t: Tables, workers: map<nat, Stage>, w: nat)
    requires TeamOk(t, workers) && w in workers
    requires var stage := workers[w];
             || stage.Resting? || stage.MarkSettling? || stage.AtRail? || stage.MarkSettled? || stage.LoadSaga?
             || stage.MarkCompensating?
    ensures Droppable(t, workers[w])
  {
    hide TeamOk, StandingOf, Untried, Agreed;
    forall id | Heads(workers[w], id) && id in t.settlements && t.settlements[id].sagaId in t.sagas
      ensures Untried(StandingOf(t, id))
    {
      HeadInHand(t, workers, w, id);
    }
  }

  lemma ClaimHolds(t: Tables, choice: Choice, id: string)
    requires Possible(t, Resting, choice) && Linked(t)
    ensures Held(Drive(t, Resting, choice).1, id) <==> choice.fate.Done? && id in choice.claimed
    ensures Heads(Drive(t, Resting, choice).1, id)
        <==> choice.fate.Done? && choice.claimed != [] && choice.claimed[0] == id
  {
    hide Claim, SettlementHasSaga;
    var next := Drive(t, Resting, choice).1;
    if choice.fate.Done? {
      assert Queue(next) == Rows(t, choice.claimed);
      assert forall i :: 0 <= i < |choice.claimed| ==> Queue(next)[i].id == choice.claimed[i];
    }
  }

  /** The first claimed row, if nobody has it in hand, is untried. */
  lemma ClaimedUntried(t: Tables, workers: map<nat, Stage>, choice: Choice, id: string)
    requires Linked(t) && Possible(t, Resting, choice) && id in t.settlements && FitsAt(t, workers, id)
    requires !Headed(workers, id)
    requires Heads(Drive(t, Resting, choice).1, id)
    ensures Drive(t, Resting, choice).1.MarkSettling? && Untried(StandingOf(t, id))
  {
    hide Claim, Reversed, Headed, InHand, SettlementHasSaga;
    ClaimHolds(t, choice, id);
  }

  lemma HeadsAfterClaim(workers: map<nat, Stage>, w: nat, next: Stage, id: string)
    requires w in workers && workers[w].Resting?
    requires (Heads(next, id) ==> forall v :: v in workers && v != w ==> !Held(workers[v], id))
    ensures Headed(workers[w := next], id) <==> Heads(next, id) || Headed(workers, id)
    ensures Heads(next, id) ==> !Headed(workers, id)
  {
    hide Held;
    var after := workers[w := next];
    forall v | v in workers && Heads(workers[v], id)
      ensures !Heads(next, id) && Heads(after[v], id)
    {
      HeadHeld(workers[v], id);
    }
    assert Heads(next, id) ==> Heads(after[w], id);
  }

  lemma ClaimFits(t: Tables, workers: map<nat, Stage>, w: nat, choice: Choice, id: string)
    requires TeamOk(t, workers) && w in workers && workers[w].Resting? && Possible(t, Resting, choice)
    requires choice.fate.Done? ==> ClaimsAlone(workers, w, choice.claimed)
    requires id in t.settlements
    ensures FitsAt(Drive(t, Resting, choice).0, workers[w := Drive(t, Resting, choice).1], id)
  {
    hide Drive, Claim, Linked, Held, Heads, Headed, StandingOf, Agreed, Untried, Possible, LineOk, Apart;
    ClaimStands(t, choice.claimed);
    assert FitsAt(t, workers, id);
    var next := Drive(t, Resting, choice).1;
    ClaimHolds(t, choice, id);
    ClaimTables(t, choice);
    SagasThere(Drive(t, Resting, choice).0);
    HeadsAfterClaim(workers, w, next, id);
    if Heads(next, id) {
      ClaimedUntried(t, workers, choice, id);
    }
  }

  lemma SagasThere(t: Tables)
    requires Linked(t)
    ensures forall id :: id in t.settlements ==> t.settlements[id].sagaId in t.sagas
  {
    hide SettlementHasSaga;
  }

  lemma ClaimTables(t: Tables, choice: Choice)
    requires Possible(t, Resting, choice)
    ensures Drive(t, Resting, choice).0 == if choice.fate.Applied() then Claim(t, choice.claimed) else t
  {
    hide Claim;
  }

  lemma ClaimDecides(t: Tables, workers: map<nat, Stage>, w: nat, choice: Choice)
    requires TeamOk(t, workers) && w in workers && workers[w].Resting? && Possible(t, Resting, choice)
    ensures TeamOk(Drive(t, Resting, choice).0, workers[w := Drive(t, Resting, choice).1])
            <==> (choice.fate.Done? ==> ClaimsAlone(workers, w, choice.claimed))
  {
    hide Claim, FitsAt, SettlementHasSaga, Heads, StandingOf, Held, LineOk;
    var t', next := Drive(t, Resting, choice).0, Drive(t, Resting, choice).1;
    ClaimStands(t, choice.claimed);
    hide Drive;
    ClaimApart(t, workers, w, choice);
    if choice.fate.Done? ==> ClaimsAlone(workers, w, choice.claimed) {
      forall id | id in t.settlements
        ensures FitsAt(t', workers[w := next], id)
      {
        ClaimFits(t, workers, w, choice, id);
      }
      ClaimLines(t, workers, w, choice);
    }
  }

  lemma ClaimApart(t: Tables, workers: map<nat, Stage>, w: nat, choice: Choice)
    requires Apart(workers) && Linked(t) && w in workers && workers[w].Resting? && Possible(t, Resting, choice)
    ensures Apart(workers[w := Drive(t, Resting, choice).1])
            <==> (choice.fate.Done? ==> ClaimsAlone(workers, w, choice.claimed))
  {
    var next := Drive(t, Resting, choice).1;
    hide Drive, Possible, Held, Linked;
    var after := workers[w := next];
    forall id
      ensures Held(next, id) <==> choice.fate.Done? && id in choice.claimed
    {
      ClaimHolds(t, choice, id);
    }
    if choice.fate.Done? && !ClaimsAlone(workers, w, choice.claimed) {
      var v, i :| v in workers && v != w && 0 <= i < |choice.claimed| && Held(workers[v], choice.claimed[i]);
      assert Held(after[v], choice.claimed[i]) && Held(after[w], choice.claimed[i]);
    }
  }

  lemma ClaimLines(t: Tables, workers: map<nat, Stage>, w: nat, choice: Choice)
    requires TeamOk(t, workers) && w in workers && workers[w].Resting? && Possible(t, Resting, choice)
    ensures var t', after := Drive(t, Resting, choice).0, workers[w := Drive(t, Resting, choice).1];
            forall v :: v in after ==> LineOk(t', Queue(after[v]))
  {
    hide Claim, Reversed, SettlementHasSaga, Held, FitsAt, Apart;
    ClaimStands(t, choice.claimed);
    var t', next := Drive(t, Resting, choice).0, Drive(t, Resting, choice).1;
    assert forall id :: id in t.settlements ==> StandingOf(t', id) == StandingOf(t, id);
    if !next.Resting? {
      assert Queue(next) == Rows(t, choice.claimed);
      assert forall i :: 0 <= i < |choice.claimed| ==> Queue(next)[i].id == choice.claimed[i];
    }
    forall v | v in workers && v != w
      ensures LineOk(t', Queue(workers[v]))
    {
      assert LineOk(t, Queue(workers[v]));
    }
  }

  // ---- Everything else that happens ----

  lemma OldStands(h: Hashes, t: Tables, b: Booking, id: string)
    requires HexDigests(h) && AllBundled(h, t) && IdsDerived(h, b.saga) && NewRows(t, b)
    requires b.tx.id == b.saga.transactionId
    requires id in t.settlements && t.settlements[id].sagaId in t.sagas
    ensures var t' := Booked(t, b);
            && id in t'.settlements && t'.settlements[id].sagaId in t'.sagas
            && StandingOf(t', id) == StandingOf(t, id)
  {
    hide Bundled, IdsDerived, Reversed;
    assert Bundled(h, t, t.sagas[t.settlements[id].sagaId]);
    OldBundle(h, t, b, t.sagas[t.settlements[id].sagaId]);
  }

  lemma NewStands(h: Hashes, opening: Ledger, t: Tables, b: Booking)
    requires HexDigests(h) && Opening(opening) && AllBundled(h, t) && NothingElse(opening, t)
    requires Coherent(h, b) && NewRows(t, b) && b.saga.state == SagaPosted && b.settlement.status == Pending
    ensures var t' := Booked(t, b);
            && t'.settlements[b.settlement.id].sagaId in t'.sagas && Untried(StandingOf(t', b.settlement.id))
    ensures IdsDerived(h, b.saga) && b.tx.id == b.saga.transactionId
  {
    NotYetReversed(h, opening, t, b);
    hide AllBundled, NothingElse, Opening, IdsDerived, Decodes, EventMatches, TransferLines, Reversed;
  }

  lemma BookedStands(h: Hashes, opening: Ledger, t: Tables, b: Booking)
    requires HexDigests(h) && BankInv(h, opening, t) && Linked(t) && Linked(Booked(t, b)) && Coherent(h, b)
    requires NewRows(t, b)
    requires b.saga.state == SagaPosted && b.settlement.status == Pending
    ensures forall id :: id in t.settlements ==>
        id in Booked(t, b).settlements && StandingOf(Booked(t, b), id) == StandingOf(t, id)
    ensures forall id :: id in Booked(t, b).settlements && id !in t.settlements ==>
        Untried(StandingOf(Booked(t, b), id))
  {
    hide AllBundled, NothingElse, Opening, IdsDerived, Coherent, NewRows, SettlementHasSaga, SoundBooks, StandingOf,
        Untried, BalancesExplained;
    NewStands(h, opening, t, b);
    forall id | id in t.settlements
      ensures id in Booked(t, b).settlements && StandingOf(Booked(t, b), id) == StandingOf(t, id)
    {
      OldStands(h, t, b, id);
    }
  }

  /** Settlements that were there stand as before, and new ones are untried. */
  ghost predicate StandingsKept(t: Tables, t': Tables) {
    && Linked(t) && Linked(t')
    && (forall id :: id in t.settlements ==> id in t'.settlements && StandingOf(t', id) == StandingOf(t, id))
    && (forall id :: id in t'.settlements && id !in t.settlements ==> Untried(StandingOf(t', id)))
  }

  lemma StandingsKeepTeam(t: Tables, t': Tables, workers: map<nat, Stage>)
    requires TeamOk(t, workers) && StandingsKept(t, t')
    requires forall w :: w in workers ==> Remembers(t, workers[w])
    ensures TeamOk(t', workers)
  {
    hide Reversed, SettlementHasSaga, InHand, Apart;
    forall id | id in t'.settlements
      ensures FitsAt(t', workers, id)
    {
      if id in t.settlements {
        assert FitsAt(t, workers, id);
      } else {
        forall w | w in workers
          ensures !Heads(workers[w], id)
        {
          HeadRemembered(t, workers[w]);
        }
      }
    }
    forall w | w in workers
      ensures LineOk(t', Queue(workers[w]))
    {
      LineKept(t, t', Queue(workers[w]));
    }
  }

  lemma LineKept(t: Tables, t': Tables, queue: seq<Settlement>)
    requires StandingsKept(t, t') && LineOk(t, queue)
    ensures LineOk(t', queue)
  {
    hide Reversed, SettlementHasSaga;
    forall i | 0 < i < |queue|
      ensures queue[i].id in t'.settlements && t'.settlements[queue[i].id].status == Pending
    {
      assert StandingOf(t', queue[i].id) == StandingOf(t, queue[i].id);
    }
  }

  lemma HeadRemembered(t: Tables, stage: Stage)
    requires Remembers(t, stage)
    ensures forall id :: Heads(stage, id) ==> id in t.settlements
  {
    hide ReversalOf, SeenIn;
  }

  lemma SameRowsStand(t: Tables, t': Tables)
    requires Linked(t) && t'.sagas == t.sagas && t'.settlements == t.settlements
    requires t'.ledger.headers == t.ledger.headers
    ensures StandingsKept(t, t')
  {
    assert forall id :: SettlementHasSaga(t, id) <==> SettlementHasSaga(t', id);
  }

  /** Requests, relays, new accounts and expiry never disturb a settlement. */
  lemma OthersKeepStandings(h: Hashes, opening: Ledger, s: Bank, a: Action, s': Bank)
    requires HexDigests(h) && BankMachine.Inv(h, opening, s) && Happens(h, s, a, s')
    requires !a.Worker? && !a.Crash?
    ensures s'.workers == s.workers && StandingsKept(s.tables, s'.tables)
  {
    hide BankInv, StoreOk, RequestOk, RowsStay, Remembers, Serve, Postable, StandingsKept, Linked;
    BankIsLinked(h, opening, s.tables);
    if a.Request? && s.requests[a.who].phase.Posting? {
      PostingKeepsStandings(h, opening, s, a, s');
    } else if a.Request? {
      NoWriteOutsidePosting(h, World(s.tables, s.store), s.requests[a.who], a.chance);
      SameRowsStand(s.tables, s'.tables);
    } else {
      SameRowsStand(s.tables, s'.tables);
    }
  }

  lemma NoWriteOutsidePosting(h: Hashes, world: World, request: RequestSteps.Request, chance: Chance)
    requires HexDigests(h) && Postable(h, world.tables, request, chance) && !request.phase.Posting?
    ensures Serve(h, world, request, chance).0.tables == world.tables
  {
    hide GuardStep;
  }

  lemma PostingKeepsStandings(h: Hashes, opening: Ledger, s: Bank, a: Action, s': Bank)
    requires HexDigests(h) && BankMachine.Inv(h, opening, s) && Happens(h, s, a, s') && a.Request?
    requires s.requests[a.who].phase.Posting?
    ensures StandingsKept(s.tables, s'.tables)
  {
    hide BankInv, StoreOk, RequestOk, RowsStay, Serve, Postable, TransferCommits, ReversalOf, SeenIn,
        StandingOf, Linked, Coherent, NewRows;
    var request := s.requests[a.who];
    PostKeepsRequest(h, World(s.tables, s.store), request, a.chance);
    BankIsLinked(h, opening, s.tables);
    if s'.tables != s.tables {
      var b := CommitIsBooking(h, s.tables, request.cmd, a.chance.listings, s'.tables);
      TransferKeepsInv(h, opening, s.tables, request.cmd, a.chance.listings, s'.tables);
      BankIsLinked(h, opening, s'.tables);
      BookedStands(h, opening, s.tables, b);
    }
  }

  // ---- Whole runs ----

  /** No unfaithful write, no claim of a row in another's hands, no crash with a row half done. */
  ghost predicate ProperAction(s: Bank, a: Action) {
    && (a.Worker? && a.who in s.workers && Possible(s.tables, s.workers[a.who], a.choice) ==>
          Proper(s.tables, s.workers, a.who, a.choice))
    && (a.Crash? && a.worker in s.workers ==> Droppable(s.tables, s.workers[a.worker]))
  }

  lemma ActionTeam(h: Hashes, opening: Ledger, s: Bank, a: Action, s': Bank)
    requires HexDigests(h) && BankMachine.Inv(h, opening, s) && Happens(h, s, a, s') && TeamOk(s.tables, s.workers)
    ensures ProperAction(s, a) <==> TeamOk(s'.tables, s'.workers)
  {
    hide TeamOk, BankInv, StoreOk, RequestOk, Remembers, Serve, Postable, Drive, Possible, Proper, Droppable,
        StandingsKept;
    if a.Worker? {
      TeamOkIffFaithful(h, opening, s.tables, s.workers, a.who, a.choice);
    } else if a.Crash? {
      TeamOkIffDroppable(s.tables, s.workers, a.worker);
    } else {
      OthersKeepStandings(h, opening, s, a, s');
      StandingsKeepTeam(s.tables, s'.tables, s.workers);
    }
  }

  /** Every settlement that no worker is at work on agrees with its saga. */
  ghost predicate AllAgree(s: Bank) {
    forall id :: id in s.tables.settlements && !Headed(s.workers, id) ==>
      s.tables.settlements[id].sagaId in s.tables.sagas && Agreed(StandingOf(s.tables, id))
  }

  /**
   * Saga and settlement agreement, for any number of workers. With faithful writes, claims of rows
   * that nobody else has in hand, and crashes only of workers whose row is untried, every settlement
   * that no worker is at work on tells its saga's story: PENDING goes with POSTED or SETTLING, SETTLED
   * with COMPLETED, both without a reversal, and FAILED with COMPENSATED and a reversal or with saga
   * FAILED and none.
   */
  lemma {:induction false} TeamAgreement(h: Hashes, opening: Ledger, states: seq<Bank>, actions: seq<Action>)
    requires HexDigests(h) && Run(h, opening, states, actions)
    requires forall i :: 0 <= i < |actions| ==> ProperAction(states[i], actions[i])
    ensures var s := states[|actions|];
            TeamOk(s.tables, s.workers) && AllAgree(s)
  {
    if actions == [] {
      hide Opening;
    } else {
      hide Begins, Happens, ProperAction, BankMachine.Inv, TeamOk, AllAgree;
      var n := |actions| - 1;
      TeamAgreement(h, opening, states[..n + 1], actions[..n]);
      RunKeepsInv(h, opening, states[..n + 1], actions[..n]);
      assert ProperAction(states[n], actions[n]);
      ActionTeam(h, opening, states[n], actions[n], states[n + 1]);
      TeamAgrees(states[n + 1]);
    }
  }

  lemma TeamAgrees(s: Bank)
    requires TeamOk(s.tables, s.workers)
    ensures AllAgree(s)
  {
    hide Agreed, InHand, SettlementHasSaga, Reversed, Headed;
    assert forall id :: id in s.tables.settlements ==> FitsAt(s.tables, s.workers, id);
  }
}
