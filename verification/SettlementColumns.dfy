/** What the columns of a settlement and of its saga say about what the rail answered, in every run. */
module SettlementColumns {
  import opened Errors
  import opened LedgerDomain
  import opened LedgerStore
  import opened TransferDomain
  import opened Schema
  import opened Transitions
  import opened BankInvariant
  import opened TransferKeeps
  import opened ReversalKeeps
  import opened SettlementSteps
  import opened RequestSteps
  import opened BankMachine
  import opened SettlementAgreement

  // ---- Answers of the rail ----

  type Answers = set<(string, RailOutcome)>

  /** The settlement a worker asks the rail about, with the answer it gets. */
  function Asked(stage: Stage, choice: Choice): Answers {
    if stage.AtRail? && stage.queue != [] then {(stage.queue[0].id, choice.rail)} else {}
  }

  function AskedIn(s: Bank, a: Action): Answers {
    if a.Worker? && a.who in s.workers then Asked(s.workers[a.who], a.choice) else {}
  }

  /** Everything the rail has answered in a run. */
  function Heard(states: seq<Bank>, actions: seq<Action>): Answers
    requires |states| == |actions| + 1
    decreases |actions|
  {
    if actions == [] then {}
    else
      var n := |actions| - 1;
      Heard(states[..n + 1], actions[..n]) + AskedIn(states[n], actions[n])
  }

  /** At this action of the run, some worker asked the rail about this settlement and got this answer. */
  ghost predicate RailAnswers(states: seq<Bank>, actions: seq<Action>, i: nat, id: string, rail: RailOutcome) {
    && i < |actions| && i < |states| && actions[i].Worker? && actions[i].who in states[i].workers
    && var stage := states[i].workers[actions[i].who];
       stage.AtRail? && stage.queue != [] && stage.queue[0].id == id && actions[i].choice.rail == rail
  }

  lemma {:induction false} HeardSomewhere(states: seq<Bank>, actions: seq<Action>, id: string, rail: RailOutcome)
    returns (i: nat)
    requires |states| == |actions| + 1 && (id, rail) in Heard(states, actions)
    ensures RailAnswers(states, actions, i, id, rail)
    decreases |actions|
  {
    var n := |actions| - 1;
    if (id, rail) in AskedIn(states[n], actions[n]) {
      i := n;
    } else {
      i := HeardSomewhere(states[..n + 1], actions[..n], id, rail);
    }
  }

  // ---- What the columns say ----

  const REVERSED_TEXT := "sarie settlement failed; funds reversed"

  predicate RowHeard(id: string, row: Settlement, heard: Answers) {
    match row.status
    case Pending => row.lastError == ""
    case Settled => row.lastError == "" && (id, Cleared) in heard
    case SettlementFailed => (id, Rejected(row.lastError)) in heard
  }

  ghost predicate Refused(id: string, heard: Answers) {
    exists reason :: (id, Rejected(reason)) in heard
  }

  /** The rail's reason was recorded, unless it gave none. */
  ghost predicate ReasonRecorded(id: string, text: string, heard: Answers) {
    exists reason :: (id, Rejected(reason)) in heard && (reason == "" || text == reason)
  }

  ghost predicate SagaHeard(saga: Saga, reversed: bool, heard: Answers) {
    var id := saga.settlementId;
    && (reversed ==> Refused(id, heard))
    && match saga.state
       case SagaPosted => saga.failureReason == "" && !reversed
       case Settling => true
       case Completed => (id, Cleared) in heard
       case Compensating => Refused(id, heard)
       case Compensated => reversed && saga.failureReason == REVERSED_TEXT
       case SagaFailed => ReasonRecorded(id, saga.failureReason, heard)
       case _ => false
  }

  predicate StageHeard(stage: Stage, heard: Answers) {
    stage.Resting? || stage.queue == [] ||
    match stage
    case MarkSettled(queue) => (queue[0].id, Cleared) in heard
    case MarkCompleted(queue) => (queue[0].id, Cleared) in heard
    case LoadSaga(queue, reason) => (queue[0].id, Rejected(reason)) in heard
    case MarkCompensating(queue, reason, _) => (queue[0].id, Rejected(reason)) in heard
    case PostReversal(queue, reason, _) => (queue[0].id, Rejected(reason)) in heard
    case MarkFailed(queue, reason, _) => (queue[0].id, Rejected(reason)) in heard
    case MarkSagaFailed(queue, reason) => (queue[0].id, Rejected(reason)) in heard
    case _ => true
  }

  ghost predicate RowsHeard(t: Tables, heard: Answers) {
    forall id :: id in t.settlements ==> RowHeard(id, t.settlements[id], heard)
  }

  ghost predicate SagasHeard(t: Tables, heard: Answers) {
    forall id :: id in t.sagas ==> SagaHeard(t.sagas[id], Reversed(t, t.sagas[id]), heard)
  }

  ghost predicate StagesHeard(workers: map<nat, Stage>, heard: Answers) {
    forall w :: w in workers ==> StageHeard(workers[w], heard)
  }

  ghost predicate ColumnsOk(s: Bank, heard: Answers) {
    RowsHeard(s.tables, heard) && SagasHeard(s.tables, heard) && StagesHeard(s.workers, heard)
  }

  lemma HearingMore(s: Bank, heard: Answers, more: Answers)
    requires ColumnsOk(s, heard)
    ensures ColumnsOk(s, heard + more)
  {
    hide Reversed;
    forall id | id in s.tables.sagas
      ensures SagaHeard(s.tables.sagas[id], Reversed(s.tables, s.tables.sagas[id]), heard + more)
    {
      SagaHearsMore(s.tables.sagas[id], Reversed(s.tables, s.tables.sagas[id]), heard, more);
    }
  }

  lemma SagaHearsMore(saga: Saga, reversed: bool, heard: Answers, more: Answers)
    requires SagaHeard(saga, reversed, heard)
    ensures SagaHeard(saga, reversed, heard + more)
  {
    var id := saga.settlementId;
    if reason :| (id, Rejected(reason)) in heard {
      assert (id, Rejected(reason)) in heard + more;
    }
    if reason :| (id, Rejected(reason)) in heard && (reason == "" || saga.failureReason == reason) {
      assert (id, Rejected(reason)) in heard + more;
    }
  }

  // ---- One statement of a worker ----

  /** The stage after a statement says no more than what has been heard by then. */
  lemma NextStageHeard(t: Tables, stage: Stage, choice: Choice, heard: Answers)
    requires Possible(t, stage, choice) && StageHeard(stage, heard)
    ensures StageHeard(Drive(t, stage, choice).1, heard + Asked(stage, choice))
  {
    hide ReversalOf, CompensationPosted, UpdateSaga, UpdateSettlementStatus, Readable, Claim;
  }

  lemma StatusWriteHeard(t: Tables, id: string, status: SettlementStatus, lastError: string, heard: Answers)
    requires RowsHeard(t, heard)
    requires (id in t.settlements ==> RowHeard(id, t.settlements[id].(status := status, lastError := lastError), heard))
    ensures RowsHeard(UpdateSettlementStatus(t, id, status, lastError), heard)
  {
  }

  lemma {:induction false} ClaimHeard(t: Tables, ids: seq<string>, heard: Answers)
    requires RowsHeard(t, heard)
    ensures RowsHeard(Claim(t, ids), heard) && Claim(t, ids).sagas == t.sagas && Claim(t, ids).ledger == t.ledger
  {
    if ids != [] {
      ClaimHeard(t, ids[..|ids| - 1], heard);
    }
  }

  /** What a worker writes into settlement rows, it has heard. */
  lemma RowsStayHeard(t: Tables, stage: Stage, choice: Choice, heard: Answers)
    requires Possible(t, stage, choice) && !stage.PostReversal? && StageHeard(stage, heard) && RowsHeard(t, heard)
    ensures RowsHeard(Drive(t, stage, choice).0, heard)
  {
    hide ReversalOf, CompensationPosted, UpdateSettlementStatus, Readable, Claim, RowsHeard;
    if stage.Resting? {
      ClaimHeard(t, choice.claimed, heard);
    } else if stage.MarkSettled? {
      StatusWriteHeard(t, stage.queue[0].id, Settled, "", heard);
    } else if stage.MarkFailed? {
      StatusWriteHeard(t, stage.queue[0].id, SettlementFailed, stage.reason, heard);
    } else {
      SameRowsHeard(t, Drive(t, stage, choice).0, heard);
    }
  }

  lemma SameRowsHeard(t: Tables, t': Tables, heard: Answers)
    requires RowsHeard(t, heard) && t'.settlements == t.settlements
    ensures RowsHeard(t', heard)
  {
  }

  lemma SagaWriteHeard(t: Tables, id: string, state: SagaState, failure: string, heard: Answers)
    requires SagasHeard(t, heard)
    requires id in t.sagas ==>
               var saga := t.sagas[id];
               var saga' := saga.(state := state, failureReason := Coalesce(failure, saga.failureReason));
               SagaHeard(saga', Reversed(t, saga), heard)
    ensures SagasHeard(UpdateSagaState(t, id, state, failure), heard)
  {
    hide SagaHeard;
    var t' := UpdateSagaState(t, id, state, failure);
    forall other | other in t'.sagas
      ensures SagaHeard(t'.sagas[other], Reversed(t', t'.sagas[other]), heard)
    {
      assert SagaHeard(t.sagas[other], Reversed(t, t.sagas[other]), heard);
    }
  }

  /** What a worker writes into saga rows, it has heard. */
  lemma SagasStayHeard(h: Hashes, opening: Ledger, t: Tables, stage: Stage, choice: Choice, heard: Answers)
    requires HexDigests(h) && BankInv(h, opening, t) && Remembers(t, stage) && Possible(t, stage, choice)
    requires !stage.PostReversal? && StageHeard(stage, heard) && SagasHeard(t, heard)
    ensures SagasHeard(Drive(t, stage, choice).0, heard)
  {
    hide BankInv, Remembers, Drive, Possible, StageHeard, SagasHeard;
    if !stage.Resting? {
      OwnSagaId(h, opening, t, stage);
    }
    OwnWritesHeard(t, stage, choice, heard);
  }

  lemma OwnWritesHeard(t: Tables, stage: Stage, choice: Choice, heard: Answers)
    requires Possible(t, stage, choice) && !stage.PostReversal? && StageHeard(stage, heard) && SagasHeard(t, heard)
    requires !stage.Resting? ==>
               && stage.queue != [] && stage.queue[0].sagaId in t.sagas
               && t.sagas[stage.queue[0].sagaId].settlementId == stage.queue[0].id
    ensures SagasHeard(Drive(t, stage, choice).0, heard)
  {
    hide ReversalOf, CompensationPosted, UpdateSaga, Readable, Claim, SagasHeard, Reversed, StageHeard;
    if stage.Resting? {
      ClaimLeavesSagas(t, choice.claimed, heard);
    } else if stage.MarkSettling? {
      OwnSagaWrite(t, stage, Settling, "", heard);
    } else if stage.MarkCompleted? {
      OwnSagaWrite(t, stage, Completed, "", heard);
    } else if stage.MarkCompensating? {
      OwnSagaWrite(t, stage, Compensating, "", heard);
    } else if stage.MarkSagaFailed? {
      OwnSagaWrite(t, stage, SagaFailed, stage.reason, heard);
    } else {
      SameSagasHeard(t, Drive(t, stage, choice).0, heard);
    }
  }

  lemma SameSagasHeard(t: Tables, t': Tables, heard: Answers)
    requires SagasHeard(t, heard) && t'.sagas == t.sagas && t'.ledger.headers == t.ledger.headers
    ensures SagasHeard(t', heard)
  {
    hide SagaHeard;
    forall id | id in t'.sagas
      ensures SagaHeard(t'.sagas[id], Reversed(t', t'.sagas[id]), heard)
    {
      assert SagaHeard(t.sagas[id], Reversed(t, t.sagas[id]), heard);
    }
  }

  lemma {:induction false} ClaimLeavesSagas(t: Tables, ids: seq<string>, heard: Answers)
    requires SagasHeard(t, heard)
    ensures SagasHeard(Claim(t, ids), heard) && Claim(t, ids).sagas == t.sagas && Claim(t, ids).ledger == t.ledger
  {
    hide SagaHeard, Reversed;
    if ids != [] {
      ClaimLeavesSagas(t, ids[..|ids| - 1], heard);
      SameSagasHeard(Claim(t, ids[..|ids| - 1]), Claim(t, ids), heard);
    }
  }

  lemma OwnSagaId(h: Hashes, opening: Ledger, t: Tables, stage: Stage)
    requires HexDigests(h) && BankInv(h, opening, t) && Remembers(t, stage) && !stage.Resting?
    ensures stage.queue != [] && stage.queue[0].sagaId in t.sagas
    ensures t.sagas[stage.queue[0].sagaId].settlementId == stage.queue[0].id
  {
    RememberedQueue(t, stage);
    hide BankInv, Remembers;
    LinkedSame(h, opening, t, stage);
    FiledUnderItsId(h, opening, t, stage.queue[0].id);
  }

  lemma OwnSagaWrite(t: Tables, stage: Stage, state: SagaState, failure: string, heard: Answers)
    requires !stage.Resting? && stage.queue != [] && StageHeard(stage, heard) && SagasHeard(t, heard)
    requires stage.queue[0].sagaId in t.sagas && t.sagas[stage.queue[0].sagaId].settlementId == stage.queue[0].id
    requires || (stage.MarkSettling? && state == Settling && failure == "")
             || (stage.MarkCompleted? && state == Completed && failure == "")
             || (stage.MarkCompensating? && state == Compensating && failure == "")
             || (stage.MarkSagaFailed? && state == SagaFailed && failure == stage.reason)
    ensures SagasHeard(UpdateSagaState(t, stage.queue[0].sagaId, state, failure), heard)
  {
    hide Reversed;
    var saga := t.sagas[stage.queue[0].sagaId];
    assert SagaHeard(saga, Reversed(t, saga), heard);
    hide SagasHeard;
    if stage.MarkSagaFailed? || stage.MarkCompensating? {
      assert (saga.settlementId, Rejected(stage.reason)) in heard;
    }
    SagaWriteHeard(t, stage.queue[0].sagaId, state, failure, heard);
  }

  /** A committed reversal is of a settlement that the rail refused. */
  lemma ReversalHeard(h: Hashes, opening: Ledger, t: Tables, stage: Stage, choice: Choice, heard: Answers)
    requires HexDigests(h) && BankInv(h, opening, t) && Remembers(t, stage) && Possible(t, stage, choice)
    requires stage.PostReversal? && StageHeard(stage, heard) && RowsHeard(t, heard) && SagasHeard(t, heard)
    ensures var t' := Drive(t, stage, choice).0; RowsHeard(t', heard) && SagasHeard(t', heard)
  {
    hide BankInv, Possible, Drive, RowsHeard, SagasHeard, SeenIn, CompensationCommits, StageHeard;
    DriveReverses(t, stage, choice);
    OwnSagaId(h, opening, t, stage);
    var t' := Drive(t, stage, choice).0;
    if t' != t {
      assert SeenIn(t, stage.saga, stage.queue[0]) by { assert Queue(stage)[0] == stage.queue[0]; }
      hide Remembers;
      assert Refused(stage.queue[0].id, heard) by { RefusedByStage(stage, heard); }
      CompensationHeard(h, opening, t, stage.saga, stage.queue[0], choice.listings, t', heard);
    }
  }

  lemma RefusedByStage(stage: Stage, heard: Answers)
    requires stage.PostReversal? && stage.queue != [] && StageHeard(stage, heard)
    ensures Refused(stage.queue[0].id, heard)
  {
    assert (stage.queue[0].id, Rejected(stage.reason)) in heard;
  }

  lemma CompensationHeard(h: Hashes, opening: Ledger, t: Tables, seen: Saga, row: Settlement,
      listings: seq<seq<Entry>>, t': Tables, heard: Answers)
    requires HexDigests(h) && BankInv(h, opening, t) && SeenIn(t, seen, row)
    requires CompensationCommits(t, seen, row, listings, t')
    requires row.sagaId in t.sagas && t.sagas[row.sagaId].settlementId == row.id && Refused(row.id, heard)
    requires RowsHeard(t, heard) && SagasHeard(t, heard)
    ensures RowsHeard(t', heard) && SagasHeard(t', heard)
  {
    hide SoundBooks, BalancesExplained, Opening, VerdictOn, Readable, ReversalOf, RowsHeard, SagasHeard, AllBundled,
        OneSagaPerJournal, NothingElse, SagaHeard;
    var tx := ReversalOf(seen, row).value;
    ReadableFits(t.ledger, tx, listings);
    SeenIsMirrored(h, opening, t, seen, row);
    CompensatedIs(t, tx, seen.id, listings);
    var u := WithReversal(t, tx);
    SameRowsHeard(t, t', heard);
    forall id | id in t'.sagas
      ensures SagaHeard(t'.sagas[id], Reversed(t', t'.sagas[id]), heard)
    {
      assert SagaHeard(t.sagas[id], Reversed(t, t.sagas[id]), heard) by {
        assert SagasHeard(t, heard);
        EachSaga(t, heard, id);
      }
      if id == seen.id {
        NowReversed(t.sagas[id], heard);
      } else {
        OtherReversals(h, t, seen.id, id, tx);
      }
    }
    AllSagas(t', heard);
  }

  lemma EachSaga(t: Tables, heard: Answers, id: string)
    requires SagasHeard(t, heard) && id in t.sagas
    ensures SagaHeard(t.sagas[id], Reversed(t, t.sagas[id]), heard)
  {
    hide SagaHeard, Reversed;
  }

  lemma AllSagas(t: Tables, heard: Answers)
    requires forall id :: id in t.sagas ==> SagaHeard(t.sagas[id], Reversed(t, t.sagas[id]), heard)
    ensures SagasHeard(t, heard)
  {
    hide SagaHeard, Reversed;
  }

  lemma NowReversed(saga: Saga, heard: Answers)
    requires Refused(saga.settlementId, heard)
    ensures SagaHeard(saga.(state := Compensated, failureReason := COMPENSATION_REASON), true, heard)
  {
  }

  /** Every statement of a worker writes only what it, or another before it, has heard. */
  lemma WorkerWritesHeard(h: Hashes, opening: Ledger, s: Bank, a: Action, s': Bank, heard: Answers)
    requires HexDigests(h) && BankMachine.Inv(h, opening, s) && Happens(h, s, a, s') && a.Worker? && ColumnsOk(s, heard)
    ensures ColumnsOk(s', heard + AskedIn(s, a))
  {
    hide BankInv, StoreOk, RequestsOk, Remembers, Drive, Possible, RowsHeard, SagasHeard;
    var stage := s.workers[a.who];
    if stage.PostReversal? {
      ReversalHeard(h, opening, s.tables, stage, a.choice, heard);
    } else {
      RowsStayHeard(s.tables, stage, a.choice, heard);
      SagasStayHeard(h, opening, s.tables, stage, a.choice, heard);
    }
    NextStageHeard(s.tables, stage, a.choice, heard);
    HearingMore(s'.(workers := s.workers), heard, AskedIn(s, a));
  }

  // ---- Everything else ----

  lemma BookingHeard(h: Hashes, opening: Ledger, t: Tables, b: Booking, heard: Answers)
    requires HexDigests(h) && BankInv(h, opening, t) && Coherent(h, b) && NewRows(t, b)
    requires b.saga.state == SagaPosted && b.saga.failureReason == ""
    requires b.settlement.status == Pending && b.settlement.lastError == ""
    requires RowsHeard(t, heard) && SagasHeard(t, heard)
    ensures RowsHeard(Booked(t, b), heard) && SagasHeard(Booked(t, b), heard)
  {
    hide SoundBooks, BalancesExplained, OneSagaPerJournal, SagasHeard, Decodes, TransferLines, EventMatches,
        SettlementMatches, Bundled;
    NotYetReversed(h, opening, t, b);
    hide NothingElse, Opening, IdsDerived;
    var t' := Booked(t, b);
    forall id | id in t'.sagas
      ensures SagaHeard(t'.sagas[id], Reversed(t', t'.sagas[id]), heard)
    {
      if id in t.sagas {
        EachSaga(t, heard, id);
        assert Bundled(h, t, t.sagas[id]);
        OldBundle(h, t, b, t.sagas[id]);
      }
    }
    AllSagas(t', heard);
  }

  lemma OthersWriteHeard(h: Hashes, opening: Ledger, s: Bank, a: Action, s': Bank, heard: Answers)
    requires HexDigests(h) && BankMachine.Inv(h, opening, s) && Happens(h, s, a, s') && !a.Worker?
    requires ColumnsOk(s, heard)
    ensures ColumnsOk(s', heard)
  {
    hide BankInv, StoreOk, RequestOk, RowsStay, Serve, Postable, TransferCommits, RowsHeard, SagasHeard, Coherent,
        NewRows, Accepts;
    if a.Request? && s.requests[a.who].phase.Posting? {
      var request := s.requests[a.who];
      assert RequestOk(h, s.tables, request);
      PostKeepsRequest(h, World(s.tables, s.store), request, a.chance);
      if s'.tables != s.tables {
        var b := CommitIsBooking(h, s.tables, request.cmd, a.chance.listings, s'.tables);
        BookingHeard(h, opening, s.tables, b, heard);
      }
    } else {
      if a.Request? {
        NoWriteOutsidePosting(h, World(s.tables, s.store), s.requests[a.who], a.chance);
      }
      SameRowsHeard(s.tables, s'.tables, heard);
      SameSagasHeard(s.tables, s'.tables, heard);
    }
  }

  lemma {:induction false} RunKeepsColumns(h: Hashes, opening: Ledger, states: seq<Bank>, actions: seq<Action>)
    requires HexDigests(h) && Run(h, opening, states, actions)
    ensures ColumnsOk(states[|actions|], Heard(states, actions))
  {
    if actions == [] {
      hide Opening;
    } else {
      hide Begins, Happens, ColumnsOk, BankMachine.Inv, AskedIn;
      var n := |actions| - 1;
      RunKeepsColumns(h, opening, states[..n + 1], actions[..n]);
      RunKeepsInv(h, opening, states[..n + 1], actions[..n]);
      var heard := Heard(states[..n + 1], actions[..n]);
      if actions[n].Worker? {
        WorkerWritesHeard(h, opening, states[n], actions[n], states[n + 1], heard);
      } else {
        OthersWriteHeard(h, opening, states[n], actions[n], states[n + 1], heard);
        HearingMore(states[n + 1], heard, AskedIn(states[n], actions[n]));
      }
    }
  }

  // ---- In every run ----

  /**
   * A settlement is SETTLED only after the rail cleared that very settlement, FAILED only after it
   * rejected it, for the reason the row gives; an error text stands in no other row.
   */
  lemma StatusWasAnswered(h: Hashes, opening: Ledger, states: seq<Bank>, actions: seq<Action>, id: string)
    returns (i: nat)
    requires HexDigests(h) && Run(h, opening, states, actions) && id in states[|actions|].tables.settlements
    ensures var row := states[|actions|].tables.settlements[id];
            match row.status
            case Pending => row.lastError == ""
            case Settled => row.lastError == "" && RailAnswers(states, actions, i, id, Cleared)
            case SettlementFailed => RailAnswers(states, actions, i, id, Rejected(row.lastError))
  {
    RunKeepsColumns(h, opening, states, actions);
    hide Run, SagasHeard, StagesHeard;
    var row := states[|actions|].tables.settlements[id];
    assert RowHeard(id, row, Heard(states, actions));
    i := 0;
    if row.status.Settled? {
      i := HeardSomewhere(states, actions, id, Cleared);
    } else if row.status.SettlementFailed? {
      i := HeardSomewhere(states, actions, id, Rejected(row.lastError));
    }
  }

  /** Money goes back only after the rail rejected that settlement. */
  lemma ReversedWasRejected(h: Hashes, opening: Ledger, states: seq<Bank>, actions: seq<Action>, id: string)
    returns (i: nat, reason: string)
    requires HexDigests(h) && Run(h, opening, states, actions) && id in states[|actions|].tables.sagas
    requires states[|actions|].tables.sagas[id].transactionId + "-comp" in states[|actions|].tables.ledger.headers
    ensures RailAnswers(states, actions, i, states[|actions|].tables.sagas[id].settlementId, Rejected(reason))
  {
    RunKeepsColumns(h, opening, states, actions);
    hide Run, RowsHeard, StagesHeard;
    var t := states[|actions|].tables;
    EachSaga(t, Heard(states, actions), id);
    hide SagasHeard;
    reason :| (t.sagas[id].settlementId, Rejected(reason)) in Heard(states, actions);
    i := HeardSomewhere(states, actions, t.sagas[id].settlementId, Rejected(reason));
  }

  /** What the state of a saga and its failure reason say of the rail and of the money. */
  lemma SagaColumnsTell(h: Hashes, opening: Ledger, states: seq<Bank>, actions: seq<Action>, id: string)
    returns (i: nat, reason: string)
    requires HexDigests(h) && Run(h, opening, states, actions) && id in states[|actions|].tables.sagas
    ensures var t, saga := states[|actions|].tables, states[|actions|].tables.sagas[id];
            match saga.state
            case SagaPosted => saga.failureReason == "" && saga.transactionId + "-comp" !in t.ledger.headers
            case Settling => true
            case Completed => RailAnswers(states, actions, i, saga.settlementId, Cleared)
            case Compensating => RailAnswers(states, actions, i, saga.settlementId, Rejected(reason))
            case Compensated =>
              && saga.failureReason == "sarie settlement failed; funds reversed"
              && saga.transactionId + "-comp" in t.ledger.headers
            case SagaFailed =>
              && RailAnswers(states, actions, i, saga.settlementId, Rejected(reason))
              && (reason != "" ==> saga.failureReason == reason)
            case _ => false
  {
    RunKeepsColumns(h, opening, states, actions);
    hide Run, RowsHeard, StagesHeard;
    var t, saga, heard := states[|actions|].tables, states[|actions|].tables.sagas[id], Heard(states, actions);
    EachSaga(t, heard, id);
    hide SagasHeard;
    i, reason := 0, "";
    match saga.state {
      case Completed => i := HeardSomewhere(states, actions, saga.settlementId, Cleared);
      case Compensating =>
        reason :| (saga.settlementId, Rejected(reason)) in heard;
        i := HeardSomewhere(states, actions, saga.settlementId, Rejected(reason));
      case SagaFailed =>
        reason :| (saga.settlementId, Rejected(reason)) in heard && (reason == "" || saga.failureReason == reason);
        i := HeardSomewhere(states, actions, saga.settlementId, Rejected(reason));
      case _ =>
    }
  }

  // ---- Attempts ----

  /** A claim of this settlement that reached the database. */
  predicate ClaimedIn(s: Bank, a: Action, id: string) {
    && a.Worker? && a.who in s.workers && s.workers[a.who].Resting?
    && a.choice.fate.Applied() && id in a.choice.claimed
  }

  function Claims(states: seq<Bank>, actions: seq<Action>, id: string): nat
    requires |states| == |actions| + 1
    decreases |actions|
  {
    if actions == [] then 0
    else
      var n := |actions| - 1;
      Claims(states[..n + 1], actions[..n], id) + if ClaimedIn(states[n], actions[n], id) then 1 else 0
  }

  function Attempts(t: Tables, id: string): nat {
    if id in t.settlements then t.settlements[id].attempts else 0
  }

  lemma {:induction false} ClaimCounts(t: Tables, ids: seq<string>, id: string)
    requires forall i :: 0 <= i < |ids| ==> ids[i] in t.settlements
    requires forall i, j :: 0 <= i < j < |ids| ==> ids[i] != ids[j]
    ensures Claim(t, ids).settlements.Keys == t.settlements.Keys
    ensures Attempts(Claim(t, ids), id) == Attempts(t, id) + if id in ids then 1 else 0
  {
    if ids != [] {
      var before, last := ids[..|ids| - 1], ids[|ids| - 1];
      assert ids == before + [last];
      ClaimCounts(t, before, id);
      assert last !in before;
    }
  }

  lemma DriveCounts(t: Tables, stage: Stage, choice: Choice, id: string)
    requires Possible(t, stage, choice)
    ensures Attempts(Drive(t, stage, choice).0, id)
            == Attempts(t, id) + if stage.Resting? && choice.fate.Applied() && id in choice.claimed then 1 else 0
  {
    hide ReversalOf, Readable, VerdictOn, Claim;
    if stage.Resting? {
      ClaimCounts(t, choice.claimed, id);
    }
  }

  lemma ActionCounts(h: Hashes, opening: Ledger, s: Bank, a: Action, s': Bank, id: string)
    requires HexDigests(h) && BankMachine.Inv(h, opening, s) && Happens(h, s, a, s')
    ensures Attempts(s'.tables, id) == Attempts(s.tables, id) + if ClaimedIn(s, a, id) then 1 else 0
  {
    hide BankInv, StoreOk, RequestOk, Serve, Postable, TransferCommits, Coherent, Accepts, Drive, Possible, RowsStay;
    if a.Worker? {
      DriveCounts(s.tables, s.workers[a.who], a.choice, id);
    } else if a.Request? && s.requests[a.who].phase.Posting? {
      var request := s.requests[a.who];
      assert RequestOk(h, s.tables, request);
      PostKeepsRequest(h, World(s.tables, s.store), request, a.chance);
      if s'.tables != s.tables {
        var b := CommitIsBooking(h, s.tables, request.cmd, a.chance.listings, s'.tables);
      }
    } else if a.Request? {
      NoWriteOutsidePosting(h, World(s.tables, s.store), s.requests[a.who], a.chance);
    }
  }

  /** In every run, the attempts of a settlement are the claims of it that reached the database. */
  lemma {:induction false} AttemptsAreClaims(h: Hashes, opening: Ledger, states: seq<Bank>, actions: seq<Action>,
      id: string)
    requires HexDigests(h) && Run(h, opening, states, actions)
    ensures Attempts(states[|actions|].tables, id) == Claims(states, actions, id)
  {
    if actions == [] {
      hide Opening;
    } else {
      hide Begins, Happens, ClaimedIn, BankMachine.Inv, Attempts;
      var n := |actions| - 1;
      AttemptsAreClaims(h, opening, states[..n + 1], actions[..n], id);
      RunKeepsInv(h, opening, states[..n + 1], actions[..n]);
      ActionCounts(h, opening, states[n], actions[n], states[n + 1], id);
    }
  }
}
