/** One settlement worker, statement by statement; anything may happen to the tables in between. */
module SettlementSteps {
  import opened Errors
  import opened LedgerDomain
  import opened LedgerStore
  import opened TransferDomain
  import opened Schema
  import opened Transitions
  import opened BankInvariant
  import opened ReversalKeeps

  datatype RailOutcome = Cleared | Rejected(reason: string) | RailError

  /** Where a worker is; the head of the queue is the settlement it is working on. */
  datatype Stage =
    | Resting
    | MarkSettling(queue: seq<Settlement>)
    | AtRail(queue: seq<Settlement>)
    | MarkSettled(queue: seq<Settlement>)
    | MarkCompleted(queue: seq<Settlement>)
    | LoadSaga(queue: seq<Settlement>, reason: string)
    | MarkCompensating(queue: seq<Settlement>, reason: string, saga: Saga)
    | PostReversal(queue: seq<Settlement>, reason: string, saga: Saga)
    | MarkFailed(queue: seq<Settlement>, reason: string, compensated: bool)
    | MarkSagaFailed(queue: seq<Settlement>, reason: string)

  function Queue(stage: Stage): seq<Settlement> {
    if stage.Resting? then [] else stage.queue
  }

  function Loaded(stage: Stage): Option<Saga> {
    match stage
    case MarkCompensating(_, _, saga) => Some(saga)
    case PostReversal(_, _, saga) => Some(saga)
    case _ => None
  }

  /** What the outside decides: the statement's fate, the rows claimed, the rail's answer, the order of listings. */
  datatype Choice = Choice(fate: Fate, claimed: seq<string>, rail: RailOutcome, listings: seq<seq<Entry>>)

  /** Some pending rows, each once: which ones is up to creation times, the limit and other workers' locks. */
  ghost predicate Claimable(t: Tables, ids: seq<string>) {
    && (forall i :: 0 <= i < |ids| ==> ids[i] in t.settlements && t.settlements[ids[i]].status == Pending)
    && (forall i, j :: 0 <= i < j < |ids| ==> ids[i] != ids[j])
  }

  function Rows(t: Tables, ids: seq<string>): seq<Settlement>
    requires forall i :: 0 <= i < |ids| ==> ids[i] in t.settlements
  {
    seq(|ids|, i requires 0 <= i < |ids| => t.settlements[ids[i]])
  }

  function Next(queue: seq<Settlement>): Stage {
    if queue == [] then Resting else MarkSettling(queue)
  }

  function Written(t: Tables, written: Tables, fate: Fate): Tables {
    if fate.Applied() then written else t
  }

  /** A unit of work lost on the way, refused, committed, or committed although an error is reported. */
  function Attempted(t: Tables, posted: Result<Tables>, fate: Fate): (Tables, Result<Unit>) {
    if fate.Lost? then (t, Err(Infrastructure))
    else match posted
      case Err(e) => (t, Err(e))
      case Ok(t') => (t', if fate.Done? then Ok(Unit) else Err(Infrastructure))
  }

  ghost predicate Possible(t: Tables, stage: Stage, choice: Choice) {
    && (stage.Resting? ==> Claimable(t, choice.claimed))
    && (!stage.Resting? ==> stage.queue != [])
    && (stage.PostReversal? ==> ReversalOf(stage.saga, stage.queue[0]).Ok?
                                && Readable(t.ledger, ReversalOf(stage.saga, stage.queue[0]).value, choice.listings))
  }

  ghost function Drive(t: Tables, stage: Stage, choice: Choice): (Tables, Stage)
    requires Possible(t, stage, choice)
  {
    match stage
    case Resting =>
      (Written(t, Claim(t, choice.claimed), choice.fate),
       if choice.fate.Done? then Next(Rows(t, choice.claimed)) else Resting)
    case MarkSettling(queue) =>
      (Written(t, UpdateSagaState(t, queue[0].sagaId, Settling, ""), choice.fate), AtRail(queue))
    case AtRail(queue) =>
      (t, match choice.rail
          case Cleared => MarkSettled(queue)
          case Rejected(reason) => LoadSaga(queue, reason)
          case RailError => Resting)
    case MarkSettled(queue) =>
      (Written(t, UpdateSettlementStatus(t, queue[0].id, Settled, ""), choice.fate),
       if choice.fate.Done? then MarkCompleted(queue) else Resting)
    case MarkCompleted(queue) =>
      (Written(t, UpdateSagaState(t, queue[0].sagaId, Completed, ""), choice.fate), Next(queue[1..]))
    case LoadSaga(queue, reason) =>
      var loaded := choice.fate.Done? && queue[0].sagaId in t.sagas
          && ReversalOf(t.sagas[queue[0].sagaId], queue[0]).Ok?;
      (t, if loaded then MarkCompensating(queue, reason, t.sagas[queue[0].sagaId]) else MarkFailed(queue, reason,
          false))
    case MarkCompensating(queue, reason, saga) =>
      (Written(t, UpdateSagaState(t, queue[0].sagaId, Compensating, ""), choice.fate),
          PostReversal(queue, reason, saga))
    case PostReversal(queue, reason, saga) =>
      var posted := CompensationPosted(t, ReversalOf(saga, queue[0]).value, queue[0].sagaId, choice.listings);
      var after := Attempted(t, posted, choice.fate);
      (after.0, MarkFailed(queue, reason, after.1.Ok?))
    case MarkFailed(queue, reason, compensated) =>
      (Written(t, UpdateSettlementStatus(t, queue[0].id, SettlementFailed, reason), choice.fate),
       if compensated then Next(queue[1..]) else MarkSagaFailed(queue, reason))
    case MarkSagaFailed(queue, reason) =>
      (Written(t, UpdateSagaState(t, queue[0].sagaId, SagaFailed, reason), choice.fate), Next(queue[1..]))
  }

  // ---- What a worker remembers stays true ----

  /** Claimed rows and a loaded saga are still there, up to states and statuses. */
  ghost predicate Remembers(t: Tables, stage: Stage) {
    && (!stage.Resting? ==> stage.queue != [])
    && (forall i :: 0 <= i < |Queue(stage)| ==>
          Queue(stage)[i].id in t.settlements && SameSettlement(t.settlements[Queue(stage)[i].id], Queue(stage)[i]))
    && (Loaded(stage).Some? ==>
          && Loaded(stage).value.id == Queue(stage)[0].sagaId
          && SeenIn(t, Loaded(stage).value, Queue(stage)[0])
          && ReversalOf(Loaded(stage).value, Queue(stage)[0]).Ok?)
  }

  /** Rows of one table state are still there in a later one. */
  lemma RemembersStays(t: Tables, t': Tables, stage: Stage)
    requires Remembers(t, stage) && RowsStay(t, t')
    ensures Remembers(t', stage)
  {
    hide ReversalOf;
    forall i | 0 <= i < |Queue(stage)|
      ensures Queue(stage)[i].id in t'.settlements
      ensures SameSettlement(t'.settlements[Queue(stage)[i].id], Queue(stage)[i])
    {
      assert SameSettlement(t.settlements[Queue(stage)[i].id], t'.settlements[Queue(stage)[i].id]);
    }
    if Loaded(stage).Some? {
      var s := Queue(stage)[0];
      assert SameSaga(t.sagas[s.sagaId], t'.sagas[s.sagaId]);
    }
  }

  lemma StatusesKeepRows(t: Tables, t': Tables)
    requires OnlyStatuses(t, t')
    ensures RowsStay(t, t')
  {
  }

  /** One statement of a worker is bookkeeping, unless it posts a reversal. */
  lemma DriveIsBookkeeping(t: Tables, stage: Stage, choice: Choice)
    requires Possible(t, stage, choice) && !stage.PostReversal?
    ensures OnlyStatuses(t, Drive(t, stage, choice).0)
  {
    hide OnlyStatuses, UpdateSaga, UpdateSettlementStatus, Claim, ReversalOf;
    NothingIsStatus(t);
    match stage {
      case Resting => ClaimIsStatus(t, choice.claimed);
      case MarkSettling(queue) => SagaUpdateIsStatus(t, queue[0].sagaId, Settling, "");
      case MarkSettled(queue) => SettlementUpdateIsStatus(t, queue[0].id, Settled, "");
      case MarkCompleted(queue) => SagaUpdateIsStatus(t, queue[0].sagaId, Completed, "");
      case MarkCompensating(queue, reason, saga) => SagaUpdateIsStatus(t, queue[0].sagaId, Compensating, "");
      case MarkFailed(queue, reason, _) => SettlementUpdateIsStatus(t, queue[0].id, SettlementFailed, reason);
      case MarkSagaFailed(queue, reason) => SagaUpdateIsStatus(t, queue[0].sagaId, SagaFailed, reason);
      case _ =>
    }
  }

  lemma NothingIsStatus(t: Tables)
    ensures OnlyStatuses(t, t)
  {
  }

  /** A reversal statement either changes nothing or commits a compensation. */
  lemma DriveReverses(t: Tables, stage: Stage, choice: Choice)
    requires Possible(t, stage, choice) && stage.PostReversal? && Remembers(t, stage)
    ensures var t' := Drive(t, stage, choice).0;
            t' == t || CompensationCommits(t, stage.saga, stage.queue[0], choice.listings, t')
    ensures RowsStay(t, Drive(t, stage, choice).0)
  {
    hide ReversalOf, Readable, SameSettlement, SameSaga;
    var tx := ReversalOf(stage.saga, stage.queue[0]).value;
    ReadableFits(t.ledger, tx, choice.listings);
    if CompensationPosted(t, tx, stage.queue[0].sagaId, choice.listings).Ok? {
      CompensatedKeepsRows(t, tx, stage.queue[0].sagaId, choice.listings);
    }
    assert RowsStay(t, t) by { NothingIsStatus(t); StatusesKeepRows(t, t); }
  }

  lemma ReadableFits(ledger: Ledger, tx: Transaction, listings: seq<seq<Entry>>)
    requires Readable(ledger, tx, listings)
    ensures |listings| <= |LockOrder(tx)|
  {
  }

  lemma CompensatedKeepsRows(t: Tables, tx: Transaction, id: string, listings: seq<seq<Entry>>)
    requires |listings| <= |LockOrder(tx)| && CompensationPosted(t, tx, id, listings).Ok?
    ensures RowsStay(t, CompensationPosted(t, tx, id, listings).value)
  {
    hide VerdictOn;
    CompensatedIs(t, tx, id, listings);
    SagaUpdateIsStatus(WithReversal(t, tx), id, Compensated, COMPENSATION_REASON);
  }

  /** Any statement of any worker keeps the bank's invariant and every row. */
  lemma DriveKeepsInv(h: Hashes, opening: Ledger, t: Tables, stage: Stage, choice: Choice)
    requires HexDigests(h) && BankInv(h, opening, t) && Remembers(t, stage) && Possible(t, stage, choice)
    ensures BankInv(h, opening, Drive(t, stage, choice).0) && RowsStay(t, Drive(t, stage, choice).0)
  {
    hide BankInv, Drive, RowsStay, OnlyStatuses, CompensationCommits, Possible, SeenIn;
    if stage.PostReversal? {
      DriveReverses(t, stage, choice);
      if Drive(t, stage, choice).0 != t {
        CompensationKeepsInv(h, opening, t, stage.saga, stage.queue[0], choice.listings, Drive(t, stage, choice).0);
      }
    } else {
      DriveIsBookkeeping(t, stage, choice);
      StatusesKeepInv(h, opening, t, Drive(t, stage, choice).0);
      StatusesKeepRows(t, Drive(t, stage, choice).0);
    }
  }

  /** A worker's memory after its own statement. */
  lemma DriveRemembers(h: Hashes, opening: Ledger, t: Tables, stage: Stage, choice: Choice)
    requires HexDigests(h) && BankInv(h, opening, t) && Remembers(t, stage) && Possible(t, stage, choice)
    ensures Remembers(t, Drive(t, stage, choice).1)
  {
    hide BankInv, ReversalOf, OnlyStatuses, UpdateSaga, UpdateSettlementStatus, Claim, CompensationPosted, Readable;
    if stage.Resting? {
      if choice.fate.Done? && choice.claimed != [] {
        RowsRemembered(h, opening, t, choice.claimed);
      }
    } else if stage.LoadSaga? {
      LoadedRemembered(h, opening, t, stage);
      assert forall i :: 0 <= i < |stage.queue| ==> Queue(stage)[i] == stage.queue[i];
    } else {
      var next := Drive(t, stage, choice).1;
      assert Queue(next) == [] || Queue(next) == Queue(stage) || Queue(next) == Queue(stage)[1..];
      assert Loaded(next).Some? ==> Loaded(next) == Loaded(stage) && Queue(next) == Queue(stage);
    }
  }

  lemma LoadedRemembered(h: Hashes, opening: Ledger, t: Tables, stage: Stage)
    requires HexDigests(h) && BankInv(h, opening, t) && Remembers(t, stage) && stage.LoadSaga?
    ensures var s := stage.queue[0];
            s.sagaId in t.sagas && t.sagas[s.sagaId].id == s.sagaId && SeenIn(t, t.sagas[s.sagaId], s)
  {
    hide BankInv, ReversalOf;
    assert Queue(stage)[0] == stage.queue[0];
    FiledUnderItsId(h, opening, t, stage.queue[0].id);
  }

  lemma RowsRemembered(h: Hashes, opening: Ledger, t: Tables, ids: seq<string>)
    requires HexDigests(h) && BankInv(h, opening, t) && Claimable(t, ids) && ids != []
    ensures Remembers(t, MarkSettling(Rows(t, ids)))
  {
    hide AllBundled, OneSagaPerJournal, EventHasSaga, HeaderExplained, SoundBooks, BalancesExplained, Opening;
    forall i | 0 <= i < |ids|
      ensures ids[i] in t.settlements && t.settlements[ids[i]].id == ids[i]
    {
      FiledUnderItsId(h, opening, t, ids[i]);
    }
  }

  lemma FiledUnderItsId(h: Hashes, opening: Ledger, t: Tables, id: string)
    requires HexDigests(h) && BankInv(h, opening, t) && id in t.settlements
    ensures t.settlements[id].id == id
    ensures t.settlements[id].sagaId in t.sagas && t.sagas[t.settlements[id].sagaId].settlementId == id
    ensures t.sagas[t.settlements[id].sagaId].id == t.settlements[id].sagaId
  {
    hide OneSagaPerJournal, EventHasSaga, HeaderExplained, SoundBooks, BalancesExplained, Opening, Decodes,
        TransferLines, ReversalLines, Contains, IdsDerived, EventMatches;
    assert SettlementHasSaga(t, id);
    assert Bundled(h, t, t.sagas[t.settlements[id].sagaId]);
  }
}
