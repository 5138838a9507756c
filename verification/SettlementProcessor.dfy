/** The settlement worker as the loop it is, and its refinement of the step-by-step worker. */
module SettlementProcessor {
  import opened Errors
  import opened LedgerDomain
  import opened LedgerStore
  import opened LedgerRepository
  import opened TransferDomain
  import opened Schema
  import opened Transitions
  import opened BankInvariant
  import opened SettlementSteps
  import opened SkipLocked
  import opened SettlementAgreement
  import opened SagaRepository
  import opened Coordinator

  /**
   * What the outside decides for a batch: what other participants do to the tables before each
   * statement, the fate of the statement, the rail's answers, rows locked by others, the limit.
   */
  datatype Outside = Outside(
    others: (nat, Tables) -> Tables, fates: nat -> Fate, rail: string -> RailOutcome, locked: string -> bool,
        limit: nat)

  /** Others never file an account under a foreign id. */
  ghost predicate Filing(o: Outside) {
    forall n: nat, t: Tables :: FiledById(t.ledger) ==> FiledById(o.others(n, t).ledger)
  }

  /** The n-th choice is the one the outside dictates. */
  ghost predicate Dictated(o: Outside, n: nat, t: Tables, stage: Stage, choice: Choice) {
    && choice.fate == o.fates(n)
    && (stage.Resting? ==> Selected(PendingSettlements(t), choice.claimed, o.limit, o.locked))
    && (stage.AtRail? && stage.queue != [] ==> choice.rail == o.rail(stage.queue[0].id))
  }

  /** Where the step-by-step worker gets to with these choices, if they are possible and dictated; one batch only. */
  ghost function Played(o: Outside, t: Tables, trail: seq<Choice>): Option<(Tables, Stage)> {
    if trail == [] then Some((t, Resting))
    else
      var n := |trail| - 1;
      match Played(o, t, trail[..n])
      case None => None
      case Some((t', stage)) =>
        var u := o.others(n, t');
        if (stage.Resting? && n > 0) || !Possible(u, stage, trail[n]) || !Dictated(o, n, u, stage, trail[n]) then None
        else Some(Drive(u, stage, trail[n]))
  }

  /** The stage in which the last choice was made. */
  ghost function LastStage(o: Outside, t: Tables, trail: seq<Choice>): Stage
    requires trail != [] && Played(o, t, trail).Some?
  {
    Played(o, t, trail[..|trail| - 1]).value.1
  }

  predicate Finishes(stage: Stage) {
    stage.MarkCompleted? || (stage.MarkFailed? && stage.compensated)
  }

  /** How many settlements the worker finished: settled and recorded, or reversed. */
  ghost function Processed(o: Outside, t: Tables, trail: seq<Choice>): nat
    requires Played(o, t, trail).Some?
  {
    if trail == [] then 0
    else Processed(o, t, trail[..|trail| - 1]) + if Finishes(LastStage(o, t, trail)) then 1 else 0
  }

  /** The batch ended early: the claim, the rail or the settled mark failed. */
  ghost predicate Halted(o: Outside, t: Tables, trail: seq<Choice>)
    requires trail != [] && Played(o, t, trail).Some?
  {
    var stage := LastStage(o, t, trail);
    stage.AtRail? || ((stage.Resting? || stage.MarkSettled?) && !trail[|trail| - 1].fate.Done?)
  }

  /** Records one more choice of the outside. */
  lemma Told(o: Outside, t: Tables, trail: seq<Choice>, choice: Choice) returns (longer: seq<Choice>)
    requires Played(o, t, trail).Some?
    requires var s := Played(o, t, trail).value;
             var u := o.others(|trail|, s.0);
             (s.1.Resting? ==> trail == []) && Possible(u, s.1, choice) && Dictated(o, |trail|, u, s.1, choice)
    ensures longer == trail + [choice] && longer != []
    ensures var s := Played(o, t, trail).value;
            && Played(o, t, longer) == Some(Drive(o.others(|trail|, s.0), s.1, choice))
            && Processed(o, t, longer) == Processed(o, t, trail) + (if Finishes(s.1) then 1 else 0)
            && LastStage(o, t, longer) == s.1
  {
    hide Drive, Possible, Dictated, Finishes;
    longer := trail + [choice];
    assert longer[..|trail|] == trail;
  }

  // ---- The rail decides ----

  /** The tables that the n-th statement of the batch finds. */
  ghost function Before(o: Outside, t: Tables, trail: seq<Choice>, n: nat): Tables {
    if n < |trail| && Played(o, t, trail[..n]).Some? then o.others(n, Played(o, t, trail[..n]).value.0) else t
  }

  /** The tables that it leaves. */
  ghost function After(o: Outside, t: Tables, trail: seq<Choice>, n: nat): Tables {
    if n < |trail| && Played(o, t, trail[..n + 1]).Some? then Played(o, t, trail[..n + 1]).value.0 else t
  }

  /**
   * Between these tables, a settlement was marked SETTLED only if the rail clears that settlement, FAILED
   * only if the rail rejects it, for the reason now recorded, and none was marked anything else.
   */
  ghost predicate Heeds(rail: string -> RailOutcome, t: Tables, t': Tables) {
    && t'.settlements.Keys == t.settlements.Keys
    && forall id :: id in t.settlements && t'.settlements[id].status != t.settlements[id].status ==>
         match t'.settlements[id].status
         case Pending => false
         case Settled => rail(id) == Cleared
         case SettlementFailed => rail(id) == Rejected(t'.settlements[id].lastError)
  }

  /** All the batch's own statements heed the rail. */
  ghost predicate RailHeeded(o: Outside, t: Tables, trail: seq<Choice>) {
    forall n {:trigger Before(o, t, trail, n)} :: 0 <= n < |trail| ==>
      Heeds(o.rail, Before(o, t, trail, n), After(o, t, trail, n))
  }

  /** What the worker is about to record is what the rail said of the settlement in hand. */
  predicate StageHeeds(rail: string -> RailOutcome, stage: Stage) {
    stage.Resting? || stage.queue == [] ||
    match stage
    case MarkSettled(queue) => rail(queue[0].id) == Cleared
    case MarkCompleted(queue) => rail(queue[0].id) == Cleared
    case LoadSaga(queue, reason) => rail(queue[0].id) == Rejected(reason)
    case MarkCompensating(queue, reason, _) => rail(queue[0].id) == Rejected(reason)
    case PostReversal(queue, reason, _) => rail(queue[0].id) == Rejected(reason)
    case MarkFailed(queue, reason, _) => rail(queue[0].id) == Rejected(reason)
    case MarkSagaFailed(queue, reason) => rail(queue[0].id) == Rejected(reason)
    case _ => true
  }

  lemma {:induction false} ClaimMarksNothing(t: Tables, ids: seq<string>)
    ensures var t' := Claim(t, ids);
            && t'.settlements.Keys == t.settlements.Keys
            && forall id :: id in t.settlements ==> t'.settlements[id].status == t.settlements[id].status
  {
    if ids != [] {
      ClaimMarksNothing(t, ids[..|ids| - 1]);
    }
  }

  lemma StatementHeeds(o: Outside, n: nat, t: Tables, stage: Stage, choice: Choice)
    requires Possible(t, stage, choice) && Dictated(o, n, t, stage, choice) && StageHeeds(o.rail, stage)
    ensures StageHeeds(o.rail, Drive(t, stage, choice).1) && Heeds(o.rail, t, Drive(t, stage, choice).0)
  {
    hide ReversalOf, Readable, VerdictOn, Claim, Selected;
    if stage.Resting? {
      ClaimMarksNothing(t, choice.claimed);
    }
  }

  lemma {:induction false} TrailHeedsRail(o: Outside, t: Tables, trail: seq<Choice>)
    requires Played(o, t, trail).Some?
    ensures RailHeeded(o, t, trail) && StageHeeds(o.rail, Played(o, t, trail).value.1)
  {
    if trail != [] {
      var k, before := |trail| - 1, trail[..|trail| - 1];
      TrailHeedsRail(o, t, before);
      hide Drive, Possible, Dictated, StageHeeds, Heeds;
      var s := Played(o, t, before).value;
      StatementHeeds(o, k, o.others(k, s.0), s.1, trail[k]);
      forall n | 0 <= n < |trail|
        ensures Heeds(o.rail, Before(o, t, trail, n), After(o, t, trail, n))
      {
        if n < k {
          assert before[..n] == trail[..n] && before[..n + 1] == trail[..n + 1];
          assert Before(o, t, before, n) == Before(o, t, trail, n) && After(o, t, before, n) == After(o, t, trail, n);
        } else {
          assert trail[..n + 1] == trail;
        }
      }
    }
  }

  function Chosen(fate: Fate): Choice {
    Choice(fate, [], RailError, [])
  }

  class Worker {
    const db: Database
    const o: Outside

    constructor (db: Database, o: Outside)
      ensures this.db == db && this.o == o
    {
      this.db := db;
      this.o := o;
    }

    ghost predicate At(start: Tables, trail: seq<Choice>, n: nat, stage: Stage)
      reads db
    {
      Played(o, start, trail) == Some((db.tables, stage)) && |trail| == n > 0
    }

    /** The n-th statement is about to run; meanwhile the others have acted. */
    method Meanwhile(n: nat)
      requires Filing(o)
      modifies db
      ensures db.tables == o.others(n, old(db.tables))
      ensures FiledById(old(db.tables.ledger)) ==> FiledById(db.tables.ledger)
    {
      db.tables := o.others(n, db.tables);
    }

    /** Claims a batch and drives each settlement to its end. */
    method ProcessOnce() returns (processed: nat, r: Result<Unit>, ghost trail: seq<Choice>)
      requires Filing(o) && FiledById(db.tables.ledger)
      modifies db
      ensures Played(o, old(db.tables), trail) == Some((db.tables, Resting)) && trail != []
      ensures processed == Processed(o, old(db.tables), trail)
      ensures r == if Halted(o, old(db.tables), trail) then Err(Infrastructure) else Ok(Unit)
      ensures RailHeeded(o, old(db.tables), trail)
    {
      ghost var start := db.tables;
      processed := 0;
      var n := 1;
      var pending: Result<seq<Settlement>>;
      pending, trail := ClaimBatch();
      if pending.Err? {
        TrailHeedsRail(o, start, trail);
        return 0, Err(pending.error), trail;
      }
      var queue := pending.value;
      for i := 0 to |queue|
        invariant FiledById(db.tables.ledger) && At(start, trail, n, Next(queue[i..]))
        invariant processed == Processed(o, start, trail) && !Halted(o, start, trail)
      {
        assert queue[i..][0] == queue[i] && queue[i..][1..] == queue[i + 1..];
        var finished: Result<bool>;
        finished, n, trail := SettleOne(queue[i], n, start, trail, queue[i..]);
        if finished.Err? {
          TrailHeedsRail(o, start, trail);
          return processed, Err(finished.error), trail;
        }
        processed := processed + if finished.value then 1 else 0;
      }
      TrailHeedsRail(o, start, trail);
      return processed, Ok(Unit), trail;
    }

    method ClaimBatch() returns (pending: Result<seq<Settlement>>, ghost trail: seq<Choice>)
      requires Filing(o) && FiledById(db.tables.ledger)
      modifies db
      ensures FiledById(db.tables.ledger)
      ensures At(old(db.tables), trail, 1, if pending.Ok? then Next(pending.value) else Resting)
      ensures Processed(o, old(db.tables), trail) == 0
      ensures pending.Err? <==> Halted(o, old(db.tables), trail)
      ensures pending.Err? ==> pending.error == Infrastructure
    {
      ghost var start := db.tables;
      hide ReversalOf, Played, Processed, LastStage, Claim, Selected, Filing, FiledById, Possible, Drive, Claimable;
      BatchBegins(o, start);
      ghost var ids: seq<string>;
      Meanwhile(0);
      ghost var t := db.tables;
      pending, ids := ClaimPendingSettlements(db, o.limit, o.locked, o.fates(0));
      ClaimDrives(t, Choice(o.fates(0), ids, RailError, []), o.limit, o.locked);
      trail := Told(o, start, [], Choice(o.fates(0), ids, RailError, []));
    }

    /** One round of the loop: true if the settlement was finished, an error if the batch ends here. */
    method SettleOne(stl: Settlement, n: nat, ghost start: Tables, ghost trail: seq<Choice>,
        ghost queue: seq<Settlement>)
      returns (finished: Result<bool>, n': nat, ghost trail': seq<Choice>)
      requires Filing(o) && FiledById(db.tables.ledger) && queue != [] && queue[0] == stl
      requires At(start, trail, n, MarkSettling(queue))
      modifies db
      ensures FiledById(db.tables.ledger)
      ensures At(start, trail', n', if finished.Ok? then Next(queue[1..]) else Resting)
      ensures Processed(o, start, trail') == Processed(o, start, trail) + if finished == Ok(true) then 1 else 0
      ensures finished.Err? <==> Halted(o, start, trail')
      ensures finished.Err? ==> finished.error == Infrastructure
    {
      hide UpdateSaga, Played, Processed, LastStage, Filing, FiledById;
      Meanwhile(n);
      var marked := UpdateSagaRow(db, stl.sagaId, Settling, "", o.fates(n));
      trail' := Told(o, start, trail, Chosen(o.fates(n)));
      Meanwhile(n + 1);
      var rail := o.rail(stl.id);
      trail' := Told(o, start, trail', Choice(o.fates(n + 1), [], rail, []));
      n' := n + 2;
      match rail
      case RailError => return Err(Infrastructure), n', trail';
      case Cleared =>
        var settled: Result<Unit>;
        settled, n', trail' := Clear(stl, n', start, trail', queue);
        return if settled.Err? then Err(settled.error) else Ok(true), n', trail';
      case Rejected(reason) =>
        var compensated: bool;
        compensated, n', trail' := Reject(stl, reason, n', start, trail', queue);
        return Ok(compensated), n', trail';
    }

    /** Records the rail's success; a failed status write ends the batch, a failed saga write does not. */
    method Clear(stl: Settlement, n: nat, ghost start: Tables, ghost trail: seq<Choice>, ghost queue: seq<Settlement>)
      returns (r: Result<Unit>, n': nat, ghost trail': seq<Choice>)
      requires Filing(o) && FiledById(db.tables.ledger) && queue != [] && queue[0] == stl
      requires At(start, trail, n, MarkSettled(queue))
      modifies db
      ensures FiledById(db.tables.ledger)
      ensures At(start, trail', n', if r.Ok? then Next(queue[1..]) else Resting)
      ensures Processed(o, start, trail') == Processed(o, start, trail) + if r.Ok? then 1 else 0
      ensures r.Err? <==> Halted(o, start, trail')
      ensures r.Err? ==> r.error == Infrastructure
    {
      hide UpdateSaga, UpdateSettlementStatus, Played, Processed, LastStage, Filing, FiledById;
      Meanwhile(n);
      r := UpdateSettlementRow(db, stl.id, Settled, "", o.fates(n));
      trail' := Told(o, start, trail, Chosen(o.fates(n)));
      n' := n + 1;
      if r.Err? {
        return;
      }
      Meanwhile(n');
      var completed := UpdateSagaRow(db, stl.sagaId, Completed, "", o.fates(n'));
      trail' := Told(o, start, trail', Chosen(o.fates(n')));
      n' := n' + 1;
    }

    /** Sends the money back if it can, and records the failure either way. */
    method Reject(stl: Settlement, reason: string, n: nat, ghost start: Tables, ghost trail: seq<Choice>,
        ghost queue: seq<Settlement>)
      returns (compensated: bool, n': nat, ghost trail': seq<Choice>)
      requires Filing(o) && FiledById(db.tables.ledger) && queue != [] && queue[0] == stl
      requires At(start, trail, n, LoadSaga(queue, reason))
      modifies db
      ensures FiledById(db.tables.ledger)
      ensures At(start, trail', n', Next(queue[1..]))
      ensures Processed(o, start, trail') == Processed(o, start, trail) + if compensated then 1 else 0
      ensures !Halted(o, start, trail')
    {
      hide UpdateSaga, UpdateSettlementStatus, Played, Processed, LastStage, Filing, FiledById;
      var sentBack: Result<Unit>;
      sentBack, n', trail' := Compensate(stl, n, start, trail, queue, reason);
      Meanwhile(n');
      var failed := UpdateSettlementRow(db, stl.id, SettlementFailed, reason, o.fates(n'));
      trail' := Told(o, start, trail', Chosen(o.fates(n')));
      n' := n' + 1;
      if sentBack.Err? {
        Meanwhile(n');
        var sagaFailed := UpdateSagaRow(db, stl.sagaId, SagaFailed, reason, o.fates(n'));
        trail' := Told(o, start, trail', Chosen(o.fates(n')));
        n' := n' + 1;
      }
      compensated := sentBack.Ok?;
    }

    /** Rebuilds the transfer from the stored saga and posts its mirror image. */
    method Compensate(stl: Settlement, n: nat, ghost start: Tables, ghost trail: seq<Choice>,
        ghost queue: seq<Settlement>, ghost reason: string)
      returns (r: Result<Unit>, n': nat, ghost trail': seq<Choice>)
      requires Filing(o) && FiledById(db.tables.ledger) && queue != [] && queue[0] == stl
      requires At(start, trail, n, LoadSaga(queue, reason))
      modifies db
      ensures FiledById(db.tables.ledger)
      ensures At(start, trail', n', MarkFailed(queue, reason, r.Ok?))
      ensures Processed(o, start, trail') == Processed(o, start, trail)
    {
      hide ReversalOf, Readable, VerdictOn, UpdateSaga, Processed, Played, CompensationPosted, LastStage, Filing;
      Meanwhile(n);
      var loaded := GetSaga(db, stl.sagaId, o.fates(n));
      trail' := Told(o, start, trail, Chosen(o.fates(n)));
      n' := n + 1;
      if loaded.Err? {
        return Err(loaded.error), n', trail';
      }
      var saga := loaded.value;
      var reversal := ReversalOf(saga, stl);
      if reversal.Err? {
        return Err(reversal.error), n', trail';
      }
      Meanwhile(n');
      var marked := UpdateSagaRow(db, stl.sagaId, Compensating, "", o.fates(n'));
      trail' := Told(o, start, trail', Chosen(o.fates(n')));
      n' := n' + 1;
      Meanwhile(n');
      ghost var before := db.tables;
      ghost var listings: seq<seq<Entry>>;
      r, listings := PostCompensation(db, reversal.value, stl.sagaId, o.fates(n'));
      ReadableFits(before.ledger, reversal.value, listings);
      CompensationKeepsAccounts(before, reversal.value, stl.sagaId, listings);
      trail' := Told(o, start, trail', Choice(o.fates(n'), [], RailError, listings));
      n' := n' + 1;
    }
  }

  lemma BatchBegins(o: Outside, t: Tables)
    ensures Played(o, t, []) == Some((t, Resting)) && Processed(o, t, []) == 0
  {
  }

  lemma ClaimDrives(t: Tables, choice: Choice, limit: nat, locked: string -> bool)
    requires Selected(PendingSettlements(t), choice.claimed, limit, locked)
    ensures Claimable(t, choice.claimed) && Possible(t, Resting, choice)
    ensures Drive(t, Resting, choice)
            == (Written(t, Claim(t, choice.claimed), choice.fate),
                if choice.fate.Done? then Next(Rows(t, choice.claimed)) else Resting)
  {
    hide Claim, ReversalOf;
  }

  lemma CompensationKeepsAccounts(t: Tables, tx: Transaction, id: string, listings: seq<seq<Entry>>)
    requires |listings| <= |LockOrder(tx)|
    ensures CompensationPosted(t, tx, id, listings).Ok? ==>
        CompensationPosted(t, tx, id, listings).value.ledger.accounts == t.ledger.accounts
  {
    hide VerdictOn;
  }

  /** The others keep the bank's invariant and every row. */
  ghost predicate Polite(h: Hashes, opening: Ledger, o: Outside)
    requires HexDigests(h)
  {
    forall n: nat, t: Tables :: BankInv(h, opening, t) ==>
      BankInv(h, opening, o.others(n, t)) && RowsStay(t, o.others(n, t))
  }

  /** Beyond that, they leave settlements and sagas consistent with what the worker has in hand. */
  ghost predicate Considerate(h: Hashes, opening: Ledger, o: Outside)
    requires HexDigests(h)
  {
    forall n: nat, t: Tables, stage: Stage ::
      BankInv(h, opening, t) && Remembers(t, stage) && Consistent(t, stage) ==> Consistent(o.others(n, t), stage)
  }

  lemma PoliteStep(h: Hashes, opening: Ledger, o: Outside, n: nat, t: Tables, stage: Stage)
    requires HexDigests(h) && Polite(h, opening, o) && BankInv(h, opening, t) && Remembers(t, stage)
    ensures BankInv(h, opening, o.others(n, t)) && Remembers(o.others(n, t), stage)
    ensures Considerate(h, opening, o) && Consistent(t, stage) ==> Consistent(o.others(n, t), stage)
  {
    hide BankInv, Consistent, Remembers, RowsStay;
    RemembersStays(t, o.others(n, t), stage);
  }

  /**
   * A whole batch among polite others keeps the bank's invariant, and if they are considerate too and
   * all its writes are faithful, every settlement agrees with its saga. Neighbours says who is.
   */
  lemma {:induction false} BatchKeepsInv(h: Hashes, opening: Ledger, o: Outside, t: Tables, trail: seq<Choice>)
    requires HexDigests(h) && Polite(h, opening, o) && BankInv(h, opening, t) && Played(o, t, trail).Some?
    ensures var s := Played(o, t, trail).value; BankInv(h, opening, s.0) && Remembers(s.0, s.1)
    ensures Considerate(h, opening, o) && Consistent(t, Resting) && AllFaithful(o, t, trail) ==>
        Consistent(Played(o, t, trail).value.0, Played(o, t, trail).value.1)
  {
    hide BankInv, Drive, Possible, Dictated, Consistent, Faithful, Polite, Considerate;
    if trail != [] {
      hide Remembers;
      var before, choice := trail[..|trail| - 1], trail[|trail| - 1];
      BatchKeepsInv(h, opening, o, t, before);
      var s := Played(o, t, before).value;
      BatchStep(h, opening, o, |before|, s.0, s.1, choice);
    }
  }

  lemma BatchStep(h: Hashes, opening: Ledger, o: Outside, n: nat, t: Tables, stage: Stage, choice: Choice)
    requires HexDigests(h) && Polite(h, opening, o) && BankInv(h, opening, t) && Remembers(t, stage)
    requires Possible(o.others(n, t), stage, choice)
    ensures var after := Drive(o.others(n, t), stage, choice);
            && BankInv(h, opening, after.0) && Remembers(after.0, after.1)
            && (Considerate(h, opening, o) && Consistent(t, stage) && Faithful(o.others(n, t), stage, choice) ==>
                  Consistent(after.0, after.1))
  {
    hide BankInv, Drive, Possible, Remembers, Consistent, Faithful, Polite, Considerate, RowsStay;
    var u := o.others(n, t);
    PoliteStep(h, opening, o, n, t, stage);
    DriveKeepsInv(h, opening, u, stage, choice);
    DriveRemembers(h, opening, u, stage, choice);
    RemembersStays(u, Drive(u, stage, choice).0, Drive(u, stage, choice).1);
    if Consistent(u, stage) {
      ConsistentIffFaithful(h, opening, u, stage, choice);
    }
  }

  ghost predicate AllFaithful(o: Outside, t: Tables, trail: seq<Choice>)
    requires Played(o, t, trail).Some?
  {
    trail != [] ==>
      var before := trail[..|trail| - 1];
      var s := Played(o, t, before).value;
      AllFaithful(o, t, before) && Faithful(o.others(|before|, s.0), s.1, trail[|trail| - 1])
  }
}
