/**
 * What a worker's action means for every future: it is proper exactly when no proper continuation can
 * leave a settlement that nobody is at work on in disagreement with its saga.
 */
module SettlementFutures {
  import opened Errors
  import opened LedgerDomain
  import opened LedgerStore
  import opened TransferDomain
  import opened Schema
  import opened Transitions
  import opened BankInvariant
  import opened ReversalKeeps
  import opened SettlementSteps
  import opened BankMachine
  import opened SettlementAgreement

  /** Any actions of anybody, all of them proper. */
  ghost predicate Onward(h: Hashes, states: seq<Bank>, actions: seq<Action>)
    requires HexDigests(h)
  {
    && |states| == |actions| + 1
    && forall i :: 0 <= i < |actions| ==>
         Happens(h, states[i], actions[i], states[i + 1]) && ProperAction(states[i], actions[i])
  }

  ghost predicate GoesWrong(h: Hashes, s: Bank, states: seq<Bank>, actions: seq<Action>)
    requires HexDigests(h)
  {
    Onward(h, states, actions) && states[0] == s && !AllAgree(states[|actions|])
  }

  /** In every proper future from here, settlements and sagas agree whenever nobody is at work on them. */
  ghost predicate Safe(h: Hashes, s: Bank)
    requires HexDigests(h)
  {
    forall states, actions :: !GoesWrong(h, s, states, actions)
  }

  // ---- Order lasts ----

  lemma {:induction false} OrderLasts(h: Hashes, opening: Ledger, states: seq<Bank>, actions: seq<Action>)
    requires HexDigests(h) && Onward(h, states, actions)
    requires BankMachine.Inv(h, opening, states[0]) && TeamOk(states[0].tables, states[0].workers)
    ensures BankMachine.Inv(h, opening, states[|actions|])
    ensures TeamOk(states[|actions|].tables, states[|actions|].workers)
  {
    hide Happens, ProperAction, BankMachine.Inv, TeamOk;
    if actions != [] {
      var n := |actions| - 1;
      OrderLasts(h, opening, states[..n + 1], actions[..n]);
      assert Happens(h, states[n], actions[n], states[n + 1]) && ProperAction(states[n], actions[n]);
      ActionTeam(h, opening, states[n], actions[n], states[n + 1]);
      ActionKeepsInv(h, opening, states[n], actions[n], states[n + 1]);
    }
  }

  lemma OrderIsSafe(h: Hashes, opening: Ledger, s: Bank)
    requires HexDigests(h) && BankMachine.Inv(h, opening, s) && TeamOk(s.tables, s.workers)
    ensures Safe(h, s)
  {
    hide Onward, BankMachine.Inv, TeamOk, AllAgree;
    forall states, actions
      ensures !GoesWrong(h, s, states, actions)
    {
      if GoesWrong(h, s, states, actions) {
        OnwardLength(h, states, actions);
        OrderLasts(h, opening, states, actions);
        TeamAgrees(states[|actions|]);
      }
    }
  }

  lemma OnwardLength(h: Hashes, states: seq<Bank>, actions: seq<Action>)
    requires HexDigests(h) && Onward(h, states, actions)
    ensures |states| == |actions| + 1
  {
    hide Happens, ProperAction;
  }

  // ---- Working on, one statement at a time ----

  /** The next statement of a worker, done and reported, with this answer if it asks the rail. */
  function Eager(t: Tables, stage: Stage, rail: RailOutcome): Choice {
    Choice(Done, [], rail,
           if stage.PostReversal? && stage.queue != [] && ReversalOf(stage.saga, stage.queue[0]).Ok?
           then RemainingListings(t.ledger, LockOrder(ReversalOf(stage.saga, stage.queue[0]).value), 0) else [])
  }

  lemma EagerIsPossible(t: Tables, stage: Stage, rail: RailOutcome)
    requires Remembers(t, stage) && !stage.Resting?
    ensures Possible(t, stage, Eager(t, stage, rail)) && Faithful(t, stage, Eager(t, stage, rail))
  {
    hide ReversalOf, SeenIn, LockOrder, CompensationPosted, OfAccount, IsListing;
    assert Loaded(stage).Some? ==> Queue(stage)[0] == stage.queue[0];
    if stage.PostReversal? {
      ListedReadable(t.ledger, ReversalOf(stage.saga, stage.queue[0]).value);
    }
  }

  lemma ListedReadable(ledger: Ledger, tx: Transaction)
    ensures Readable(ledger, tx, RemainingListings(ledger, LockOrder(tx), 0))
  {
    hide LockOrder;
  }

  /** What one eager statement of a worker makes of the bank. */
  ghost predicate Worked(s: Bank, w: nat, rail: RailOutcome, s': Bank) {
    && w in s.workers && !s.workers[w].Resting? && Possible(s.tables, s.workers[w], Eager(s.tables, s.workers[w], rail))
    && var after := Drive(s.tables, s.workers[w], Eager(s.tables, s.workers[w], rail));
       s' == s.(tables := after.0, workers := s.workers[w := after.1])
  }

  lemma Works(h: Hashes, opening: Ledger, states: seq<Bank>, actions: seq<Action>, w: nat, rail: RailOutcome)
    returns (states': seq<Bank>, actions': seq<Action>, last: Bank)
    requires HexDigests(h) && Onward(h, states, actions) && BankMachine.Inv(h, opening, states[|actions|])
    requires w in states[|actions|].workers && !states[|actions|].workers[w].Resting?
    ensures Onward(h, states', actions') && states'[0] == states[0] && last == states'[|actions'|]
    ensures BankMachine.Inv(h, opening, last) && Worked(states[|actions|], w, rail, last)
  {
    hide BankMachine.Inv, Drive, Possible, Faithful, Remembers;
    var s := states[|actions|];
    WorkerRemembers(h, opening, s, w);
    var choice := Eager(s.tables, s.workers[w], rail);
    EagerIsPossible(s.tables, s.workers[w], rail);
    var after := Drive(s.tables, s.workers[w], choice);
    last := s.(tables := after.0, workers := s.workers[w := after.1]);
    var a := Worker(w, choice);
    assert Happens(h, s, a, last) && ProperAction(s, a);
    hide Happens, ProperAction;
    states', actions' := states + [last], actions + [a];
    ActionKeepsInv(h, opening, s, a, last);
  }

  lemma WorkerRemembers(h: Hashes, opening: Ledger, s: Bank, w: nat)
    requires HexDigests(h) && BankMachine.Inv(h, opening, s) && w in s.workers
    ensures BankInv(h, opening, s.tables) && Remembers(s.tables, s.workers[w])
  {
    hide BankInv, Remembers, RequestsOk;
  }

  // ---- Getting a row off one's hands ----

  function Rank(stage: Stage): nat {
    match stage
    case Resting => 0
    case MarkSettling(_) => 7
    case AtRail(_) => 6
    case LoadSaga(_, _) => 5
    case MarkCompensating(_, _, _) => 4
    case PostReversal(_, _, _) => 3
    case MarkSettled(_) => 2
    case MarkFailed(_, _, _) => 2
    case MarkCompleted(_) => 1
    case MarkSagaFailed(_, _) => 1
  }

  /** With a cleared rail, a statement leads on with the same row, or to the next row. */
  lemma EagerLeadsOn(t: Tables, stage: Stage)
    requires !stage.Resting? && Possible(t, stage, Eager(t, stage, Cleared))
    ensures stage.queue != []
    ensures var next := Drive(t, stage, Eager(t, stage, Cleared)).1;
            || (!next.Resting? && next.queue == stage.queue && Rank(next) < Rank(stage))
            || (next == Next(stage.queue[1..]) && Rank(stage) <= 2)
  {
    hide ReversalOf, CompensationPosted, UpdateSaga, UpdateSettlementStatus, Readable;
  }

  /** What stages say of the status once it is decided. */
  predicate StatusFits(stage: Stage, st: Standing) {
    && (stage.MarkCompleted? ==> st.status.Settled?)
    && (stage.MarkSagaFailed? ==> st.status.SettlementFailed?)
  }

  lemma InHandStatusFits(stage: Stage, st: Standing)
    requires InHand(stage, st)
    ensures StatusFits(stage, st)
  {
  }

  lemma EagerDecides(t: Tables, stage: Stage, st: Standing)
    requires !stage.Resting? && Possible(t, stage, Eager(t, stage, Cleared)) && StatusFits(stage, st)
    ensures var choice := Eager(t, stage, Cleared);
            var next, after := Drive(t, stage, choice).1, StandingAfter(t, stage, choice, st);
            if !next.Resting? && next.queue == stage.queue then StatusFits(next, after) else !after.status.Pending?
  {
    hide ReversalOf, CompensationPosted, UpdateSaga, UpdateSettlementStatus, Readable;
    if stage.queue != [] {
      assert |stage.queue[1..]| < |stage.queue|;
    }
  }

  /** Others' rows keep their standing, and this one is what its worker has made of it. */
  lemma WorkedStands(h: Hashes, opening: Ledger, s: Bank, w: nat, rail: RailOutcome, s': Bank)
    requires HexDigests(h) && BankMachine.Inv(h, opening, s) && Worked(s, w, rail, s')
    ensures s.workers[w].queue != []
    ensures var id, stage := s.workers[w].queue[0].id, s.workers[w];
            && id in s.tables.settlements && OthersStand(s.tables, s'.tables, id)
            && s.tables.settlements[id].sagaId in s.tables.sagas
            && id in s'.tables.settlements && s'.tables.settlements[id].sagaId in s'.tables.sagas
            && StandingOf(s'.tables, id)
               == StandingAfter(s.tables, stage, Eager(s.tables, stage, rail), StandingOf(s.tables, id))
  {
    hide BankMachine.Inv, Drive, Remembers, BankInv, OthersStand, StandingOf, StandingAfter, Eager;
    WorkerRemembers(h, opening, s, w);
    RememberedQueue(s.tables, s.workers[w]);
    DriveStands(h, opening, s.tables, s.workers[w], Eager(s.tables, s.workers[w], rail));
  }

  lemma OthersStandOn(t: Tables, u: Tables, v: Tables, id: string)
    requires OthersStand(t, u, id) && OthersStand(u, v, id)
    ensures OthersStand(t, v, id)
  {
    hide SettlementHasSaga, Reversed;
  }

  /** A worker is done with the row in hand: it has gone on to the next one, and the row is decided. */
  ghost predicate DoneWithRow(s: Bank, w: nat, last: Bank)
    requires w in s.workers && !s.workers[w].Resting? && s.workers[w].queue != []
  {
    var stage, id := s.workers[w], s.workers[w].queue[0].id;
    && last.workers == s.workers[w := Next(stage.queue[1..])] && OthersStand(s.tables, last.tables, id)
    && id in s.tables.settlements && s.tables.settlements[id].sagaId in s.tables.sagas
    && id in last.tables.settlements && last.tables.settlements[id].sagaId in last.tables.sagas
    && (StatusFits(stage, StandingOf(s.tables, id)) ==> !StandingOf(last.tables, id).status.Pending?)
    && (stage.MarkSagaFailed? ==> StandingOf(last.tables, id) == StandingOf(s.tables, id).(state := SagaFailed))
    && (stage.MarkFailed? && !stage.compensated ==>
          StandingOf(last.tables, id) == StandingOf(s.tables, id).(status := SettlementFailed, state := SagaFailed))
  }

  lemma {:induction false} FinishesRow(h: Hashes, opening: Ledger, states: seq<Bank>, actions: seq<Action>, w: nat)
    returns (states': seq<Bank>, actions': seq<Action>, last: Bank)
    requires HexDigests(h) && Onward(h, states, actions) && BankMachine.Inv(h, opening, states[|actions|])
    requires w in states[|actions|].workers && !states[|actions|].workers[w].Resting?
    requires states[|actions|].workers[w].queue != []
    ensures Onward(h, states', actions') && states'[0] == states[0] && last == states'[|actions'|]
    ensures BankMachine.Inv(h, opening, last) && DoneWithRow(states[|actions|], w, last)
    decreases Rank(states[|actions|].workers[w])
  {
    hide BankMachine.Inv, Drive, Possible, Onward, DoneWithRow, OthersStand, StandingOf, Eager, StatusFits;
    OnwardLength(h, states, actions);
    var s := states[|actions|];
    var mid: Bank;
    states', actions', mid := Works(h, opening, states, actions, w, Cleared);
    OnwardLength(h, states', actions');
    WorkedStands(h, opening, s, w, Cleared, mid);
    EagerLeadsOn(s.tables, s.workers[w]);
    if mid.workers[w].Resting? || mid.workers[w].queue != s.workers[w].queue {
      last := mid;
      LeavesRow(s, w, last);
    } else {
      states', actions', last := FinishesRow(h, opening, states', actions', w);
      LeavesRowLater(s, w, mid, last);
    }
  }

  lemma LeavesRow(s: Bank, w: nat, last: Bank)
    requires Worked(s, w, Cleared, last) && s.workers[w].queue != []
    requires last.workers[w].Resting? || last.workers[w].queue != s.workers[w].queue
    requires var id, stage := s.workers[w].queue[0].id, s.workers[w];
             && id in s.tables.settlements && OthersStand(s.tables, last.tables, id)
             && s.tables.settlements[id].sagaId in s.tables.sagas
             && id in last.tables.settlements && last.tables.settlements[id].sagaId in last.tables.sagas
             && StandingOf(last.tables, id)
                == StandingAfter(s.tables, stage, Eager(s.tables, stage, Cleared), StandingOf(s.tables, id))
    ensures DoneWithRow(s, w, last)
  {
    hide Possible, OthersStand, StandingOf;
    var stage, id := s.workers[w], s.workers[w].queue[0].id;
    EagerLeadsOn(s.tables, stage);
    if StatusFits(stage, StandingOf(s.tables, id)) {
      EagerDecides(s.tables, stage, StandingOf(s.tables, id));
    }
    hide StatusFits;
    LastStatement(s.tables, stage, StandingOf(s.tables, id));
  }

  lemma LastStatement(t: Tables, stage: Stage, st: Standing)
    requires !stage.Resting? && Possible(t, stage, Eager(t, stage, Cleared))
    ensures var choice := Eager(t, stage, Cleared);
            && (stage.MarkSagaFailed? ==> StandingAfter(t, stage, choice, st) == st.(state := SagaFailed))
            && (stage.MarkFailed? && !stage.compensated ==>
                  && StandingAfter(t, stage, choice, st) == st.(status := SettlementFailed)
                  && Drive(t, stage, choice).1 == MarkSagaFailed(stage.queue, stage.reason))
  {
    hide ReversalOf, UpdateSaga, UpdateSettlementStatus, Readable;
  }

  lemma LeavesRowLater(s: Bank, w: nat, mid: Bank, last: Bank)
    requires Worked(s, w, Cleared, mid) && s.workers[w].queue != []
    requires !mid.workers[w].Resting? && mid.workers[w].queue == s.workers[w].queue
    requires DoneWithRow(mid, w, last)
    requires var id, stage := s.workers[w].queue[0].id, s.workers[w];
             && id in s.tables.settlements && OthersStand(s.tables, mid.tables, id)
             && s.tables.settlements[id].sagaId in s.tables.sagas
             && id in mid.tables.settlements && mid.tables.settlements[id].sagaId in mid.tables.sagas
             && StandingOf(mid.tables, id)
                == StandingAfter(s.tables, stage, Eager(s.tables, stage, Cleared), StandingOf(s.tables, id))
    ensures DoneWithRow(s, w, last)
  {
    hide Possible, OthersStand, StandingOf, Drive, Eager, StandingAfter;
    var stage, id := s.workers[w], s.workers[w].queue[0].id;
    OthersStandOn(s.tables, mid.tables, last.tables, id);
    if StatusFits(stage, StandingOf(s.tables, id)) {
      EagerDecides(s.tables, stage, StandingOf(s.tables, id));
    }
    hide StatusFits;
    LastStatement(s.tables, stage, StandingOf(s.tables, id));
    EagerLeadsOn(s.tables, stage);
    assert last.workers == s.workers[w := Next(stage.queue[1..])];
  }

  ghost predicate StandsAs(t: Tables, id: string, st: Standing) {
    id in t.settlements && t.settlements[id].sagaId in t.sagas && StandingOf(t, id) == st
  }

  lemma ElsewhereStandsAs(t: Tables, t': Tables, mine: string, id: string, st: Standing)
    requires OthersStand(t, t', mine) && StandsAs(t, id, st) && id != mine
    ensures StandsAs(t', id, st)
  {
    hide SettlementHasSaga, Reversed;
  }

  /** A worker gets to a row further back in its line, which stays as it was meanwhile. */
  lemma {:induction false} ReachesRow(h: Hashes, opening: Ledger, states: seq<Bank>, actions: seq<Action>, w: nat,
      i: nat, id: string, st: Standing)
    returns (states': seq<Bank>, actions': seq<Action>, last: Bank)
    requires HexDigests(h) && Onward(h, states, actions) && BankMachine.Inv(h, opening, states[|actions|])
    requires w in states[|actions|].workers && i < |Queue(states[|actions|].workers[w])|
    requires Queue(states[|actions|].workers[w])[i].id == id
    requires forall k :: 0 <= k < i ==> Queue(states[|actions|].workers[w])[k].id != id
    requires StandsAs(states[|actions|].tables, id, st)
    ensures Onward(h, states', actions') && states'[0] == states[0] && last == states'[|actions'|]
    ensures BankMachine.Inv(h, opening, last) && StandsAs(last.tables, id, st)
    ensures var stage := states[|actions|].workers[w];
            last.workers == states[|actions|].workers[w := if i == 0 then stage else MarkSettling(stage.queue[i..])]
    decreases i
  {
    hide BankMachine.Inv, Onward, OthersStand, StandingOf, StatusFits, StandsAs;
    OnwardLength(h, states, actions);
    var s := states[|actions|];
    states', actions', last := states, actions, s;
    if i > 0 {
      var queue, mid: Bank := s.workers[w].queue, s;
      states', actions', mid := FinishesRow(h, opening, states, actions, w);
      ElsewhereStandsAs(s.tables, mid.tables, queue[0].id, id, st);
      OnwardLength(h, states', actions');
      assert mid.workers == s.workers[w := MarkSettling(queue[1..])];
      states', actions', last := ReachesRow(h, opening, states', actions', w, i - 1, id, st);
      assert queue[1..][i - 1..] == queue[i..];
      assert last.workers == s.workers[w := MarkSettling(queue[i..])];
    } else {
      assert s.workers == s.workers[w := s.workers[w]];
    }
  }

  // ---- Overlapping claims ----

  /** A worker that comes late to a decided row marks its saga SETTLING, and then hears nothing from the rail. */
  lemma ComesLate(h: Hashes, opening: Ledger, states: seq<Bank>, actions: seq<Action>, w: nat, id: string, st: Standing)
    returns (states': seq<Bank>, actions': seq<Action>, last: Bank)
    requires HexDigests(h) && Onward(h, states, actions) && BankMachine.Inv(h, opening, states[|actions|])
    requires w in states[|actions|].workers && states[|actions|].workers[w].MarkSettling?
    requires Heads(states[|actions|].workers[w], id) && StandsAs(states[|actions|].tables, id, st)
    requires !st.status.Pending?
    ensures Onward(h, states', actions') && states'[0] == states[0] && last == states'[|actions'|]
    ensures last.workers == states[|actions|].workers[w := Resting]
    ensures StandsAs(last.tables, id, st.(state := Settling)) && !Agreed(st.(state := Settling))
  {
    hide BankMachine.Inv, Onward, OthersStand, StandingOf, Possible;
    OnwardLength(h, states, actions);
    var s, mid: Bank := states[|actions|], states[|actions|];
    states', actions', mid := Works(h, opening, states, actions, w, RailError);
    WorkedStands(h, opening, s, w, RailError, mid);
    OnwardLength(h, states', actions');
    states', actions', last := Works(h, opening, states', actions', w, RailError);
    WorkedStands(h, opening, mid, w, RailError, last);
  }

  lemma Disagrees(h: Hashes, s: Bank, states: seq<Bank>, actions: seq<Action>, id: string, st: Standing)
    requires HexDigests(h) && Onward(h, states, actions) && states[0] == s
    requires var last := states[|actions|]; StandsAs(last.tables, id, st) && !Headed(last.workers, id)
    requires !Agreed(st)
    ensures GoesWrong(h, s, states, actions)
  {
    hide Onward, Agreed, Headed;
    OnwardLength(h, states, actions);
  }

  /** Right after an overlapping claim: two workers have the row in their lines, as pending as it was. */
  ghost predicate Overlaps(s: Bank, v: nat, i: nat, w: nat, j: nat, id: string, st: Standing) {
    && v != w && v in s.workers && w in s.workers && StandsAs(s.tables, id, st) && s.workers[w].MarkSettling?
    && i < |Queue(s.workers[v])| && Queue(s.workers[v])[i].id == id
    && j < |Queue(s.workers[w])| && Queue(s.workers[w])[j].id == id
    && (forall k :: 0 <= k < |Queue(s.workers[v])| && k != i ==> Queue(s.workers[v])[k].id != id)
    && (forall k :: 0 <= k < j ==> Queue(s.workers[w])[k].id != id)
    && (i == 0 ==> StatusFits(s.workers[v], st))
    && (forall u :: u in s.workers && u != v && u != w ==> !Held(s.workers[u], id))
  }

  lemma ClaimOverlaps(h: Hashes, opening: Ledger, s: Bank, w: nat, choice: Choice, s': Bank, v: nat, j: nat)
    returns (i: nat, id: string, st: Standing)
    requires HexDigests(h) && BankMachine.Inv(h, opening, s) && TeamOk(s.tables, s.workers)
    requires Happens(h, s, Worker(w, choice), s') && ClaimHeard(s.workers[w], choice)
    requires v in s.workers && v != w && j < |choice.claimed| && Held(s.workers[v], choice.claimed[j])
    ensures Overlaps(s', v, i, w, j, id, st)
  {
    hide BankMachine.Inv, TeamOk, Drive, Possible, StandingOf, StatusFits, Held, StandsAs;
    id := choice.claimed[j];
    i := PlaceInLine(s.workers[v], id);
    LineDistinct(s.tables, s.workers, v, id);
    TeamLinked(s.tables, s.workers);
    TeamApart(s.tables, s.workers, v, id);
    st := ClaimTakes(s.tables, choice, j);
    if i == 0 {
      HeadKnown(s.tables, id, s'.tables, st);
      HeadInHand(s.tables, s.workers, v, id);
      InHandStatusFits(s.workers[v], st);
    }
  }

  lemma HeadKnown(t: Tables, id: string, t': Tables, st: Standing)
    requires StandsAs(t, id, st)
    ensures id in t.settlements && t.settlements[id].sagaId in t.sagas && StandingOf(t, id) == st
  {
  }

  lemma PlaceInLine(stage: Stage, id: string) returns (i: nat)
    requires Held(stage, id)
    ensures i < |Queue(stage)| && Queue(stage)[i].id == id && (i == 0 ==> Heads(stage, id))
  {
    i :| 0 <= i < |Queue(stage)| && Queue(stage)[i].id == id;
  }

  lemma LineDistinct(t: Tables, workers: map<nat, Stage>, v: nat, id: string)
    requires TeamOk(t, workers) && v in workers
    ensures forall i, k :: 0 <= i < |Queue(workers[v])| && 0 <= k < |Queue(workers[v])| && i != k ==>
        Queue(workers[v])[i].id == id ==> Queue(workers[v])[k].id != id
  {
    hide FitsAt, Linked, Apart;
    assert LineOk(t, Queue(workers[v]));
  }

  lemma TeamApart(t: Tables, workers: map<nat, Stage>, v: nat, id: string)
    requires TeamOk(t, workers) && v in workers && Held(workers[v], id)
    ensures forall u :: u in workers && u != v ==> !Held(workers[u], id)
  {
    hide FitsAt, Linked, LineOk, Held;
  }

  /** A heard claim takes its rows, in their order, and leaves all standings. */
  lemma ClaimTakes(t: Tables, choice: Choice, j: nat) returns (st: Standing)
    requires Linked(t) && Possible(t, Resting, choice) && choice.fate.Done? && j < |choice.claimed|
    ensures var after, id := Drive(t, Resting, choice), choice.claimed[j];
            && StandsAs(t, id, st) && StandsAs(after.0, id, st) && after.1.MarkSettling?
            && j < |Queue(after.1)| && Queue(after.1)[j].id == id
            && forall k :: 0 <= k < j ==> Queue(after.1)[k].id != id
  {
    hide Claim, SettlementHasSaga, Reversed, StandingOf;
    ClaimStands(t, choice.claimed);
    st := StandingOf(t, choice.claimed[j]);
    assert Queue(Drive(t, Resting, choice).1) == Rows(t, choice.claimed);
  }

  /** The first of the two workers goes on until it has decided the row. */
  lemma OneDecides(h: Hashes, opening: Ledger, s: Bank, v: nat, i: nat, w: nat, j: nat, id: string, st: Standing)
    returns (states: seq<Bank>, actions: seq<Action>, last: Bank, st': Standing)
    requires HexDigests(h) && BankMachine.Inv(h, opening, s) && Overlaps(s, v, i, w, j, id, st)
    ensures Onward(h, states, actions) && states[0] == s && last == states[|actions|]
    ensures BankMachine.Inv(h, opening, last) && StandsAs(last.tables, id, st') && !st'.status.Pending?
    ensures last.workers == s.workers[v := Next(Queue(s.workers[v])[i + 1..])]
  {
    hide BankMachine.Inv, Onward, StandsAs, StatusFits, Held, DoneWithRow, Heads, Next;
    StartsOnward(h, s);
    var queue, mid: Bank := Queue(s.workers[v]), s;
    states, actions, mid := ReachesRow(h, opening, [s], [], v, i, id, st);
    OnwardLength(h, states, actions);
    OnHead(s.workers[v], mid.workers[v], i, id, st);
    states, actions, last := FinishesRow(h, opening, states, actions, v);
    st' := Decided(mid, v, last, id, st);
    RowLeft(mid, v, last);
    assert queue[i..][1..] == queue[i + 1..];
  }

  lemma StartsOnward(h: Hashes, s: Bank)
    requires HexDigests(h)
    ensures Onward(h, [s], [])
  {
  }

  lemma RowLeft(s: Bank, w: nat, last: Bank)
    requires w in s.workers && !s.workers[w].Resting? && s.workers[w].queue != [] && DoneWithRow(s, w, last)
    ensures last.workers == s.workers[w := Next(s.workers[w].queue[1..])]
  {
    hide OthersStand, StandingOf;
  }

  /** Overlapping claims can always end in disagreement: one worker decides the row, the other then marks its saga. */
  lemma OverlapGoesWrong(h: Hashes, opening: Ledger, s: Bank, v: nat, i: nat, w: nat, j: nat, id: string, st: Standing)
    returns (states: seq<Bank>, actions: seq<Action>)
    requires HexDigests(h) && BankMachine.Inv(h, opening, s) && Overlaps(s, v, i, w, j, id, st)
    ensures GoesWrong(h, s, states, actions)
  {
    hide BankMachine.Inv, Onward, StandsAs, StatusFits, Agreed, Held, GoesWrong;
    var mid: Bank, last: Bank, st': Standing;
    states, actions, mid, st' := OneDecides(h, opening, s, v, i, w, j, id, st);
    OnwardLength(h, states, actions);
    states, actions, mid := ReachesRow(h, opening, states, actions, w, j, id, st');
    OnwardLength(h, states, actions);
    states, actions, last := ComesLate(h, opening, states, actions, w, id, st');
    assert last.workers == s.workers[v := Next(Queue(s.workers[v])[i + 1..])][w := Resting];
    NobodyHeads(s, v, i, w, id, last.workers);
    Disagrees(h, s, states, actions, id, st'.(state := Settling));
  }

  lemma OnHead(stage: Stage, reached: Stage, i: nat, id: string, st: Standing)
    requires i < |Queue(stage)| && Queue(stage)[i].id == id
    requires reached == if i == 0 then stage else MarkSettling(stage.queue[i..])
    requires i == 0 ==> StatusFits(stage, st)
    ensures Queue(reached) == Queue(stage)[i..] && Heads(reached, id) && StatusFits(reached, st)
  {
  }

  lemma Decided(s: Bank, v: nat, last: Bank, id: string, st: Standing) returns (st': Standing)
    requires v in s.workers && Heads(s.workers[v], id) && StandsAs(s.tables, id, st) && StatusFits(s.workers[v], st)
    requires DoneWithRow(s, v, last)
    ensures StandsAs(last.tables, id, st') && !st'.status.Pending?
  {
    hide OthersStand, StandingOf, StatusFits;
    st' := StandingOf(last.tables, id);
  }

  lemma NobodyHeads(s: Bank, v: nat, i: nat, w: nat, id: string, workers: map<nat, Stage>)
    requires v in s.workers && w in s.workers && v != w && i < |Queue(s.workers[v])|
    requires forall k :: 0 <= k < |Queue(s.workers[v])| && k != i ==> Queue(s.workers[v])[k].id != id
    requires forall u :: u in s.workers && u != v && u != w ==> !Held(s.workers[u], id)
    requires workers == s.workers[v := Next(Queue(s.workers[v])[i + 1..])][w := Resting]
    ensures !Headed(workers, id)
  {
    hide Held;
    forall u | u in workers
      ensures !Heads(workers[u], id)
    {
      if u != v && u != w && Heads(workers[u], id) {
        HeadHeld(s.workers[u], id);
      }
    }
  }

  // ---- Unfaithful writes and untimely crashes ----

  /** Where an unfaithful write leaves its worker and its row. */
  lemma UnfaithfulLeaves(t: Tables, stage: Stage, choice: Choice, st: Standing)
    requires !stage.Resting? && Possible(t, stage, choice) && InHand(stage, st) && !Faithful(t, stage, choice)
    ensures var next, after := Drive(t, stage, choice).1, StandingAfter(t, stage, choice, st);
            if next.MarkFailed? then
              next == MarkFailed(stage.queue, next.reason, false) && after.reversed
            else if next.MarkSagaFailed? then
              next.queue == stage.queue && after.status.Pending?
            else next == Next(stage.queue[1..]) || next.Resting?
    ensures var next, after := Drive(t, stage, choice).1, StandingAfter(t, stage, choice, st);
            !next.MarkFailed? && !next.MarkSagaFailed? ==> !Agreed(after)
  {
    hide ReversalOf, UpdateSaga, UpdateSettlementStatus, Readable;
  }

  /** Once a worker has left its row, nobody heads it. */
  lemma LeftUnheaded(t: Tables, workers: map<nat, Stage>, w: nat, next: Stage)
    requires TeamOk(t, workers) && w in workers && !workers[w].Resting? && workers[w].queue != []
    requires next == Next(workers[w].queue[1..]) || next.Resting?
    ensures !Headed(workers[w := next], workers[w].queue[0].id)
  {
    hide TeamOk, Held;
    var id := workers[w].queue[0].id;
    assert Heads(workers[w], id);
    HeadHeld(workers[w], id);
    LineDistinct(t, workers, w, id);
    TeamApart(t, workers, w, id);
    forall u | u in workers && u != w
      ensures !Heads(workers[u], id)
    {
      if Heads(workers[u], id) {
        HeadHeld(workers[u], id);
      }
    }
    assert !Heads(next, id);
  }

  lemma UnfaithfulGoesWrong(h: Hashes, opening: Ledger, s: Bank, w: nat, choice: Choice, s': Bank)
    returns (states: seq<Bank>, actions: seq<Action>)
    requires HexDigests(h) && BankMachine.Inv(h, opening, s) && TeamOk(s.tables, s.workers)
    requires Happens(h, s, Worker(w, choice), s') && BankMachine.Inv(h, opening, s')
    requires !s.workers[w].Resting? && !Faithful(s.tables, s.workers[w], choice)
    ensures GoesWrong(h, s', states, actions)
  {
    hide BankMachine.Inv, BankInv, TeamOk, Drive, Possible, Faithful, Remembers, InHand, StandingOf, StandingAfter,
        Held, Onward, GoesWrong, OthersStand, Headed, DoneWithRow, Agreed;
    var stage, next := s.workers[w], s'.workers[w];
    WorkerRemembers(h, opening, s, w);
    RememberedQueue(s.tables, stage);
    var id := stage.queue[0].id;
    DriveStands(h, opening, s.tables, stage, choice);
    HeadInHand(s.tables, s.workers, w, id);
    var after := StandingAfter(s.tables, stage, choice, StandingOf(s.tables, id));
    UnfaithfulLeaves(s.tables, stage, choice, StandingOf(s.tables, id));
    assert StandsAs(s'.tables, id, after);
    StartsOnward(h, s');
    states, actions := [s'], [];
    if next.MarkFailed? || next.MarkSagaFailed? {
      var last: Bank;
      states, actions, last := FinishesRow(h, opening, states, actions, w);
      RowLeft(s', w, last);
      var st := GivenUp(s', w, last, id, after);
      assert last.workers == s.workers[w := Next(stage.queue[1..])];
      LeftUnheaded(s.tables, s.workers, w, Next(stage.queue[1..]));
      Disagrees(h, s', states, actions, id, st);
    } else {
      LeftUnheaded(s.tables, s.workers, w, next);
      Disagrees(h, s', states, actions, id, after);
    }
  }

  /** Giving up on a row that was sent back, or is still pending, leaves it in disagreement. */
  lemma GivenUp(s: Bank, w: nat, last: Bank, id: string, st: Standing) returns (st': Standing)
    requires w in s.workers && Heads(s.workers[w], id) && StandsAs(s.tables, id, st) && DoneWithRow(s, w, last)
    requires (s.workers[w].MarkFailed? && !s.workers[w].compensated && st.reversed)
             || (s.workers[w].MarkSagaFailed? && st.status.Pending?)
    ensures StandsAs(last.tables, id, st') && !Agreed(st')
  {
    hide OthersStand, StandingOf, StatusFits;
    st' := StandingOf(last.tables, id);
  }

  lemma CrashGoesWrong(h: Hashes, opening: Ledger, s: Bank, w: nat, s': Bank)
    returns (states: seq<Bank>, actions: seq<Action>)
    requires HexDigests(h) && BankMachine.Inv(h, opening, s) && TeamOk(s.tables, s.workers)
    requires Happens(h, s, Crash(w), s') && !Droppable(s.tables, s.workers[w])
    ensures GoesWrong(h, s', states, actions)
  {
    hide BankMachine.Inv, BankInv, TeamOk, InHand, StandingOf, Held, Onward, GoesWrong, Headed, Agreed, Untried;
    var stage := s.workers[w];
    var id :| Heads(stage, id) && id in s.tables.settlements && s.tables.settlements[id].sagaId in s.tables.sagas
              && !Untried(StandingOf(s.tables, id));
    HeadInHand(s.tables, s.workers, w, id);
    InHandAgrees(stage, StandingOf(s.tables, id));
    LeftUnheaded(s.tables, s.workers, w, Resting);
    StartsOnward(h, s');
    states, actions := [s'], [];
    Disagrees(h, s', states, actions, id, StandingOf(s.tables, id));
  }

  // ---- The exact condition ----

  lemma ImproperGoesWrong(h: Hashes, opening: Ledger, s: Bank, a: Action, s': Bank)
    returns (states: seq<Bank>, actions: seq<Action>)
    requires HexDigests(h) && BankMachine.Inv(h, opening, s) && TeamOk(s.tables, s.workers)
    requires Happens(h, s, a, s') && !ProperAction(s, a)
    ensures GoesWrong(h, s', states, actions)
  {
    hide BankMachine.Inv, TeamOk, Drive, Possible, Faithful, Droppable, Held, GoesWrong, Overlaps;
    ActionKeepsInv(h, opening, s, a, s');
    if a.Crash? {
      states, actions := CrashGoesWrong(h, opening, s, a.worker, s');
    } else if !s.workers[a.who].Resting? {
      states, actions := UnfaithfulGoesWrong(h, opening, s, a.who, a.choice, s');
    } else {
      ClaimFaithful(s.tables, a.choice);
      var v, j :| v in s.workers && v != a.who && 0 <= j < |a.choice.claimed|
                  && Held(s.workers[v], a.choice.claimed[j]);
      var i, id, st := ClaimOverlaps(h, opening, s, a.who, a.choice, s', v, j);
      states, actions := OverlapGoesWrong(h, opening, s', v, i, a.who, j, id, st);
    }
  }

  /**
   * The exact condition, in terms of the tables. As long as settlements and sagas are in order, an
   * action of anybody is proper if and only if settlements and sagas agree, whenever nobody is at work
   * on them, in every proper future of it. So an unfaithful write, a claim of a row in another's hands
   * and a crash with a row half done each have a future without any further mistake that ends wrong.
   */
  lemma ProperIffSafe(h: Hashes, opening: Ledger, s: Bank, a: Action, s': Bank)
    requires HexDigests(h) && BankMachine.Inv(h, opening, s) && TeamOk(s.tables, s.workers) && Happens(h, s, a, s')
    ensures ProperAction(s, a) <==> Safe(h, s')
  {
    hide BankMachine.Inv, TeamOk, Happens, ProperAction, GoesWrong;
    if ProperAction(s, a) {
      ActionTeam(h, opening, s, a, s');
      ActionKeepsInv(h, opening, s, a, s');
      OrderIsSafe(h, opening, s');
    } else {
      var states, actions := ImproperGoesWrong(h, opening, s, a, s');
    }
  }
}
