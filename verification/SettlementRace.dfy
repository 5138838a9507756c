/**
 * Two workers, every write faithful, and still a settlement both settled and reversed: a claim leaves
 * its rows pending.
 */
module SettlementRace {
  import opened Errors
  import opened LedgerDomain
  import opened LedgerStore
  import opened TransferDomain
  import opened Schema
  import opened Transitions
  import opened BankInvariant
  import opened SettlementSteps
  import opened RequestSteps
  import opened BankMachine
  import opened SettlementAgreement

  /** A stretch of a run in which only workers act and every statement is done and reported. */
  ghost predicate Path(h: Hashes, states: seq<Bank>, actions: seq<Action>)
    requires HexDigests(h)
  {
    && |states| == |actions| + 1
    && forall i :: 0 <= i < |actions| ==>
        actions[i].Worker? && actions[i].choice.fate.Done? && Happens(h, states[i], actions[i], states[i + 1])
  }

  lemma Turn(h: Hashes, opening: Ledger, states: seq<Bank>, actions: seq<Action>, who: nat, choice: Choice)
    returns (states': seq<Bank>, actions': seq<Action>, last: Bank)
    requires HexDigests(h) && |states| == |actions| + 1 && Path(h, states, actions)
    requires BankMachine.Inv(h, opening, states[|actions|]) && choice.fate.Done?
    requires who in states[|actions|].workers
    requires Possible(states[|actions|].tables, states[|actions|].workers[who], choice)
    ensures var s := states[|actions|];
            && |states'| == |actions'| + 1 && Path(h, states', actions') && states'[0] == states[0]
            && last == states'[|actions'|] && BankMachine.Inv(h, opening, last)
            && last.tables == Drive(s.tables, s.workers[who], choice).0
            && last.workers == s.workers[who := Drive(s.tables, s.workers[who], choice).1]
            && (!s.workers[who].PostReversal? ==> OnlyStatuses(s.tables, last.tables))
  {
    var s, a := states[|actions|], Worker(who, choice);
    hide BankMachine.Inv, Drive, Possible, OnlyStatuses;
    if !s.workers[who].PostReversal? {
      DriveIsBookkeeping(s.tables, s.workers[who], choice);
    }
    var after := Drive(s.tables, s.workers[who], choice);
    last := s.(tables := after.0, workers := s.workers[who := after.1]);
    states', actions' := states + [last], actions + [a];
    assert Happens(h, s, a, last);
    hide Happens;
    ActionKeepsInv(h, opening, s, a, last);
  }

  /** A pending settlement whose reversal would be accepted now. */
  ghost predicate Reversible(t: Tables, id: string, listings: seq<seq<Entry>>) {
    && id in t.settlements && t.settlements[id].status.Pending? && t.settlements[id].sagaId in t.sagas
    && ReversalOf(t.sagas[t.settlements[id].sagaId], t.settlements[id]).Ok?
    && Accepts(t.ledger, ReversalOf(t.sagas[t.settlements[id].sagaId], t.settlements[id]).value, listings)
  }

  lemma StatusesChain(t: Tables, u: Tables, v: Tables)
    requires OnlyStatuses(t, u) && OnlyStatuses(u, v)
    ensures OnlyStatuses(t, v)
  {
    forall id | id in t.sagas ensures SameSaga(t.sagas[id], v.sagas[id]) {
      assert SameSaga(t.sagas[id], u.sagas[id]) && SameSaga(u.sagas[id], v.sagas[id]);
    }
    forall id | id in t.settlements ensures SameSettlement(t.settlements[id], v.settlements[id]) {
      assert SameSettlement(t.settlements[id], u.settlements[id]);
      assert SameSettlement(u.settlements[id], v.settlements[id]);
    }
    forall id | id in t.outbox ensures SameEvent(t.outbox[id], v.outbox[id]) {
      assert SameEvent(t.outbox[id], u.outbox[id]) && SameEvent(u.outbox[id], v.outbox[id]);
    }
  }

  lemma SameReversal(saga: Saga, saga': Saga, s: Settlement, s': Settlement)
    requires SameSaga(saga, saga') && SameSettlement(s, s')
    ensures ReversalOf(saga, s) == ReversalOf(saga', s')
  {
    hide MovingTransaction;
  }

  // ---- The statements of the race, on tables ----

  lemma ClaimOneDrives(t: Tables, id: string, choice: Choice)
    requires id in t.settlements && t.settlements[id].status.Pending? && choice.claimed == [id] && choice.fate.Done?
    ensures Possible(t, Resting, choice) && Drive(t, Resting, choice).1 == MarkSettling([t.settlements[id]])
    ensures var t' := Drive(t, Resting, choice).0; id in t'.settlements && t'.settlements[id].status.Pending?
  {
    hide ReversalOf;
    assert Rows(t, [id]) == [t.settlements[id]];
    assert [id][..0] == [] && Claim(t, []) == t;
  }

  lemma RailDrives(t: Tables, row: Settlement, choice: Choice)
    requires choice.fate.Done?
    ensures Possible(t, MarkSettling([row]), choice) && Drive(t, MarkSettling([row]), choice).1 == AtRail([row])
    ensures Possible(t, AtRail([row]), choice)
    ensures Drive(t, AtRail([row]), choice).1 == match choice.rail
            case Cleared => MarkSettled([row])
            case Rejected(reason) => LoadSaga([row], reason)
            case RailError => Resting
  {
    hide UpdateSaga, ReversalOf;
  }

  lemma LoadDrives(t: Tables, row: Settlement, reason: string, choice: Choice)
    requires choice.fate.Done? && row.sagaId in t.sagas && ReversalOf(t.sagas[row.sagaId], row).Ok?
    ensures Possible(t, LoadSaga([row], reason), choice)
    ensures Drive(t, LoadSaga([row], reason), choice).1 == MarkCompensating([row], reason, t.sagas[row.sagaId])
  {
    hide ReversalOf;
  }

  lemma MarkDrives(t: Tables, row: Settlement, reason: string, seen: Saga, choice: Choice)
    requires choice.fate.Done?
    ensures Possible(t, MarkCompensating([row], reason, seen), choice)
    ensures Drive(t, MarkCompensating([row], reason, seen), choice).1 == PostReversal([row], reason, seen)
  {
    hide UpdateSaga, ReversalOf;
  }

  lemma SettleDrives(t: Tables, row: Settlement, choice: Choice)
    requires choice.fate.Done?
    ensures Possible(t, MarkSettled([row]), choice)
    ensures Drive(t, MarkSettled([row]), choice).1 == MarkCompleted([row])
  {
    hide UpdateSettlementStatus, ReversalOf;
  }

  // ---- The race as a stretch of a run ----

  /** A worker that claims one pending row. */
  lemma ClaimsOne(h: Hashes, opening: Ledger, states: seq<Bank>, actions: seq<Action>, who: nat, id: string)
    returns (states': seq<Bank>, actions': seq<Action>, last: Bank)
    requires HexDigests(h) && |states| == |actions| + 1 && Path(h, states, actions)
    requires BankMachine.Inv(h, opening, states[|actions|])
    requires who in states[|actions|].workers && states[|actions|].workers[who].Resting?
    requires id in states[|actions|].tables.settlements && states[|actions|].tables.settlements[id].status.Pending?
    ensures var s := states[|actions|];
            && |states'| == |actions'| + 1 && Path(h, states', actions') && states'[0] == states[0]
            && last == states'[|actions'|] && BankMachine.Inv(h, opening, last)
            && last.workers == s.workers[who := MarkSettling([s.tables.settlements[id]])]
            && OnlyStatuses(s.tables, last.tables)
            && id in last.tables.settlements && last.tables.settlements[id].status.Pending?
  {
    var s, choice := states[|actions|], Choice(Done, [id], RailError, []);
    hide BankMachine.Inv, OnlyStatuses, Drive, Possible, Path;
    ClaimOneDrives(s.tables, id, choice);
    states', actions', last := Turn(h, opening, states, actions, who, choice);
  }

  /** A worker with one row in hand goes to the rail. */
  lemma GoesToRail(h: Hashes, opening: Ledger, states: seq<Bank>, actions: seq<Action>, who: nat, row: Settlement)
    returns (states': seq<Bank>, actions': seq<Action>, last: Bank)
    requires HexDigests(h) && |states| == |actions| + 1 && Path(h, states, actions)
    requires BankMachine.Inv(h, opening, states[|actions|])
    requires who in states[|actions|].workers && states[|actions|].workers[who] == MarkSettling([row])
    ensures var s := states[|actions|];
            && |states'| == |actions'| + 1 && Path(h, states', actions') && states'[0] == states[0]
            && last == states'[|actions'|] && BankMachine.Inv(h, opening, last)
            && last.workers == s.workers[who := AtRail([row])]
            && OnlyStatuses(s.tables, last.tables)
  {
    var s, choice := states[|actions|], Choice(Done, [], RailError, []);
    hide BankMachine.Inv, OnlyStatuses, Drive, Possible, Path;
    RailDrives(s.tables, row, choice);
    states', actions', last := Turn(h, opening, states, actions, who, choice);
  }

  function Answered(row: Settlement, rail: RailOutcome): Stage
    requires !rail.RailError?
  {
    if rail.Cleared? then MarkSettled([row]) else LoadSaga([row], rail.reason)
  }

  /** A worker with one row in hand whose rail gives an answer. */
  lemma HearsFromRail(h: Hashes, opening: Ledger, states: seq<Bank>, actions: seq<Action>, who: nat, row: Settlement,
      rail: RailOutcome)
    returns (states': seq<Bank>, actions': seq<Action>, last: Bank)
    requires HexDigests(h) && |states| == |actions| + 1 && Path(h, states, actions)
    requires BankMachine.Inv(h, opening, states[|actions|])
    requires who in states[|actions|].workers && states[|actions|].workers[who] == MarkSettling([row])
    requires !rail.RailError?
    ensures var s := states[|actions|];
            && |states'| == |actions'| + 1 && Path(h, states', actions') && states'[0] == states[0]
            && last == states'[|actions'|] && BankMachine.Inv(h, opening, last)
            && last.workers == s.workers[who := Answered(row, rail)]
            && OnlyStatuses(s.tables, last.tables)
  {
    hide BankMachine.Inv, OnlyStatuses, Drive, Possible, Path;
    var s, choice := states[|actions|], Choice(Done, [], rail, []);
    var mid: Bank;
    states', actions', mid := GoesToRail(h, opening, states, actions, who, row);
    RailDrives(mid.tables, row, choice);
    states', actions', last := Turn(h, opening, states', actions', who, choice);
    StatusesChain(s.tables, mid.tables, last.tables);
  }

  /** A worker that heard a rejection loads the saga. */
  lemma Loads(h: Hashes, opening: Ledger, states: seq<Bank>, actions: seq<Action>, who: nat, row: Settlement,
      reason: string)
    returns (states': seq<Bank>, actions': seq<Action>, last: Bank, seen: Saga)
    requires HexDigests(h) && |states| == |actions| + 1 && Path(h, states, actions)
    requires BankMachine.Inv(h, opening, states[|actions|])
    requires who in states[|actions|].workers && states[|actions|].workers[who] == LoadSaga([row], reason)
    requires row.sagaId in states[|actions|].tables.sagas
    requires ReversalOf(states[|actions|].tables.sagas[row.sagaId], row).Ok?
    ensures var s := states[|actions|];
            && seen == s.tables.sagas[row.sagaId]
            && |states'| == |actions'| + 1 && Path(h, states', actions') && states'[0] == states[0]
            && last == states'[|actions'|] && BankMachine.Inv(h, opening, last)
            && last.workers == s.workers[who := MarkCompensating([row], reason, seen)]
            && OnlyStatuses(s.tables, last.tables)
  {
    var s, choice := states[|actions|], Choice(Done, [], RailError, []);
    hide BankMachine.Inv, OnlyStatuses, Drive, Possible, Path, ReversalOf;
    seen := s.tables.sagas[row.sagaId];
    LoadDrives(s.tables, row, reason, choice);
    states', actions', last := Turn(h, opening, states, actions, who, choice);
  }

  /** It marks the saga as compensating, and is about to post the reversal. */
  lemma Marks(h: Hashes, opening: Ledger, states: seq<Bank>, actions: seq<Action>, who: nat, row: Settlement,
      reason: string, seen: Saga)
    returns (states': seq<Bank>, actions': seq<Action>, last: Bank)
    requires HexDigests(h) && |states| == |actions| + 1 && Path(h, states, actions)
    requires BankMachine.Inv(h, opening, states[|actions|])
    requires who in states[|actions|].workers && states[|actions|].workers[who] == MarkCompensating([row], reason, seen)
    ensures var s := states[|actions|];
            && |states'| == |actions'| + 1 && Path(h, states', actions') && states'[0] == states[0]
            && last == states'[|actions'|] && BankMachine.Inv(h, opening, last)
            && last.workers == s.workers[who := PostReversal([row], reason, seen)]
            && OnlyStatuses(s.tables, last.tables)
  {
    var s, choice := states[|actions|], Choice(Done, [], RailError, []);
    hide BankMachine.Inv, OnlyStatuses, Drive, Possible, Path, ReversalOf;
    MarkDrives(s.tables, row, reason, seen, choice);
    states', actions', last := Turn(h, opening, states, actions, who, choice);
  }

  /** The other worker records the rail's success. */
  lemma Settles(h: Hashes, opening: Ledger, states: seq<Bank>, actions: seq<Action>, who: nat, row: Settlement)
    returns (states': seq<Bank>, actions': seq<Action>, last: Bank)
    requires HexDigests(h) && |states| == |actions| + 1 && Path(h, states, actions)
    requires BankMachine.Inv(h, opening, states[|actions|])
    requires who in states[|actions|].workers && states[|actions|].workers[who] == MarkSettled([row])
    ensures var s := states[|actions|];
            && |states'| == |actions'| + 1 && Path(h, states', actions') && states'[0] == states[0]
            && last == states'[|actions'|] && BankMachine.Inv(h, opening, last)
            && last.workers == s.workers[who := MarkCompleted([row])]
            && OnlyStatuses(s.tables, last.tables)
            && row.id in last.tables.settlements && last.tables.settlements[row.id].sagaId in last.tables.sagas
            && StandingOf(last.tables, row.id).status == Settled
  {
    var s, choice := states[|actions|], Choice(Done, [], RailError, []);
    hide BankMachine.Inv, BankInv, Remembers, OnlyStatuses, Drive, Possible, Path, ReversalOf, StandingOf;
    InvParts(h, opening, s);
    SettleDrives(s.tables, row, choice);
    SettleStands(h, opening, s.tables, row, choice);
    states', actions', last := Turn(h, opening, states, actions, who, choice);
  }

  /** And the first one sends the money back. */
  lemma Reverses(h: Hashes, opening: Ledger, states: seq<Bank>, actions: seq<Action>, who: nat, row: Settlement,
      seen: Saga, reason: string, listings: seq<seq<Entry>>)
    returns (states': seq<Bank>, actions': seq<Action>, last: Bank)
    requires HexDigests(h) && |states| == |actions| + 1 && Path(h, states, actions)
    requires BankMachine.Inv(h, opening, states[|actions|])
    requires who in states[|actions|].workers && states[|actions|].workers[who] == PostReversal([row], reason, seen)
    requires var t := states[|actions|].tables;
             && row.id in t.settlements && t.settlements[row.id].sagaId in t.sagas
             && StandingOf(t, row.id).status == Settled
             && ReversalOf(seen, row).Ok? && Accepts(t.ledger, ReversalOf(seen, row).value, listings)
    ensures |states'| == |actions'| + 1 && Path(h, states', actions') && states'[0] == states[0]
    ensures last == states'[|actions'|]
    ensures row.id in last.tables.settlements && last.tables.settlements[row.id].sagaId in last.tables.sagas
    ensures StandingOf(last.tables, row.id) == Standing(Settled, Compensated, true)
  {
    var s, choice := states[|actions|], Choice(Done, [], RailError, listings);
    hide BankMachine.Inv, BankInv, Remembers, OnlyStatuses, Drive, Possible, Path, ReversalOf, StandingOf, Accepts;
    InvParts(h, opening, s);
    ReverseStands(h, opening, s.tables, row, reason, seen, choice);
    states', actions', last := Turn(h, opening, states, actions, who, choice);
  }

  lemma SettleStands(h: Hashes, opening: Ledger, t: Tables, row: Settlement, choice: Choice)
    requires HexDigests(h) && BankInv(h, opening, t) && Remembers(t, MarkSettled([row])) && choice.fate.Done?
    requires Possible(t, MarkSettled([row]), choice)
    ensures var t' := Drive(t, MarkSettled([row]), choice).0;
            && row.id in t'.settlements && t'.settlements[row.id].sagaId in t'.sagas
            && StandingOf(t', row.id).status == Settled
  {
    hide BankInv, Remembers, Drive, Possible, StandingOf, OthersStand;
    DriveStands(h, opening, t, MarkSettled([row]), choice);
  }

  lemma ReverseStands(h: Hashes, opening: Ledger, t: Tables, row: Settlement, reason: string, seen: Saga,
      choice: Choice)
    requires HexDigests(h) && BankInv(h, opening, t) && Remembers(t, PostReversal([row], reason, seen))
    requires choice.fate.Done?
    requires ReversalOf(seen, row).Ok? && Accepts(t.ledger, ReversalOf(seen, row).value, choice.listings)
    requires row.id in t.settlements && t.settlements[row.id].sagaId in t.sagas
    requires StandingOf(t, row.id).status == Settled
    ensures var stage := PostReversal([row], reason, seen);
            && Possible(t, stage, choice)
            && var t' := Drive(t, stage, choice).0;
            && row.id in t'.settlements && t'.settlements[row.id].sagaId in t'.sagas
            && StandingOf(t', row.id) == Standing(Settled, Compensated, true)
  {
    hide BankInv, Remembers, Drive, Possible, StandingOf, OthersStand, ReversalOf, Accepts, StandingAfter;
    ReversePossible(t, row, reason, seen, choice, StandingOf(t, row.id));
    DriveStands(h, opening, t, PostReversal([row], reason, seen), choice);
  }

  lemma InvParts(h: Hashes, opening: Ledger, s: Bank)
    requires HexDigests(h) && BankMachine.Inv(h, opening, s)
    ensures BankInv(h, opening, s.tables) && forall w :: w in s.workers ==> Remembers(s.tables, s.workers[w])
  {
    hide BankInv, Remembers, StoreOk, RequestsOk;
  }

  lemma LedgerStays(t: Tables, t': Tables)
    requires OnlyStatuses(t, t')
    ensures t'.ledger == t.ledger
  {
  }

  lemma AcceptedCompensates(t: Tables, tx: Transaction, id: string, listings: seq<seq<Entry>>)
    requires Accepts(t.ledger, tx, listings)
    ensures Readable(t.ledger, tx, listings) && |listings| <= |LockOrder(tx)|
    ensures CompensationPosted(t, tx, id, listings).Ok?
  {
    hide VerdictOn, UpdateSagaState;
    ReadableFits(t.ledger, tx, listings);
  }

  lemma ReversePossible(t: Tables, row: Settlement, reason: string, seen: Saga, choice: Choice, st: Standing)
    requires ReversalOf(seen, row).Ok? && Accepts(t.ledger, ReversalOf(seen, row).value, choice.listings)
    requires choice.fate.Done?
    ensures Possible(t, PostReversal([row], reason, seen), choice)
    ensures StandingAfter(t, PostReversal([row], reason, seen), choice, st)
        == st.(state := Compensated, reversed := true)
  {
    hide ReversalOf, VerdictOn, Readable, CompensationPosted, Accepts;
    AcceptedCompensates(t, ReversalOf(seen, row).value, row.sagaId, choice.listings);
  }

  lemma BothClaim(h: Hashes, opening: Ledger, states: seq<Bank>, actions: seq<Action>, v: nat, w: nat, id: string)
    returns (states': seq<Bank>, actions': seq<Action>, last: Bank, row': Settlement)
    requires HexDigests(h) && |states| == |actions| + 1 && Path(h, states, actions)
    requires BankMachine.Inv(h, opening, states[|actions|]) && v != w
    requires var s := states[|actions|];
             && v in s.workers && w in s.workers && s.workers[v].Resting? && s.workers[w].Resting?
             && id in s.tables.settlements && s.tables.settlements[id].status.Pending?
    ensures var s := states[|actions|];
            && |states'| == |actions'| + 1 && Path(h, states', actions') && states'[0] == states[0]
            && last == states'[|actions'|] && BankMachine.Inv(h, opening, last)
            && v in last.workers && last.workers[v] == MarkSettling([s.tables.settlements[id]])
            && w in last.workers && last.workers[w] == MarkSettling([row'])
            && OnlyStatuses(s.tables, last.tables)
            && s.tables.settlements[id].id == id && row'.id == id
  {
    hide BankMachine.Inv, OnlyStatuses, Path;
    var s, mid: Bank := states[|actions|], states[|actions|];
    RowId(h, opening, s, id);
    states', actions', mid := ClaimsOne(h, opening, states, actions, v, id);
    row' := mid.tables.settlements[id];
    RowId(h, opening, mid, id);
    states', actions', last := ClaimsOne(h, opening, states', actions', w, id);
    StatusesChain(s.tables, mid.tables, last.tables);
  }

  lemma OneRejected(h: Hashes, opening: Ledger, states: seq<Bank>, actions: seq<Action>, v: nat, w: nat,
      row: Settlement, row': Settlement, reason: string)
    returns (states': seq<Bank>, actions': seq<Action>, last: Bank, seen: Saga)
    requires HexDigests(h) && |states| == |actions| + 1 && Path(h, states, actions)
    requires BankMachine.Inv(h, opening, states[|actions|]) && v != w
    requires var s := states[|actions|];
             && v in s.workers && w in s.workers && s.workers[v] == MarkSettling([row])
             && s.workers[w] == MarkSettling([row'])
             && row.sagaId in s.tables.sagas && ReversalOf(s.tables.sagas[row.sagaId], row).Ok?
    ensures var s := states[|actions|];
            && |states'| == |actions'| + 1 && Path(h, states', actions') && states'[0] == states[0]
            && last == states'[|actions'|] && BankMachine.Inv(h, opening, last)
            && v in last.workers && last.workers[v] == PostReversal([row], reason, seen)
            && w in last.workers && last.workers[w] == MarkSettling([row'])
            && OnlyStatuses(s.tables, last.tables)
            && ReversalOf(seen, row) == ReversalOf(s.tables.sagas[row.sagaId], row)
  {
    hide BankMachine.Inv, OnlyStatuses, Path, ReversalOf;
    var s, s1, s2: Bank := states[|actions|], states[|actions|], states[|actions|];
    states', actions', s1 := HearsFromRail(h, opening, states, actions, v, row, Rejected(reason));
    SeenLater(s.tables, s1.tables, row.sagaId, row);
    states', actions', s2, seen := Loads(h, opening, states', actions', v, row, reason);
    StatusesChain(s.tables, s1.tables, s2.tables);
    states', actions', last := Marks(h, opening, states', actions', v, row, reason, seen);
    StatusesChain(s.tables, s2.tables, last.tables);
  }

  lemma OtherCleared(h: Hashes, opening: Ledger, states: seq<Bank>, actions: seq<Action>, v: nat, w: nat,
      row': Settlement, seen: Saga, reason: string, row: Settlement)
    returns (states': seq<Bank>, actions': seq<Action>, last: Bank)
    requires HexDigests(h) && |states| == |actions| + 1 && Path(h, states, actions)
    requires BankMachine.Inv(h, opening, states[|actions|]) && v != w
    requires var s := states[|actions|];
             && v in s.workers && w in s.workers && s.workers[v] == PostReversal([row], reason, seen)
             && s.workers[w] == MarkSettling([row'])
    ensures var s := states[|actions|];
            && |states'| == |actions'| + 1 && Path(h, states', actions') && states'[0] == states[0]
            && last == states'[|actions'|] && BankMachine.Inv(h, opening, last)
            && v in last.workers && last.workers[v] == PostReversal([row], reason, seen)
            && OnlyStatuses(s.tables, last.tables)
            && row'.id in last.tables.settlements && last.tables.settlements[row'.id].sagaId in last.tables.sagas
            && StandingOf(last.tables, row'.id).status == Settled
  {
    hide BankMachine.Inv, OnlyStatuses, Path, StandingOf;
    var s, mid: Bank := states[|actions|], states[|actions|];
    states', actions', mid := HearsFromRail(h, opening, states, actions, w, row', Cleared);
    states', actions', last := Settles(h, opening, states', actions', w, row');
    StatusesChain(s.tables, mid.tables, last.tables);
  }

  /**
   * Settled and reversed: whenever two workers rest and a pending settlement could be reversed, there
   * is a stretch of faithful statements of these two after which the settlement is SETTLED while its
   * saga is COMPENSATED and the money has gone back.
   */
  lemma TwoWorkersSettleAndReverse(h: Hashes, opening: Ledger, s: Bank, v: nat, w: nat, id: string, reason: string,
      listings: seq<seq<Entry>>)
    returns (states: seq<Bank>, actions: seq<Action>, last: Bank)
    requires HexDigests(h) && BankMachine.Inv(h, opening, s) && v != w
    requires v in s.workers && w in s.workers && s.workers[v].Resting? && s.workers[w].Resting?
    requires Reversible(s.tables, id, listings)
    ensures Path(h, states, actions) && states[0] == s && last == states[|actions|]
    ensures id in last.tables.settlements && last.tables.settlements[id].sagaId in last.tables.sagas
    ensures StandingOf(last.tables, id) == Standing(Settled, Compensated, true) && !Agreed(StandingOf(last.tables, id))
  {
    hide BankMachine.Inv, OnlyStatuses, Happens, ReversalOf, StandingOf, Accepts;
    states, actions := [s], [];
    assert Path(h, states, actions);
    hide Path;
    var row := s.tables.settlements[id];
    var s1: Bank, s2: Bank, s3: Bank, seen: Saga, row': Settlement;
    states, actions, s1, row' := BothClaim(h, opening, states, actions, v, w, id);
    SeenLater(s.tables, s1.tables, row.sagaId, row);
    states, actions, s2, seen := OneRejected(h, opening, states, actions, v, w, row, row', reason);
    StatusesChain(s.tables, s1.tables, s2.tables);
    states, actions, s3 := OtherCleared(h, opening, states, actions, v, w, row', seen, reason, row);
    StatusesChain(s.tables, s2.tables, s3.tables);
    LedgerStays(s.tables, s3.tables);
    states, actions, last := Reverses(h, opening, states, actions, v, row, seen, reason, listings);
  }

  lemma RowId(h: Hashes, opening: Ledger, s: Bank, id: string)
    requires HexDigests(h) && BankMachine.Inv(h, opening, s) && id in s.tables.settlements
    ensures s.tables.settlements[id].id == id
  {
    hide BankInv, RequestsOk, StoreOk, WorkersOk;
    FiledUnderItsId(h, opening, s.tables, id);
  }

  lemma SeenLater(t: Tables, t': Tables, sagaId: string, row: Settlement)
    requires OnlyStatuses(t, t') && sagaId in t.sagas
    ensures sagaId in t'.sagas && ReversalOf(t'.sagas[sagaId], row) == ReversalOf(t.sagas[sagaId], row)
  {
    hide ReversalOf;
    assert SameSaga(t.sagas[sagaId], t'.sagas[sagaId]);
    SameReversal(t.sagas[sagaId], t'.sagas[sagaId], row, row);
  }
}
