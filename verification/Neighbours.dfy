/** Who may be at work beside a batch or an execution: anybody in the bank, for as long as they like. */
module Neighbours {
  import opened Errors
  import opened LedgerDomain
  import opened LedgerStore
  import opened TransferDomain
  import opened Schema
  import opened Transitions
  import opened BankInvariant
  import opened TransferKeeps
  import opened SettlementSteps
  import opened RequestSteps
  import opened BankMachine
  import opened BankTheorems
  import opened SettlementAgreement
  import BankRuns
  import BankWitness
  import LedgerRepository
  import SettlementProcessor
  import TransferService

  /** Actions of the bank from any state that satisfies its invariant. */
  ghost predicate Meanwhile(h: Hashes, opening: Ledger, states: seq<Bank>, actions: seq<Action>)
    requires HexDigests(h)
  {
    && |states| == |actions| + 1 && BankMachine.Inv(h, opening, states[0])
    && forall i :: 0 <= i < |actions| ==> Happens(h, states[i], actions[i], states[i + 1])
  }

  /** No settlement worker acts: requests, relays, new accounts and expiry only. */
  predicate WithoutWorkers(actions: seq<Action>) {
    forall i :: 0 <= i < |actions| ==> !actions[i].Worker? && !actions[i].Crash?
  }

  lemma {:induction false} MeanwhileKeeps(h: Hashes, opening: Ledger, states: seq<Bank>, actions: seq<Action>)
    requires HexDigests(h) && Meanwhile(h, opening, states, actions)
    ensures BankMachine.Inv(h, opening, states[|actions|]) && RowsStay(states[0].tables, states[|actions|].tables)
  {
    hide BankMachine.Inv, Happens, RowsStay;
    if actions == [] {
      UntouchedKeepsRows(states[0].tables);
    } else {
      var n := |actions| - 1;
      MeanwhileKeeps(h, opening, states[..n + 1], actions[..n]);
      ActionKeepsInv(h, opening, states[n], actions[n], states[n + 1]);
      StepKeepsRows(h, opening, states[n], actions[n], states[n + 1]);
      RowsStayTransitive(states[0].tables, states[n].tables, states[n + 1].tables);
    }
  }

  /** One worker's row in hand fits afterwards as before. */
  lemma {:induction false} MeanwhileConsistent(h: Hashes, opening: Ledger, states: seq<Bank>, actions: seq<Action>,
      stage: Stage)
    requires HexDigests(h) && Meanwhile(h, opening, states, actions) && WithoutWorkers(actions)
    requires Remembers(states[0].tables, stage) && Consistent(states[0].tables, stage)
    ensures Consistent(states[|actions|].tables, stage)
  {
    hide BankMachine.Inv, Happens, RowsStay, Remembers, TeamOk, StandingsKept;
    if actions != [] {
      var n := |actions| - 1;
      MeanwhileConsistent(h, opening, states[..n + 1], actions[..n], stage);
      MeanwhileKeeps(h, opening, states[..n + 1], actions[..n]);
      RemembersStays(states[0].tables, states[n].tables, stage);
      OthersKeepStandings(h, opening, states[n], actions[n], states[n + 1]);
      StandingsKeepTeam(states[n].tables, states[n + 1].tables, map[0 := stage]);
    }
  }

  // ---- Beside a batch ----

  /** Some actions of the bank lead from these tables to those. */
  ghost predicate Leads(h: Hashes, opening: Ledger, t: Tables, t': Tables, states: seq<Bank>, actions: seq<Action>)
    requires HexDigests(h)
  {
    Meanwhile(h, opening, states, actions) && states[0].tables == t && states[|actions|].tables == t'
  }

  ghost predicate Reaches(h: Hashes, opening: Ledger, t: Tables, t': Tables)
    requires HexDigests(h)
  {
    exists states, actions :: Leads(h, opening, t, t', states, actions)
  }

  /** Before each statement of the batch, the bank does what it likes. */
  ghost predicate BankBeside(h: Hashes, opening: Ledger, o: SettlementProcessor.Outside)
    requires HexDigests(h)
  {
    forall n: nat, t: Tables :: BankInv(h, opening, t) ==> Reaches(h, opening, t, o.others(n, t))
  }

  ghost predicate Undisturbed(h: Hashes, opening: Ledger, t: Tables, t': Tables)
    requires HexDigests(h)
  {
    exists states, actions :: Leads(h, opening, t, t', states, actions) && WithoutWorkers(actions)
  }

  lemma UndisturbedReaches(h: Hashes, opening: Ledger, t: Tables, t': Tables)
    requires HexDigests(h) && Undisturbed(h, opening, t, t')
    ensures Reaches(h, opening, t, t')
  {
    hide Leads;
  }

  ghost predicate RequestsBeside(h: Hashes, opening: Ledger, o: SettlementProcessor.Outside)
    requires HexDigests(h)
  {
    forall n: nat, t: Tables :: BankInv(h, opening, t) ==> Undisturbed(h, opening, t, o.others(n, t))
  }

  /** The whole bank, other settlement workers included, is polite to a batch. */
  lemma BankIsPolite(h: Hashes, opening: Ledger, o: SettlementProcessor.Outside)
    requires HexDigests(h) && BankBeside(h, opening, o)
    ensures SettlementProcessor.Polite(h, opening, o)
  {
    hide BankInv, Happens, RowsStay;
    forall n: nat, t: Tables | BankInv(h, opening, t)
      ensures BankInv(h, opening, o.others(n, t)) && RowsStay(t, o.others(n, t))
    {
      var states, actions :| Leads(h, opening, t, o.others(n, t), states, actions);
      MeanwhileKeeps(h, opening, states, actions);
    }
  }

  /** And all of it except other settlement workers, committing transfers included, is considerate. */
  lemma RequestsAreConsiderate(h: Hashes, opening: Ledger, o: SettlementProcessor.Outside)
    requires HexDigests(h) && RequestsBeside(h, opening, o)
    ensures SettlementProcessor.Considerate(h, opening, o)
  {
    hide BankInv, Happens, Remembers, Consistent, BankMachine.Inv;
    forall n: nat, t: Tables, stage: Stage | BankInv(h, opening, t) && Remembers(t, stage) && Consistent(t, stage)
      ensures Consistent(o.others(n, t), stage)
    {
      var states, actions :| Leads(h, opening, t, o.others(n, t), states, actions) && WithoutWorkers(actions);
      MeanwhileConsistent(h, opening, states, actions, stage);
    }
  }

  /** So transfers may commit and accounts open all through a batch, and settlements and sagas still agree. */
  lemma BatchAgreesBesideRequests(h: Hashes, opening: Ledger, o: SettlementProcessor.Outside, t: Tables,
      trail: seq<Choice>)
    requires HexDigests(h) && RequestsBeside(h, opening, o) && BankInv(h, opening, t) && Consistent(t, Resting)
    requires SettlementProcessor.Played(o, t, trail).Some? && SettlementProcessor.AllFaithful(o, t, trail)
    ensures var s := SettlementProcessor.Played(o, t, trail).value;
            BankInv(h, opening, s.0) && Consistent(s.0, s.1)
  {
    hide BankInv, Consistent, Undisturbed, Reaches, SettlementProcessor.Played, SettlementProcessor.AllFaithful,
        SettlementProcessor.Polite, SettlementProcessor.Considerate;
    forall n: nat, t: Tables | BankInv(h, opening, t)
      ensures Reaches(h, opening, t, o.others(n, t))
    {
      UndisturbedReaches(h, opening, t, o.others(n, t));
    }
    BankIsPolite(h, opening, o);
    RequestsAreConsiderate(h, opening, o);
    SettlementProcessor.BatchKeepsInv(h, opening, o, t, trail);
  }

  lemma NobodyBeside(h: Hashes, opening: Ledger, t: Tables)
    requires HexDigests(h) && BankInv(h, opening, t)
    ensures Undisturbed(h, opening, t, t)
  {
    hide BankInv;
    assert Leads(h, opening, t, t, [Bank(t, map[], map[], map[])], []) && WithoutWorkers([]);
  }

  lemma SameWorkers(h: Hashes, s: Bank, a: Action, s': Bank)
    requires HexDigests(h) && Happens(h, s, a, s')
    ensures s'.workers.Keys == s.workers.Keys && (a.Worker? || a.Crash? ==> s.workers.Keys != {})
  {
    hide Drive, Serve, Possible, Postable;
    assert a.Worker? ==> a.who in s.workers.Keys;
    assert a.Crash? ==> a.worker in s.workers.Keys;
  }

  /** A run of a bank without workers, as a stretch of one. */
  lemma {:induction false} RunMeanwhile(h: Hashes, opening: Ledger, states: seq<Bank>, actions: seq<Action>)
    requires HexDigests(h) && Run(h, opening, states, actions) && states[|actions|].workers.Keys == {}
    ensures Meanwhile(h, opening, states, actions) && WithoutWorkers(actions)
    ensures states[0].tables == BankWitness.Empty(opening)
  {
    hide Happens, BankMachine.Inv, Opening;
    BeginningIsSound(h, opening, states[0]);
    if actions != [] {
      var n := |actions| - 1;
      SameWorkers(h, states[n], actions[n], states[n + 1]);
      RunMeanwhile(h, opening, states[..n + 1], actions[..n]);
    }
  }

  lemma LedThere(h: Hashes, opening: Ledger, states: seq<Bank>, actions: seq<Action>)
    requires HexDigests(h) && Meanwhile(h, opening, states, actions)
    ensures Leads(h, opening, states[0].tables, states[|actions|].tables, states, actions)
  {
    hide Happens, BankMachine.Inv;
  }

  lemma TransferLeavesRow(h: Hashes, t: Tables, cmd: Command, listings: seq<seq<Entry>>, t': Tables)
    requires HexDigests(h) && TransferCommits(h, t, cmd, listings, t')
    ensures t'.settlements != map[]
  {
    var b := CommitIsBooking(h, t, cmd, listings, t');
    hide Coherent, TransferCommits, CommitFor, Accepts;
    assert b.settlement.id in t'.settlements;
  }

  /** Such a batch may find a transfer committed that was not there when it began. */
  lemma TransferBesideBatch(h: Hashes, opening: Ledger, cmd: Command, limit: nat)
    returns (o: SettlementProcessor.Outside, last: Bank)
    requires HexDigests(h) && BankWitness.Covered(h, opening, cmd)
    ensures RequestsBeside(h, opening, o) && SettlementProcessor.Filing(o) && o.limit == limit
    ensures o.others(1, BankWitness.Empty(opening)) == last.tables && last.tables.settlements != map[]
  {
    hide BankInv, Leads, BankWitness.Covered, Run, BankRuns.Smooth, TransferCommits, CommitFor, Meanwhile,
        WithoutWorkers, BankMachine.Inv;
    var states, actions;
    states, actions, last := BankWitness.TransferRuns(h, opening, cmd, map[]);
    var start, tables := BankWitness.Empty(opening), last.tables;
    RunMeanwhile(h, opening, states, actions);
    TransferLeavesRow(h, start, cmd, BankWitness.Listed(opening, CommitFor(h, cmd).value.tx), tables);
    assert Leads(h, opening, start, tables, states, actions) by { LedThere(h, opening, states, actions); }
    o := SettlementProcessor.Outside((n: nat, t: Tables) => if t == start then tables else t, n => Done,
      id => RailError, id => false, limit);
    assert Undisturbed(h, opening, start, tables);
    forall t | BankInv(h, opening, t)
      ensures Undisturbed(h, opening, t, t)
    {
      NobodyBeside(h, opening, t);
    }
    RunKeepsInv(h, opening, states, actions);
    AccountsFiled(h, opening, last);
  }

  lemma AccountsFiled(h: Hashes, opening: Ledger, s: Bank)
    requires HexDigests(h) && BankMachine.Inv(h, opening, s)
    ensures LedgerRepository.FiledById(s.tables.ledger)
  {
    hide StoreOk, RequestsOk, WorkersOk, AllBundled, OneSagaPerJournal, NothingElse, BalancesExplained;
  }

  // ---- Beside an execution ----

  ghost predicate LeadsWorld(h: Hashes, opening: Ledger, w: World, w': World, states: seq<Bank>, actions: seq<Action>)
    requires HexDigests(h)
  {
    && Meanwhile(h, opening, states, actions) && World(states[0].tables, states[0].store) == w
    && World(states[|actions|].tables, states[|actions|].store) == w'
  }

  /** Before each statement of the execution, the bank does what it likes to the tables and the records. */
  ghost predicate BankBesideExecution(h: Hashes, opening: Ledger, o: TransferService.Outside)
    requires HexDigests(h)
  {
    forall n: nat, w: World :: BankInv(h, opening, w.tables) && StoreOk(h, w) ==>
      exists states, actions :: LeadsWorld(h, opening, w, o.others(n, w), states, actions)
  }

  /** The whole bank is polite to an execution. */
  lemma BankIsPoliteToExecutions(h: Hashes, opening: Ledger, o: TransferService.Outside)
    requires HexDigests(h) && BankBesideExecution(h, opening, o)
    ensures TransferService.Polite(h, opening, o)
  {
    hide BankInv, Happens, RowsStay, StoreOk, RequestsOk, WorkersOk;
    forall n: nat, w: World | BankInv(h, opening, w.tables) && StoreOk(h, w)
      ensures BankInv(h, opening, o.others(n, w).tables) && StoreOk(h, o.others(n, w))
              && RowsStay(w.tables, o.others(n, w).tables)
    {
      var states, actions :| LeadsWorld(h, opening, w, o.others(n, w), states, actions);
      MeanwhileKeeps(h, opening, states, actions);
    }
  }
}
