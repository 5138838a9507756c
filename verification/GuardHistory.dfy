/** The way every request went that executes, moved money, or reports a success. */
module GuardHistory {
  import opened Errors
  import opened LedgerDomain
  import opened LedgerStore
  import opened TransferDomain
  import opened Schema
  import opened Transitions
  import opened BankInvariant
  import opened TransferKeeps
  import opened SettlementSteps
  import opened RequestSteps
  import opened BankMachine
  import opened GuardProtocol
  import opened GuardOutcomes
  import opened TransferFacts

  // ---- The statements that a request has to get through ----

  ghost predicate StepOf(s: Bank, a: Action, r: nat) {
    a.Request? && a.who == r && r in s.requests
  }

  /** It reads its key, and finds no record. */
  ghost predicate FindsFree(s: Bank, a: Action, r: nat) {
    && StepOf(s, a, r) && s.requests[r].phase.Looking? && a.chance.fate.Done?
    && KeyOf(s.requests[r].cmd) !in s.store
  }

  /** Its set-if-absent is done, and it was its record that was set. */
  ghost predicate Acquires(h: Hashes, s: Bank, a: Action, s': Bank, r: nat) {
    && StepOf(s, a, r) && s.requests[r].phase.Acquiring? && a.chance.fate.Done?
    && KeyOf(s.requests[r].cmd) !in s.store && KeyOf(s.requests[r].cmd) in s'.store
    && s'.store[KeyOf(s.requests[r].cmd)] == Record(Processing, Fingerprint(h, s.requests[r].cmd), None)
  }

  /** Fraud and compliance let it pass, and both accounts are wallets. */
  ghost predicate IsCleared(s: Bank, a: Action, r: nat) {
    && StepOf(s, a, r) && s.requests[r].phase.Screening? && a.chance.fate.Done? && a.chance.screening.None?
    && Wallets(s.tables.ledger, s.requests[r].cmd)
  }

  /** Its journal is not in the books before this statement, and is after it. */
  ghost predicate Commits(h: Hashes, s: Bank, a: Action, s': Bank, r: nat)
    requires HexDigests(h)
  {
    && StepOf(s, a, r) && s.requests[r].phase.Posting? && !a.chance.fate.Lost?
    && TransferId(h, KeyOf(s.requests[r].cmd)) !in s.tables.ledger.headers
    && TransferId(h, KeyOf(s.requests[r].cmd)) in s'.tables.ledger.headers
  }

  predicate Reporting(request: RequestSteps.Request) {
    request.phase.Completing? || request.phase.Storing?
        || (request.moved && request.phase.Answered? && request.phase.outcome.Ok?)
  }

  // ---- One statement ----

  lemma GuardStatement(h: Hashes, w: World, request: RequestSteps.Request, chance: Chance)
    requires HexDigests(h) && RequestOk(h, w.tables, request) && !request.phase.Screening? && !request.phase.Posting?
    ensures var store', phase' := GuardStep(h, w.store, request, chance).0, GuardStep(h, w.store, request, chance).1;
            var key := KeyOf(request.cmd);
            && (phase'.Acquiring? ==> request.phase.Looking? && chance.fate.Done? && key !in w.store)
            && (phase'.Waiting? ==> request.phase.Acquiring?)
            && (phase'.Screening? ==>
                  && request.phase.Acquiring? && chance.fate.Done? && key !in w.store && key in store'
                  && store'[key] == Record(Processing, Fingerprint(h, request.cmd), None))
            && !phase'.Posting? && !phase'.Completing? && !phase'.Deleting? && !phase'.Failing?
            && (phase'.Storing? ==> request.phase.Completing?)
            && (phase'.StoringFailure? ==> request.phase.Failing?)
            && (request.moved && phase'.Answered? && phase'.outcome.Ok? ==>
                  request.phase.Storing? || request.phase == phase')
  {
    hide Validate, Fingerprint, KeyOf, DecodeResult, OwnSaga, Committed, PayloadOk, ParseKey;
  }

  /** How a request gets from phase to phase. */
  ghost predicate Advances(h: Hashes, s: Bank, a: Action, s': Bank, r: nat)
    requires HexDigests(h) && r in s.requests && r in s'.requests
  {
    var before, after := s.requests[r], s'.requests[r];
    && after.cmd == before.cmd
    && (before.moved ==> !Executing(before) && (Owns(before) || before.phase.Answered?))
    && (Reporting(after) ==> after.moved)
    && (after.phase.Acquiring? ==> before.phase.Looking? && FindsFree(s, a, r))
    && (after.phase.Waiting? ==> before.phase.Acquiring?)
    && (Owns(after) && !Owns(before) ==> before.phase.Acquiring? && Acquires(h, s, a, s', r) && after.phase.Screening?)
    && (after.phase.Posting? ==> before.phase.Screening? && IsCleared(s, a, r))
    && (after.moved && !before.moved ==> before.phase.Posting? && Commits(h, s, a, s', r))
    && (Reporting(after) && !Reporting(before) ==>
          before.phase.Posting? && Commits(h, s, a, s', r) && a.chance.fate.Done? && !before.moved)
  }

  lemma GuardAdvances(h: Hashes, s: Bank, a: Action, s': Bank, r: nat)
    requires HexDigests(h) && Happens(h, s, a, s') && StepOf(s, a, r) && RequestOk(h, s.tables, s.requests[r])
    requires !s.requests[r].phase.Screening? && !s.requests[r].phase.Posting?
    ensures r in s'.requests && Advances(h, s, a, s', r)
  {
    GuardStatement(h, World(s.tables, s.store), s.requests[r], a.chance);
    hide GuardStep, KeyOf, Fingerprint, Validate, OwnSaga, PayloadOk, Committed, ParseKey, TransferId;
  }

  lemma ScreeningAdvances(h: Hashes, s: Bank, a: Action, s': Bank, r: nat)
    requires HexDigests(h) && Happens(h, s, a, s') && StepOf(s, a, r) && RequestOk(h, s.tables, s.requests[r])
    requires s.requests[r].phase.Screening?
    ensures r in s'.requests && Advances(h, s, a, s', r)
  {
    hide KeyOf, Fingerprint, Validate, OwnSaga, PayloadOk, Committed, ParseKey, TransferId, GuardStep;
  }

  lemma PostingStatement(h: Hashes, w: World, request: RequestSteps.Request, chance: Chance)
    requires HexDigests(h) && Postable(h, w.tables, request, chance) && request.phase.Posting?
    ensures var after := Serve(h, w, request, chance);
            var posted := RequestSteps.Commits(h, w.tables, request.cmd, chance);
            && after.1.cmd == request.cmd && after.0.store == w.store && !after.1.phase.Answered?
            && !after.1.phase.Storing? && !after.1.phase.Posting? && Owns(after.1)
            && !after.1.phase.Screening?
            && after.1.moved == (request.moved || posted)
            && (after.1.phase.Completing? ==> posted && chance.fate.Done?)
            && (posted ==> !chance.fate.Lost?)
            && (posted ==> TransferCommits(h, w.tables, request.cmd, chance.listings, after.0.tables))
  {
    hide Validate, CommitFor, TransferPosted, ResultOf, EncodeResult, KeyOf, Readable;
  }

  lemma JournalIsNew(h: Hashes, t: Tables, cmd: Command, listings: seq<seq<Entry>>, t': Tables)
    requires HexDigests(h) && TransferCommits(h, t, cmd, listings, t')
    ensures TransferId(h, KeyOf(cmd)) !in t.ledger.headers && TransferId(h, KeyOf(cmd)) in t'.ledger.headers
  {
    var b := CommitIsBooking(h, t, cmd, listings, t');
    ValidFromCommits(h, t, cmd, listings, t');
    ValidKey(cmd);
    hide TransferCommits, Validate, CommitFor, ParseKey, TransferId, Accepts, EventMatches, SettlementMatches,
        TransferLines;
  }

  lemma PostingAdvances(h: Hashes, s: Bank, a: Action, s': Bank, r: nat)
    requires HexDigests(h) && Happens(h, s, a, s') && StepOf(s, a, r) && RequestOk(h, s.tables, s.requests[r])
    requires s.requests[r].phase.Posting?
    ensures r in s'.requests && Advances(h, s, a, s', r)
  {
    hide Serve, Postable, RequestSteps.Commits, TransferCommits, KeyOf, TransferId, OwnSaga, Validate, Wallets,
        PayloadOk,
        Committed, Acquires, IsCleared, FindsFree;
    var w, request := World(s.tables, s.store), s.requests[r];
    PostingStatement(h, w, request, a.chance);
    if s'.requests[r].moved && !request.moved {
      JournalIsNew(h, s.tables, request.cmd, a.chance.listings, s'.tables);
    }
  }

  lemma StatementAdvances(h: Hashes, s: Bank, a: Action, s': Bank, r: nat)
    requires HexDigests(h) && Happens(h, s, a, s') && StepOf(s, a, r) && RequestOk(h, s.tables, s.requests[r])
    ensures r in s'.requests && Advances(h, s, a, s', r)
  {
    hide Happens, RequestOk, Advances;
    if s.requests[r].phase.Screening? {
      ScreeningAdvances(h, s, a, s', r);
    } else if s.requests[r].phase.Posting? {
      PostingAdvances(h, s, a, s', r);
    } else {
      GuardAdvances(h, s, a, s', r);
    }
  }

  // ---- Over runs ----

  /** The statements at which a request found its key free, acquired it, was cleared, and committed. */
  datatype Marks = Marks(look: nat, acquire: nat, clear: nat, commit: nat)

  ghost predicate Acquired(h: Hashes, states: seq<Bank>, actions: seq<Action>, r: nat, m: Marks)
    requires |states| == |actions| + 1
  {
    && m.look < m.acquire < |actions| && FindsFree(states[m.look], actions[m.look], r)
    && Acquires(h, states[m.acquire], actions[m.acquire], states[m.acquire + 1], r)
  }

  ghost predicate WasCleared(h: Hashes, states: seq<Bank>, actions: seq<Action>, r: nat, m: Marks)
    requires |states| == |actions| + 1
  {
    && Acquired(h, states, actions, r, m) && m.acquire < m.clear < |actions|
    && IsCleared(states[m.clear], actions[m.clear], r)
  }

  ghost predicate WasCommitted(h: Hashes, states: seq<Bank>, actions: seq<Action>, r: nat, m: Marks)
    requires HexDigests(h) && |states| == |actions| + 1
  {
    && WasCleared(h, states, actions, r, m) && m.clear < m.commit < |actions|
    && Commits(h, states[m.commit], actions[m.commit], states[m.commit + 1], r)
  }

  /** What lies behind a request in each phase. */
  ghost predicate Behind(h: Hashes, states: seq<Bank>, actions: seq<Action>, r: nat, m: Marks)
    requires HexDigests(h) && |states| == |actions| + 1 && r in states[|actions|].requests
  {
    var request := states[|actions|].requests[r];
    && (request.phase.Acquiring? || request.phase.Waiting? ==>
          m.look < |actions| && FindsFree(states[m.look], actions[m.look], r))
    && (Owns(request) || request.moved ==> Acquired(h, states, actions, r, m))
    && (request.phase.Posting? || Reporting(request) || request.moved ==> WasCleared(h, states, actions, r, m))
    && (request.moved || Reporting(request) ==> WasCommitted(h, states, actions, r, m))
    && (Reporting(request) ==> actions[m.commit].chance.fate.Done?)
  }

  lemma BehindStays(h: Hashes, states: seq<Bank>, actions: seq<Action>, r: nat, m: Marks)
    requires HexDigests(h) && |states| == |actions| + 1 && actions != []
    ensures var before, acts := states[..|actions|], actions[..|actions| - 1];
            && (Acquired(h, before, acts, r, m) ==> Acquired(h, states, actions, r, m))
            && (WasCleared(h, before, acts, r, m) ==> WasCleared(h, states, actions, r, m))
            && (WasCommitted(h, before, acts, r, m) ==> WasCommitted(h, states, actions, r, m) && m.commit < |acts|)
  {
    hide FindsFree, Acquires, IsCleared, Commits;
  }

  lemma NewAcquire(h: Hashes, states: seq<Bank>, actions: seq<Action>, r: nat, m: Marks)
    requires |states| == |actions| + 1 && actions != [] && m.look < |actions| - 1
    requires FindsFree(states[m.look], actions[m.look], r)
    requires Acquires(h, states[|actions| - 1], actions[|actions| - 1], states[|actions|], r)
    ensures Acquired(h, states, actions, r, m.(acquire := |actions| - 1))
  {
    hide FindsFree, Acquires;
  }

  lemma NewClear(h: Hashes, states: seq<Bank>, actions: seq<Action>, r: nat, m: Marks)
    requires |states| == |actions| + 1 && actions != []
    requires Acquired(h, states[..|actions|], actions[..|actions| - 1], r, m)
    requires IsCleared(states[|actions| - 1], actions[|actions| - 1], r)
    ensures var m' := m.(clear := |actions| - 1);
            Acquired(h, states, actions, r, m') && WasCleared(h, states, actions, r, m')
  {
    hide FindsFree, Acquires, IsCleared;
  }

  lemma NewCommit(h: Hashes, states: seq<Bank>, actions: seq<Action>, r: nat, m: Marks)
    requires HexDigests(h) && |states| == |actions| + 1 && actions != []
    requires WasCleared(h, states[..|actions|], actions[..|actions| - 1], r, m)
    requires Commits(h, states[|actions| - 1], actions[|actions| - 1], states[|actions|], r)
    ensures var m' := m.(commit := |actions| - 1);
            && Acquired(h, states, actions, r, m') && WasCleared(h, states, actions, r, m')
            && WasCommitted(h, states, actions, r, m')
  {
    hide FindsFree, Acquires, IsCleared, Commits;
  }

  lemma StepIsBehind(h: Hashes, states: seq<Bank>, actions: seq<Action>, r: nat, m: Marks) returns (m': Marks)
    requires HexDigests(h) && |states| == |actions| + 1 && actions != []
    requires r in states[|actions| - 1].requests && r in states[|actions|].requests
    requires Advances(h, states[|actions| - 1], actions[|actions| - 1], states[|actions|], r)
    requires Behind(h, states[..|actions|], actions[..|actions| - 1], r, m)
    ensures Behind(h, states, actions, r, m')
  {
    hide FindsFree, Acquires, IsCleared, Commits, Acquired, WasCleared, WasCommitted;
    var n := |actions| - 1;
    BehindStays(h, states, actions, r, m);
    var before, after := states[n].requests[r], states[n + 1].requests[r];
    m' := m;
    if after.phase.Acquiring? {
      m' := m.(look := n);
    } else if Owns(after) && !Owns(before) {
      NewAcquire(h, states, actions, r, m);
      m' := m.(acquire := n);
    } else if after.phase.Posting? {
      NewClear(h, states, actions, r, m);
      m' := m.(clear := n);
    } else if after.moved && !before.moved {
      NewCommit(h, states, actions, r, m);
      m' := m.(commit := n);
    }
  }

  lemma OthersLeaveIt(h: Hashes, s: Bank, a: Action, s': Bank, r: nat)
    requires HexDigests(h) && Happens(h, s, a, s') && r in s.requests && !StepOf(s, a, r)
    ensures r in s'.requests && s'.requests[r] == s.requests[r]
  {
    hide Serve, Drive, Possible, Postable;
  }

  lemma UntouchedIsBehind(h: Hashes, states: seq<Bank>, actions: seq<Action>, r: nat, m: Marks)
    requires HexDigests(h) && |states| == |actions| + 1 && actions != []
    requires r in states[|actions| - 1].requests && r in states[|actions|].requests
    requires states[|actions|].requests[r] == states[|actions| - 1].requests[r]
    requires Behind(h, states[..|actions|], actions[..|actions| - 1], r, m)
    ensures Behind(h, states, actions, r, m)
  {
    hide FindsFree, Acquires, IsCleared, Commits, Acquired, WasCleared, WasCommitted;
    BehindStays(h, states, actions, r, m);
  }

  lemma SameRequests(h: Hashes, s: Bank, a: Action, s': Bank)
    requires HexDigests(h) && Happens(h, s, a, s')
    ensures s'.requests.Keys == s.requests.Keys
  {
    hide Serve, Drive, Possible, Postable;
  }

  /**
   * The whole way. In every run, a request that owns a key has read that key and found no record, and has
   * then set its own; one that moved money was let pass by fraud and compliance in between, with both accounts
   * wallets, and it was its own statement that put its journal into the books; and one that reports a success
   * of its own was told that this was done.
   */
  lemma {:induction false} WentThrough(h: Hashes, opening: Ledger, states: seq<Bank>, actions: seq<Action>, r: nat)
    returns (m: Marks)
    requires HexDigests(h) && Run(h, opening, states, actions) && r in states[|actions|].requests
    ensures Behind(h, states, actions, r, m)
  {
    hide Behind, Advances, FindsFree, Acquires, IsCleared, Commits, RequestOk;
    if actions == [] {
      m := Marks(0, 0, 0, 0);
      ArrivedIsBehind(h, opening, states, r, m);
    } else {
      hide Begins, Happens;
      var n := |actions| - 1;
      assert Happens(h, states[n], actions[n], states[n + 1]);
      SameRequests(h, states[n], actions[n], states[n + 1]);
      m := WentThrough(h, opening, states[..n + 1], actions[..n], r);
      if StepOf(states[n], actions[n], r) {
        RequestIsOk(h, opening, states[..n + 1], actions[..n], r);
        StatementAdvances(h, states[n], actions[n], states[n + 1], r);
        m := StepIsBehind(h, states, actions, r, m);
      } else {
        OthersLeaveIt(h, states[n], actions[n], states[n + 1], r);
        UntouchedIsBehind(h, states, actions, r, m);
      }
    }
  }

  lemma RequestIsOk(h: Hashes, opening: Ledger, states: seq<Bank>, actions: seq<Action>, r: nat)
    requires HexDigests(h) && Run(h, opening, states, actions) && r in states[|actions|].requests
    ensures RequestOk(h, states[|actions|].tables, states[|actions|].requests[r])
  {
    RunKeepsInv(h, opening, states, actions);
    hide Run, BankInv, StoreOk, WorkersOk, RequestOk;
  }

  lemma ArrivedIsBehind(h: Hashes, opening: Ledger, states: seq<Bank>, r: nat, m: Marks)
    requires HexDigests(h) && Run(h, opening, states, []) && r in states[0].requests
    ensures Behind(h, states, [], r, m)
  {
    hide Opening, FindsFree, Acquires, IsCleared, Commits, Acquired, WasCleared, WasCommitted;
  }

  // ---- A success is stored ----

  /** An owner, or answered; and if answered with a success, then with its record stored. */
  ghost predicate Stored(h: Hashes, store: Store, request: RequestSteps.Request)
    requires HexDigests(h)
  {
    && (Owns(request) || request.phase.Answered?)
    && (request.phase.Answered? && request.phase.outcome.Ok? ==>
          KeyOf(request.cmd) in store && store[KeyOf(request.cmd)] == CompletedFor(h, request.cmd))
  }

  lemma StepStores(h: Hashes, w: World, request: RequestSteps.Request, chance: Chance)
    requires HexDigests(h) && Postable(h, w.tables, request, chance)
    requires RequestOk(h, w.tables, request) && HoldsOwn(h, w.store, request) && Stored(h, w.store, request)
    ensures Stored(h, Serve(h, w, request, chance).0.store, Serve(h, w, request, chance).1)
  {
    hide CommitFor, TransferPosted, Validate, Fingerprint, ParseKey, KeyOf, DecodeResult, Readable, ResultOf,
        OwnSaga, Committed;
  }

  /** A key whose owner has stored its success is owned by nobody. */
  lemma StoredIsUnowned(h: Hashes, s: Bank, r: nat, other: nat, key: string)
    requires HexDigests(h) && KeyInv(h, s, key) && r in s.requests && KeyOf(s.requests[r].cmd) == key
    requires Stored(h, s.store, s.requests[r]) && s.requests[r].phase.Answered? && s.requests[r].phase.outcome.Ok?
    requires other in s.requests && KeyOf(s.requests[other].cmd) == key
    ensures !Owns(s.requests[other]) && key in s.store
  {
    hide KeyOf, Fingerprint, ResultOf, EncodeResult, OwnPayload;
    assert OwnsKey(s.requests[other], key) <==> Owns(s.requests[other]);
  }

  lemma ActionStores(h: Hashes, opening: Ledger, s: Bank, a: Action, s': Bank, r: nat, key: string)
    requires HexDigests(h) && BankMachine.Inv(h, opening, s) && KeyInv(h, s, key) && Happens(h, s, a, s')
    requires a != Expire(key)
    requires r in s.requests && KeyOf(s.requests[r].cmd) == key && Stored(h, s.store, s.requests[r])
    ensures r in s'.requests && KeyOf(s'.requests[r].cmd) == key && Stored(h, s'.store, s'.requests[r])
  {
    hide Serve, BankInv, StoreOk, KeyOf, Drive, Possible, Postable, RequestOk, Remembers, CompletedFor, HoldsOwn, Owns;
    if a.Request? {
      var w, mine := World(s.tables, s.store), s.requests[a.who];
      OnlyOwnersWrite(h, w, mine, a.chance);
      if a.who == r {
        OwnerOrNot(h, s, r, key);
        StepStores(h, w, mine, a.chance);
      } else if s.requests[r].phase.Answered? && s.requests[r].phase.outcome.Ok? && KeyOf(mine.cmd) == key {
        StoredIsUnowned(h, s, r, a.who, key);
      }
    }
  }

  /**
   * No success without its record. Whatever becomes of statements and commits: a request that acquired its
   * key and is answered with a success has left the key COMPLETED with that result, for as long as the record
   * does not expire.
   */
  lemma {:induction false} SuccessIsStored(h: Hashes, opening: Ledger, states: seq<Bank>, actions: seq<Action>, i: nat,
      r: nat, key: string)
    requires HexDigests(h) && Run(h, opening, states, actions) && i <= |actions|
    requires Guarded(states[..i + 1], actions[..i], key) && KeptFrom(actions, i, key)
    requires r in states[i].requests && OwnsKey(states[i].requests[r], key)
    ensures var s := states[|actions|];
            r in s.requests && KeyOf(s.requests[r].cmd) == key && Stored(h, s.store, s.requests[r])
    decreases |actions|
  {
    hide Begins, Happens, KeyInv, BankMachine.Inv, Untimely, KeyOf, CompletedFor;
    if i < |actions| {
      var n := |actions| - 1;
      assert states[..n + 1][..i + 1] == states[..i + 1] && actions[..n][..i] == actions[..i];
      SuccessIsStored(h, opening, states[..n + 1], actions[..n], i, r, key);
      GuardedUpTo(states, actions, i, n, key);
      RunKeepsInv(h, opening, states[..n + 1], actions[..n]);
      RunKeepsKey(h, opening, states[..n + 1], actions[..n], key);
      assert Happens(h, states[n], actions[n], states[n + 1]);
      ActionStores(h, opening, states[n], actions[n], states[n + 1], r, key);
    }
  }
}
