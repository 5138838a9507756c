/** What the idempotency guard adds for a key whose record does not expire while a request owns it. */
module GuardProtocol {
  import opened Errors
  import opened LedgerStore
  import opened TransferDomain
  import opened Schema
  import opened Transitions
  import opened BankInvariant
  import opened SettlementSteps
  import opened RequestSteps
  import opened BankMachine
  import opened BankTheorems

  /** Between acquiring the key and the last word about it. */
  predicate Owns(request: RequestSteps.Request) {
    match request.phase
    case Screening => true
    case Posting => true
    case Completing(_) => true
    case Storing(_, _) => true
    case Failing(_) => true
    case StoringFailure(_, _) => true
    case Deleting(_) => true
    case _ => false
  }

  /** Inside the function that the guard protects. */
  predicate Executing(request: RequestSteps.Request) {
    request.phase.Screening? || request.phase.Posting?
  }

  /** The one record an owner may find: its own, still processing. */
  predicate HoldsKey(h: Hashes, store: Store, request: RequestSteps.Request) {
    var key := KeyOf(request.cmd);
    && key in store && store[key] == Record(Processing, Fingerprint(h, request.cmd), None)
    && (request.phase.Storing? ==> request.phase.read == store[key])
    && (request.phase.StoringFailure? ==> request.phase.read == store[key])
  }

  predicate OwnPayload(h: Hashes, request: RequestSteps.Request)
    requires HexDigests(h)
  {
    var payload := EncodeResult(ResultOf(h, request.cmd, KeyOf(request.cmd)));
    && (request.phase.Completing? ==> request.phase.payload == payload)
    && (request.phase.Storing? ==> request.phase.payload == payload)
  }

  predicate OwnsKey(request: RequestSteps.Request, key: string) {
    KeyOf(request.cmd) == key && Owns(request)
  }

  ghost predicate OwnedIn(s: Bank, key: string) {
    exists r :: r in s.requests && OwnsKey(s.requests[r], key)
  }

  /** The expiry that the guard cannot survive: of a record whose owner is still at work. */
  ghost predicate Untimely(s: Bank, a: Action, key: string) {
    a == Expire(key) && OwnedIn(s, key)
  }

  /** The record of this key never expires mid-request; at any other moment it may, and so may all others. */
  ghost predicate Guarded(states: seq<Bank>, actions: seq<Action>, key: string)
    requires |states| == |actions| + 1
  {
    forall i :: 0 <= i < |actions| ==> !Untimely(states[i], actions[i], key)
  }

  /** What an owner may rely on. */
  predicate HoldsOwn(h: Hashes, store: Store, request: RequestSteps.Request)
    requires HexDigests(h)
  {
    Owns(request) ==> HoldsKey(h, store, request) && OwnPayload(h, request)
  }

  /** One key has at most one owner, and that owner finds its own record. */
  ghost predicate KeyInv(h: Hashes, s: Bank, key: string)
    requires HexDigests(h)
  {
    && (forall r :: r in s.requests && OwnsKey(s.requests[r], key) ==> HoldsOwn(h, s.store, s.requests[r]))
    && (forall r, r' :: r in s.requests && r' in s.requests ==>
          OwnsKey(s.requests[r], key) && OwnsKey(s.requests[r'], key) ==> r == r')
  }

  /** An acquired or finished key is only ever written or deleted by its owner. */
  lemma OnlyOwnersWrite(h: Hashes, w: World, request: RequestSteps.Request, chance: Chance)
    requires HexDigests(h) && Postable(h, w.tables, request, chance)
    ensures var after := Serve(h, w, request, chance);
            && (forall key :: key != KeyOf(request.cmd) ==>
                  (key in w.store <==> key in after.0.store) && (key in w.store ==> after.0.store[key] == w.store[key]))
            && (!Owns(request) && KeyOf(request.cmd) in w.store ==> after.0.store == w.store && !Owns(after.1))
            && after.1.cmd == request.cmd
            && (after.1.moved ==> request.moved || request.phase.Posting?)
  {
    hide CommitFor, TransferPosted, Validate, Fingerprint, ParseKey, KeyOf, DecodeResult, Readable;
  }

  /** A request's own step leaves it with its record for as long as it owns the key. */
  lemma StepKeepsOwn(h: Hashes, w: World, request: RequestSteps.Request, chance: Chance)
    requires HexDigests(h) && Postable(h, w.tables, request, chance)
    requires RequestOk(h, w.tables, request) && HoldsOwn(h, w.store, request)
    ensures HoldsOwn(h, Serve(h, w, request, chance).0.store, Serve(h, w, request, chance).1)
  {
    hide CommitFor, TransferPosted, Validate, Fingerprint, ParseKey, KeyOf, DecodeResult, Readable, ResultOf,
        PayloadOk, OwnSaga, Committed;
  }

  lemma RequestKeepsKey(h: Hashes, opening: Ledger, s: Bank, a: Action, s': Bank, key: string)
    requires HexDigests(h) && BankMachine.Inv(h, opening, s) && KeyInv(h, s, key) && Happens(h, s, a, s') && a.Request?
    ensures KeyInv(h, s', key)
  {
    hide Serve, BankInv, StoreOk, Postable, RequestOk, Remembers, KeyOf, Fingerprint, OwnPayload;
    var w, mine := World(s.tables, s.store), s.requests[a.who];
    assert RequestOk(h, s.tables, mine);
    OnlyOwnersWrite(h, w, mine, a.chance);
    if Owns(mine) ==> HoldsOwn(h, s.store, mine) {
      StepKeepsOwn(h, w, mine, a.chance);
    }
  }

  /**
   * The exact condition. An action keeps a key with one owner that finds its own record, if and only
   * if it is not the expiry of that record while it is owned.
   */
  lemma KeyKeptIffTimely(h: Hashes, opening: Ledger, s: Bank, a: Action, s': Bank, key: string)
    requires HexDigests(h) && BankMachine.Inv(h, opening, s) && KeyInv(h, s, key) && Happens(h, s, a, s')
    ensures KeyInv(h, s', key) <==> !Untimely(s, a, key)
  {
    hide BankMachine.Inv, Drive, Serve, Possible, Postable, KeyOf;
    if a.Request? {
      RequestKeepsKey(h, opening, s, a, s', key);
    } else if a.Expire? {
      assert s'.store == s.store - {a.key};
    }
  }

  lemma {:induction false} RunKeepsKey(h: Hashes, opening: Ledger, states: seq<Bank>, actions: seq<Action>, key: string)
    requires HexDigests(h) && Run(h, opening, states, actions) && Guarded(states, actions, key)
    ensures KeyInv(h, states[|actions|], key)
  {
    if actions == [] {
      hide KeyOf;
    } else {
      hide Begins, Happens, KeyInv, BankMachine.Inv, Untimely;
      var n := |actions| - 1;
      RunKeepsKey(h, opening, states[..n + 1], actions[..n], key);
      RunKeepsInv(h, opening, states[..n + 1], actions[..n]);
      KeyKeptIffTimely(h, opening, states[n], actions[n], states[n + 1], key);
    }
  }

  /** Mutual exclusion: at most one request per key is inside the protected function. */
  lemma MutualExclusion(h: Hashes, opening: Ledger, states: seq<Bank>, actions: seq<Action>, key: string, r: nat,
      r': nat)
    requires HexDigests(h) && Run(h, opening, states, actions) && Guarded(states, actions, key)
    requires r in states[|actions|].requests && r' in states[|actions|].requests
    requires KeyOf(states[|actions|].requests[r].cmd) == KeyOf(states[|actions|].requests[r'].cmd) == key
    ensures Executing(states[|actions|].requests[r]) && Executing(states[|actions|].requests[r']) ==> r == r'
  {
    hide Begins, Happens, KeyOf, Guarded, HoldsOwn;
    RunKeepsKey(h, opening, states, actions, key);
  }

  /** No lost write: what Complete is about to overwrite is exactly what it read. */
  lemma CompleteLosesNothing(h: Hashes, opening: Ledger, states: seq<Bank>, actions: seq<Action>, r: nat)
    requires HexDigests(h) && Run(h, opening, states, actions)
    requires r in states[|actions|].requests && states[|actions|].requests[r].phase.Storing?
    requires Guarded(states, actions, KeyOf(states[|actions|].requests[r].cmd))
    ensures var s, request := states[|actions|], states[|actions|].requests[r];
            && KeyOf(request.cmd) in s.store && s.store[KeyOf(request.cmd)] == request.phase.read
            && request.phase.read == Record(Processing, Fingerprint(h, request.cmd), None)
  {
    hide Begins, Happens, KeyOf, Fingerprint, Guarded, OwnPayload;
    RunKeepsKey(h, opening, states, actions, KeyOf(states[|actions|].requests[r].cmd));
    assert OwnsKey(states[|actions|].requests[r], KeyOf(states[|actions|].requests[r].cmd));
  }

  // ---- Exclusion fails exactly on an untimely expiry ----

  /** A request that has looked, found nothing, and can now acquire the key. */
  ghost predicate CanEnter(h: Hashes, s: Bank, r: nat)
    requires HexDigests(h)
  {
    exists chance, after :: Happens(h, s, BankMachine.Request(r, chance), after) && Executing(after.requests[r])
  }

  lemma EntersIfFree(h: Hashes, s: Bank, r: nat)
    requires HexDigests(h) && r in s.requests && s.requests[r].phase.Acquiring?
    ensures CanEnter(h, s, r) <==> KeyOf(s.requests[r].cmd) !in s.store
  {
    hide KeyOf, Fingerprint, CommitFor, Validate, TransferPosted;
    var chance := Chance(Done, None, []);
    var after := Serve(h, World(s.tables, s.store), s.requests[r], chance);
    var next := s.(tables := after.0.tables, store := after.0.store, requests := s.requests[r := after.1]);
    assert Happens(h, s, BankMachine.Request(r, chance), next);
  }

  /**
   * At most one execution per key is kept exactly by timely expiry: while one request executes and
   * another waits to acquire the same key, an action of anybody else lets the second one in if and
   * only if it expires the record of that key.
   */
  lemma SecondEntersIffExpired(h: Hashes, s: Bank, a: Action, s': Bank, r: nat, r': nat)
    requires HexDigests(h) && r in s.requests && r' in s.requests
    requires KeyOf(s.requests[r].cmd) == KeyOf(s.requests[r'].cmd)
    requires KeyInv(h, s, KeyOf(s.requests[r].cmd)) && Executing(s.requests[r]) && s.requests[r'].phase.Acquiring?
    requires Happens(h, s, a, s') && (a.Request? ==> a.who != r && a.who != r')
    ensures r in s'.requests && Executing(s'.requests[r])
    ensures CanEnter(h, s', r') <==> a == Expire(KeyOf(s.requests[r].cmd))
  {
    hide Serve, KeyOf, Fingerprint, Drive, Possible, Postable, OwnPayload, CanEnter;
    var key := KeyOf(s.requests[r].cmd);
    assert OwnsKey(s.requests[r], key) && key in s.store;
    if a.Request? {
      OnlyOwnersWrite(h, World(s.tables, s.store), s.requests[a.who], a.chance);
      assert !OwnsKey(s.requests[a.who], key);
    }
    EntersIfFree(h, s', r');
  }

  // ---- A key that moved money, or that failed, stays taken ----

  /** This key's record does not expire from the i-th action on. */
  ghost predicate KeptFrom(actions: seq<Action>, i: nat, key: string) {
    forall j :: i <= j < |actions| ==> actions[j] != Expire(key)
  }

  /** Taken by this request: owned, or answered and left in the store with no owner. */
  ghost predicate Taken(h: Hashes, s: Bank, r: nat, key: string) {
    && r in s.requests && KeyOf(s.requests[r].cmd) == key && key in s.store
    && (Owns(s.requests[r]) || s.requests[r].phase.Answered?)
    && (forall r' :: r' in s.requests && r' != r ==> !OwnsKey(s.requests[r'], key))
  }

  lemma OwnedIsTaken(h: Hashes, s: Bank, r: nat, key: string)
    requires HexDigests(h) && KeyInv(h, s, key) && r in s.requests && OwnsKey(s.requests[r], key)
    ensures Taken(h, s, r, key)
  {
    hide KeyOf, Fingerprint, OwnPayload;
  }

  lemma OwnStepStaysTaken(h: Hashes, w: World, request: RequestSteps.Request, chance: Chance)
    requires HexDigests(h) && Postable(h, w.tables, request, chance) && KeyOf(request.cmd) in w.store
    requires Owns(request) || request.phase.Answered?
    ensures var after := Serve(h, w, request, chance);
            && (Owns(after.1) || after.1.phase.Answered?)
            && (KeyOf(request.cmd) in after.0.store || after.1.released)
            && (request.released ==> after.1.released)
  {
    hide CommitFor, TransferPosted, Validate, Fingerprint, ParseKey, KeyOf, DecodeResult, Readable;
  }

  lemma TakenStays(h: Hashes, s: Bank, a: Action, s': Bank, r: nat, key: string)
    requires HexDigests(h) && Happens(h, s, a, s') && Taken(h, s, r, key) && a != Expire(key)
    ensures r in s'.requests && (s'.requests[r].released || Taken(h, s', r, key))
  {
    hide Serve, KeyOf, Fingerprint, Drive, Possible, Postable;
    if a.Request? {
      var w, mine := World(s.tables, s.store), s.requests[a.who];
      OnlyOwnersWrite(h, w, mine, a.chance);
      if a.who == r {
        OwnStepStaysTaken(h, w, mine, a.chance);
      }
    }
  }

  lemma ReleasedForGood(h: Hashes, s: Bank, a: Action, s': Bank, r: nat)
    requires HexDigests(h) && Happens(h, s, a, s') && r in s.requests && s.requests[r].released
    ensures r in s'.requests && s'.requests[r].released
  {
    hide CommitFor, TransferPosted, GuardStep, Readable, Validate, Drive, Possible;
  }

  /** From the moment a request owns its key, the key stays taken until the request itself gives it back. */
  lemma {:induction false} OwnedKeepsKey(h: Hashes, opening: Ledger, states: seq<Bank>, actions: seq<Action>, i: nat,
      r: nat, key: string)
    requires HexDigests(h) && Run(h, opening, states, actions) && i <= |actions|
    requires Guarded(states[..i + 1], actions[..i], key) && KeptFrom(actions, i, key)
    requires r in states[i].requests && OwnsKey(states[i].requests[r], key)
    ensures r in states[|actions|].requests
    ensures (states[|actions|].requests[r].released || Taken(h, states[|actions|], r, key))
    decreases |actions|
  {
    hide Begins, Happens, KeyInv, Taken, OwnsKey, Untimely;
    if i == |actions| {
      RunKeepsKey(h, opening, states[..i + 1], actions[..i], key);
      OwnedIsTaken(h, states[i], r, key);
    } else {
      var n := |actions| - 1;
      assert states[..n + 1][..i + 1] == states[..i + 1] && actions[..n][..i] == actions[..i];
      OwnedKeepsKey(h, opening, states[..n + 1], actions[..n], i, r, key);
      if states[n].requests[r].released {
        ReleasedForGood(h, states[n], actions[n], states[n + 1], r);
      } else {
        TakenStays(h, states[n], actions[n], states[n + 1], r, key);
      }
    }
  }

  lemma MoverOwns(h: Hashes, s: Bank, a: Action, s': Bank, r: nat)
    requires HexDigests(h) && Happens(h, s, a, s') && r in s.requests && !s.requests[r].moved
    requires r in s'.requests && s'.requests[r].moved
    ensures Owns(s.requests[r]) && a.Request? && a.who == r && s'.requests[r].cmd == s.requests[r].cmd
  {
    hide CommitFor, TransferPosted, GuardStep, Readable, Validate, Drive, Possible;
  }

  /**
   * Money that moved keeps its key. If the key's record did not expire mid-request before the move,
   * and does not expire after it, then after the move the key is never free and nobody else executes.
   */
  lemma MovedKeepsKey(h: Hashes, opening: Ledger, states: seq<Bank>, actions: seq<Action>, m: nat, r: nat, r': nat)
    requires HexDigests(h) && Run(h, opening, states, actions) && m < |actions|
    requires r in states[m].requests && !states[m].requests[r].moved
    requires r in states[m + 1].requests && states[m + 1].requests[r].moved
    requires var key := KeyOf(states[m].requests[r].cmd);
             Guarded(states[..m + 1], actions[..m], key) && KeptFrom(actions, m + 1, key)
    ensures var s, key := states[|actions|], KeyOf(states[m].requests[r].cmd);
            && key in s.store
            && (r' in s.requests && r' != r && KeyOf(s.requests[r'].cmd) == key ==> !Executing(s.requests[r']))
  {
    hide Begins, Happens, KeyInv, KeyOf, Untimely;
    var key := KeyOf(states[m].requests[r].cmd);
    assert Happens(h, states[m], actions[m], states[m + 1]);
    MoverOwns(h, states[m], actions[m], states[m + 1], r);
    OwnedKeepsKey(h, opening, states, actions, m, r, key);
    MovedForGood(h, opening, states, actions, r, m + 1);
    MovedNotReleased(h, opening, states, actions, r);
  }

  lemma MovedNotReleased(h: Hashes, opening: Ledger, states: seq<Bank>, actions: seq<Action>, r: nat)
    requires HexDigests(h) && Run(h, opening, states, actions)
    requires r in states[|actions|].requests && states[|actions|].requests[r].moved
    ensures !states[|actions|].requests[r].released
  {
    hide Begins, Happens;
    if states[|actions|].requests[r].released {
      ReleasedNotMoved(h, opening, states, actions, r);
    }
  }

  // ---- Stable replay ----

  /** Not past the attempt to acquire the key. */
  predicate Outside(request: RequestSteps.Request) {
    request.phase.Arrived? || request.phase.Looking? || request.phase.Acquiring? || request.phase.Waiting?
  }

  /** The answers a completed record allows: rejected before the guard, the record's answer, or a broken read. */
  predicate Replays(h: Hashes, record: Record, request: RequestSteps.Request) {
    || Outside(request)
    || (request.phase.Answered? &&
        (|| request.phase.outcome == Decoded(Answer(record, Fingerprint(h, request.cmd)), true)
         || request.phase.outcome == Err(Infrastructure)
         || (Validate(request.cmd).Err? && request.phase.outcome == Err(Validate(request.cmd).error))))
  }

  ghost predicate Finished(s: Bank, key: string, record: Record) {
    key in s.store && s.store[key] == record && record.status.RecordCompleted?
  }

  /** A completed record that nobody owns is written by nobody, and stays without an owner. */
  lemma CompletedStays(h: Hashes, s: Bank, a: Action, s': Bank, key: string, record: Record)
    requires HexDigests(h) && Happens(h, s, a, s') && a != Expire(key) && Finished(s, key, record) && !OwnedIn(s, key)
    ensures Finished(s', key, record) && !OwnedIn(s', key)
  {
    hide Serve, Fingerprint, KeyOf, Drive, Possible, Postable;
    if a.Request? {
      assert !OwnsKey(s.requests[a.who], key);
      OnlyOwnersWrite(h, World(s.tables, s.store), s.requests[a.who], a.chance);
    }
  }

  /** Up to an expiry mid-request, a completed record has no owner. */
  lemma CompletedIsUnowned(h: Hashes, opening: Ledger, states: seq<Bank>, actions: seq<Action>, key: string,
      record: Record)
    requires HexDigests(h) && Run(h, opening, states, actions) && Guarded(states, actions, key)
    requires Finished(states[|actions|], key, record)
    ensures !OwnedIn(states[|actions|], key)
  {
    hide Begins, Happens, KeyOf, Fingerprint, OwnPayload, Guarded;
    RunKeepsKey(h, opening, states, actions, key);
  }

  lemma ReplayStep(h: Hashes, w: World, request: RequestSteps.Request, chance: Chance, record: Record)
    requires HexDigests(h) && Postable(h, w.tables, request, chance) && KeyOf(request.cmd) in w.store
    requires w.store[KeyOf(request.cmd)] == record && Replays(h, record, request)
    ensures var after := Serve(h, w, request, chance);
            Replays(h, record, after.1) && after.0 == w && after.1.moved == request.moved
  {
    hide CommitFor, TransferPosted, Fingerprint, ParseKey, KeyOf, DecodeResult, Readable, Answer;
  }

  ghost predicate Replaying(h: Hashes, s: Bank, r: nat, key: string, record: Record)
    requires HexDigests(h)
  {
    r in s.requests && KeyOf(s.requests[r].cmd) == key && Replays(h, record, s.requests[r]) && !s.requests[r].moved
  }

  lemma ReplayingStays(h: Hashes, s: Bank, a: Action, s': Bank, r: nat, key: string, record: Record)
    requires HexDigests(h) && Happens(h, s, a, s') && Finished(s, key, record) && Replaying(h, s, r, key, record)
    ensures Replaying(h, s', r, key, record)
    ensures a.Request? && a.who == r ==> s'.tables == s.tables && s'.store == s.store
  {
    hide Serve, Replays, KeyOf, Drive, Possible, Postable;
    if a.Request? && a.who == r {
      ReplayStep(h, World(s.tables, s.store), s.requests[r], a.chance, record);
      OnlyOwnersWrite(h, World(s.tables, s.store), s.requests[r], a.chance);
    }
  }

  /**
   * Stable replay. A completed record without an owner never changes again until it expires, and
   * every request with its key that had not acquired it yet is answered from it, or with a
   * fingerprint conflict, without ever entering the protected function. CompletedIsUnowned says when
   * a completed record has no owner.
   */
  lemma {:induction false} StableReplay(h: Hashes, opening: Ledger, states: seq<Bank>, actions: seq<Action>, i: nat,
      r: nat, key: string, record: Record)
    requires HexDigests(h) && Run(h, opening, states, actions) && i <= |actions| && KeptFrom(actions, i, key)
    requires Finished(states[i], key, record) && !OwnedIn(states[i], key)
    requires r in states[i].requests && KeyOf(states[i].requests[r].cmd) == key && Outside(states[i].requests[r])
    ensures Finished(states[|actions|], key, record) && !OwnedIn(states[|actions|], key)
    ensures Replaying(h, states[|actions|], r, key, record)
    decreases |actions|
  {
    hide Begins, Happens, Finished, Replays, KeyOf, OwnedIn;
    if i == |actions| {
      OutsideReplays(h, opening, states, actions, r, key, record);
    } else {
      var n := |actions| - 1;
      StableReplay(h, opening, states[..n + 1], actions[..n], i, r, key, record);
      CompletedStays(h, states[n], actions[n], states[n + 1], key, record);
      ReplayingStays(h, states[n], actions[n], states[n + 1], r, key, record);
    }
  }

  lemma OutsideReplays(h: Hashes, opening: Ledger, states: seq<Bank>, actions: seq<Action>, r: nat, key: string,
      record: Record)
    requires HexDigests(h) && Run(h, opening, states, actions)
    requires r in states[|actions|].requests && Outside(states[|actions|].requests[r])
    requires KeyOf(states[|actions|].requests[r].cmd) == key
    ensures Replaying(h, states[|actions|], r, key, record)
  {
    RunKeepsInv(h, opening, states, actions);
    hide Begins, Happens, KeyOf, BankInv, Validate, OwnSaga, PayloadOk, Committed;
    assert RequestOk(h, states[|actions|].tables, states[|actions|].requests[r]);
  }
}
