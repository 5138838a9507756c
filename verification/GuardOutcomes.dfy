/** Where completed and failed records come from, for a key whose record does not expire mid-request. */
module GuardOutcomes {
  import opened Errors
  import opened MoneyDomain
  import opened LedgerStore
  import opened TransferDomain
  import opened Schema
  import opened Transitions
  import opened BankInvariant
  import opened SettlementSteps
  import opened RequestSteps
  import opened BankMachine
  import opened GuardProtocol

  /** The record that a completed run of this command leaves. */
  function CompletedFor(h: Hashes, cmd: Command): Record
    requires HexDigests(h)
  {
    Record(RecordCompleted, Fingerprint(h, cmd), Some(EncodeResult(ResultOf(h, cmd, KeyOf(cmd)))))
  }

  function FailedFor(h: Hashes, cmd: Command): Record {
    Record(RecordFailed, Fingerprint(h, cmd), None)
  }

  ghost predicate MadeBy(h: Hashes, s: Bank, key: string, record: Record, r: nat)
    requires HexDigests(h)
  {
    r in s.requests && s.requests[r].moved && KeyOf(s.requests[r].cmd) == key
        && record == CompletedFor(h, s.requests[r].cmd)
  }

  /** A completed record tells the result and fingerprint of a request that moved money under its key. */
  ghost predicate Provenance(h: Hashes, s: Bank, key: string)
    requires HexDigests(h)
  {
    key in s.store && s.store[key].status.RecordCompleted? ==> exists r :: MadeBy(h, s, key, s.store[key], r)
  }

  lemma MadeByStays(h: Hashes, s: Bank, a: Action, s': Bank, key: string, record: Record, r: nat)
    requires HexDigests(h) && Happens(h, s, a, s') && MadeBy(h, s, key, record, r)
    ensures MadeBy(h, s', key, record, r)
  {
    hide CommitFor, TransferPosted, GuardStep, Readable, Validate, Drive, Possible, CompletedFor, KeyOf;
  }

  /** The only statement that completes a record is an owner's, with its own result. */
  lemma CompletesOwn(h: Hashes, w: World, request: RequestSteps.Request, chance: Chance)
    requires HexDigests(h) && Postable(h, w.tables, request, chance)
    requires RequestOk(h, w.tables, request) && HoldsOwn(h, w.store, request)
    ensures var after, key := Serve(h, w, request, chance), KeyOf(request.cmd);
            key in after.0.store && after.0.store[key].status.RecordCompleted? ==>
              || (key in w.store && after.0.store[key] == w.store[key])
              || (request.moved && after.1.moved && after.1.cmd == request.cmd
                  && after.0.store[key] == CompletedFor(h, request.cmd))
  {
    hide CommitFor, TransferPosted, Validate, Fingerprint, ParseKey, KeyOf, DecodeResult, Readable, ResultOf,
        PayloadOk, OwnSaga, Committed;
  }

  lemma ActionKeepsProvenance(h: Hashes, opening: Ledger, s: Bank, a: Action, s': Bank, key: string)
    requires HexDigests(h) && BankMachine.Inv(h, opening, s) && KeyInv(h, s, key) && Happens(h, s, a, s')
    requires Provenance(h, s, key)
    ensures Provenance(h, s', key)
  {
    hide Serve, BankInv, StoreOk, HoldsOwn, Drive, Possible, Postable, RequestOk, Remembers, CompletedFor, KeyOf, Owns;
    if key in s'.store && s'.store[key].status.RecordCompleted? {
      if key in s.store && s'.store[key] == s.store[key] {
        var r :| MadeBy(h, s, key, s.store[key], r);
        MadeByStays(h, s, a, s', key, s.store[key], r);
      } else {
        assert a.Request?;
        var w, request := World(s.tables, s.store), s.requests[a.who];
        OnlyOwnersWrite(h, w, request, a.chance);
        OwnerOrNot(h, s, a.who, key);
        CompletesOwn(h, w, request, a.chance);
        assert MadeBy(h, s', key, s'.store[key], a.who);
      }
    }
  }

  lemma OwnerOrNot(h: Hashes, s: Bank, r: nat, key: string)
    requires HexDigests(h) && KeyInv(h, s, key) && r in s.requests && KeyOf(s.requests[r].cmd) == key
    ensures HoldsOwn(h, s.store, s.requests[r])
  {
    hide KeyOf, HoldsKey, OwnPayload;
  }

  lemma {:induction false} RunKeepsProvenance(h: Hashes, opening: Ledger, states: seq<Bank>, actions: seq<Action>,
      key: string)
    requires HexDigests(h) && Run(h, opening, states, actions) && Guarded(states, actions, key)
    ensures Provenance(h, states[|actions|], key)
  {
    if actions != [] {
      hide Begins, Happens, KeyInv, BankMachine.Inv, Provenance, Untimely;
      var n := |actions| - 1;
      RunKeepsProvenance(h, opening, states[..n + 1], actions[..n], key);
      RunKeepsInv(h, opening, states[..n + 1], actions[..n]);
      RunKeepsKey(h, opening, states[..n + 1], actions[..n], key);
      ActionKeepsProvenance(h, opening, states[n], actions[n], states[n + 1], key);
    }
  }

  function Replayed(h: Hashes, cmd: Command, fingerprint: string): Result<TransferResult>
    requires HexDigests(h)
  {
    if Conflicting(Fingerprint(h, cmd), fingerprint) then Err(Domain(Conflict))
    else Ok(ResultOf(h, cmd, KeyOf(cmd)).(replayed := true))
  }

  lemma CompletedAnswers(h: Hashes, cmd: Command, fingerprint: string)
    requires HexDigests(h) && cmd.amount.halalas > 0 && cmd.amount.currency == CURRENCY_SAR
    ensures Decoded(Answer(CompletedFor(h, cmd), fingerprint), true) == Replayed(h, cmd, fingerprint)
  {
    hide KeyOf, Fingerprint, DecodeResult, EncodeResult;
    ResultRoundTrip(ResultOf(h, cmd, KeyOf(cmd)));
  }

  /** A replay is the original result: that of a request which moved money under this key, marked as replayed. */
  lemma ReplayIsTheOriginal(h: Hashes, opening: Ledger, states: seq<Bank>, actions: seq<Action>, key: string,
      record: Record) returns (maker: nat)
    requires HexDigests(h) && Run(h, opening, states, actions) && Guarded(states, actions, key)
    requires Finished(states[|actions|], key, record)
    ensures maker in states[|actions|].requests && states[|actions|].requests[maker].moved
    ensures var cmd := states[|actions|].requests[maker].cmd;
            && KeyOf(cmd) == key && record.fingerprint == Fingerprint(h, cmd)
            && forall fingerprint :: Decoded(Answer(record, fingerprint), true) == Replayed(h, cmd, fingerprint)
  {
    RunKeepsProvenance(h, opening, states, actions, key);
    RunKeepsInv(h, opening, states, actions);
    hide Begins, Happens, KeyOf, Fingerprint, BankInv, StoreOk, RequestOk, Decoded, Answer, ResultOf, EncodeResult,
        Replayed;
    maker :| MadeBy(h, states[|actions|], key, states[|actions|].store[key], maker);
    var request := states[|actions|].requests[maker];
    assert RequestOk(h, states[|actions|].tables, request);
    MoverIsValid(h, states[|actions|].tables, request);
    forall fingerprint
      ensures Decoded(Answer(record, fingerprint), true) == Replayed(h, request.cmd, fingerprint)
    {
      CompletedAnswers(h, request.cmd, fingerprint);
    }
  }

  lemma MoverIsValid(h: Hashes, t: Tables, request: RequestSteps.Request)
    requires HexDigests(h) && RequestOk(h, t, request) && request.moved
    ensures request.cmd.amount.halalas > 0 && request.cmd.amount.currency == CURRENCY_SAR
  {
    hide ParseKey, ParseSAR, PayloadOk, Committed;
    var id :| id in t.sagas && Decodes(t.sagas[id]) && CommandOf(t.sagas[id]) == request.cmd;
  }

  // ---- How a key ends up that somebody acquired ----

  /** A statement of this request with the store, rather than with the database. */
  predicate AtStore(s: Bank, a: Action, r: nat) {
    a.Request? && a.who == r && r in s.requests && !Executing(s.requests[r])
  }

  /** From the i-th action on, no statement of this request with the store is lost; commits may still be. */
  ghost predicate OwnStatementsDone(states: seq<Bank>, actions: seq<Action>, i: nat, r: nat)
    requires |states| == |actions| + 1
  {
    forall j :: i <= j < |actions| && AtStore(states[j], actions[j], r) ==> actions[j].chance.fate.Done?
  }

  /** The mark a request leaves on its key: completed after a success, failed after an error that forbids a retry. */
  ghost predicate Marked(h: Hashes, store: Store, request: RequestSteps.Request)
    requires HexDigests(h)
  {
    && (Owns(request) || request.phase.Answered?)
    && (request.phase.Answered? ==>
          match request.phase.outcome
          case Ok(_) => KeyOf(request.cmd) in store && store[KeyOf(request.cmd)] == CompletedFor(h, request.cmd)
          case Err(e) => !IsSafeToRetry(e) ==>
                           KeyOf(request.cmd) in store && store[KeyOf(request.cmd)] == FailedFor(h, request.cmd))
  }

  lemma StepMarks(h: Hashes, w: World, request: RequestSteps.Request, chance: Chance)
    requires HexDigests(h) && Postable(h, w.tables, request, chance) && (!Executing(request) ==> chance.fate.Done?)
    requires RequestOk(h, w.tables, request) && HoldsOwn(h, w.store, request) && Marked(h, w.store, request)
    ensures Marked(h, Serve(h, w, request, chance).0.store, Serve(h, w, request, chance).1)
  {
    hide CommitFor, TransferPosted, Validate, Fingerprint, ParseKey, KeyOf, DecodeResult, Readable, ResultOf,
        OwnSaga, Committed;
  }

  lemma ActionMarks(h: Hashes, opening: Ledger, s: Bank, a: Action, s': Bank, r: nat, key: string)
    requires HexDigests(h) && BankMachine.Inv(h, opening, s) && KeyInv(h, s, key) && Happens(h, s, a, s')
    requires a != Expire(key)
    requires r in s.requests && KeyOf(s.requests[r].cmd) == key && Marked(h, s.store, s.requests[r])
    requires AtStore(s, a, r) ==> a.chance.fate.Done?
    ensures r in s'.requests && KeyOf(s'.requests[r].cmd) == key && Marked(h, s'.store, s'.requests[r])
  {
    hide Serve, BankInv, StoreOk, KeyOf, Drive, Possible, Postable, RequestOk, Remembers, Fingerprint, ResultOf,
        EncodeResult, OwnPayload, Owns, IsSafeToRetry;
    if a.Request? {
      var w, mine := World(s.tables, s.store), s.requests[a.who];
      OnlyOwnersWrite(h, w, mine, a.chance);
      if a.who == r {
        OwnerOrNot(h, s, r, key);
        StepMarks(h, w, mine, a.chance);
      } else {
        if KeyOf(mine.cmd) == key {
          MarkedHasNoOtherOwner(h, s, r, a.who, key);
        }
      }
    }
  }

  /** A key that is owned, or marked, is owned by nobody else. */
  lemma MarkedHasNoOtherOwner(h: Hashes, s: Bank, r: nat, other: nat, key: string)
    requires HexDigests(h) && KeyInv(h, s, key) && r in s.requests && KeyOf(s.requests[r].cmd) == key
    requires Marked(h, s.store, s.requests[r]) && other in s.requests && other != r
    requires KeyOf(s.requests[other].cmd) == key
    ensures Owns(s.requests[other]) ==>
              s.requests[r].phase.Answered? && s.requests[r].phase.outcome.Err?
                  && IsSafeToRetry(s.requests[r].phase.outcome.error)
    ensures Owns(s.requests[r]) ==> key in s.store
  {
    hide KeyOf, Fingerprint, ResultOf, EncodeResult, OwnPayload, IsSafeToRetry;
    assert OwnsKey(s.requests[other], key) <==> Owns(s.requests[other]);
    assert OwnsKey(s.requests[r], key) <==> Owns(s.requests[r]);
  }

  lemma GuardedUpTo(states: seq<Bank>, actions: seq<Action>, i: nat, n: nat, key: string)
    requires |states| == |actions| + 1 && i <= n <= |actions|
    requires Guarded(states[..i + 1], actions[..i], key) && KeptFrom(actions, i, key)
    ensures Guarded(states[..n + 1], actions[..n], key)
  {
    hide OwnedIn;
    forall j | 0 <= j < n
      ensures !Untimely(states[..n + 1][j], actions[..n][j], key)
    {
      if j < i {
        assert !Untimely(states[..i + 1][j], actions[..i][j], key);
      }
    }
  }

  /**
   * An error that forbids a retry leaves the key failed, never free, whether or not money moved: a
   * request that acquired its key, and whose own statements with the store were done, leaves its key
   * COMPLETED when it is answered with a success and FAILED when it is answered with such an error,
   * for as long as the record does not expire.
   */
  lemma {:induction false} CommitErrorMarksFailed(h: Hashes, opening: Ledger, states: seq<Bank>,
      actions: seq<Action>, i: nat,
      r: nat, key: string)
    requires HexDigests(h) && Run(h, opening, states, actions) && i <= |actions|
    requires Guarded(states[..i + 1], actions[..i], key) && KeptFrom(actions, i, key)
    requires r in states[i].requests && OwnsKey(states[i].requests[r], key) && OwnStatementsDone(states, actions, i, r)
    ensures var s := states[|actions|];
            r in s.requests && KeyOf(s.requests[r].cmd) == key && Marked(h, s.store, s.requests[r])
    decreases |actions|
  {
    hide Begins, Happens, KeyInv, BankMachine.Inv, Untimely, KeyOf, CompletedFor, FailedFor, Executing;
    if i < |actions| {
      var n := |actions| - 1;
      assert states[..n + 1][..i + 1] == states[..i + 1] && actions[..n][..i] == actions[..i];
      CommitErrorMarksFailed(h, opening, states[..n + 1], actions[..n], i, r, key);
      GuardedUpTo(states, actions, i, n, key);
      RunKeepsInv(h, opening, states[..n + 1], actions[..n]);
      RunKeepsKey(h, opening, states[..n + 1], actions[..n], key);
      assert Happens(h, states[n], actions[n], states[n + 1]);
      ActionMarks(h, opening, states[n], actions[n], states[n + 1], r, key);
    }
  }
}
