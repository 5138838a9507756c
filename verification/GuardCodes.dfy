/** What the guard answers and what it leaves of a key, code by code. */
module GuardCodes {
  import opened Errors
  import opened LedgerStore
  import opened TransferDomain
  import opened Schema
  import opened BankInvariant
  import opened Transitions
  import opened SettlementSteps
  import opened RequestSteps
  import opened BankMachine
  import opened GuardProtocol
  import opened GuardOutcomes

  // ---- Every record has an author ----

  ghost predicate Authors(h: Hashes, s: Bank, m: nat, key: string, record: Record) {
    m in s.requests && KeyOf(s.requests[m].cmd) == key && record.fingerprint == Fingerprint(h, s.requests[m].cmd)
  }

  ghost predicate Authored(h: Hashes, s: Bank, key: string, record: Record) {
    exists m :: Authors(h, s, m, key, record)
  }

  /** Records, and what requests have read of them, carry the fingerprint of a request with their key. */
  ghost predicate AllAuthored(h: Hashes, s: Bank) {
    && (forall key :: key in s.store ==> Authored(h, s, key, s.store[key]))
    && (forall r :: r in s.requests && s.requests[r].phase.Storing? ==>
          Authored(h, s, KeyOf(s.requests[r].cmd), s.requests[r].phase.read))
    && (forall r :: r in s.requests && s.requests[r].phase.StoringFailure? ==>
          Authored(h, s, KeyOf(s.requests[r].cmd), s.requests[r].phase.read))
  }

  /** The same commands are about, whatever else has changed. */
  ghost predicate CommandsStay(s: Bank, s': Bank) {
    forall r :: r in s.requests ==> r in s'.requests && s'.requests[r].cmd == s.requests[r].cmd
  }

  lemma AuthoredStays(h: Hashes, s: Bank, s': Bank, key: string, record: Record, record': Record)
    requires Authored(h, s, key, record) && CommandsStay(s, s') && record'.fingerprint == record.fingerprint
    ensures Authored(h, s', key, record')
  {
    hide KeyOf, Fingerprint;
    var m :| Authors(h, s, m, key, record);
    assert Authors(h, s', m, key, record');
  }

  /** What one statement can do to the record of its key, and to what it has read. */
  lemma StatementWrites(h: Hashes, w: World, request: RequestSteps.Request, chance: Chance)
    requires HexDigests(h) && Postable(h, w.tables, request, chance)
    ensures var after, key := Serve(h, w, request, chance), KeyOf(request.cmd);
            && after.1.cmd == request.cmd
            && (forall k :: k != key ==>
                  (k in after.0.store <==> k in w.store) && (k in w.store ==> after.0.store[k] == w.store[k]))
            && (key in after.0.store ==>
                  || (key in w.store && after.0.store[key] == w.store[key])
                  || after.0.store[key].fingerprint == Fingerprint(h, request.cmd)
                  || ((request.phase.Storing? || request.phase.StoringFailure?)
                      && after.0.store[key].fingerprint == request.phase.read.fingerprint))
            && (after.1.phase.Storing? ==> key in w.store && after.1.phase.read == w.store[key])
            && (after.1.phase.StoringFailure? ==> key in w.store && after.1.phase.read == w.store[key])
  {
    hide Validate, Fingerprint, KeyOf, DecodeResult, CommitFor, TransferPosted, ResultOf, EncodeResult;
  }

  lemma RequestKeepsAuthors(h: Hashes, s: Bank, a: Action, s': Bank)
    requires HexDigests(h) && Happens(h, s, a, s') && a.Request? && AllAuthored(h, s)
    ensures AllAuthored(h, s')
  {
    hide Serve, Postable, KeyOf, Fingerprint, Authored;
    var w, request := World(s.tables, s.store), s.requests[a.who];
    StatementWrites(h, w, request, a.chance);
    var key := KeyOf(request.cmd);
    forall k | k in s'.store
      ensures Authored(h, s', k, s'.store[k])
    {
      if k in s.store && s'.store[k] == s.store[k] {
        AuthoredStays(h, s, s', k, s.store[k], s'.store[k]);
      } else if request.phase.Storing? && s'.store[k].fingerprint == request.phase.read.fingerprint {
        AuthoredStays(h, s, s', k, request.phase.read, s'.store[k]);
      } else if request.phase.StoringFailure? && s'.store[k].fingerprint == request.phase.read.fingerprint {
        AuthoredStays(h, s, s', k, request.phase.read, s'.store[k]);
      } else {
        OwnRecord(h, s', a.who, k, s'.store[k]);
      }
    }
    forall r | r in s'.requests && (s'.requests[r].phase.Storing? || s'.requests[r].phase.StoringFailure?)
      ensures Authored(h, s', KeyOf(s'.requests[r].cmd), s'.requests[r].phase.read)
    {
      var mine := s'.requests[r];
      if r == a.who {
        AuthoredStays(h, s, s', key, s.store[key], mine.phase.read);
      } else {
        AuthoredStays(h, s, s', KeyOf(mine.cmd), mine.phase.read, mine.phase.read);
      }
    }
  }

  lemma OwnRecord(h: Hashes, s: Bank, r: nat, key: string, record: Record)
    requires r in s.requests && KeyOf(s.requests[r].cmd) == key
    requires record.fingerprint == Fingerprint(h, s.requests[r].cmd)
    ensures Authored(h, s, key, record)
  {
    hide KeyOf, Fingerprint;
    assert Authors(h, s, r, key, record);
  }

  lemma OthersKeepAuthors(h: Hashes, s: Bank, a: Action, s': Bank)
    requires HexDigests(h) && Happens(h, s, a, s') && !a.Request? && AllAuthored(h, s)
    ensures AllAuthored(h, s')
  {
    hide Drive, Possible, KeyOf, Fingerprint, Authored;
    forall k | k in s'.store
      ensures Authored(h, s', k, s'.store[k])
    {
      AuthoredStays(h, s, s', k, s.store[k], s'.store[k]);
    }
    forall r | r in s'.requests && (s'.requests[r].phase.Storing? || s'.requests[r].phase.StoringFailure?)
      ensures Authored(h, s', KeyOf(s'.requests[r].cmd), s'.requests[r].phase.read)
    {
      AuthoredStays(h, s, s', KeyOf(s'.requests[r].cmd), s'.requests[r].phase.read, s'.requests[r].phase.read);
    }
  }

  lemma {:induction false} RunKeepsAuthors(h: Hashes, opening: Ledger, states: seq<Bank>, actions: seq<Action>)
    requires HexDigests(h) && Run(h, opening, states, actions)
    ensures AllAuthored(h, states[|actions|])
  {
    if actions == [] {
      hide Opening, KeyOf, Fingerprint;
    } else {
      hide Begins, Happens, AllAuthored;
      var n := |actions| - 1;
      RunKeepsAuthors(h, opening, states[..n + 1], actions[..n]);
      if actions[n].Request? {
        RequestKeepsAuthors(h, states[n], actions[n], states[n + 1]);
      } else {
        OthersKeepAuthors(h, states[n], actions[n], states[n + 1]);
      }
    }
  }

  // ---- Answers from a record ----

  /** A key that is in the store is answered for by its record: at the first look, or after losing the race for it. */
  predicate Reads(s: Bank, a: Action) {
    && a.Request? && a.who in s.requests && (s.requests[a.who].phase.Looking? || s.requests[a.who].phase.Waiting?)
    && a.chance.fate.Done? && KeyOf(s.requests[a.who].cmd) in s.store
  }

  ghost function Intents(s: Bank): set<Intent> {
    set r | r in s.requests :: IntentOf(s.requests[r].cmd)
  }

  lemma RecordAnswers(h: Hashes, s: Bank, a: Action, s': Bank, maker: Command)
    requires HexDigests(h) && Happens(h, s, a, s') && Reads(s, a)
    requires SeparatesIntents(h, {IntentOf(s.requests[a.who].cmd), IntentOf(maker)})
    requires s.store[KeyOf(s.requests[a.who].cmd)].fingerprint == Fingerprint(h, maker)
    ensures var cmd, record := s.requests[a.who].cmd, s.store[KeyOf(s.requests[a.who].cmd)];
            a.who in s'.requests &&
            s'.requests[a.who].phase ==
            if !SameIntent(cmd, maker) then Answered(Err(Domain(Conflict)))
            else match record.status
              case Processing => Answered(Err(Domain(RequestInProgress)))
              case RecordFailed => Answered(Err(Domain(Conflict)))
              case RecordCompleted =>
                Answered(if record.payload.Some? then Decoded(Ok(record.payload.value), true) else Err(Infrastructure))
  {
    var cmd := s.requests[a.who].cmd;
    FingerprintIffSameIntent(h, cmd, maker);
    FingerprintIffSameIntent(h, maker, cmd);
    hide KeyOf, Beneficiary, DecodeResult;
  }

  /**
   * In every run, however records expire: whatever a request reads under its key was made by a request
   * with that key, and it is answered a conflict if the two differ in an account, the amount, the currency,
   * the beneficiary's IBAN or name, or if the earlier one has failed; otherwise it is told that the earlier
   * one is still at work, or its result. This is for hashes that tell these intents apart.
   */
  lemma AnsweredByIntent(h: Hashes, opening: Ledger, states: seq<Bank>, actions: seq<Action>, n: nat)
    returns (maker: nat)
    requires HexDigests(h) && Run(h, opening, states, actions) && n < |actions| && Reads(states[n], actions[n])
    requires SeparatesIntents(h, Intents(states[n]))
    ensures maker in states[n].requests && actions[n].who in states[n + 1].requests
    ensures var s, r := states[n], actions[n].who;
            var cmd, earlier := s.requests[r].cmd, s.requests[maker].cmd;
            var record, phase := s.store[KeyOf(cmd)], states[n + 1].requests[r].phase;
            && KeyOf(earlier) == KeyOf(cmd)
            && (!SameIntent(cmd, earlier) || record.status.RecordFailed? ==> phase == Answered(Err(Domain(Conflict))))
            && (SameIntent(cmd, earlier) && record.status.Processing? ==>
                  phase == Answered(Err(Domain(RequestInProgress))))
            && (SameIntent(cmd, earlier) && record.status.RecordCompleted? && record.payload.Some? ==>
                  phase == Answered(Decoded(Ok(record.payload.value), true)))
  {
    hide KeyOf, Fingerprint, SameIntent, Decoded, IntentOf, AllAuthored, Begins, Happens;
    RunKeepsAuthors(h, opening, states[..n + 1], actions[..n]);
    maker := RecordMaker(h, states[n], KeyOf(states[n].requests[actions[n].who].cmd));
    RecordAnswers(h, states[n], actions[n], states[n + 1], states[n].requests[maker].cmd);
  }

  lemma RecordMaker(h: Hashes, s: Bank, key: string) returns (maker: nat)
    requires AllAuthored(h, s) && key in s.store
    ensures Authors(h, s, maker, key, s.store[key])
  {
    hide KeyOf, Fingerprint;
    assert Authored(h, s, key, s.store[key]);
    maker :| Authors(h, s, maker, key, s.store[key]);
  }

  /** What a request may be told of an earlier one that completed its key. */
  predicate ToldOf(h: Hashes, request: RequestSteps.Request, earlier: Command)
    requires HexDigests(h)
  {
    var cmd := request.cmd;
    || Outside(request)
    || (request.phase.Answered? &&
        (|| (SameIntent(cmd, earlier)
             && request.phase.outcome == Ok(ResultOf(h, earlier, KeyOf(earlier)).(replayed := true)))
         || (!SameIntent(cmd, earlier) && request.phase.outcome == Err(Domain(Conflict)))
         || request.phase.outcome == Err(Infrastructure)
         || (Validate(cmd).Err? && request.phase.outcome == Err(Validate(cmd).error))))
  }

  lemma ReplayTells(h: Hashes, request: RequestSteps.Request, earlier: Command, record: Record)
    requires HexDigests(h) && SeparatesIntents(h, {IntentOf(request.cmd), IntentOf(earlier)})
    requires Replays(h, record, request)
    requires forall fingerprint :: Decoded(Answer(record, fingerprint), true) == Replayed(h, earlier, fingerprint)
    ensures ToldOf(h, request, earlier)
  {
    FingerprintIffSameIntent(h, request.cmd, earlier);
    FingerprintIffSameIntent(h, earlier, request.cmd);
    hide Fingerprint, KeyOf, SameIntent, IntentOf, Decoded, Answer, Validate, ResultOf;
  }

  /**
   * A reused key with another intent never gets another's success. Once a record is completed it is that of
   * a request which moved money, and as long as it does not expire, a later request with the key is answered
   * with the maker's result if the two have the same intent, and with a conflict if they differ in an account,
   * the amount, the currency, the beneficiary or the name; or it fails on its own, and moves nothing either way.
   */
  lemma LaterIntentConflicts(h: Hashes, opening: Ledger, states: seq<Bank>, actions: seq<Action>, i: nat, r: nat,
      key: string, record: Record) returns (maker: nat)
    requires HexDigests(h) && Run(h, opening, states, actions) && i <= |actions| && KeptFrom(actions, i, key)
    requires Guarded(states[..i + 1], actions[..i], key) && Finished(states[i], key, record)
    requires r in states[i].requests && KeyOf(states[i].requests[r].cmd) == key && Outside(states[i].requests[r])
    requires SeparatesIntents(h, Intents(states[i]))
    ensures maker in states[i].requests && states[i].requests[maker].moved
    ensures r in states[|actions|].requests && KeyOf(states[i].requests[maker].cmd) == key
    ensures states[|actions|].requests[r].cmd == states[i].requests[r].cmd && !states[|actions|].requests[r].moved
    ensures ToldOf(h, states[|actions|].requests[r], states[i].requests[maker].cmd)
  {
    hide Begins, Happens, KeyOf, Fingerprint, Guarded, Finished, Outside, OwnedIn, Replays, SameIntent, IntentOf,
        ToldOf, Decoded, Answer, Replayed;
    maker := ReplayIsTheOriginal(h, opening, states[..i + 1], actions[..i], key, record);
    CompletedIsUnowned(h, opening, states[..i + 1], actions[..i], key, record);
    StableReplay(h, opening, states, actions, i, r, key, record);
    CommandsAreFixed(h, opening, states, actions, i, r);
    ReplayTells(h, states[|actions|].requests[r], states[i].requests[maker].cmd, record);
  }

  lemma {:induction false} CommandsAreFixed(h: Hashes, opening: Ledger, states: seq<Bank>, actions: seq<Action>,
      i: nat, r: nat)
    requires HexDigests(h) && Run(h, opening, states, actions) && i <= |actions| && r in states[i].requests
    ensures r in states[|actions|].requests && states[|actions|].requests[r].cmd == states[i].requests[r].cmd
    decreases |actions|
  {
    if i < |actions| {
      var n := |actions| - 1;
      hide Begins, Happens;
      CommandsAreFixed(h, opening, states[..n + 1], actions[..n], i, r);
      CommandFixed(h, states[n], actions[n], states[n + 1], r);
    }
  }

  lemma CommandFixed(h: Hashes, s: Bank, a: Action, s': Bank, r: nat)
    requires HexDigests(h) && Happens(h, s, a, s') && r in s.requests
    ensures r in s'.requests && s'.requests[r].cmd == s.requests[r].cmd
  {
    hide Serve, Drive, Possible, Postable;
    if a.Request? {
      OnlyOwnersWrite(h, World(s.tables, s.store), s.requests[a.who], a.chance);
    }
  }

  // ---- What an answer says about its key ----

  /** After these, the guard gives the key back. */
  predicate Retryable(e: Error) {
    e == Domain(Validation) || e == Domain(InvalidMoney) || e == Domain(InvalidIban) || e == Domain(Forbidden)
  }

  /** The statement by which this request answers this error takes the record of its key away. */
  ghost predicate GivesBack(s: Bank, a: Action, s': Bank, r: nat, key: string, e: Error) {
    && a.Request? && a.who == r && key in s.store && key !in s'.store
    && r in s.requests && !s.requests[r].phase.Answered?
    && r in s'.requests && s'.requests[r].phase == Answered(Err(e))
  }

  lemma OwnerAnswers(h: Hashes, w: World, request: RequestSteps.Request, chance: Chance, e: Error)
    requires HexDigests(h) && Postable(h, w.tables, request, chance) && (!Executing(request) ==> chance.fate.Done?)
    requires RequestOk(h, w.tables, request) && HoldsOwn(h, w.store, request) && Owns(request) && Retryable(e)
    ensures var after := Serve(h, w, request, chance);
            after.1.phase == Answered(Err(e)) ==> KeyOf(request.cmd) in w.store && KeyOf(request.cmd) !in after.0.store
  {
    hide CommitFor, TransferPosted, Validate, Fingerprint, ParseKey, KeyOf, Readable, ResultOf, OwnSaga, Committed,
        EncodeResult;
  }

  lemma OnlyItsOwnStep(h: Hashes, s: Bank, a: Action, s': Bank, r: nat)
    requires HexDigests(h) && Happens(h, s, a, s') && r in s.requests
    ensures r in s'.requests
    ensures s.requests[r].phase.Answered? || !(a.Request? && a.who == r) ==> s'.requests[r].phase == s.requests[r].phase
  {
    hide CommitFor, TransferPosted, Readable, Validate, Drive, Possible, Fingerprint, KeyOf;
  }

  lemma OwnerGivesBack(h: Hashes, opening: Ledger, s: Bank, a: Action, s': Bank, r: nat, key: string, e: Error)
    requires HexDigests(h) && BankMachine.Inv(h, opening, s) && KeyInv(h, s, key) && Happens(h, s, a, s')
    requires r in s.requests && OwnsKey(s.requests[r], key) && (AtStore(s, a, r) ==> a.chance.fate.Done?)
    requires r in s'.requests && s'.requests[r].phase == Answered(Err(e)) && Retryable(e)
    ensures GivesBack(s, a, s', r, key, e)
  {
    hide Serve, BankInv, StoreOk, KeyOf, Drive, Possible, Postable, RequestOk, Remembers, Retryable, HoldsOwn;
    OnlyItsOwnStep(h, s, a, s', r);
    OwnerOrNot(h, s, r, key);
    OwnerAnswers(h, World(s.tables, s.store), s.requests[r], a.chance, e);
  }

  lemma {:induction false} FindsGiveBack(h: Hashes, opening: Ledger, states: seq<Bank>, actions: seq<Action>, i: nat,
      r: nat, key: string, e: Error) returns (j: nat)
    requires HexDigests(h) && Run(h, opening, states, actions) && i <= |actions|
    requires Guarded(states[..i + 1], actions[..i], key) && KeptFrom(actions, i, key)
    requires r in states[i].requests && OwnsKey(states[i].requests[r], key) && OwnStatementsDone(states, actions, i, r)
    requires r in states[|actions|].requests && states[|actions|].requests[r].phase == Answered(Err(e)) && Retryable(e)
    ensures i <= j < |actions| && GivesBack(states[j], actions[j], states[j + 1], r, key, e)
    decreases |actions|
  {
    hide Begins, Happens, KeyInv, BankMachine.Inv, Untimely, KeyOf, CompletedFor, FailedFor, Executing, Retryable,
        GivesBack;
    var n := |actions| - 1;
    assert states[..n + 1][..i + 1] == states[..i + 1] && actions[..n][..i] == actions[..i];
    CommitErrorMarksFailed(h, opening, states[..n + 1], actions[..n], i, r, key);
    assert Happens(h, states[n], actions[n], states[n + 1]);
    OnlyItsOwnStep(h, states[n], actions[n], states[n + 1], r);
    if states[n].requests[r].phase.Answered? {
      j := FindsGiveBack(h, opening, states[..n + 1], actions[..n], i, r, key, e);
    } else {
      j := n;
      GuardedUpTo(states, actions, i, n, key);
      RunKeepsInv(h, opening, states[..n + 1], actions[..n]);
      RunKeepsKey(h, opening, states[..n + 1], actions[..n], key);
      OwnerGivesBack(h, opening, states[n], actions[n], states[n + 1], r, key, e);
    }
  }

  lemma MarkedByCode(h: Hashes, store: Store, request: RequestSteps.Request)
    requires HexDigests(h) && Marked(h, store, request) && request.phase.Answered? && request.phase.outcome.Err?
    requires !Retryable(request.phase.outcome.error)
    ensures KeyOf(request.cmd) in store
    ensures store[KeyOf(request.cmd)] == Record(RecordFailed, Fingerprint(h, request.cmd), None)
  {
    hide KeyOf, Fingerprint;
  }

  /**
   * The code decides what becomes of the key. A request that acquired its key, and whose own statements with
   * the store were done, leaves the record FAILED, for as long as it does not expire, if it is answered with
   * one of the eight codes that a retry cannot cure; with any of the other four, the very statement by which
   * it is answered deletes the record.
   */
  lemma CodesDecideKey(h: Hashes, opening: Ledger, states: seq<Bank>, actions: seq<Action>, i: nat, r: nat,
      key: string, e: Error)
    requires HexDigests(h) && Run(h, opening, states, actions) && i <= |actions|
    requires Guarded(states[..i + 1], actions[..i], key) && KeptFrom(actions, i, key)
    requires r in states[i].requests && OwnsKey(states[i].requests[r], key) && OwnStatementsDone(states, actions, i, r)
    requires r in states[|actions|].requests && states[|actions|].requests[r].phase == Answered(Err(e))
    ensures e in {Domain(InsufficientFunds), Domain(NotFound), Domain(Conflict), Domain(RequestInProgress),
                  Domain(UnbalancedTransaction), Domain(InvalidLedgerEntry), Domain(InvalidAccount), Infrastructure}
            ==> && key in states[|actions|].store
                && states[|actions|].store[key]
                   == Record(RecordFailed, Fingerprint(h, states[|actions|].requests[r].cmd), None)
    ensures e in {Domain(Validation), Domain(InvalidMoney), Domain(InvalidIban), Domain(Forbidden)}
            ==> exists j :: i <= j < |actions| && GivesBack(states[j], actions[j], states[j + 1], r, key, e)
  {
    hide Begins, Happens, Guarded, KeptFrom, OwnsKey, OwnStatementsDone, KeyOf, Fingerprint, Marked, GivesBack;
    CommitErrorMarksFailed(h, opening, states, actions, i, r, key);
    if Retryable(e) {
      var j := FindsGiveBack(h, opening, states, actions, i, r, key, e);
    } else {
      MarkedByCode(h, states[|actions|].store, states[|actions|].requests[r]);
    }
  }
}
