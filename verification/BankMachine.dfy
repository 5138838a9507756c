/**
 * The whole bank: any number of requests, settlement workers and event relays over one database and
 * one key-value store, interleaved statement by statement. Records may expire at any moment. A worker
 * that crashes and is restarted rests again; any other crash is a participant that never moves again.
 */
module BankMachine {
  import opened LedgerDomain
  import opened LedgerStore
  import opened TransferDomain
  import opened Schema
  import opened BankInvariant
  import opened TransferKeeps
  import opened SettlementSteps
  import opened RequestSteps

  datatype Bank = Bank(tables: Tables, store: Store, requests: map<nat, Request>, workers: map<nat, Stage>)

  datatype Action =
    | Request(who: nat, chance: Chance)
    | Worker(who: nat, choice: Choice)
    | OpenAccount(account: Account)
    | Relay(outbox: map<string, OutboxEvent>)
    | Expire(key: string)
    | Crash(worker: nat)

  ghost predicate Begins(opening: Ledger, s: Bank) {
    && Opening(opening) && s.tables == Tables(opening, map[], map[], map[]) && s.store == map[]
    && (forall r :: r in s.requests ==>
        s.requests[r] == s.requests[r].(phase := Arrived, moved := false, released := false))
    && (forall w :: w in s.workers ==> s.workers[w] == Resting)
  }

  ghost predicate Happens(h: Hashes, s: Bank, a: Action, s': Bank)
    requires HexDigests(h)
  {
    match a
    case Request(r, chance) =>
      && r in s.requests && Postable(h, s.tables, s.requests[r], chance)
      && var after := Serve(h, World(s.tables, s.store), s.requests[r], chance);
         s' == s.(tables := after.0.tables, store := after.0.store, requests := s.requests[r := after.1])
    case Worker(w, choice) =>
      && w in s.workers && Possible(s.tables, s.workers[w], choice)
      && var after := Drive(s.tables, s.workers[w], choice);
         s' == s.(tables := after.0, workers := s.workers[w := after.1])
    case OpenAccount(account) =>
      account.id !in s.tables.ledger.accounts && s' == s.(tables := WithAccount(s.tables, account))
    case Relay(outbox) =>
      && outbox.Keys == s.tables.outbox.Keys
      && (forall id :: id in outbox ==> SameEvent(s.tables.outbox[id], outbox[id]))
      && s' == s.(tables := s.tables.(outbox := outbox))
    case Expire(key) => s' == s.(store := s.store - {key})
    case Crash(w) => w in s.workers && s' == s.(workers := s.workers[w := Resting])
  }

  /** A run of the bank: states, and the action that leads from each to the next. */
  ghost predicate Run(h: Hashes, opening: Ledger, states: seq<Bank>, actions: seq<Action>)
    requires HexDigests(h)
  {
    && |states| == |actions| + 1 && Begins(opening, states[0])
    && forall i :: 0 <= i < |actions| ==> Happens(h, states[i], actions[i], states[i + 1])
  }

  // ---- The invariant ----

  ghost predicate RequestsOk(h: Hashes, s: Bank)
    requires HexDigests(h)
  {
    forall r :: r in s.requests ==> RequestOk(h, s.tables, s.requests[r])
  }

  ghost predicate WorkersOk(s: Bank) {
    forall w :: w in s.workers ==> Remembers(s.tables, s.workers[w])
  }

  ghost predicate Inv(h: Hashes, opening: Ledger, s: Bank)
    requires HexDigests(h)
  {
    && BankInv(h, opening, s.tables) && StoreOk(h, World(s.tables, s.store)) && RequestsOk(h, s) && WorkersOk(s)
  }

  lemma BeginningIsSound(h: Hashes, opening: Ledger, s: Bank)
    requires HexDigests(h) && Begins(opening, s)
    ensures Inv(h, opening, s)
  {
    hide SoundBooks, Validate, ParseKey;
    assert forall e :: e in opening.lines ==> e.accountId in opening.accounts by { OpeningLinesKnown(opening); }
  }

  lemma OpeningLinesKnown(opening: Ledger)
    requires SoundBooks(opening)
    ensures forall e :: e in opening.lines ==> e.accountId in opening.accounts
  {
  }

  /** When rows only stay and records are unchanged, everything vouched for stays. */
  lemma OthersStay(h: Hashes, s: Bank, t': Tables)
    requires HexDigests(h) && StoreOk(h, World(s.tables, s.store)) && RequestsOk(h, s) && WorkersOk(s)
    requires RowsStay(s.tables, t')
    ensures StoreOk(h, World(t', s.store)) && RequestsOk(h, s.(tables := t')) && WorkersOk(s.(tables := t'))
  {
    hide RequestOk, RecordOk, Remembers, RowsStay;
    forall r | r in s.requests
      ensures RequestOk(h, t', s.requests[r])
    {
      RequestStays(h, s.tables, t', s.requests[r]);
    }
    forall key | key in s.store
      ensures RecordOk(h, t', key, s.store[key])
    {
      RecordStays(h, s.tables, t', key, s.store[key]);
    }
    forall w | w in s.workers
      ensures Remembers(t', s.workers[w])
    {
      RemembersStays(s.tables, t', s.workers[w]);
    }
  }

  lemma AccountKeepsRows(t: Tables, account: Account)
    ensures RowsStay(t, WithAccount(t, account))
  {
  }

  lemma RequestTablesSound(h: Hashes, opening: Ledger, s: Bank, a: Action, s': Bank)
    requires HexDigests(h) && Inv(h, opening, s) && a.Request? && Happens(h, s, a, s')
    ensures BankInv(h, opening, s'.tables) && RowsStay(s.tables, s'.tables)
    ensures RequestOk(h, s'.tables, s'.requests[a.who])
  {
    hide BankInv, StoreOk, RequestOk, RowsStay, Postable, TransferCommits, Serve;
    var w, request := World(s.tables, s.store), s.requests[a.who];
    UntouchedKeepsRows(s.tables);
    if request.phase.Posting? {
      PostKeepsRequest(h, w, request, a.chance);
      if s'.tables != s.tables {
        TransferKeepsInv(h, opening, s.tables, request.cmd, a.chance.listings, s'.tables);
      }
    } else if request.phase.Screening? {
      ScreeningKeepsRequest(h, w, request, a.chance);
    } else {
      GuardKeepsRequest(h, w, request, a.chance);
    }
  }

  lemma UntouchedKeepsRows(t: Tables)
    ensures RowsStay(t, t)
  {
  }

  lemma RequestStoreSound(h: Hashes, opening: Ledger, s: Bank, a: Action, s': Bank)
    requires HexDigests(h) && Inv(h, opening, s) && a.Request? && Happens(h, s, a, s')
    ensures StoreOk(h, World(s'.tables, s'.store))
  {
    var request := s.requests[a.who];
    RequestTablesSound(h, opening, s, a, s');
    hide BankInv, StoreOk, RequestOk, RowsStay, Postable, TransferCommits, Remembers, GuardStep;
    if request.phase.Posting? || request.phase.Screening? {
      assert s'.store == s.store;
      OthersStay(h, s, s'.tables);
    } else {
      GuardKeepsRequest(h, World(s.tables, s.store), request, a.chance);
    }
  }

  lemma RequestKeepsInv(h: Hashes, opening: Ledger, s: Bank, a: Action, s': Bank)
    requires HexDigests(h) && Inv(h, opening, s) && a.Request? && Happens(h, s, a, s')
    ensures Inv(h, opening, s')
  {
    hide BankInv, StoreOk, RequestOk, RowsStay, Postable, Serve, Remembers;
    RequestTablesSound(h, opening, s, a, s');
    RequestStoreSound(h, opening, s, a, s');
    OthersStay(h, s, s'.tables);
  }

  lemma WorkerKeepsInv(h: Hashes, opening: Ledger, s: Bank, a: Action, s': Bank)
    requires HexDigests(h) && Inv(h, opening, s) && a.Worker? && Happens(h, s, a, s')
    ensures Inv(h, opening, s')
  {
    hide BankInv, StoreOk, RequestOk, RowsStay, Drive, Remembers, Possible;
    DriveKeepsInv(h, opening, s.tables, s.workers[a.who], a.choice);
    DriveRemembers(h, opening, s.tables, s.workers[a.who], a.choice);
    RemembersStays(s.tables, s'.tables, s'.workers[a.who]);
    OthersStay(h, s, s'.tables);
  }

  lemma RelayIsStatus(t: Tables, outbox: map<string, OutboxEvent>)
    requires outbox.Keys == t.outbox.Keys && forall id :: id in outbox ==> SameEvent(t.outbox[id], outbox[id])
    ensures OnlyStatuses(t, t.(outbox := outbox))
  {
  }

  lemma RestingRemembers(t: Tables)
    ensures Remembers(t, Resting)
  {
  }

  /** Every action of every participant keeps the invariant. */
  lemma ActionKeepsInv(h: Hashes, opening: Ledger, s: Bank, a: Action, s': Bank)
    requires HexDigests(h) && Inv(h, opening, s) && Happens(h, s, a, s')
    ensures Inv(h, opening, s')
  {
    hide BankInv, RequestOk, RecordOk, RowsStay, OnlyStatuses, Drive, Serve, Remembers, Possible, Postable;
    match a {
      case Request(_, _) => RequestKeepsInv(h, opening, s, a, s');
      case Worker(_, _) => WorkerKeepsInv(h, opening, s, a, s');
      case OpenAccount(account) =>
        AccountKeepsInv(h, opening, s.tables, account);
        AccountKeepsRows(s.tables, account);
        OthersStay(h, s, s'.tables);
      case Relay(outbox) =>
        RelayIsStatus(s.tables, outbox);
        StatusesKeepInv(h, opening, s.tables, s'.tables);
        StatusesKeepRows(s.tables, s'.tables);
        OthersStay(h, s, s'.tables);
      case Expire(key) =>
      case Crash(w) => RestingRemembers(s.tables);
    }
  }

  lemma {:induction false} RunKeepsInv(h: Hashes, opening: Ledger, states: seq<Bank>, actions: seq<Action>)
    requires HexDigests(h) && Run(h, opening, states, actions)
    ensures Inv(h, opening, states[|actions|])
  {
    if actions == [] {
      BeginningIsSound(h, opening, states[0]);
    } else {
      var n := |actions| - 1;
      hide Begins, Happens, Inv;
      RunKeepsInv(h, opening, states[..n + 1], actions[..n]);
      ActionKeepsInv(h, opening, states[n], actions[n], states[n + 1]);
    }
  }
}
