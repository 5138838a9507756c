/** Runs of the bank, built one action at a time. */
module BankRuns {
  import opened Errors
  import opened LedgerDomain
  import opened LedgerStore
  import opened TransferDomain
  import opened Schema
  import opened Transitions
  import opened TransferKeeps
  import opened RequestSteps
  import opened BankMachine

  /** A statement that is done and reported, with nothing found in screening. */
  function Plain(listings: seq<seq<Entry>>): Chance {
    Chance(Done, None, listings)
  }

  /** Nothing goes wrong: the statement is done and its caller hears so, and no record expires. */
  predicate Undisturbed(a: Action) {
    match a
    case Request(_, chance) => chance.fate.Done?
    case Worker(_, choice) => choice.fate.Done?
    case _ => false
  }

  predicate Smooth(actions: seq<Action>) {
    forall i :: 0 <= i < |actions| ==> Undisturbed(actions[i])
  }

  function AtPhase(cmd: Command, phase: Phase): RequestSteps.Request {
    RequestSteps.Request(cmd, phase, false, false)
  }

  lemma Begun(h: Hashes, opening: Ledger, s: Bank)
    requires HexDigests(h) && Begins(opening, s)
    ensures Run(h, opening, [s], [])
  {
    hide Begins, Happens;
  }

  lemma OneMoreAction(h: Hashes, opening: Ledger, states: seq<Bank>, actions: seq<Action>, a: Action, last: Bank)
    requires HexDigests(h) && |states| == |actions| + 1 && Run(h, opening, states, actions)
    requires Happens(h, states[|actions|], a, last)
    ensures Run(h, opening, states + [last], actions + [a])
  {
    hide Begins, Happens;
  }

  /** One statement of one request. */
  lemma Serving(h: Hashes, opening: Ledger, states: seq<Bank>, actions: seq<Action>, who: nat, chance: Chance)
    returns (states': seq<Bank>, actions': seq<Action>, last: Bank)
    requires HexDigests(h) && |states| == |actions| + 1 && Run(h, opening, states, actions)
    requires who in states[|actions|].requests
    requires Postable(h, states[|actions|].tables, states[|actions|].requests[who], chance)
    ensures states' == states + [last] && actions' == actions + [BankMachine.Request(who, chance)]
    ensures Run(h, opening, states', actions')
    ensures var s := states[|actions|];
            var after := Serve(h, World(s.tables, s.store), s.requests[who], chance);
            last == s.(tables := after.0.tables, store := after.0.store, requests := s.requests[who := after.1])
  {
    hide Run, Serve, Postable;
    var s := states[|actions|];
    var after := Serve(h, World(s.tables, s.store), s.requests[who], chance);
    last := s.(tables := after.0.tables, store := after.0.store, requests := s.requests[who := after.1]);
    states', actions' := states + [last], actions + [BankMachine.Request(who, chance)];
    OneMoreAction(h, opening, states, actions, BankMachine.Request(who, chance), last);
  }

  // ---- What each statement does when all goes well ----

  lemma Looks(h: Hashes, w: World, cmd: Command)
    requires HexDigests(h) && Validate(cmd).Ok? && KeyOf(cmd) !in w.store
    ensures Postable(h, w.tables, AtPhase(cmd, Arrived), Plain([]))
    ensures Postable(h, w.tables, AtPhase(cmd, Looking), Plain([]))
    ensures Serve(h, w, AtPhase(cmd, Arrived), Plain([])) == (w, AtPhase(cmd, Looking))
    ensures Serve(h, w, AtPhase(cmd, Looking), Plain([])) == (w, AtPhase(cmd, Acquiring))
  {
    hide Validate, KeyOf, Fingerprint;
  }

  lemma Acquires(h: Hashes, w: World, cmd: Command)
    requires HexDigests(h) && KeyOf(cmd) !in w.store
    ensures Postable(h, w.tables, AtPhase(cmd, Acquiring), Plain([]))
    ensures Serve(h, w, AtPhase(cmd, Acquiring), Plain([]))
            == (w.(store := w.store[KeyOf(cmd) := Record(Processing, Fingerprint(h, cmd), None)]),
                AtPhase(cmd, Screening))
  {
    hide KeyOf, Fingerprint;
  }

  lemma Passes(h: Hashes, w: World, cmd: Command)
    requires HexDigests(h) && Screened(w.tables, cmd, None).Ok?
    ensures Postable(h, w.tables, AtPhase(cmd, Screening), Plain([]))
    ensures Serve(h, w, AtPhase(cmd, Screening), Plain([])) == (w, AtPhase(cmd, Posting))
  {
    hide Screened;
  }

  function Ready(h: Hashes, cmd: Command): ResultJson
    requires HexDigests(h)
  {
    EncodeResult(ResultOf(h, cmd, KeyOf(cmd)))
  }

  lemma Posts(h: Hashes, w: World, cmd: Command, listings: seq<seq<Entry>>, t': Tables)
    requires HexDigests(h) && TransferCommits(h, w.tables, cmd, listings, t')
    ensures Postable(h, w.tables, AtPhase(cmd, Posting), Plain(listings))
    ensures Serve(h, w, AtPhase(cmd, Posting), Plain(listings))
            == (w.(tables := t'), RequestSteps.Request(cmd, Completing(Ready(h, cmd)), true, false))
  {
    hide Validate, CommitFor, TransferPosted, KeyOf, ResultOf, EncodeResult;
    PostableFits(w.tables.ledger, CommitFor(h, cmd).value.tx, listings);
  }

  lemma PostableFits(ledger: Ledger, tx: Transaction, listings: seq<seq<Entry>>)
    requires Readable(ledger, tx, listings)
    ensures |listings| <= |LockOrder(tx)|
  {
  }

  lemma Reads(h: Hashes, w: World, cmd: Command)
    requires HexDigests(h) && KeyOf(cmd) in w.store
    ensures var request := RequestSteps.Request(cmd, Completing(Ready(h, cmd)), true, false);
            && Postable(h, w.tables, request, Plain([]))
            && Serve(h, w, request, Plain([])) == (w, request.(phase := Storing(Ready(h, cmd), w.store[KeyOf(cmd)])))
  {
    hide KeyOf, Fingerprint, ResultOf, EncodeResult;
  }

  lemma Stores(h: Hashes, w: World, cmd: Command, read: Record)
    requires HexDigests(h)
    ensures var request := RequestSteps.Request(cmd, Storing(Ready(h, cmd), read), true, false);
            && Postable(h, w.tables, request, Plain([]))
            && Serve(h, w, request, Plain([]))
               == (w.(store := w.store[KeyOf(cmd) := read.(status := RecordCompleted, payload := Some(Ready(h, cmd)))]),
                   request.(phase := Answered(Decoded(Ok(Ready(h, cmd)), false))))
  {
    hide KeyOf, Fingerprint, ResultOf, EncodeResult, Decoded;
  }

  /** Compliance turns the request down, and the guard gives the key back. */
  lemma TurnedDown(h: Hashes, w: World, cmd: Command)
    requires HexDigests(h)
    ensures var chance, error := Chance(Done, Some(Domain(Forbidden)), []), Domain(Forbidden);
            && Postable(h, w.tables, AtPhase(cmd, Screening), chance)
            && Postable(h, w.tables, AtPhase(cmd, Deleting(error)), Plain([]))
            && Serve(h, w, AtPhase(cmd, Screening), chance) == (w, AtPhase(cmd, Deleting(error)))
            && Serve(h, w, AtPhase(cmd, Deleting(error)), Plain([]))
               == (w.(store := w.store - {KeyOf(cmd)}), RequestSteps.Request(cmd, Answered(Err(error)), false, true))
  {
    hide KeyOf, Fingerprint;
  }

  // ---- Stretches of a run ----

  /** A fresh request looks, finds nothing, and is about to acquire its key. */
  lemma Approaches(h: Hashes, opening: Ledger, states: seq<Bank>, actions: seq<Action>, who: nat, cmd: Command)
    returns (states': seq<Bank>, actions': seq<Action>, last: Bank)
    requires HexDigests(h) && |states| == |actions| + 1 && Run(h, opening, states, actions)
    requires who in states[|actions|].requests && states[|actions|].requests[who] == AtPhase(cmd, Arrived)
    requires Validate(cmd).Ok? && KeyOf(cmd) !in states[|actions|].store
    ensures |states'| == |actions'| + 1 && Run(h, opening, states', actions') && last == states'[|actions'|]
    ensures Smooth(actions) ==> Smooth(actions')
    ensures last == states[|actions|].(requests := states[|actions|].requests[who := AtPhase(cmd, Acquiring)])
  {
    hide Run, Serve, Postable, Validate, KeyOf;
    var s := states[|actions|];
    Looks(h, World(s.tables, s.store), cmd);
    states', actions', last := Serving(h, opening, states, actions, who, Plain([]));
    states', actions', last := Serving(h, opening, states', actions', who, Plain([]));
    assert last.requests == s.requests[who := AtPhase(cmd, Acquiring)];
  }

  /** The request acquires its key and enters the protected function. */
  lemma Enters(h: Hashes, opening: Ledger, states: seq<Bank>, actions: seq<Action>, who: nat, cmd: Command)
    returns (states': seq<Bank>, actions': seq<Action>, last: Bank)
    requires HexDigests(h) && |states| == |actions| + 1 && Run(h, opening, states, actions)
    requires who in states[|actions|].requests && states[|actions|].requests[who] == AtPhase(cmd, Acquiring)
    requires KeyOf(cmd) !in states[|actions|].store
    ensures |states'| == |actions'| + 1 && Run(h, opening, states', actions') && last == states'[|actions'|]
    ensures Smooth(actions) ==> Smooth(actions')
    ensures var s := states[|actions|];
            last == s.(requests := s.requests[who := AtPhase(cmd, Screening)],
                       store := s.store[KeyOf(cmd) := Record(Processing, Fingerprint(h, cmd), None)])
  {
    hide Run, Serve, Postable, KeyOf, Fingerprint;
    var s := states[|actions|];
    Acquires(h, World(s.tables, s.store), cmd);
    states', actions', last := Serving(h, opening, states, actions, who, Plain([]));
  }

  lemma Expires(h: Hashes, opening: Ledger, states: seq<Bank>, actions: seq<Action>, key: string)
    returns (states': seq<Bank>, actions': seq<Action>, last: Bank)
    requires HexDigests(h) && |states| == |actions| + 1 && Run(h, opening, states, actions)
    ensures |states'| == |actions'| + 1 && Run(h, opening, states', actions') && last == states'[|actions'|]
    ensures last == states[|actions|].(store := states[|actions|].store - {key})
  {
    last := states[|actions|].(store := states[|actions|].store - {key});
    states', actions' := states + [last], actions + [Expire(key)];
    OneMoreAction(h, opening, states, actions, Expire(key), last);
    hide Run;
  }

  /** The request passes screening and commits its transfer. */
  lemma Transfers(h: Hashes, opening: Ledger, states: seq<Bank>, actions: seq<Action>, who: nat, cmd: Command,
      listings: seq<seq<Entry>>, t': Tables)
    returns (states': seq<Bank>, actions': seq<Action>, last: Bank)
    requires HexDigests(h) && |states| == |actions| + 1 && Run(h, opening, states, actions)
    requires who in states[|actions|].requests && states[|actions|].requests[who] == AtPhase(cmd, Screening)
    requires Screened(states[|actions|].tables, cmd, None).Ok?
    requires TransferCommits(h, states[|actions|].tables, cmd, listings, t')
    ensures |states'| == |actions'| + 1 && Run(h, opening, states', actions') && last == states'[|actions'|]
    ensures Smooth(actions) ==> Smooth(actions')
    ensures var s := states[|actions|];
            last == s.(tables := t',
                requests := s.requests[who := RequestSteps.Request(cmd, Completing(Ready(h, cmd)), true, false)])
  {
    hide Run, Serve, Postable, Screened, TransferCommits, Ready;
    var s := states[|actions|];
    Passes(h, World(s.tables, s.store), cmd);
    states', actions', last := Serving(h, opening, states, actions, who, Plain([]));
    Posts(h, World(s.tables, s.store), cmd, listings, t');
    states', actions', last := Serving(h, opening, states', actions', who, Plain(listings));
    var done := RequestSteps.Request(cmd, Completing(Ready(h, cmd)), true, false);
    assert last.requests == s.requests[who := done];
  }
}
