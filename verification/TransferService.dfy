/**
 * The key-value store, the idempotency guard and the transfer service as they run, and their
 * refinement of the step-by-step request.
 */
module TransferService {
  import opened Errors
  import opened IbanDomain
  import opened LedgerDomain
  import opened LedgerStore
  import opened LedgerRepository
  import opened TransferDomain
  import opened Schema
  import opened Transitions
  import opened BankInvariant
  import opened TransferKeeps
  import opened SettlementSteps
  import opened RequestSteps
  import opened Coordinator

  // ---- The store ----

  class RedisStore {
    var records: Store

    constructor ()
      ensures records == map[]
    {
      records := map[];
    }

    method Get(key: string, fate: Fate) returns (r: Result<Record>)
      ensures r == if !fate.Done? then Err(Infrastructure)
                   else if key !in records then Err(Domain(NotFound))
                   else Ok(records[key])
    {
      if !fate.Done? {
        return Err(Infrastructure);
      }
      if key !in records {
        return Err(Domain(NotFound));
      }
      return Ok(records[key]);
    }

    /** Sets the key only if it is absent. */
    method TryAcquire(key: string, fingerprint: string, fate: Fate) returns (r: Result<bool>)
      modifies this
      ensures records == if key in old(records) then old(records)
                         else WrittenTo(old(records), key, Record(Processing, fingerprint, None), fate)
      ensures r == if !fate.Done? then Err(Infrastructure) else Ok(key !in old(records))
    {
      var absent := key !in records;
      if absent && fate.Applied() {
        records := records[key := Record(Processing, fingerprint, None)];
      }
      return if fate.Done? then Ok(absent) else Err(Infrastructure);
    }

    method Put(key: string, record: Record, fate: Fate) returns (r: Result<Unit>)
      modifies this
      ensures records == WrittenTo(old(records), key, record, fate)
      ensures r == if fate.Done? then Ok(Unit) else Err(Infrastructure)
    {
      if fate.Applied() {
        records := records[key := record];
      }
      return if fate.Done? then Ok(Unit) else Err(Infrastructure);
    }

    /** Removes the key, if it is there. */
    method Delete(key: string, fate: Fate) returns (r: Result<Unit>)
      modifies this
      ensures records == if fate.Applied() then old(records) - {key} else old(records)
      ensures r == if fate.Done? then Ok(Unit) else Err(Infrastructure)
    {
      if fate.Applied() {
        records := records - {key};
      }
      return if fate.Done? then Ok(Unit) else Err(Infrastructure);
    }
  }

  // ---- Where a request gets to ----

  function Fresh(cmd: Command): Request {
    Request(cmd, Arrived, false, false)
  }

  /**
   * What the outside decides for a request: what other participants do to tables and records before
   * each statement, the fate of the statement, and what fraud and compliance say.
   */
  datatype Outside = Outside(others: (nat, World) -> World, fates: nat -> Fate, screening: Option<Error>)

  /** Others never file an account under a foreign id. */
  ghost predicate Filing(o: Outside) {
    forall n: nat, w: World :: FiledById(w.tables.ledger) ==> FiledById(o.others(n, w).tables.ledger)
  }

  /** Where the step-by-step request gets to with these chances, if they are possible and the outside's. */
  ghost function Served(h: Hashes, o: Outside, w: World, cmd: Command, trail: seq<Chance>): Option<(World, Request)>
    requires HexDigests(h)
  {
    if trail == [] then Some((w, Fresh(cmd)))
    else
      var n := |trail| - 1;
      match Served(h, o, w, cmd, trail[..n])
      case None => None
      case Some((w', request)) =>
        var u := o.others(n, w');
        if !Postable(h, u.tables, request, trail[n]) || trail[n].fate != o.fates(n)
            || trail[n].screening != o.screening then None
        else Some(Serve(h, u, request, trail[n]))
  }

  /** Records one more chance. */
  lemma Told(h: Hashes, o: Outside, w: World, cmd: Command, trail: seq<Chance>,
      chance: Chance) returns (longer: seq<Chance>)
    requires HexDigests(h) && Served(h, o, w, cmd, trail).Some?
    requires var s := Served(h, o, w, cmd, trail).value; Postable(h, o.others(|trail|, s.0).tables, s.1, chance)
    requires chance.fate == o.fates(|trail|) && chance.screening == o.screening
    ensures var s := Served(h, o, w, cmd, trail).value;
            |longer| == |trail| + 1
                && Served(h, o, w, cmd, longer) == Some(Serve(h, o.others(|trail|, s.0), s.1, chance))
  {
    hide Serve, Postable;
    longer := trail + [chance];
    assert longer[..|trail|] == trail;
  }

  function Luck(o: Outside, n: nat): Chance {
    Chance(o.fates(n), o.screening, [])
  }

  class Service {
    const h: Hashes
    const db: Database
    const redis: RedisStore
    const o: Outside

    constructor (h: Hashes, db: Database, redis: RedisStore, o: Outside)
      ensures this.h == h && this.db == db && this.redis == redis && this.o == o
    {
      this.h := h;
      this.db := db;
      this.redis := redis;
      this.o := o;
    }

    /** The phase a request is in after n statements that led from the start to the present tables and records. */
    ghost predicate At(start: World, cmd: Command, trail: seq<Chance>, n: nat, phase: Phase)
      requires HexDigests(h)
      reads db, redis
    {
      |trail| == n &&
      match Served(h, o, start, cmd, trail)
      case None => false
      case Some((w, request)) => w == World(db.tables, redis.records) && request.cmd == cmd && request.phase == phase
    }

    /** The n-th statement is about to run; meanwhile the others have acted. */
    method Meanwhile(n: nat)
      requires Filing(o)
      modifies db, redis
      ensures World(db.tables, redis.records) == o.others(n, old(World(db.tables, redis.records)))
      ensures FiledById(old(db.tables.ledger)) ==> FiledById(db.tables.ledger)
    {
      var w := o.others(n, World(db.tables, redis.records));
      db.tables := w.tables;
      redis.records := w.store;
    }

    /** Validates, and runs the saga behind the guard; a command that is refused writes nothing of its own. */
    method Execute(cmd: Command) returns (r: Result<TransferResult>, ghost trail: seq<Chance>)
      requires HexDigests(h) && Filing(o) && FiledById(db.tables.ledger)
      modifies db, redis
      ensures At(old(World(db.tables, redis.records)), cmd, trail, |trail|, Answered(r))
      ensures !WellMade(cmd) ==> World(db.tables, redis.records) == o.others(0, old(World(db.tables, redis.records)))
      ensures !KeyFits(cmd) || !TwoAccounts(cmd) || (cmd.amount.halalas > 0 && cmd.iban == "")
              ==> r == Err(Domain(Validation))
      ensures KeyFits(cmd) && TwoAccounts(cmd) && cmd.amount.halalas <= 0 ==> r == Err(Domain(InvalidMoney))
      ensures KeyFits(cmd) && TwoAccounts(cmd) && cmd.amount.halalas > 0 && cmd.iban != ""
                  && !ValidIban(Normalize(cmd.iban))
              ==> r == Err(Domain(InvalidIban))
    {
      ValidIffWellMade(cmd);
      RefusalCodes(cmd);
      hide Serve, Postable, ParseKey, Fingerprint, DecodeResult, WellMade, KeyFits, TwoAccounts, ValidIban, Normalize,
          Validate;
      ghost var start := World(db.tables, redis.records);
      Meanwhile(0);
      ArrivedSteps(h, World(db.tables, redis.records), cmd, Luck(o, 0));
      trail := Told(h, o, start, cmd, [], Luck(o, 0));
      var valid := Validate(cmd);
      if valid.Err? {
        return Err(valid.error), trail;
      }
      var answer: Result<ResultJson>, replay: bool;
      answer, replay, trail := Run(cmd, 1, start, trail);
      r := Decoded(answer, replay);
    }

    /** Runs the saga at most once per key; answers a known key from its record. */
    method Run(cmd: Command, n: nat, ghost start: World, ghost trail: seq<Chance>)
      returns (answer: Result<ResultJson>, replay: bool, ghost trail': seq<Chance>)
      requires HexDigests(h) && Filing(o) && FiledById(db.tables.ledger) && Validate(cmd).Ok?
      requires At(start, cmd, trail, n, Looking)
      modifies db, redis
      ensures At(start, cmd, trail', |trail'|, Answered(Decoded(answer, replay)))
    {
      hide Served, Serve, Postable, Fingerprint, DecodeResult, Validate, ParseKey, KeyOf, Filing;
      ghost var w := start;
      var key, fingerprint := KeyOf(cmd), Fingerprint(h, cmd);
      trail' := trail;
      replay := false;
      Meanwhile(n);
      w := World(db.tables, redis.records);
      var existing := redis.Get(key, o.fates(n));
      GuardSteps(h, w, Served(h, o, start, cmd, trail').value.1, Luck(o, n));
      trail' := Told(h, o, start, cmd, trail', Luck(o, n));
      if existing.Ok? {
        return Answer(existing.value, fingerprint), true, trail';
      }
      if existing.error != Domain(NotFound) {
        return Err(existing.error), false, trail';
      }
      Meanwhile(n + 1);
      w := World(db.tables, redis.records);
      var acquired := redis.TryAcquire(key, fingerprint, o.fates(n + 1));
      GuardSteps(h, w, Served(h, o, start, cmd, trail').value.1, Luck(o, n + 1));
      trail' := Told(h, o, start, cmd, trail', Luck(o, n + 1));
      if acquired.Err? {
        return Err(acquired.error), false, trail';
      }
      if !acquired.value {
        answer, replay, trail' := WaitForExisting(cmd, n + 2, start, trail');
        return;
      }
      var result: Result<ResultJson>, m: nat;
      result, m, trail' := RunSaga(cmd, n + 2, start, trail');
      if result.Err? {
        trail' := HandleFailure(cmd, result.error, m, start, trail');
        return Err(result.error), false, trail';
      }
      var stored: Result<Unit>;
      stored, trail' := Complete(cmd, result.value, m, start, trail');
      return if stored.Err? then Err(stored.error) else result, false, trail';
    }

    method WaitForExisting(cmd: Command, n: nat, ghost start: World, ghost trail: seq<Chance>)
      returns (answer: Result<ResultJson>, replay: bool, ghost trail': seq<Chance>)
      requires HexDigests(h) && Filing(o) && At(start, cmd, trail, n, Waiting)
      modifies db, redis
      ensures At(start, cmd, trail', |trail'|, Answered(Decoded(answer, replay)))
      ensures answer == if !o.fates(n).Done? then Err(Infrastructure)
                        else if KeyOf(cmd) !in redis.records then Err(Domain(NotFound))
                        else Answer(redis.records[KeyOf(cmd)], Fingerprint(h, cmd))
      ensures replay <==> o.fates(n).Done? && KeyOf(cmd) in redis.records
    {
      hide Served, Serve, Postable, Fingerprint, DecodeResult, ParseKey, KeyOf, Filing;
      ghost var w := start;
      Meanwhile(n);
      w := World(db.tables, redis.records);
      var existing := redis.Get(KeyOf(cmd), o.fates(n));
      GuardSteps(h, w, Served(h, o, start, cmd, trail).value.1, Luck(o, n));
      trail' := Told(h, o, start, cmd, trail, Luck(o, n));
      if existing.Err? {
        return Err(existing.error), false, trail';
      }
      return Answer(existing.value, Fingerprint(h, cmd)), true, trail';
    }

    /** Gives the key back if nothing can have moved, otherwise marks it failed; errors here are swallowed. */
    method HandleFailure(cmd: Command, error: Error, n: nat, ghost start: World,
        ghost trail: seq<Chance>) returns (ghost trail': seq<Chance>)
      requires HexDigests(h) && Filing(o) && At(start, cmd, trail, n, AfterFailure(error))
      modifies db, redis
      ensures At(start, cmd, trail', |trail'|, Answered(Err(error)))
    {
      hide Served, Serve, Postable, Fingerprint, DecodeResult, ParseKey, KeyOf, Filing;
      ghost var w := start;
      if IsSafeToRetry(error) {
        Meanwhile(n);
        w := World(db.tables, redis.records);
        var deleted := redis.Delete(KeyOf(cmd), o.fates(n));
        GuardSteps(h, w, Served(h, o, start, cmd, trail).value.1, Luck(o, n));
        trail' := Told(h, o, start, cmd, trail, Luck(o, n));
      } else {
        trail' := Fail(cmd, error, n, start, trail);
      }
    }

    /** Reads the record and writes it back failed. */
    method Fail(cmd: Command, error: Error, n: nat, ghost start: World,
        ghost trail: seq<Chance>) returns (ghost trail': seq<Chance>)
      requires HexDigests(h) && Filing(o) && At(start, cmd, trail, n, Failing(error))
      modifies db, redis
      ensures At(start, cmd, trail', |trail'|, Answered(Err(error)))
    {
      hide Served, Serve, Postable, Fingerprint, DecodeResult, ParseKey, KeyOf, Filing;
      ghost var w := start;
      Meanwhile(n);
      w := World(db.tables, redis.records);
      var existing := redis.Get(KeyOf(cmd), o.fates(n));
      GuardSteps(h, w, Served(h, o, start, cmd, trail).value.1, Luck(o, n));
      trail' := Told(h, o, start, cmd, trail, Luck(o, n));
      if existing.Ok? {
        Meanwhile(n + 1);
        w := World(db.tables, redis.records);
        var failed := redis.Put(KeyOf(cmd), existing.value.(status := RecordFailed), o.fates(n + 1));
        GuardSteps(h, w, Served(h, o, start, cmd, trail').value.1, Luck(o, n + 1));
        trail' := Told(h, o, start, cmd, trail', Luck(o, n + 1));
      }
    }

    /** Reads the record and writes it back completed. */
    method Complete(cmd: Command, payload: ResultJson, n: nat, ghost start: World, ghost trail: seq<Chance>)
      returns (r: Result<Unit>, ghost trail': seq<Chance>)
      requires HexDigests(h) && Filing(o) && At(start, cmd, trail, n, Completing(payload))
      modifies db, redis
      ensures At(start, cmd, trail', |trail'|, Answered(if r.Err? then Err(r.error) else Decoded(Ok(payload), false)))
    {
      hide Served, Serve, Postable, Fingerprint, DecodeResult, ParseKey, KeyOf, Filing;
      ghost var w := start;
      Meanwhile(n);
      w := World(db.tables, redis.records);
      var existing := redis.Get(KeyOf(cmd), o.fates(n));
      GuardSteps(h, w, Served(h, o, start, cmd, trail).value.1, Luck(o, n));
      trail' := Told(h, o, start, cmd, trail, Luck(o, n));
      if existing.Err? {
        return Err(existing.error), trail';
      }
      Meanwhile(n + 1);
      w := World(db.tables, redis.records);
      r := redis.Put(KeyOf(cmd), existing.value.(status := RecordCompleted, payload := Some(payload)), o.fates(n + 1));
      GuardSteps(h, w, Served(h, o, start, cmd, trail').value.1, Luck(o, n + 1));
      trail' := Told(h, o, start, cmd, trail', Luck(o, n + 1));
    }

    /** Fraud and compliance have decided; then the accounts are looked up. */
    method Screen(cmd: Command) returns (r: Result<Unit>)
      ensures r == Screened(db.tables, cmd, o.screening)
      ensures o.screening.Some? ==> r == Err(o.screening.value)
      ensures var accounts := db.tables.ledger.accounts;
              o.screening.None? ==>
                && (cmd.fromAccount !in accounts || cmd.toAccount !in accounts ==> r == Err(Domain(NotFound)))
                && (cmd.fromAccount in accounts && cmd.toAccount in accounts ==>
                      r == if accounts[cmd.fromAccount].typ == accounts[cmd.toAccount].typ == Liability then Ok(Unit)
                           else Err(Domain(Validation)))
    {
      if o.screening.Some? {
        return Err(o.screening.value);
      }
      if cmd.fromAccount !in db.tables.ledger.accounts {
        return Err(Domain(NotFound));
      }
      if cmd.toAccount !in db.tables.ledger.accounts {
        return Err(Domain(NotFound));
      }
      if db.tables.ledger.accounts[cmd.fromAccount].typ != Liability
          || db.tables.ledger.accounts[cmd.toAccount].typ != Liability {
        return Err(Domain(Validation));
      }
      return Ok(Unit);
    }

    /** Screens the transfer, prepares all its rows and commits them together. */
    method RunSaga(cmd: Command, n: nat, ghost start: World, ghost trail: seq<Chance>)
      returns (r: Result<ResultJson>, m: nat, ghost trail': seq<Chance>)
      requires HexDigests(h) && Filing(o) && FiledById(db.tables.ledger) && Validate(cmd).Ok?
      requires At(start, cmd, trail, n, Screening)
      modifies db, redis
      ensures At(start, cmd, trail', m, match r case Ok(payload) => Completing(payload) case Err(e) => AfterFailure(e))
    {
      CommitHangsTogether(h, cmd);
      hide Served, Serve, Postable, Fingerprint, DecodeResult, Validate, ParseKey, Coherent, TransferPosted, Readable;
      Meanwhile(n);
      var screened := Screen(cmd);
      ScreeningSteps(h, World(db.tables, redis.records), Served(h, o, start, cmd, trail).value.1, Luck(o, n));
      trail' := Told(h, o, start, cmd, trail, Luck(o, n));
      m := n + 1;
      if !o.fates(n).Done? {
        return Err(Infrastructure), m, trail';
      }
      if screened.Err? {
        return Err(screened.error), m, trail';
      }
      var commit := CommitFor(h, cmd);
      Meanwhile(m);
      ghost var w, request := World(db.tables, redis.records), Served(h, o, start, cmd, trail').value.1;
      ghost var listings: seq<seq<Entry>>;
      var posted: Result<Unit>;
      posted, listings := PostTransfer(db, commit.value, o.fates(m));
      PostingSteps(h, w, request, Chance(o.fates(m), o.screening, listings));
      trail' := Told(h, o, start, cmd, trail', Chance(o.fates(m), o.screening, listings));
      m := m + 1;
      if posted.Err? {
        return Err(posted.error), m, trail';
      }
      return Ok(EncodeResult(ResultOf(h, cmd, KeyOf(cmd)))), m, trail';
    }
  }

  // ---- One step, spelled out ----

  lemma ArrivedSteps(h: Hashes, w: World, cmd: Command, chance: Chance)
    requires HexDigests(h)
    ensures Postable(h, w.tables, Fresh(cmd), chance)
    ensures var after := Serve(h, w, Fresh(cmd), chance);
            after.0 == w && after.1.cmd == cmd
            && after.1.phase == match Validate(cmd) case Err(e) => Answered(Err(e)) case Ok(_) => Looking
  {
    hide Validate;
  }

  lemma GuardSteps(h: Hashes, w: World, request: Request, chance: Chance)
    requires HexDigests(h) && !request.phase.Screening? && !request.phase.Posting?
    ensures Postable(h, w.tables, request, chance)
    ensures var after := Serve(h, w, request, chance);
            && after.0 == World(w.tables, GuardStep(h, w.store, request, chance).0)
            && after.1.cmd == request.cmd && after.1.phase == GuardStep(h, w.store, request, chance).1
  {
    hide GuardStep;
  }

  lemma ScreeningSteps(h: Hashes, w: World, request: Request, chance: Chance)
    requires HexDigests(h) && request.phase.Screening?
    ensures Postable(h, w.tables, request, chance)
    ensures var after := Serve(h, w, request, chance);
            && after.0 == w && after.1.cmd == request.cmd
            && after.1.phase == if !chance.fate.Done? then AfterFailure(Infrastructure)
                                else match Screened(w.tables, request.cmd,
                                    chance.screening) case Err(e) => AfterFailure(e) case Ok(_) => Posting
  {
    hide Screened;
  }

  lemma PostingSteps(h: Hashes, w: World, request: Request, chance: Chance)
    requires HexDigests(h) && request.phase.Posting? && Validate(request.cmd).Ok? && CommitFor(h, request.cmd).Ok?
    requires Readable(w.tables.ledger, CommitFor(h, request.cmd).value.tx, chance.listings)
    ensures Postable(h, w.tables, request, chance)
    ensures |chance.listings| <= |LockOrder(CommitFor(h, request.cmd).value.tx)|
    ensures var after, posted := Serve(h, w, request, chance),
        Attempted(w.tables, TransferPosted(w.tables, CommitFor(h, request.cmd).value, chance.listings), chance.fate);
            && after.0 == World(posted.0, w.store) && after.1.cmd == request.cmd
            && after.1.phase == match posted.1
                                case Err(e) => AfterFailure(e)
                                case Ok(_) => Completing(EncodeResult(ResultOf(h, request.cmd, KeyOf(request.cmd))))
  {
    hide CommitFor, TransferPosted, Validate, KeyOf;
  }

  /** The others keep the bank's invariant, every row, and what the records vouch for. */
  ghost predicate Polite(h: Hashes, opening: Ledger, o: Outside)
    requires HexDigests(h)
  {
    forall n: nat, w: World :: BankInv(h, opening, w.tables) && StoreOk(h, w) ==>
      BankInv(h, opening, o.others(n, w).tables) && StoreOk(h, o.others(n, w))
          && RowsStay(w.tables, o.others(n, w).tables)
  }

  /** A whole execution among polite others keeps the bank's invariant; a success it reports is a committed transfer. */
  lemma {:induction false} ExecutionIsSound(h: Hashes, opening: Ledger, o: Outside, w: World, cmd: Command,
      trail: seq<Chance>)
    requires HexDigests(h) && Polite(h, opening, o) && BankInv(h, opening, w.tables) && StoreOk(h, w)
    requires Served(h, o, w, cmd, trail).Some?
    ensures var s := Served(h, o, w, cmd, trail).value;
            && BankInv(h, opening, s.0.tables) && StoreOk(h, s.0) && RequestOk(h, s.0.tables, s.1) && s.1.cmd == cmd
            && (s.1.phase.Answered? && s.1.phase.outcome.Ok? ==>
                Committed(h, s.0.tables, KeyOf(cmd), s.1.phase.outcome.value))
  {
    if trail == [] {
      hide BankInv, StoreOk, Validate, ParseKey;
    } else {
      var before, chance := trail[..|trail| - 1], trail[|trail| - 1];
      ServedSnoc(h, o, w, cmd, trail);
      ExecutionIsSound(h, opening, o, w, cmd, before);
      hide Served, BankInv, StoreOk, RequestOk, Serve, Postable, Committed, RowsStay;
      var s := Served(h, o, w, cmd, before).value;
      var u := o.others(|before|, s.0);
      RequestStays(h, s.0.tables, u.tables, s.1);
      ServeIsSound(h, opening, u, s.1, chance);
      AnsweredCommitted(h, Serve(h, u, s.1, chance).0.tables, Serve(h, u, s.1, chance).1);
    }
  }

  lemma ServedSnoc(h: Hashes, o: Outside, w: World, cmd: Command, trail: seq<Chance>)
    requires HexDigests(h) && trail != [] && Served(h, o, w, cmd, trail).Some?
    ensures var before := Served(h, o, w, cmd, trail[..|trail| - 1]);
            && before.Some?
            && Postable(h, o.others(|trail| - 1, before.value.0).tables, before.value.1, trail[|trail| - 1])
            && Served(h, o, w, cmd, trail)
                == Some(Serve(h, o.others(|trail| - 1, before.value.0), before.value.1, trail[|trail| - 1]))
  {
    hide Serve, Postable;
  }

  lemma AnsweredCommitted(h: Hashes, t: Tables, request: Request)
    requires HexDigests(h) && RequestOk(h, t, request)
    ensures request.phase.Answered? && request.phase.outcome.Ok? ==>
        Committed(h, t, KeyOf(request.cmd), request.phase.outcome.value)
  {
    hide Committed, OwnSaga, PayloadOk, Validate, ParseKey, KeyOf;
  }

  lemma ServeIsSound(h: Hashes, opening: Ledger, w: World, request: Request, chance: Chance)
    requires HexDigests(h) && BankInv(h, opening, w.tables) && StoreOk(h, w) && RequestOk(h, w.tables, request)
    requires Postable(h, w.tables, request, chance)
    ensures var after := Serve(h, w, request, chance);
            && BankInv(h, opening, after.0.tables) && StoreOk(h, after.0) && RequestOk(h, after.0.tables, after.1)
            && after.1.cmd == request.cmd
  {
    hide BankInv, StoreOk, RequestOk, RecordOk, Postable, TransferCommits, RowsStay, GuardStep, PostStep, Commits,
        Screened, CommitFor;
    var after := Serve(h, w, request, chance);
    if request.phase.Posting? {
      PostKeepsRequest(h, w, request, chance);
      if after.0.tables != w.tables {
        TransferKeepsInv(h, opening, w.tables, request.cmd, chance.listings, after.0.tables);
      }
      RecordsStay(h, w, after.0.tables);
    } else if request.phase.Screening? {
      ScreeningKeepsRequest(h, w, request, chance);
    } else {
      GuardKeepsRequest(h, w, request, chance);
    }
  }

  lemma RecordsStay(h: Hashes, w: World, t': Tables)
    requires HexDigests(h) && StoreOk(h, w) && RowsStay(w.tables, t')
    ensures StoreOk(h, World(t', w.store))
  {
    hide RecordOk, RowsStay;
    forall key | key in w.store
      ensures RecordOk(h, t', key, w.store[key])
    {
      RecordStays(h, w.tables, t', key, w.store[key]);
    }
  }
}
