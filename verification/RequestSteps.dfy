/** One transfer request, statement by statement, through the idempotency guard and the saga. */
module RequestSteps {
  import opened Errors
  import opened MoneyDomain
  import opened IbanDomain
  import opened LedgerDomain
  import opened LedgerStore
  import opened TransferDomain
  import opened Schema
  import opened Transitions
  import opened BankInvariant
  import opened TransferKeeps
  import opened SettlementSteps

  // ---- The key-value store ----

  datatype RecordStatus = Processing | RecordCompleted | RecordFailed

  datatype Record = Record(status: RecordStatus, fingerprint: string, payload: Option<ResultJson>)

  /** Records of the transfer scope by trimmed key. */
  type Store = map<string, Record>

  predicate Conflicting(existing: string, fingerprint: string) {
    existing != "" && fingerprint != "" && existing != fingerprint
  }

  /** What an existing record answers a request with. */
  function Answer(record: Record, fingerprint: string): Result<ResultJson> {
    if Conflicting(record.fingerprint, fingerprint) then Err(Domain(Conflict))
    else match record.status
      case RecordCompleted => if record.payload.Some? then Ok(record.payload.value) else Err(Infrastructure)
      case Processing => Err(Domain(RequestInProgress))
      case RecordFailed => Err(Domain(Conflict))
  }

  function WrittenTo(store: Store, key: string, record: Record, fate: Fate): Store {
    if fate.Applied() then store[key := record] else store
  }

  predicate IsSafeToRetry(error: Error) {
    error in {Domain(Validation), Domain(InvalidMoney), Domain(InvalidIban), Domain(Forbidden)}
  }

  // ---- One request ----

  datatype Phase =
    | Arrived
    | Looking
    | Acquiring
    | Waiting
    | Screening
    | Posting
    | Completing(payload: ResultJson)
    | Storing(payload: ResultJson, read: Record)
    | Failing(error: Error)
    | StoringFailure(error: Error, read: Record)
    | Deleting(error: Error)
    | Answered(outcome: Result<TransferResult>)

  /** The last two fields are history: this request committed a transfer; it gave its key back. */
  datatype Request = Request(cmd: Command, phase: Phase, moved: bool, released: bool)

  /** What the outside decides: the fate of the statement, what screening finds, the order of listings. */
  datatype Chance = Chance(fate: Fate, screening: Option<Error>, listings: seq<seq<Entry>>)

  function KeyOf(cmd: Command): string {
    match ParseKey(cmd.idempotencyKey) case Ok(key) => key case Err(_) => ""
  }

  /** Fraud and compliance are up to the outside; then both accounts must exist and be wallets. */
  function Screened(t: Tables, cmd: Command, screening: Option<Error>): Result<Unit> {
    match screening
    case Some(e) => Err(e)
    case None =>
      if cmd.fromAccount !in t.ledger.accounts || cmd.toAccount !in t.ledger.accounts then Err(Domain(NotFound))
      else if !t.ledger.accounts[cmd.fromAccount].typ.Liability?
          || !t.ledger.accounts[cmd.toAccount].typ.Liability? then Err(Domain(Validation))
      else Ok(Unit)
  }

  function AfterFailure(error: Error): Phase {
    if IsSafeToRetry(error) then Deleting(error) else Failing(error)
  }

  /** A guard's success, decoded for the client. */
  function Decoded(answer: Result<ResultJson>, replayed: bool): Result<TransferResult> {
    match answer
    case Err(e) => Err(e)
    case Ok(payload) =>
      match DecodeResult(payload)
      case Err(e) => Err(e)
      case Ok(r) => Ok(r.(replayed := replayed))
  }

  datatype World = World(tables: Tables, store: Store)

  ghost predicate Postable(h: Hashes, t: Tables, request: Request, chance: Chance)
    requires HexDigests(h)
  {
    request.phase.Posting? ==> Validate(request.cmd).Ok? && CommitFor(h, request.cmd).Ok?
                               && Readable(t.ledger, CommitFor(h, request.cmd).value.tx, chance.listings)
  }

  ghost function PostStep(h: Hashes, t: Tables, cmd: Command, chance: Chance): (r: (Tables, Result<Unit>))
    requires HexDigests(h) && CommitFor(h, cmd).Ok? && |chance.listings| <= |LockOrder(CommitFor(h, cmd).value.tx)|
  {
    Attempted(t, TransferPosted(t, CommitFor(h, cmd).value, chance.listings), chance.fate)
  }

  ghost predicate Commits(h: Hashes, t: Tables, cmd: Command, chance: Chance)
    requires HexDigests(h) && CommitFor(h, cmd).Ok? && |chance.listings| <= |LockOrder(CommitFor(h, cmd).value.tx)|
  {
    TransferPosted(t, CommitFor(h, cmd).value, chance.listings).Ok? && chance.fate.Applied()
  }

  /** Statements that touch only the key-value store, or nothing. */
  function GuardStep(h: Hashes, store: Store, request: Request, chance: Chance): (Store, Phase)
    requires !request.phase.Screening? && !request.phase.Posting?
  {
    var cmd := request.cmd;
    var key := KeyOf(cmd);
    var fingerprint := Fingerprint(h, cmd);
    var broken := Answered(Err(Infrastructure));
    match request.phase
    case Arrived =>
      (store, match Validate(cmd) case Err(e) => Answered(Err(e)) case Ok(_) => Looking)
    case Looking =>
      (store, if !chance.fate.Done? then broken
              else if key !in store then Acquiring
              else Answered(Decoded(Answer(store[key], fingerprint), true)))
    case Acquiring =>
      (if key in store then store else WrittenTo(store, key, Record(Processing, fingerprint, None), chance.fate),
       if !chance.fate.Done? then broken else if key in store then Waiting else Screening)
    case Waiting =>
      (store, if !chance.fate.Done? then broken
              else if key !in store then Answered(Err(Domain(NotFound)))
              else Answered(Decoded(Answer(store[key], fingerprint), true)))
    case Completing(payload) =>
      (store, if !chance.fate.Done? then broken
              else if key !in store then Answered(Err(Domain(NotFound)))
              else Storing(payload, store[key]))
    case Storing(payload, read) =>
      (WrittenTo(store, key, read.(status := RecordCompleted, payload := Some(payload)), chance.fate),
       if chance.fate.Done? then Answered(Decoded(Ok(payload), false)) else broken)
    case Failing(e) =>
      (store, if !chance.fate.Done? || key !in store then Answered(Err(e)) else StoringFailure(e, store[key]))
    case StoringFailure(e, read) =>
      (WrittenTo(store, key, read.(status := RecordFailed), chance.fate), Answered(Err(e)))
    case Deleting(e) =>
      (if chance.fate.Applied() then store - {key} else store, Answered(Err(e)))
    case Answered(_) => (store, request.phase)
  }

  ghost function Serve(h: Hashes, w: World, request: Request, chance: Chance): (World, Request)
    requires HexDigests(h) && Postable(h, w.tables, request, chance)
  {
    if request.phase.Screening? then
      (w, request.(phase :=
        if !chance.fate.Done? then AfterFailure(Infrastructure)
        else match Screened(w.tables, request.cmd,
            chance.screening) case Err(e) => AfterFailure(e) case Ok(_) => Posting))
    else if request.phase.Posting? then
      var after := PostStep(h, w.tables, request.cmd, chance);
      (w.(tables := after.0),
       request.(phase := match after.1
                         case Err(e) => AfterFailure(e)
                         case Ok(_) => Completing(EncodeResult(ResultOf(h, request.cmd, KeyOf(request.cmd)))),
                moved := request.moved || Commits(h, w.tables, request.cmd, chance)))
    else
      var after := GuardStep(h, w.store, request, chance);
      (w.(store := after.0), request.(phase := after.1, released := request.released || request.phase.Deleting?))
  }

  // ---- What requests and records vouch for ----

  /** A saga that a result belongs to. */
  ghost predicate Backs(h: Hashes, saga: Saga, key: string, result: TransferResult)
    requires HexDigests(h)
  {
    && Decodes(saga) && ParseKey(saga.idempotencyKey) == Ok(key)
    && result.(replayed := false) == ResultOf(h, CommandOf(saga), key)
  }

  /** A committed transfer under this key, with exactly this result. */
  ghost predicate Committed(h: Hashes, t: Tables, key: string, result: TransferResult)
    requires HexDigests(h)
  {
    exists id :: id in t.sagas && Backs(h, t.sagas[id], key, result)
  }

  ghost predicate PayloadOk(h: Hashes, t: Tables, key: string, payload: ResultJson)
    requires HexDigests(h)
  {
    DecodeResult(payload).Ok? && Committed(h, t, key, DecodeResult(payload).value)
  }

  ghost predicate RecordOk(h: Hashes, t: Tables, key: string, record: Record)
    requires HexDigests(h)
  {
    record.status.RecordCompleted? ==> record.payload.Some? && PayloadOk(h, t, key, record.payload.value)
  }

  ghost predicate StoreOk(h: Hashes, w: World)
    requires HexDigests(h)
  {
    forall key :: key in w.store ==> RecordOk(h, w.tables, key, w.store[key])
  }

  ghost predicate OwnSaga(t: Tables, cmd: Command) {
    exists id :: id in t.sagas && Decodes(t.sagas[id]) && CommandOf(t.sagas[id]) == cmd
  }

  ghost predicate RequestOk(h: Hashes, t: Tables, request: Request)
    requires HexDigests(h)
  {
    var key := KeyOf(request.cmd);
    && (!request.phase.Arrived? && !request.phase.Answered? ==> Validate(request.cmd).Ok?)
    && (request.moved ==> OwnSaga(t, request.cmd))
    && (request.released ==>
          && !request.moved && request.phase.Answered? && request.phase.outcome.Err?
          && IsSafeToRetry(request.phase.outcome.error))
    && match request.phase
       case Completing(payload) => request.moved && PayloadOk(h, t, key, payload)
       case Storing(payload, _) => request.moved && PayloadOk(h, t, key, payload)
       case Deleting(e) => !request.moved && IsSafeToRetry(e)
       case Failing(e) => !IsSafeToRetry(e)
       case StoringFailure(e, _) => !IsSafeToRetry(e)
       case Answered(outcome) => outcome.Ok? ==>
           ParseKey(request.cmd.idempotencyKey).Ok? && Committed(h, t, key, outcome.value)
       case _ => !request.moved
  }

  // ---- Rows stay, so what they vouch for stays ----

  lemma CommittedStays(h: Hashes, t: Tables, t': Tables, key: string, result: TransferResult)
    requires HexDigests(h) && RowsStay(t, t') && Committed(h, t, key, result)
    ensures Committed(h, t', key, result)
  {
    hide ParseSAR, ParseKey, TransferLines, ReversalLines;
    var id :| id in t.sagas && Backs(h, t.sagas[id], key, result);
    assert SameSaga(t.sagas[id], t'.sagas[id]);
  }

  lemma OwnSagaStays(t: Tables, t': Tables, cmd: Command)
    requires RowsStay(t, t') && OwnSaga(t, cmd)
    ensures OwnSaga(t', cmd)
  {
    hide ParseSAR, ParseKey, TransferLines, ReversalLines;
    var id :| id in t.sagas && Decodes(t.sagas[id]) && CommandOf(t.sagas[id]) == cmd;
    assert SameSaga(t.sagas[id], t'.sagas[id]);
  }

  lemma RequestStays(h: Hashes, t: Tables, t': Tables, request: Request)
    requires HexDigests(h) && RowsStay(t, t') && RequestOk(h, t, request)
    ensures RequestOk(h, t', request)
  {
    hide RowsStay, Committed, OwnSaga, DecodeResult, Validate, ParseKey;
    var key := KeyOf(request.cmd);
    if request.moved {
      OwnSagaStays(t, t', request.cmd);
    }
    if request.phase.Completing? || request.phase.Storing? {
      CommittedStays(h, t, t', key, DecodeResult(request.phase.payload).value);
    } else if request.phase.Answered? && request.phase.outcome.Ok? {
      CommittedStays(h, t, t', key, request.phase.outcome.value);
    }
  }

  lemma RecordStays(h: Hashes, t: Tables, t': Tables, key: string, record: Record)
    requires HexDigests(h) && RowsStay(t, t') && RecordOk(h, t, key, record)
    ensures RecordOk(h, t', key, record)
  {
    hide RowsStay, Committed, DecodeResult;
    if record.status.RecordCompleted? {
      CommittedStays(h, t, t', key, DecodeResult(record.payload.value).value);
    }
  }

  // ---- Every statement of a request keeps all this ----

  /** A commit backs the result that the request is about to report. */
  lemma CommitBacks(h: Hashes, t: Tables, cmd: Command, listings: seq<seq<Entry>>, t': Tables)
    requires HexDigests(h) && TransferCommits(h, t, cmd, listings, t')
    ensures OwnSaga(t', cmd) && PayloadOk(h, t', KeyOf(cmd), EncodeResult(ResultOf(h, cmd, KeyOf(cmd))))
    ensures RowsStay(t, t')
  {
    var b := CommitIsBooking(h, t, cmd, listings, t');
    hide TransferCommits, ParseKey, ParsedIban, ParseSAR, Accepts, TransferLines, ReversalLines, Validate, RowsStay,
        IdsDerived;
    assert b.saga.id in t'.sagas && t'.sagas[b.saga.id] == b.saga;
    BookedRowsStay(t, b);
    ValidFromCommits(h, t, cmd, listings, t');
    ValidKey(cmd);
    ResultRoundTrip(ResultOf(h, cmd, KeyOf(cmd)));
    assert Backs(h, b.saga, KeyOf(cmd), ResultOf(h, cmd, KeyOf(cmd)));
  }

  lemma ValidFromCommits(h: Hashes, t: Tables, cmd: Command, listings: seq<seq<Entry>>, t': Tables)
    requires HexDigests(h) && TransferCommits(h, t, cmd, listings, t')
    ensures Validate(cmd).Ok?
  {
  }

  lemma ValidKey(cmd: Command)
    requires Validate(cmd).Ok?
    ensures ParseKey(cmd.idempotencyKey) == Ok(KeyOf(cmd))
    ensures cmd.amount.currency == CURRENCY_SAR && cmd.amount.halalas > 0
  {
  }

  lemma PostKeepsRequest(h: Hashes, w: World, request: Request, chance: Chance)
    requires HexDigests(h) && RequestOk(h, w.tables, request) && Postable(h, w.tables, request, chance)
    requires request.phase.Posting?
    ensures var after := Serve(h, w, request, chance);
            RequestOk(h, after.0.tables, after.1) && RowsStay(w.tables, after.0.tables)
    ensures var after := Serve(h, w, request, chance);
            after.0.tables == w.tables || TransferCommits(h, w.tables, request.cmd, chance.listings, after.0.tables)
  {
    hide Validate, CommitFor, TransferPosted, OwnSaga, PayloadOk, ParseKey, KeyOf, RowsStay, ResultOf, EncodeResult;
    var t' := Serve(h, w, request, chance).0.tables;
    if Commits(h, w.tables, request.cmd, chance) {
      CommitBacks(h, w.tables, request.cmd, chance.listings, t');
    }
    NothingIsStatus(w.tables);
    StatusesKeepRows(w.tables, w.tables);
    PostingErrors(h, w.tables, request.cmd, chance);
  }

  /** An error after a commit is never one that invites a retry under the same key. */
  lemma PostingErrors(h: Hashes, t: Tables, cmd: Command, chance: Chance)
    requires HexDigests(h) && CommitFor(h, cmd).Ok? && |chance.listings| <= |LockOrder(CommitFor(h, cmd).value.tx)|
    ensures var after := PostStep(h, t, cmd, chance);
            after.1.Err? && IsSafeToRetry(after.1.error) ==> !Commits(h, t, cmd, chance)
  {
    hide CommitFor, TransferPosted;
  }

  lemma GuardKeepsStore(h: Hashes, w: World, request: Request, chance: Chance)
    requires HexDigests(h) && RequestOk(h, w.tables, request) && StoreOk(h, w) && !request.phase.Posting?
    requires !request.phase.Screening?
    ensures StoreOk(h, World(w.tables, GuardStep(h, w.store, request, chance).0))
  {
    hide Validate, ParseKey, OwnSaga, Committed, Fingerprint, DecodeResult, KeyOf;
  }

  /** A request answered from a record. */
  lemma AnsweringKeepsPhase(h: Hashes, w: World, request: Request, chance: Chance)
    requires HexDigests(h) && RequestOk(h, w.tables, request) && StoreOk(h, w)
    requires (request.phase.Looking? || request.phase.Waiting?)
    ensures RequestOk(h, w.tables, Serve(h, w, request, chance).1)
  {
    hide OwnSaga, Fingerprint, Decoded, Answer, Committed, KeyOf, StoreOk, ParsedIban;
    var key, fingerprint := KeyOf(request.cmd), Fingerprint(h, request.cmd);
    ValidKey(request.cmd);
    hide Validate, ParseKey;
    if key in w.store && Decoded(Answer(w.store[key], fingerprint), true).Ok? {
      AnswerCommitted(h, w, key, fingerprint);
    }
  }

  /** A request about to report its own result. */
  lemma StoringKeepsPhase(h: Hashes, w: World, request: Request, chance: Chance)
    requires HexDigests(h) && RequestOk(h, w.tables, request) && request.phase.Storing?
    ensures RequestOk(h, w.tables, Serve(h, w, request, chance).1)
  {
    hide OwnSaga, Fingerprint, DecodeResult, Committed, KeyOf, ParsedIban;
    ValidKey(request.cmd);
    hide Validate, ParseKey;
    SameBacking(h, w.tables, KeyOf(request.cmd), DecodeResult(request.phase.payload).value, false);
  }

  lemma GuardKeepsPhase(h: Hashes, w: World, request: Request, chance: Chance)
    requires HexDigests(h) && RequestOk(h, w.tables, request) && StoreOk(h, w) && !request.phase.Posting?
    requires !request.phase.Screening?
    ensures RequestOk(h, w.tables, Serve(h, w, request, chance).1)
  {
    hide OwnSaga, PayloadOk, Fingerprint, Decoded, Answer, Committed, KeyOf, StoreOk, Validate, ParseKey;
    if request.phase.Looking? || request.phase.Waiting? {
      AnsweringKeepsPhase(h, w, request, chance);
    } else if request.phase.Storing? {
      StoringKeepsPhase(h, w, request, chance);
    }
  }

  lemma GuardKeepsRequest(h: Hashes, w: World, request: Request, chance: Chance)
    requires HexDigests(h) && RequestOk(h, w.tables, request) && StoreOk(h, w) && !request.phase.Posting?
    requires !request.phase.Screening?
    ensures var after := Serve(h, w, request, chance);
            RequestOk(h, after.0.tables, after.1) && StoreOk(h, after.0) && after.0.tables == w.tables
  {
    hide RequestOk, StoreOk, GuardStep;
    GuardKeepsStore(h, w, request, chance);
    GuardKeepsPhase(h, w, request, chance);
  }

  /** Whatever a record answers with was committed. */
  lemma AnswerCommitted(h: Hashes, w: World, key: string, fingerprint: string)
    requires HexDigests(h) && StoreOk(h, w) && key in w.store && Decoded(Answer(w.store[key], fingerprint), true).Ok?
    ensures Committed(h, w.tables, key, Decoded(Answer(w.store[key], fingerprint), true).value)
  {
    hide DecodeResult, Committed;
    assert RecordOk(h, w.tables, key, w.store[key]);
    SameBacking(h, w.tables, key, DecodeResult(w.store[key].payload.value).value, true);
  }

  lemma SameBacking(h: Hashes, t: Tables, key: string, result: TransferResult, replayed: bool)
    requires HexDigests(h) && Committed(h, t, key, result)
    ensures Committed(h, t, key, result.(replayed := replayed))
  {
    hide ParseKey, Decodes, ResultOf;
    var id :| id in t.sagas && Backs(h, t.sagas[id], key, result);
    assert Backs(h, t.sagas[id], key, result.(replayed := replayed));
  }

  lemma ScreeningKeepsRequest(h: Hashes, w: World, request: Request, chance: Chance)
    requires HexDigests(h) && RequestOk(h, w.tables, request) && request.phase.Screening?
    ensures var after := Serve(h, w, request, chance);
            RequestOk(h, after.0.tables, after.1) && after.0 == w
  {
    hide Validate, ParseKey, OwnSaga, PayloadOk, Screened;
  }
}
