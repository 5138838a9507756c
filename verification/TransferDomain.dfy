/** Transfer commands, the ids derived from them, and the records they are stored and replayed as. */
module TransferDomain {
  import opened Errors
  import opened MoneyDomain
  import opened IbanDomain
  import opened LedgerDomain

  // ---- Hashes ----

  /**
   * SHA-256 in hexadecimal, and the hash of a command's canonical payload: deterministic functions
   * of which only the length of a digest is known. Nothing below assumes that they are injective.
   */
  datatype Hashes = Hashes(digest: string -> string, intent: Intent -> string)

  ghost predicate HexDigests(h: Hashes) {
    forall text :: |h.digest(text)| == 64
  }

  datatype Intent = Intent(fromAccount: string, toAccount: string, halalas: int, currency: string, iban: string,
      name: string)

  // ---- Keys and ids ----

  const MIN_KEY_LENGTH := 8
  const MAX_KEY_LENGTH := 128

  function ParseKey(raw: string): Result<string> {
    var key := TrimSpace(raw);
    if key == "" then Err(Domain(Validation))
    else if |key| < MIN_KEY_LENGTH || |key| > MAX_KEY_LENGTH then Err(Domain(Validation))
    else Ok(key)
  }

  /** The journal id of the one transfer that a (trimmed) key may post. */
  function TransferId(h: Hashes, key: string): string
    requires HexDigests(h)
  {
    "tx_idem_" + h.digest("transfer:" + key)[..32]
  }

  /** Sagas are keyed by the key as the client sent it, untrimmed. */
  function SagaId(h: Hashes, rawKey: string): string
    requires HexDigests(h)
  {
    "saga_" + h.digest("saga:" + rawKey)[..24]
  }

  function SettlementId(txId: string): string {
    "stl_" + txId
  }

  function CompensationId(txId: string): string {
    txId + "-comp"
  }

  function EventId(txId: string): string {
    "evt_transfer_posted_" + txId
  }

  function EntryId(txId: string, leg: nat): string {
    txId + "-leg" + Decimal(leg)
  }

  /** A line id gives back its journal id and its leg, so two journals never share a line id. */
  lemma EntryIdInjective(txId: string, leg: nat, txId': string, leg': nat)
    requires EntryId(txId, leg) == EntryId(txId', leg')
    ensures txId == txId' && leg == leg'
  {
    var d, d' := Decimal(leg), Decimal(leg');
    DecimalDigits(leg);
    DecimalDigits(leg');
    SameSuffix(txId + "-leg", d, txId' + "-leg", d');
    assert txId == (txId + "-leg")[..|txId|];
    assert txId' == (txId' + "-leg")[..|txId'|];
  }

  lemma PrefixNoLonger(a: string, d: string, a': string, d': string)
    requires a + d == a' + d' && AllDigits(d)
    requires a' != "" && !IsDigit(a'[|a'| - 1])
    ensures |a'| <= |a|
  {
    var s := a + d;
    assert forall i :: |a| <= i < |s| ==> s[i] == d[i - |a|] && IsDigit(s[i]);
    assert s[|a'| - 1] == a'[|a'| - 1];
  }

  lemma SameSuffix(a: string, d: string, a': string, d': string)
    requires a + d == a' + d' && AllDigits(d) && AllDigits(d')
    requires a != "" && a' != "" && !IsDigit(a[|a| - 1]) && !IsDigit(a'[|a'| - 1])
    ensures a == a' && d == d'
  {
    PrefixNoLonger(a, d, a', d');
    PrefixNoLonger(a', d', a, d);
    var s := a + d;
    assert a == s[..|a|] && a' == s[..|a'|];
    assert d == s[|a|..] && d' == s[|a'|..];
  }

  /** Transfer ids, their reversals, and the shapes that keep them apart. */
  lemma IdShapes(h: Hashes, key: string, key': string)
    requires HexDigests(h)
    ensures |TransferId(h, key)| == 40
    ensures TransferId(h, key) != CompensationId(TransferId(h, key'))
    ensures CompensationId(TransferId(h, key)) == CompensationId(TransferId(h, key')) ==>
        TransferId(h, key) == TransferId(h, key')
  {
    var t, t' := TransferId(h, key), TransferId(h, key');
    assert CompensationId(t)[..40] == t && CompensationId(t')[..40] == t';
  }

  lemma DerivedIdsInjective(txId: string, txId': string)
    ensures SettlementId(txId) == SettlementId(txId') ==> txId == txId'
    ensures EventId(txId) == EventId(txId') ==> txId == txId'
    ensures CompensationId(txId) == CompensationId(txId') ==> txId == txId'
  {
    assert SettlementId(txId)[4..] == txId && SettlementId(txId')[4..] == txId';
    assert EventId(txId)[20..] == txId && EventId(txId')[20..] == txId';
    assert CompensationId(txId)[..|CompensationId(txId)| - 5] == txId;
    assert CompensationId(txId')[..|CompensationId(txId')| - 5] == txId';
  }

  // ---- Commands ----

  datatype Command = Command(
    idempotencyKey: string, fromAccount: string, toAccount: string, amount: Money,
    iban: string, name: string, description: string)

  function Validate(cmd: Command): Result<Unit> {
    match ParseKey(cmd.idempotencyKey)
    case Err(e) => Err(e)
    case Ok(_) =>
      if cmd.fromAccount == "" || cmd.toAccount == "" then Err(Domain(Validation))
      else if cmd.fromAccount == cmd.toAccount then Err(Domain(Validation))
      else if cmd.amount.halalas <= 0 then Err(Domain(InvalidMoney))
      else if cmd.iban == "" then Err(Domain(Validation))
      else match ParsedIban(cmd.iban)
        case Err(e) => Err(e)
        case Ok(_) => Ok(Unit)
  }

  function Fingerprint(h: Hashes, cmd: Command): string {
    var iban := match ParsedIban(cmd.iban) case Ok(i) => i.value case Err(_) => cmd.iban;
    h.intent(Intent(cmd.fromAccount, cmd.toAccount, cmd.amount.halalas, cmd.amount.currency, iban, cmd.name))
  }

  /** The two lines that move an amount from one account to another. */
  function MovingLines(txId: string, debited: string, credited: string, amount: Money): seq<Entry>
    requires debited != "" && credited != "" && amount.halalas > 0
  {
    [Line(EntryId(txId, 1), debited, Debit, amount), Line(EntryId(txId, 2), credited, Credit, amount)]
  }

  /** Entries and transaction as the service and the settlement worker build them. */
  function MovingTransaction(txId: string, description: string, debited: string, credited: string,
      amount: Money): Result<Transaction> {
    match NewEntry(EntryId(txId, 1), debited, Debit, amount)
    case Err(e) => Err(e)
    case Ok(debit) =>
      match NewEntry(EntryId(txId, 2), credited, Credit, amount)
      case Err(e) => Err(e)
      case Ok(credit) => MadeTransaction(txId, description, [debit, credit])
  }

  lemma MovingTransactionMade(txId: string, description: string, debited: string, credited: string, amount: Money)
    requires txId != "" && debited != "" && credited != "" && amount.halalas > 0
    ensures MovingTransaction(txId, description, debited, credited, amount)
            == Ok(Transaction(txId, description, MovingLines(txId, debited, credited, amount)))
  {
    hide Total;
    MovedBalanced(txId, debited, credited, amount);
  }

  lemma MovedBalanced(txId: string, debited: string, credited: string, amount: Money)
    requires debited != "" && credited != "" && amount.halalas > 0
    ensures Balanced(MovingLines(txId, debited, credited, amount))
  {
    hide EntryId;
    var lines := MovingLines(txId, debited, credited, amount);
    assert lines[..1] == [lines[0]] && lines[..1][..0] == [];
    assert Total(lines[..1][..0], Debit) == 0 && Total(lines[..1][..0], Credit) == 0;
    assert Total(lines[..1], Debit) == amount.halalas;
    assert Total(lines[..1], Credit) == 0;
  }

  // ---- Stored and replayed records, field by field ----

  datatype CommandJson = CommandJson(
    idempotency_key: string, from_account_id: string, to_account_id: string, amount: string,
    beneficiary_iban: string, description: string, beneficiary_name: string)

  function EncodeCommand(cmd: Command): CommandJson {
    CommandJson(cmd.idempotencyKey, cmd.fromAccount, cmd.toAccount, String(cmd.amount), cmd.iban, cmd.description,
        cmd.name)
  }

  function CommandFromJson(json: CommandJson): Result<Command> {
    match ParseSAR(json.amount)
    case Err(e) => Err(e)
    case Ok(amount) =>
      Ok(Command(json.idempotency_key, json.from_account_id, json.to_account_id, amount,
                 json.beneficiary_iban, json.beneficiary_name, json.description))
  }

  /** A stored command decodes to the command that was stored, unless its amount is the least int64. */
  lemma CommandRoundTrip(cmd: Command)
    requires cmd.amount.currency == CURRENCY_SAR
    ensures CommandFromJson(EncodeCommand(cmd)) == Ok(cmd) <==> cmd.amount.halalas != MIN_INT64
  {
    PrintParseRoundTrip(cmd.amount);
  }

  datatype SagaState =
    Started | FraudOk | ComplianceOk | SagaPosted | Settling | Completed | Compensating | Compensated | SagaFailed

  datatype SettlementStatus = Pending | Settled | SettlementFailed

  /** States travel as plain text. */
  datatype TransferResult = TransferResult(
    transactionId: string, fromAccount: string, toAccount: string, amount: Money,
    sagaId: string, settlementId: string, sagaState: string, settlementStatus: string, replayed: bool)

  datatype ResultJson = ResultJson(
    transaction_id: string, from_account_id: string, to_account_id: string, amount: string,
    saga_id: string, settlement_id: string, saga_state: string, settlement_status: string)

  function EncodeResult(r: TransferResult): ResultJson {
    ResultJson(r.transactionId, r.fromAccount, r.toAccount, String(r.amount),
               r.sagaId, r.settlementId, r.sagaState, r.settlementStatus)
  }

  function DecodeResult(json: ResultJson): Result<TransferResult> {
    match ParseSAR(json.amount)
    case Err(e) => Err(e)
    case Ok(amount) =>
      Ok(TransferResult(json.transaction_id, json.from_account_id, json.to_account_id, amount,
                        json.saga_id, json.settlement_id, json.saga_state, json.settlement_status, false))
  }

  /** A replayed result is the original result in every encoded field. */
  lemma ResultRoundTrip(r: TransferResult)
    requires r.amount.currency == CURRENCY_SAR
    ensures DecodeResult(EncodeResult(r)) == Ok(r.(replayed := false)) <==> r.amount.halalas != MIN_INT64
  {
    PrintParseRoundTrip(r.amount);
  }

  // ---- What ids and fingerprints tell apart ----

  /** Beginnings of this length tell the digests of these texts apart. */
  ghost predicate Separates(h: Hashes, prefix: string, length: nat, texts: set<string>)
    requires HexDigests(h) && length <= 64
  {
    forall text, text' :: text in texts && text' in texts ==>
      h.digest(prefix + text)[..length] == h.digest(prefix + text')[..length] ==> text == text'
  }

  /** Journal ids are told apart by the first half of a digest of the whole key, saga ids by 24 digits of another. */
  lemma IdsTellKeysApart(h: Hashes, key: string, key': string)
    requires HexDigests(h)
    ensures TransferId(h, key) == TransferId(h, key')
            <==> h.digest("transfer:" + key)[..32] == h.digest("transfer:" + key')[..32]
    ensures SagaId(h, key) == SagaId(h, key') <==> h.digest("saga:" + key)[..24] == h.digest("saga:" + key')[..24]
    ensures Separates(h, "transfer:", 32, {key, key'}) && TransferId(h, key) == TransferId(h, key') ==> key == key'
    ensures Separates(h, "saga:", 24, {key, key'}) && SagaId(h, key) == SagaId(h, key') ==> key == key'
  {
    assert TransferId(h, key)[8..] == h.digest("transfer:" + key)[..32];
    assert TransferId(h, key')[8..] == h.digest("transfer:" + key')[..32];
    assert SagaId(h, key)[5..] == h.digest("saga:" + key)[..24];
    assert SagaId(h, key')[5..] == h.digest("saga:" + key')[..24];
  }

  /** The beneficiary as it is fingerprinted: the parsed IBAN, or the text itself if it does not parse. */
  function Beneficiary(cmd: Command): string {
    if ValidIban(Normalize(cmd.iban)) then Normalize(cmd.iban) else cmd.iban
  }

  function IntentOf(cmd: Command): Intent {
    Intent(cmd.fromAccount, cmd.toAccount, cmd.amount.halalas, cmd.amount.currency, Beneficiary(cmd), cmd.name)
  }

  /** Hashes of these intents are texts, and tell them apart. */
  ghost predicate SeparatesIntents(h: Hashes, intents: set<Intent>) {
    && (forall i :: i in intents ==> h.intent(i) != "")
    && (forall i, i' :: i in intents && i' in intents ==> h.intent(i) == h.intent(i') ==> i == i')
  }

  predicate SameIntent(cmd: Command, cmd': Command) {
    && cmd.fromAccount == cmd'.fromAccount && cmd.toAccount == cmd'.toAccount
    && cmd.amount.halalas == cmd'.amount.halalas && cmd.amount.currency == cmd'.amount.currency
    && Beneficiary(cmd) == Beneficiary(cmd') && cmd.name == cmd'.name
  }

  /** Two commands have one fingerprint exactly if they agree on accounts, amount, currency, beneficiary and name. */
  lemma FingerprintIffSameIntent(h: Hashes, cmd: Command, cmd': Command)
    requires SeparatesIntents(h, {IntentOf(cmd), IntentOf(cmd')})
    ensures Fingerprint(h, cmd) == Fingerprint(h, cmd') <==> SameIntent(cmd, cmd')
    ensures Fingerprint(h, cmd) != ""
  {
    hide ValidIban, Normalize;
    assert Fingerprint(h, cmd) == h.intent(IntentOf(cmd)) && Fingerprint(h, cmd') == h.intent(IntentOf(cmd'));
  }

  // ---- What a valid command is ----

  predicate WellMade(cmd: Command) {
    && 8 <= |TrimSpace(cmd.idempotencyKey)| <= 128
    && cmd.fromAccount != "" && cmd.toAccount != "" && cmd.fromAccount != cmd.toAccount && cmd.amount.halalas > 0
    && ValidIban(Normalize(cmd.iban))
  }

  lemma ValidIffWellMade(cmd: Command)
    ensures Validate(cmd).Ok? <==> WellMade(cmd)
  {
    hide ValidIban, TrimSpace;
    if cmd.iban == "" {
      NothingNormalizes();
    }
  }

  lemma NothingNormalizes()
    ensures !ValidIban(Normalize(""))
  {
    assert Normalize("") == "";
  }

  predicate KeyFits(cmd: Command) {
    8 <= |TrimSpace(cmd.idempotencyKey)| <= 128
  }

  predicate TwoAccounts(cmd: Command) {
    cmd.fromAccount != "" && cmd.toAccount != "" && cmd.fromAccount != cmd.toAccount
  }

  /** What each refusal says of a command, and that every such command is refused so. */
  lemma RefusalCodes(cmd: Command)
    ensures Validate(cmd) == Err(Domain(Validation))
            <==> !KeyFits(cmd) || !TwoAccounts(cmd) || (cmd.amount.halalas > 0 && cmd.iban == "")
    ensures Validate(cmd) == Err(Domain(InvalidMoney))
            <==> KeyFits(cmd) && TwoAccounts(cmd) && cmd.amount.halalas <= 0
    ensures Validate(cmd) == Err(Domain(InvalidIban))
            <==> KeyFits(cmd) && TwoAccounts(cmd) && cmd.amount.halalas > 0 && cmd.iban != ""
                 && !ValidIban(Normalize(cmd.iban))
  {
    hide ValidIban, TrimSpace;
  }
}
