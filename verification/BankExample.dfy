/** One concrete opening and transfer, so that the runs of BankWitness are known to start from something. */
module BankExample {
  import opened Errors
  import opened MoneyDomain
  import opened IbanDomain
  import opened LedgerDomain
  import opened LedgerStore
  import opened TransferDomain
  import opened BankInvariant
  import opened BankWitness
  import opened DistinctKeys

  const KEY := "transfer-1"

  function Zeros(): string {
    seq(20, (i: nat) => '0')
  }

  /** A well-formed IBAN with a mostly empty account number. */
  function SampleIban(): string {
    "SA10" + Zeros()
  }

  /** The worst hash there is. */
  function SameDigest(): Hashes {
    Hashes((text: string) => seq(64, (i: nat) => '0'), (intent: Intent) => "")
  }

  function Deposited(amount: Money): seq<Entry>
    requires amount.halalas > 0
  {
    [Line("deposit-1", "cash", Debit, amount), Line("deposit-2", "alice", Credit, amount)]
  }

  function AfterDeposit(amount: Money): Ledger
    requires amount.halalas > 0
  {
    Ledger(
      map["cash" := Account("cash", Asset, "Cash"), "alice" := Account("alice", Liability, "Alice"),
          "bob" := Account("bob", Liability, "Bob")],
      {"deposit"}, Deposited(amount))
  }

  function Payment(amount: Money): Command {
    Command(KEY, "alice", "bob", amount, Grouped(SampleIban(), 0), "Bob", "rent")
  }

  lemma {:induction false} RemaindersAre(s: string, i: nat, rs: seq<nat>)
    requires IsIbanText(s) && i <= |s| && |rs| == |s| + 1 && rs[0] == 0
    requires forall k :: 0 <= k < |s| ==> rs[k + 1] == Streamed(rs[k], s[k])
    ensures Remainder(s[..i]) == rs[i]
  {
    if i == 0 {
      assert s[..0] == "" && Expanded("") == [] && Number([]) == 0;
    } else {
      RemaindersAre(s, i - 1, rs);
      hide Remainder;
      NextChar(s, i - 1);
    }
  }

  function DigitsFirst(): string {
    Zeros() + "SA10"
  }

  function Remainders(): seq<nat> {
    seq(21, (i: nat) => 0) + [28, 94, 68, 1]
  }

  lemma IbanIsText()
    ensures |DigitsFirst()| == 24 && IsIbanText(DigitsFirst()) && IsIbanText(SampleIban())
    ensures |SampleIban()| == 24 && "SA" <= SampleIban() && Rearranged(SampleIban()) == DigitsFirst()
  {
  }

  lemma IbanStreams()
    requires IsIbanText(DigitsFirst()) && |DigitsFirst()| == 24
    ensures |Remainders()| == 25
    ensures forall k :: 0 <= k < 24 ==> Remainders()[k + 1] == Streamed(Remainders()[k], DigitsFirst()[k])
  {
  }

  lemma IbanIsValid()
    ensures ValidIban(SampleIban()) && Grouped(SampleIban(), 0) != ""
    ensures ParsedIban(Grouped(SampleIban(), 0)) == Ok(Iban(SampleIban()))
  {
    IbanIsText();
    IbanStreams();
    hide Remainder, Grouped, Normalize, Streamed;
    RemaindersAre(DigitsFirst(), 24, Remainders());
    assert DigitsFirst()[..24] == DigitsFirst();
    FormatParseRoundTrip(Iban(SampleIban()));
    GroupedEnds(SampleIban(), 0);
  }

  lemma PaymentIsValid(amount: Money)
    requires amount.halalas > 0
    ensures Validate(Payment(amount)).Ok?
  {
    IbanIsValid();
    hide ParsedIban, ValidIban, Grouped;
    assert !IsSpace(KEY[0]) && !IsSpace(KEY[|KEY| - 1]);
    TrimNothing(KEY);
  }

  lemma DepositSums(account: Account, amount: Money)
    requires amount.halalas > 0
    ensures var cash, alice := Delta(account, Deposited(amount)[0]), Delta(account, Deposited(amount)[1]);
            && Net(account, Deposited(amount)) == cash + alice
            && Gross(account, Deposited(amount), true) <= (if cash > 0 then cash else 0)
                + (if alice > 0 then alice else 0)
            && Gross(account, Deposited(amount), false) <= (if cash < 0 then -cash else 0)
                + (if alice < 0 then -alice else 0)
    ensures Total(Deposited(amount), Debit) == amount.halalas == Total(Deposited(amount), Credit)
  {
    var lines := Deposited(amount);
    hide Delta;
    assert lines == [lines[0]] + [lines[1]] && [lines[0]][..0] == [] && [lines[1]][..0] == [];
    NetConcat(account, [lines[0]], [lines[1]]);
    GrossConcat(account, [lines[0]], [lines[1]], true);
    GrossConcat(account, [lines[0]], [lines[1]], false);
    TotalConcat([lines[0]], [lines[1]], Debit);
    TotalConcat([lines[0]], [lines[1]], Credit);
  }

  lemma OpeningIsSound(amount: Money)
    requires amount.halalas > 0
    ensures Opening(AfterDeposit(amount))
  {
    var ledger := AfterDeposit(amount);
    forall id | id in ledger.accounts
      ensures BalanceOf(ledger, id) >= 0
    {
      DepositSums(ledger.accounts[id], amount);
    }
    DepositSums(ledger.accounts["cash"], amount);
    assert "deposit"[0] == 'd' && "tx_idem_"[0] == 't';
  }

  lemma WalletWithRoom(amount: Money, id: string)
    requires amount.halalas > 0 && Fits(2 * amount.halalas) && id in ["alice", "bob"]
    ensures Wallet(AfterDeposit(amount), id, amount.halalas)
    ensures id == "alice" ==> BalanceOf(AfterDeposit(amount), id) == amount.halalas
  {
    hide Gross, Net;
    DepositSums(AfterDeposit(amount).accounts[id], amount);
  }

  /** Whatever is deposited, if twice as much fits, can be paid on. */
  lemma PaymentIsCovered(amount: Money)
    requires amount.halalas > 0 && Fits(2 * amount.halalas)
    ensures HexDigests(SameDigest()) && Covered(SameDigest(), AfterDeposit(amount), Payment(amount))
  {
    PaymentIsValid(amount);
    OpeningIsSound(amount);
    hide Validate, Opening, Wallet, BalanceOf, LinesNew, AfterDeposit;
    WalletWithRoom(amount, "alice");
    WalletWithRoom(amount, "bob");
    LinesAreNew(SameDigest(), amount, Payment(amount));
  }

  lemma LinesAreNew(h: Hashes, amount: Money, cmd: Command)
    requires HexDigests(h) && amount.halalas > 0
    ensures LinesNew(h, AfterDeposit(amount), cmd)
  {
    hide Decimal;
    var t := TransferOf(h, cmd);
    assert LineIds(Deposited(amount)) == {"deposit-1", "deposit-2"} by {
      assert Deposited(amount)[0].id == "deposit-1" && Deposited(amount)[1].id == "deposit-2";
    }
    forall leg: nat
      ensures EntryId(t, leg)[0] == 't' && EntryId(CompensationId(t), leg)[0] == 't'
    {
    }
    assert "deposit-1"[0] == 'd' && "deposit-2"[0] == 'd';
  }

  // ---- Two payments under two keys ----

  const OTHER_KEY := "transfer-2"

  /** A digest that tells texts apart by their last character only. */
  function LastDigest(): Hashes {
    Hashes((text: string) => seq(64, (i: nat) => if text == "" then '0' else text[|text| - 1]), (intent: Intent) => "")
  }

  function Twice(amount: Money): Money
    requires Fits(2 * amount.halalas)
  {
    amount.(halalas := 2 * amount.halalas)
  }

  function Again(amount: Money): Command {
    Payment(amount).(idempotencyKey := OTHER_KEY)
  }

  lemma KeysAreTrimmed()
    ensures TrimSpace(KEY) == KEY && TrimSpace(OTHER_KEY) == OTHER_KEY && KEY != OTHER_KEY
  {
    assert !IsSpace(KEY[0]) && !IsSpace(KEY[|KEY| - 1]);
    assert !IsSpace(OTHER_KEY[0]) && !IsSpace(OTHER_KEY[|OTHER_KEY| - 1]);
    assert KEY[9] != OTHER_KEY[9];
    TrimNothing(KEY);
    TrimNothing(OTHER_KEY);
  }

  lemma RekeyedIsValid(cmd: Command, key: string)
    requires Validate(cmd).Ok? && TrimSpace(key) == key && 8 <= |key| <= 128
    ensures Validate(cmd.(idempotencyKey := key)).Ok?
  {
    hide ParsedIban, TrimSpace;
  }

  lemma LastDigestSeparates(prefix: string, length: nat)
    requires 0 < length <= 64
    ensures HexDigests(LastDigest()) && Separates(LastDigest(), prefix, length, {KEY, OTHER_KEY})
  {
    var h := LastDigest();
    forall key | key in {KEY, OTHER_KEY}
      ensures h.digest(prefix + key)[..length][0] == key[9]
    {
      assert (prefix + key)[|prefix + key| - 1] == key[9];
    }
  }

  lemma PaymentIsFunded(amount: Money, cmd: Command)
    requires amount.halalas > 0 && Fits(4 * amount.halalas) && cmd.fromAccount == "alice" && cmd.toAccount == "bob"
    ensures Funded(AfterDeposit(Twice(amount)), cmd, Twice(amount).halalas)
  {
    hide Wallet, BalanceOf, AfterDeposit;
    WalletWithRoom(Twice(amount), "alice");
    WalletWithRoom(Twice(amount), "bob");
  }

  lemma PaymentParts(amount: Money, cmd: Command)
    requires cmd == Payment(amount) || cmd == Again(amount)
    ensures cmd.fromAccount == "alice" && cmd.toAccount == "bob" && cmd.amount == amount
    ensures cmd.idempotencyKey == if cmd == Payment(amount) then KEY else OTHER_KEY
  {
    hide Grouped, SampleIban;
  }

  /** The hypotheses of DistinctKeysAllCommit can be met by two transfers between the same two wallets. */
  lemma TwoPaymentsAreCovered(amount: Money)
    requires amount.halalas > 0 && Fits(4 * amount.halalas)
    ensures HexDigests(LastDigest())
    ensures CoveredTogether(LastDigest(), AfterDeposit(Twice(amount)), [Payment(amount), Again(amount)])
  {
    LastDigestSeparates("transfer:", 32);
    LastDigestSeparates("saga:", 24);
    PaymentIsValid(amount);
    KeysAreTrimmed();
    RekeyedIsValid(Payment(amount), OTHER_KEY);
    hide Validate, Opening, Funded, AfterDeposit, LastDigest, Separates, TransferOf, EntryId, TrimSpace, LineIds,
        Payment,
        Again, HexDigests, CoveredTogether;
    PaymentParts(amount, Payment(amount));
    PaymentParts(amount, Again(amount));
    OpeningIsSound(Twice(amount));
    PaymentIsFunded(amount, Payment(amount));
    PaymentIsFunded(amount, Again(amount));
    PaymentIsNew(LastDigest(), Twice(amount), Payment(amount));
    PaymentIsNew(LastDigest(), Twice(amount), Again(amount));
    TwoTogether(LastDigest(), AfterDeposit(Twice(amount)), Payment(amount), Again(amount), Twice(amount).halalas);
  }

  lemma PaymentIsNew(h: Hashes, amount: Money, cmd: Command)
    requires HexDigests(h) && amount.halalas > 0
    ensures forall leg: nat :: EntryId(TransferOf(h, cmd), leg) !in LineIds(AfterDeposit(amount).lines)
  {
    hide AfterDeposit, TransferOf, EntryId, LineIds;
    LinesAreNew(h, amount, cmd);
  }
}
