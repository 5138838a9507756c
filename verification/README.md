# The money-moving core, verified

A Dafny model of the part of the bank that moves money, with proofs of what it keeps true: the
double-entry ledger under row locks, the transfer saga with its settlement worker, the idempotency
guard, the outbox relay, and the arithmetic and codecs they rest on. `dafny verify dfyconfig.toml`
checks everything.

## How it is laid out

- **Arithmetic and codecs.** `Money` is int64 halalas with Go's wrapping made explicit, decimal
  printing and parsing, and `MoneyText` the texts that parse; `Iban` is the streaming check and the
  number it stands for; `TransferDomain` holds keys, derived ids, commands and the stored and replayed
  records.
- **Ledger.** `LedgerDomain` has entries, balance folds and the double-entry check. `LedgerStore`
  defines one post as an atomic change; `LedgerRepository` runs its statements imperatively against a
  database transaction (`Schema`) and is proved to give that verdict. `PostingMachine` interleaves any
  number of posts statement by statement and refines the atomic post; `PostingProgress`
  proves that posts with line ids of their own never get stuck, `PostingStuck`, `PostingDeadlock` and
  `PostingKnots` exactly when others do; `Books` and `Contention` draw conclusions.
- **The bank.** `Transitions` is what each committed unit of work does to the four tables.
  `BankInvariant`, `TransferKeeps` and `ReversalKeeps` state and keep the invariant that ties sagas,
  journals, events, settlements and balances together. `SettlementSteps` and `RequestSteps` are one
  worker and one request, statement by statement; `BankMachine` runs any number of them with crashes,
  expiring records, lost statements and commits that succeed although they report an error;
  `BankTheorems` holds for every such run; `TransferFacts`, `SettlementColumns` and `GuardHistory` say
  in terms of stored columns, the rail's answers and earlier statements what every such run has made
  true. `GuardProtocol` and `GuardOutcomes` add what holds of a key
  whose record does not expire while a request owns it, `GuardCodes` what each answer says,
  `SettlementAgreement` what holds when claims do
  not overlap, `SettlementFutures` and `SettlementRace` what can happen when they do. `BankRuns`, `BankWitness`,
  `DistinctKeys` and `BankExample` build runs from an opening ledger on: those that reach what the code
  fails to exclude, and those in which different keys do not get in each other's way.
- **The imperative forms.** `SagaRepository`, `Coordinator`, `SettlementProcessor` and
  `TransferService` work on mutable tables and records; `SkipLocked` is the claim that settlements and
  events share. Before every statement the other participants may change tables and records; an
  `Outside` value says how, together with the fate of each statement, so that none can be skipped or
  blamed on them. Each loop and method is proved to take exactly the steps of its step-by-step
  counterpart, so the theorems about steps apply to it.
  `BatchOutcomes` is what a whole batch achieves, and `Neighbours` shows that the participants of
  `BankMachine` are such others.
- **Outbox.** `OutboxRelay` has both the machine of many relays and the imperative batch; `OutboxHistory`
  traces marks back to the broker's answers.

## What is assumed

- SHA-256 is any function of text to 64 hexadecimal characters. Nothing assumes that it is injective:
  where two keys share a digest, the primary key of the journal refuses the second transfer. Results
  about different keys or intents say where they are used which texts' hashes are to differ.
- A database transaction sees committed rows plus its own writes; row locks and freshly inserted keys
  are held until it ends. A commit may also succeed while its caller is told that it failed. In the
  machine of the whole bank a unit of work is one step; that this is sound for ledger posts is the
  result about `PostingMachine`.
- An account's lines are listed in an order that need not be commit order: any permutation may come.
- Operations on one key of the key-value store are atomic; expiry may strike at any moment.
- The rail, the broker, fraud and compliance answer as they please.
- The opening ledger is sound and holds no journal named like a transfer.

## What the code does not do

- `SAR` multiplies riyals by 100 unchecked, so `ParseSAR` accepts amounts beyond int64 halalas and
  returns a wrapped one. It is exact if and only if the amount is representable.
- `ParseSAR` also takes a second sign of the riyals and a sign of the halalas (`--5`, `5.+1`, `5.-`).
- `String` of the least int64 is a text that `ParseSAR` refuses; every other amount round-trips.
- The check digits miss the swap of B with 1, M with 2 and X with 3, and no other swap of neighbours.
- Sorted account locks alone do not exclude deadlock, because inserting a line id that another post
  has inserted waits for that post. Posts are deadlocked if and only if inserting posts wait for each
  other's lines in a closed group; a group can come to that if and only if all of it get to insert, on
  different accounts, and their line ids cross in a round. Line ids derived from the journal id, as every caller makes them,
  exclude it.
- `ClaimPendingSettlements` leaves its rows PENDING, against the intent that a claimed settlement is
  handled once: two workers can settle and reverse the same transfer with every write succeeding.
  An unfaithful write (a completing or failing write that does not reach the database, or an error from
  a settled mark or a compensation that did happen), a claim of a row that another worker has in hand,
  and a crash with a row half done each have a future without any further mistake in which settlement
  and saga end up contradicting each other; as long as none of them happens, they never do. A reversal
  happens at most once in any case.
- The guard's comment promises at most one execution per key. An action breaks what that rests on if
  and only if it expires the key's record while a request owns it; then a second request can execute,
  and the first can delete what the second has completed. Expiry at any other moment, and of any other
  key, breaks neither. The ledger posts at most once per key in any case.
- Sagas are keyed by the key as sent, journals by the trimmed key. Two spellings of one key make two
  saga ids, but only one of them can ever be committed.

## Model

| member | source | states |
|---|---|---|
| MoneyDomain.SafeAdd | internal/shared/domain/money.go:243-251 | returns the sum exactly when it fits in int64, although every intermediate bound wraps as machine arithmetic does |
| MoneyDomain.SafeSub | internal/shared/domain/money.go:253-261 | the same for differences |
| MoneyDomain.Add | internal/shared/domain/money.go:143-152 | succeeds exactly on equal currencies with a representable sum, and is then that sum |
| MoneyDomain.Sub | internal/shared/domain/money.go:155-164 | succeeds exactly on equal currencies with a representable difference, and is then that difference |
| MoneyDomain.Cmp | internal/shared/domain/money.go:180-192 | orders amounts of one currency by sign, with 0 exactly on equal ones, and refuses two currencies |
| MoneyText.AcceptsExactly | internal/shared/domain/money.go:65-115 | the parser accepts exactly: a sign or none, riyals in int64 that may carry a second sign, and at most two characters of halalas that with a missing last zero added read as a number from 0 to 99 (0 under negative riyals); its value is the denoted one, wrapped to int64; anything else is an error |
| MoneyText.StrayTexts | internal/shared/domain/money.go:65-115 | so --5 is five riyals, 5.+1 is 5.01, and a lone sign after the point counts as zero |
| MoneyDomain.ParseCanonical | internal/shared/domain/money.go:65-115 | of canonical decimal texts, those whose riyals fit are accepted, for the wrapped number of halalas, and no others |
| MoneyDomain.ParseExactIffRepresentable | internal/shared/domain/money.go:35-48 | parsing is exact if and only if the amount is representable: the multiplication by 100 is unchecked |
| MoneyDomain.HugeAmountWraps | internal/shared/domain/money.go:65-115 | 184467440737095517.00 parses as 0.84 |
| MoneyDomain.PrintParseRoundTrip | internal/shared/domain/money.go:207-217 | printing then parsing gives the amount back if and only if it is not the least int64 |
| MoneyDomain.LeastAmountText | internal/shared/domain/money.go:207-217 | the least int64 prints with stray signs, and the parser refuses that text |
| MoneyDomain.TrimSpaceIs | internal/idempotency/domain/key.go:22-34 | trimming removes white space at both ends, all of it, and nothing inside |
| MoneyDomain.DecimalIsLeast | internal/shared/domain/money.go:207-217 | numbers print without leading zeros: every text of digits without one is the print of its value |
| IbanDomain.IbanMod97 | internal/shared/domain/iban.go:89-103 | the streaming remainder equals the expanded, rearranged decimal number modulo 97 |
| IbanDomain.SubstitutionDetected | internal/shared/domain/iban.go:89-103 | replacing any one character by another of its class changes the remainder |
| IbanDomain.SwapDetected | internal/shared/domain/iban.go:89-103 | a swap of neighbours in the rearranged text keeps the remainder if and only if the two are equal or a letter and a digit of one eleventh its value (B1, M2, X3) |
| IbanDomain.ParseSAIBAN | internal/shared/domain/iban.go:21-45 | accepts exactly the normalized texts of the right length, country, alphabet and remainder 1 |
| IbanDomain.ParsesIffSpelled | internal/shared/domain/iban.go:21-45 | a text parses to an IBAN if and only if, trimmed, it spells that IBAN character by character, in either case of its letters and with blanks anywhere |
| IbanDomain.Formatted | internal/shared/domain/iban.go:54-63 | writes the value in groups of four |
| IbanDomain.FormatParseRoundTrip | internal/shared/domain/iban.go:21-63 | displaying a valid IBAN and parsing the display gives it back |
| LedgerDomain.SumBySide | internal/ledger/domain/transaction.go:113-126 | the side total, exactly when it fits in int64 |
| LedgerDomain.ValidateBalanced | internal/ledger/domain/transaction.go:90-111 | accepts exactly the lists whose unbounded debits equal their credits within int64 |
| LedgerDomain.NewTransaction | internal/ledger/domain/transaction.go:29-62 | makes a transaction from an id and at least two balanced entries, with the code of the first violation otherwise |
| LedgerDomain.BalanceFromEntries | internal/ledger/domain/balance.go:7-32 | the net of the lines, or the overflow error exactly when a running balance leaves int64 |
| LedgerDomain.EntriesForAccount | internal/ledger/domain/balance.go:35-43 | the account's lines in their order |
| LedgerDomain.ApplyEntries | internal/ledger/domain/balance_projection.go:6-31 | the starting balance plus the net, or the overflow error exactly when a running balance leaves int64 |
| LedgerDomain.NetDebitExposure | internal/ledger/domain/balance_projection.go:35-53 | the gross decreases of the account, exactly when they fit in int64 |
| LedgerDomain.IncrementalEqualsFull | internal/ledger/domain/balance_projection.go:6-31 | projecting new lines onto the balance of the old ones is the balance of all of them, errors included |
| LedgerDomain.NetOfPermutation | internal/ledger/domain/balance.go:7-32 | the net does not depend on the order of the lines |
| LedgerDomain.OrderDoesNotMatter | internal/ledger/domain/balance.go:7-32 | any two orders that both succeed give the same balance |
| LedgerDomain.EveryOrderSucceedsIff | internal/ledger/domain/balance.go:7-32 | every order succeeds if and only if gross increases and gross decreases each fit in int64 |
| LedgerStore.LockOrderCovers | internal/ledger/adapters/postgres/locking.go:56-67 | the lock plan holds exactly the touched accounts, each once, strictly increasing |
| LedgerStore.AcceptedKeepsBooksSound | internal/ledger/adapters/postgres/repository.go:81-131 | an accepted journal keeps balances non-negative, debits equal to credits, and line ids distinct |
| LedgerStore.CheckedStaysPositive | internal/ledger/adapters/postgres/locking.go:70-102 | an account that passes the check stays non-negative, in whatever order its lines were listed |
| LedgerStore.VerdictMeans | internal/ledger/adapters/postgres/repository.go:81-131 | over sound books: refused as unbalanced exactly if debits and credits differ or overflow, as invalid exactly if even but an account is missing, for funds only if some touched account would go below zero, as a conflict only if an id is taken, and posted only if none of these |
| LedgerRepository.UniqueAccountIds | internal/ledger/adapters/postgres/locking.go:56-67 | collects and sorts the touched accounts into the lock plan |
| LedgerRepository.LockAccounts | internal/ledger/adapters/postgres/locking.go:15-54 | succeeds exactly when every id names an account, and returns those rows in order |
| LedgerRepository.ListEntriesByAccount | internal/ledger/adapters/postgres/locking.go:104-144 | returns some ordering of exactly the account's lines |
| LedgerRepository.ValidateSufficientFunds | internal/ledger/adapters/postgres/locking.go:70-102 | stops at the first account that would overflow or overdraw, with its error, and otherwise accepts |
| LedgerRepository.PostTransactionInTx | internal/ledger/adapters/postgres/repository.go:81-131 | its result is the verdict of one atomic post; on success exactly the header and all lines are added to the view, after a conflict on a line exactly the header and the lines before the first taken one, after any other refusal nothing |
| LedgerRepository.PostTransaction | internal/ledger/adapters/postgres/repository.go:61-78 | an atomic post whose effect is lost on the way, refused, committed, or committed although an error is reported |
| LedgerRepository.CreateAccount | internal/ledger/adapters/postgres/repository.go:26-38 | opens an account unless its id is taken: sound books stay sound, no balance moves and the new account starts at zero, whether the statement is lost, done, or done although an error is reported |
| LedgerRepository.GetBalance | internal/ledger/adapters/postgres/repository.go:177-183 | a balance that comes back is the account's net, and one always does when the gross totals fit |
| LedgerRepository.VerifyGlobalLedgerBalanced | internal/ledger/adapters/postgres/repository.go:186-205 | over sound books it never reports a difference |
| PostingMachine.Serializable | internal/ledger/adapters/postgres/repository.go:81-131 | every interleaving leaves the ledger that undisturbed posts leave in the order of their decisions, with the same verdicts, each decided once |
| PostingMachine.CommitElsewhere | internal/ledger/adapters/postgres/locking.go:15-54 | a commit under the other locks leaves every finding of a post standing |
| PostingMachine.NeverOverdrawn | internal/ledger/adapters/postgres/locking.go:70-102 | in every reachable state every balance is non-negative |
| PostingMachine.TraceKeepsInv | internal/ledger/adapters/postgres/locking.go:15-102 | locks exclude each other, keys are held by one post, and every finding under lock is true of the committed ledger |
| PostingProgress.DerivedLinesAreOwned | internal/transfer/domain/command.go:107-110 | line ids derived from journal id and leg belong to one journal only |
| PostingProgress.DeadlockFree | internal/ledger/adapters/postgres/locking.go:13-28 | with line ids owned by their journals, every reachable state with an unfinished post has one that can move |
| PostingProgress.StepDoesWork | internal/ledger/adapters/postgres/locking.go:15-54 | every statement of a post lowers the work that remains |
| PostingProgress.EveryRunIsBounded | internal/ledger/adapters/postgres/locking.go:15-54 | no run has more statements of posts than the initial work, and one that has as many has finished every post |
| PostingProgress.CanAlwaysFinish | internal/ledger/adapters/postgres/locking.go:13-28 | from every reachable state all posts can be run to their end |
| PostingStuck.DeadlockIffKnot | internal/ledger/adapters/postgres/repository.go:109-128 | in every reachable state of any posts, some group of them waits for itself if and only if some group of inserting posts each waits for a line id that another of the group has inserted |
| PostingStuck.NobodyMovesKnot | internal/ledger/adapters/postgres/repository.go:109-128 | if posts are unfinished and none can move, there is such a group |
| PostingStuck.KnotStays | internal/ledger/adapters/postgres/repository.go:109-128 | such a group stays stuck through every step of anybody, unless the connection of one of its posts is lost |
| PostingKnots.KnotIffCrossedRound | internal/ledger/adapters/postgres/repository.go:109-128 | any group among any posts can be tied into such a knot if and only if, after some schedule of the others alone, all of the group get to insert, on different accounts and under different journal ids, and the next line id of each is one that another of the group has used |
| PostingKnots.EverybodyKnotsIff | internal/ledger/adapters/postgres/repository.go:109-128 | for all posts together that condition is one on the initial books, up to accounts opened meanwhile |
| PostingDeadlock.TwoPostsBlockIff | internal/ledger/adapters/postgres/repository.go:109-128 | two posts can get stuck on each other if and only if, perhaps after accounts have been opened, both get to insert, on different accounts and under different journal ids, and their line ids cross |
| PostingDeadlock.CrossIffFirstsDiffer | internal/ledger/adapters/postgres/repository.go:109-128 | line ids new to the ledger cross if and only if the first id that one journal shares with the other is not the first that the other shares with it |
| PostingDeadlock.CrossedLinesDeadlock | internal/ledger/adapters/postgres/repository.go:109-128 | a run from an initial state to two posts that wait for each other's line |
| Books.SidesAndBalances | internal/ledger/domain/balance.go:7-32 | balances of assets and expenses less those of liabilities, equity and revenue equal all debits less all credits |
| Books.AccountingEquation | internal/ledger/adapters/postgres/repository.go:186-205 | in every reachable state of concurrent posts the balances of assets and expenses equal those of liabilities, equity and revenue |
| Contention.ContentionCount | internal/ledger/adapters/postgres/repository_concurrency_test.go:121-195 | N transfers of amount a against balance B, among any other posts without a line on that account: exactly min(N, B / a) of them succeed under every schedule, the rest fail with insufficient funds |
| TransferDomain.EntryIdInjective | internal/transfer/domain/command.go:107-110 | an entry id gives back its journal id and leg |
| TransferDomain.IdShapes | internal/idempotency/domain/key.go:60-65 | the id of a transfer is never the id of a reversal |
| TransferDomain.IdsTellKeysApart | internal/idempotency/domain/key.go:62-65 | two keys share a journal id exactly if the digests of the whole keys agree in their first 32 characters, and a saga id exactly if those agree in their first 24; so where these tell keys apart, the ids do |
| TransferDomain.DerivedIdsInjective | internal/transfer/app/service.go:206-215 | settlement, event and reversal ids give back the journal id |
| TransferDomain.MovingTransactionMade | internal/transfer/app/service.go:187-204 | for valid parameters the two entries are made and balance |
| TransferDomain.CommandRoundTrip | internal/transfer/adapters/postgres/saga_repository.go:242-269 | a stored command decodes to itself if and only if its amount is not the least int64 |
| TransferDomain.ResultRoundTrip | internal/transfer/app/codec.go:13-66 | a replayed result is the original in every encoded field, with the same one exception |
| TransferDomain.FingerprintIffSameIntent | internal/transfer/domain/command.go:65-105 | for hashes that tell the two intents apart, two commands share a fingerprint exactly if they agree on both accounts, halalas, currency, parsed IBAN (the raw text if it does not parse) and name |
| TransferDomain.ValidIffWellMade | internal/transfer/domain/command.go:39-62 | a command is valid exactly if its trimmed key has 8 to 128 characters, its accounts are two, its amount is positive and its IBAN passes the check |
| TransferDomain.RefusalCodes | internal/transfer/domain/command.go:39-62 | and each code of a refusal says exactly which of these failed first |
| BankInvariant.StatusesKeepInv | internal/transfer/adapters/postgres/saga_repository.go:34-48 | updates of states, attempts and statuses keep the bank's invariant: transaction id, settlement id and command never change |
| BankInvariant.AccountKeepsInv | internal/ledger/adapters/postgres/repository.go:26-38 | opening an account keeps it |
| TransferKeeps.CommitHangsTogether | internal/transfer/app/service.go:182-257 | saga, journal, event and settlement prepared for a valid command match one another, and the saga decodes to that command |
| TransferKeeps.PostedIsBooked | internal/platform/uow/postgres/coordinator.go:49-88 | a committed bundle adds exactly its journal and its three rows, all of them new |
| TransferKeeps.TransferKeepsInv | internal/platform/uow/postgres/coordinator.go:49-88 | a committed transfer keeps the bank's invariant |
| ReversalKeeps.ReversalMirrors | internal/settlement/app/processor.go:92-125 | whatever version of the saga and settlement a worker read, it builds the mirror image of the transfer |
| ReversalKeeps.MirrorCancels | internal/settlement/app/processor.go:107-121 | a reversal undoes its transfer in every account |
| ReversalKeeps.CompensationKeepsInv | internal/platform/uow/postgres/coordinator.go:119-141 | a committed compensation keeps the bank's invariant: exactly its transfer leaves the balances |
| ReversalKeeps.NoSecondReversal | internal/platform/uow/postgres/coordinator.go:119-141 | a transfer already reversed is refused a second reversal, whatever the worker read |
| SettlementSteps.DriveKeepsInv | internal/settlement/app/processor.go:45-125 | any statement of any worker keeps the bank's invariant and every row |
| RequestSteps.PostKeepsRequest | internal/transfer/app/service.go:248-266 | a request that posts reports a success only for what it committed, and after a commit only errors that forbid a retry |
| RequestSteps.GuardKeepsRequest | internal/idempotency/app/guard.go:50-134 | statements of the guard change no table and answer only with committed transfers |
| BankMachine.RunKeepsInv | internal/platform/uow/postgres/coordinator.go:49-141 | every reachable state of the whole bank satisfies the invariant |
| BankTheorems.ExactReversal | internal/settlement/app/processor.go:92-125 | in every run, each account holds its opening balance plus the net of exactly the transfers without a reversal, and no line is booked twice |
| BankTheorems.AtMostOnePostingPerKey | internal/idempotency/domain/key.go:60-65 | in every run, however records expire, one trimmed key has at most one saga and journal |
| BankTheorems.SuccessMeansCommitted | internal/transfer/app/service.go:59-98 | a success, fresh or replayed, is about a transfer whose journal is committed and whose command it reports |
| BankTheorems.ReleasedMeansNothingMoved | internal/idempotency/app/guard.go:128-164 | a request that gave its key back for a retry never changed a table |
| BankTheorems.BundleBijection | internal/platform/uow/postgres/coordinator.go:49-88 | sagas, transfer journals, events and settlements correspond one to one, with matching ids, accounts and amounts, and nothing else exists |
| BankTheorems.RowsStayForever | internal/transfer/adapters/postgres/saga_repository.go:34-48 | nothing committed disappears, and later updates change states and statuses only |
| BankTheorems.BooksAlwaysSound | internal/ledger/adapters/postgres/locking.go:70-102 | in every run of the whole bank no account is overdrawn and the accounting equation holds |
| TransferFacts.OnlyValidTransfers | internal/transfer/app/service.go:150-180 | in every run, every saga row is a transfer of a positive amount between two different existing liability accounts, under a key of 8 to 128 characters, to a valid IBAN |
| TransferFacts.ColumnsTellJournal | internal/transfer/app/service.go:182-257 | in every run, the columns of a saga row tell the two lines of its journal, and its settlement and event repeat them |
| TransferFacts.MovedColumns | internal/transfer/adapters/postgres/saga_repository.go:242-269 | in every run, a request that moved money has a row with its own key, accounts, amount, IBAN, name and description |
| TransferFacts.SuccessTellsRow | internal/transfer/app/codec.go:13-66 | in every run, a success, fresh or replayed, repeats the ids, accounts and amount of a row with the same trimmed key |
| TransferFacts.SecondPostFails | internal/platform/uow/postgres/coordinator.go:49-88 | without any guard, over sound tables that hold a transfer with the same trimmed key, a second post fails, and as a duplicate row if the key was sent in the same form |
| DistinctKeys.DistinctKeysAllCommit | internal/transfer/app/service.go:150-267 | any number of valid transfers under different trimmed keys, which opening balances and the range of amounts cover together, all succeed in one run, each with two lines under a journal of its own, if the shortened digests tell the keys apart |
| BankExample.TwoPaymentsAreCovered | internal/transfer/app/service.go:150-267 | there are such transfers: two payments between the same wallets |
| GuardProtocol.MutualExclusion | internal/idempotency/app/guard.go:79-87 | at most one request per key is inside the protected function, in every run in which that key's record does not expire while a request owns it |
| GuardProtocol.KeyKeptIffTimely | internal/idempotency/app/guard.go:79-87 | action by action: one owner that finds its own record stays one owner that finds its own record if and only if the action is not the expiry of that record while it is owned |
| GuardProtocol.SecondEntersIffExpired | internal/idempotency/app/guard.go:49-97 | while one request executes, an action of anyone else lets a waiting request of its key in if and only if it expires the record |
| BankWitness.TwoExecutors | internal/idempotency/app/guard.go:49-97 | for every opening ledger and valid command, a run from its beginning to two requests of that command that both execute |
| BankWitness.StaleOwnerErases | internal/idempotency/app/guard.go:128-134 | for every covered transfer, a run from its beginning in which the first of two such requests deletes the record that the second has completed |
| GuardProtocol.CompleteLosesNothing | internal/idempotency/adapters/redis/store.go:69-96 | what Complete overwrites is exactly what it read, unless that record expired mid-request |
| GuardProtocol.OwnedKeepsKey | internal/idempotency/app/guard.go:49-97 | from the moment a request owns its key, the key stays taken until that request gives it back or the record expires |
| GuardProtocol.MovedKeepsKey | internal/idempotency/app/guard.go:128-134 | once a request has moved money its key stays taken, and no other request for it executes, until the record expires |
| GuardProtocol.StableReplay | internal/idempotency/app/guard.go:57-97 | a completed record that nobody owns never changes until it expires, and every later request for its key is answered from it, with a fingerprint conflict or with a read error, without executing |
| GuardCodes.AnsweredByIntent | internal/idempotency/app/guard.go:57-66 | in every run, however records expire: whatever a request reads under its key was made by a request with that key, and it is answered a conflict if the two differ in an account, amount, currency, IBAN or name, or the earlier one failed; otherwise that it is in progress, or its result |
| GuardCodes.LaterIntentConflicts | internal/idempotency/app/guard.go:136-147 | after a request has moved money and completed its key, a later one with the key and another intent is never answered with a success, but with a conflict or an error of its own, and moves nothing |
| GuardCodes.CodesDecideKey | internal/idempotency/app/guard.go:128-164 | code by code: a request that acquired its key and is answered insufficient funds, not found, conflict, in progress, unbalanced, invalid entry, invalid account or an infrastructure error leaves the record FAILED; with validation, invalid money, invalid IBAN or forbidden, the statement that answers deletes it |
| GuardHistory.WentThrough | internal/idempotency/app/guard.go:50-97 | in every run, a request that owns a key has first read it and found nothing, then set its own record; one that moved money was cleared by screening in between and put its journal in by its own statement; one that reports its own success was told that this was done |
| GuardHistory.SuccessIsStored | internal/idempotency/app/guard.go:88-97 | whatever is lost on the way, a request that acquired its key and is answered with a success has left the key COMPLETED with that result |
| GuardProtocol.CompletedIsUnowned | internal/idempotency/app/guard.go:57-97 | a completed record has no owner, unless it expired mid-request before |
| GuardOutcomes.ReplayIsTheOriginal | internal/idempotency/app/guard.go:99-126 | a replay is the result of a request that moved money under this key, with its fingerprint, unless that key's record expired mid-request before |
| GuardOutcomes.CommitErrorMarksFailed | internal/idempotency/app/guard.go:128-134 | a request that acquired its key, and whose own statements with the store were done, leaves the key FAILED if it is answered with an error that forbids a retry, whether or not money moved, and COMPLETED if with a success, until the record expires |
| SettlementFutures.ProperIffSafe | internal/settlement/app/processor.go:45-90 | for any number of workers and any action of anybody on settlements in order: settlements and sagas agree, whenever nobody is at work on them, in every proper future, if and only if the action is proper: a faithful write, a claim of rows in nobody else's hands, a crash with an untried row, or anything that is not a worker's |
| SettlementAgreement.TeamOkIffFaithful | internal/settlement/app/processor.go:45-90 | a worker's statement keeps order (no row in the hands of two workers, each row in hand as its holder's stage says, every other one in agreement with its saga) if and only if its write was faithful and its claim, if it is one, took nothing out of another's hands |
| SettlementAgreement.TeamOkIffDroppable | internal/settlement/app/processor.go:45-90 | a crash and restart of a worker keeps that order if and only if the row it had in hand is still untried |
| SettlementAgreement.EarlyIsDroppable | internal/settlement/app/processor.go:45-90 | up to its settled mark, and up to the post of its reversal, a worker's row is untried |
| SettlementAgreement.ConsistentIffFaithful | internal/settlement/app/processor.go:45-90 | with one worker, if and only if its write was faithful |
| SettlementAgreement.TeamAgreement | internal/settlement/app/processor.go:45-90 | in every proper run, with any number of workers, claims of rows that a crashed worker had pending included: every settlement that nobody has in hand is PENDING with POSTED or SETTLING, SETTLED with COMPLETED, or FAILED with COMPENSATED and a reversal or with saga FAILED and none |
| SettlementRace.TwoWorkersSettleAndReverse | internal/transfer/adapters/postgres/saga_repository.go:103-139 | from any state with a reversible pending settlement and two resting workers, faithful writes can leave it SETTLED while its saga is COMPENSATED and its money went back |
| BankWitness.SettledAndReversed | internal/transfer/adapters/postgres/saga_repository.go:103-139 | for every covered transfer, a run from the opening ledger, with every statement done and reported, that ends so |
| BankWitness.CoveredReversible | internal/settlement/app/processor.go:107-121 | after a covered transfer its reversal would be accepted |
| BankExample.PaymentIsCovered | internal/transfer/app/service.go:59-98 | there are covered transfers: of any amount that is deposited and fits twice |
| SettlementProcessor.BatchKeepsInv | internal/settlement/app/processor.go:45-90 | a whole batch among others that keep the bank's invariant and its rows keeps the invariant too; if they also leave settlements and sagas consistent with what the worker has in hand, and all its writes are faithful, they stay consistent |
| SettlementProcessor.TrailHeedsRail | internal/settlement/app/processor.go:53-90 | every settlement that a batch marks SETTLED is one for whose id the rail answered cleared, every one it marks FAILED one that the rail rejected, with that reason |
| BatchOutcomes.BatchSendsBackRejected | internal/settlement/app/processor.go:64-83 | every journal that a batch adds sends back a settlement that the rail rejects |
| BatchOutcomes.EveryRowGetsMark | internal/settlement/app/processor.go:53-90 | conversely, when every statement is done and reported, each row claimed, up to the first for which the rail breaks, is marked as the rail answers for its id |
| BatchOutcomes.ProcessedAreAchievements | internal/settlement/app/processor.go:45-90 | the count of a finished batch is that of its settled marks and posted reversals that were reported done |
| SettlementColumns.StatusWasAnswered | internal/settlement/app/processor.go:53-90 | in every run, SETTLED implies an earlier answer cleared for that very row, FAILED an earlier rejection with the reason the row gives, and no other row has an error text |
| SettlementColumns.ReversedWasRejected | internal/settlement/app/processor.go:92-125 | in every run, money went back only after the rail rejected that settlement |
| SettlementColumns.SagaColumnsTell | internal/transfer/adapters/postgres/saga_repository.go:34-48 | in every run, the state of a saga row and its failure reason say what the rail answered and whether the reversal is in the books |
| SettlementColumns.AttemptsAreClaims | internal/transfer/adapters/postgres/saga_repository.go:103-139 | in every run, the attempts of a settlement are the claims of it |
| Neighbours.BankIsPolite | internal/settlement/app/processor.go:45-90 | any actions of the whole bank between the statements of a batch, other settlement workers' included, keep the invariant and the rows |
| Neighbours.BatchAgreesBesideRequests | internal/settlement/app/processor.go:45-90 | a batch with faithful writes leaves settlements and sagas consistent although any requests, relays, new accounts and expiries happen between its statements |
| Neighbours.TransferBesideBatch | internal/settlement/app/processor.go:45-90 | among them, transfers that commit while the batch runs |
| Neighbours.BankIsPoliteToExecutions | internal/transfer/app/service.go:59-98 | any actions of the whole bank between the statements of a transfer execution keep what the execution relies on |
| SettlementProcessor.Worker.ProcessOnce | internal/settlement/app/processor.go:45-90 | among other participants, the loop over a claimed batch takes exactly the steps of the step-by-step worker, counts the finished settlements, and reports an error exactly when the claim, the rail or the settled mark failed; each row it marks has the mark that the rail answered for its id |
| SettlementProcessor.Worker.Compensate | internal/settlement/app/processor.go:92-125 | loads the saga, rebuilds the reversal and posts it, step for step |
| SagaRepository.ClaimPendingSettlements | internal/transfer/adapters/postgres/saga_repository.go:103-139 | claims as many unlocked pending rows as the limit allows, each once, counts an attempt each, leaves them PENDING, and hands out the rows as read |
| SagaRepository.InsertSagaInTx | internal/transfer/adapters/postgres/saga_repository.go:210-222 | inserts unless the id or the client's key is taken |
| SagaRepository.InsertSettlementInTx | internal/transfer/adapters/postgres/saga_repository.go:195-208 | inserts unless the id is taken, the saga is missing or the amount is not positive |
| SagaRepository.UpdateSagaStateInTx | internal/transfer/adapters/postgres/saga_repository.go:224-240 | sets the state and those columns whose new text is not empty |
| SagaRepository.UpdateSagaRow | internal/transfer/adapters/postgres/saga_repository.go:34-48 | the same as a statement of its own, with its fate |
| SagaRepository.UpdateSettlementRow | internal/transfer/adapters/postgres/saga_repository.go:141-146 | sets status and last error of one row, with its fate |
| SagaRepository.GetSaga | internal/transfer/adapters/postgres/saga_repository.go:64-69 | the row, not found, or a broken read |
| SagaRepository.InsertInTx | internal/outbox/adapters/postgres/repository.go:26-52 | inserts a pending event, or reports a conflict |
| Coordinator.PostTransfer | internal/platform/uow/postgres/coordinator.go:49-88 | all writes of the bundle or none: lost on the way, refused with the first error met, committed, or committed although an error is reported |
| Coordinator.PostCompensation | internal/platform/uow/postgres/coordinator.go:119-141 | the reversing journal and the saga's new state, or neither |
| TransferService.RedisStore.Get | internal/idempotency/adapters/redis/store.go:25-40 | the record, not found, or a broken read |
| TransferService.RedisStore.TryAcquire | internal/idempotency/adapters/redis/store.go:42-67 | creates a processing record only if the key is absent, and says whether it was |
| TransferService.RedisStore.Delete | internal/idempotency/adapters/redis/store.go:117-123 | removes the key and nothing else |
| TransferService.Service.Execute | internal/transfer/app/service.go:59-98 | among other participants, a whole execution takes exactly the steps of the step-by-step request, to the same answer; an invalid command is answered with the code of its first fault, invalid IBAN included, and writes nothing of its own |
| TransferService.Service.Run | internal/idempotency/app/guard.go:50-97 | the guard around the saga, step for step |
| TransferService.Service.WaitForExisting | internal/idempotency/app/guard.go:99-126 | answers from the record of whoever acquired the key |
| TransferService.Service.HandleFailure | internal/idempotency/app/guard.go:128-134 | deletes the key on an error that is safe to retry, otherwise marks it failed, and swallows errors of both |
| TransferService.Service.Fail | internal/idempotency/adapters/redis/store.go:98-115 | reads the record and writes it back failed |
| TransferService.Service.Complete | internal/idempotency/adapters/redis/store.go:69-96 | reads the record and writes it back completed |
| TransferService.Service.RunSaga | internal/transfer/app/service.go:150-267 | screens, prepares and commits, or reports the first error |
| TransferService.ExecutionIsSound | internal/transfer/app/service.go:59-98 | a whole execution among others that keep the invariant keeps it too, and its success is a committed transfer |
| OutboxRelay.ProcessPendingBatch | internal/outbox/adapters/postgres/repository.go:55-95 | claims as many unlocked pending events as the limit allows (10 if none is given) and marks them with what the broker answered until a mark breaks; all marks are committed or none, none if the claim or a mark broke, and the count is of the events marked as published |
| OutboxRelay.MarkedIs | internal/outbox/adapters/postgres/repository.go:163-179 | the claimed rows get their outcomes, and no other row changes |
| OutboxRelay.RunKeepsInv | internal/outbox/adapters/postgres/repository.go:55-95 | any number of relays: rows are held by one relay, and marks are only written for events heard of |
| OutboxRelay.PublishedWasAccepted | internal/outbox/adapters/postgres/repository.go:77-89 | for every PUBLISHED event of a run there is an earlier action of it that published this event and was told of success |
| OutboxHistory.MarksTellAnswers | internal/outbox/adapters/postgres/repository.go:77-89 | in every run, PUBLISHED implies an earlier publish of that event that the broker accepted, FAILED one that it refused |
| OutboxRelay.MarksAreFinal | internal/outbox/adapters/postgres/repository.go:147-161 | PUBLISHED and FAILED are final |
| OutboxRelay.NoDoubleMark | internal/outbox/adapters/postgres/repository.go:147-161 | no event is marked by two committed batches |
| OutboxRelay.RollbackLeavesPending | internal/outbox/adapters/postgres/repository.go:64-70 | however far a batch got, after its rollback every event it had claimed is pending, in no committed batch, and free for any idle relay to claim |
| OutboxRelay.CommitReducesBacklog | internal/outbox/adapters/postgres/repository.go:91-94 | a committed batch takes exactly its claimed rows out of the backlog |
| OutboxRelay.BacklogIsConserved | internal/outbox/adapters/postgres/repository.go:55-95 | without new events, the backlog and what the batches took add up to the initial backlog |
| OutboxRelay.BacklogDrains | internal/outbox/adapters/postgres/repository.go:55-95 | one idle relay can drain everything that the others do not hold, whatever they hold and whatever the broker answers, and each event ends with the status of its answer |

## Left out

- HTTP, authentication, metrics, audit log, configuration and the web front end: no money logic.
- SQL text, drivers, JSON and Kafka libraries: only their effects, field by field.
- Executing an update while the rows of a query are still open, in `ClaimPendingSettlements`: the intended select, count and commit is modelled.
- Creation times, and with them the order and fairness of claims: a claim takes any pending rows within its limit.
- Real time, TTL durations, tickers and shutdown: expiry is a step that may happen at any moment.
- Fraud limits, velocity counter, sanctions and KYC lists: they accept or refuse freely before posting.
- Currencies other than SAR, and text outside ASCII in keys and IBANs, where case folding and rune counts differ.
- Account types outside the five that the schema admits, and names that `NewAccount` would refuse on reading a row back.
- The resource id that a record carries beside its payload: nothing reads it back.
- Row locks of the saga, settlement and outbox inserts of a transfer: only ledger rows and keys take part in the interleaved lock machine.
- The members nothing in the core calls: `MarkPublished`, `MarkFailed`, `FetchPending`, `CreateSaga`, `CreateSettlement`, `PostTransactionWithEvents`, and the status queries.
