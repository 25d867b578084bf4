# The concurrent bank, verified

This project models bankcore as a transition system and proves what the bank promises about it: transfers with
idempotency keys, settlement and failure, deposits and withdrawals, the reset, the load simulator that drives them, and
the parsing and printing of amounts.

The model has five layers.

1. **The atomic bank** (`Ledger`, `Bank`, `BankLaws`, `History`). Tables of accounts and transfers, an append-only log of
   entries, and ten operations that each happen at once. `Guard` says when an operation is allowed, `Exec` what it does,
   `DbInv` what every state satisfies.
2. **The protocol** (`Protocol`). Any number of client calls, each a program counter over the SQL statements that the
   services really issue, interleaved statement by statement. Every statement reads the latest committed tables (Read
   Committed, section 13.2.1 of the PostgreSQL 16 manual), writes stay private until COMMIT publishes them, table and row
   locks last from the statement that takes them to the end of the transaction, an UPDATE waits for its row and then
   looks at the version again, the foreign keys of a new transfer share the keys of its two accounts with everything but
   FOR UPDATE (section 13.3.2), and any statement may fail at any time. Account rows are written optimistically: nothing
   but the version test of the UPDATE protects a plain read.
3. **Why it works** (`Invariant`, `Statements`, `Commits`, `Refinement`). What a call knows at each of its statements, why
   no other call can make it false, and the refinement: the committed tables are always those of the atomic bank running
   the committed operations in commit order.
4. **What follows for every run**: what calls commit (`Steps`, `Calls`, `Keys`, `Effects`, `Mutations`, `Settlement`,
   `Blocking`), what they answer (`Honesty`, `Outcomes`, `Modes`, `Awaiting`), what they lock (`Exclusion`, `Locks`,
   `Resets`), what is read (`Stats`, `Backlog`) and what the simulator counts (`RunAccounting`, `Simulation`). Then runs
   of calls that nobody disturbs (`Solo`, `SoloSettlement`, `Replies`, `Undisturbed`, `Answers`), runs that end well
   (`Endings`, `Finishing`), and runs that go wrong (`Races`, `Crossing`).
5. **The program's own form** (`Database`, `Flow`, `Service`, `Simulator`, `Pacing.Dispatch`, the methods of `Backlog`).
   Classes whose methods update their fields in place and follow the control flow of the Go code, loops included, while
   other clients take their turns between any two statements. Each method is proved to perform a run of the protocol, so
   that the theorems of layer 4 become its postconditions. What the outside does is given by two oracles of `Database`:
   `strangers` says what the other clients do in the next turn, `faults` which statements fail. `Blamed` tells whether
   the database has failed a call, so that a method cannot blame it for an error of its own.

`Runner` is a second transition system, for the simulator's phase machine, dispatcher and workers; `Simulation` runs it and
the protocol together, so that the counters of a run are about the tables. `Money` stands alone.

The answers of the services are written down twice. `Protocol` has them where the code has them, statement by statement;
`Replies.ReplyTo` says, for each call as a whole and without statements, snapshots or retries, what it answers and commits on a
given bank. `Answers` proves that every undisturbed run of the first arrives at the second.

Reading aids: `Client.w.snap` is the `accs` map of the code, `bal`, `adds` and `write` are the writes of the open
transaction, `outer` counts the repetitions of a simulator worker and `attempt` the retries of one call. `history`,
`begun`, `epoch` and `clashed` only record what happened; no statement reads them. The settlement mode, `external`, is
fixed for a run.

## Where the code falls short of its own promises

- A FAILED transfer is meant to have moved no money. `markFailed` runs after the row lock is released and looks at nothing
  (internal/transfer/transfer.go:139, 263-265). `Races.OverlappingCallsStrandMoney` gives the run in which two overlapping
  calls with one key leave a booked transfer FAILED and not reversed, in both settlement modes.
  `Settlement.OnlyMarkFailedLeavesMoneyMoved` and `Settlement.StrandedExactlyByMarkFailed` say exactly when that happens:
  if and only if the statement hits a transfer that has two entries. `Settlement.FailedNeverStrandsMoney` and
  `Settlement.TerminalStatesAreFinal` prove that it never does while at most one Transfer call for every key is in flight.
- The order of locks is meant to rule out deadlocks, and does not. A deposit or withdrawal locks accounts before
  entries, a reset entries before accounts (`Races.DepositAndResetBlockEachOther`). And `reverse` locks two accounts
  FOR UPDATE in the order of their identifiers (internal/transfer/transfer.go:464-474), while the foreign keys check
  the INSERT of a transfer against the account from before the account to (internal/transfer/transfer.go:99-106,
  migrations/0001_init.up.sql:24-26): `Crossing.TransferAndFailBlockEachOther` gives a run in which a Transfer from
  the greater account to the smaller and a Fail between the same two wait for each other where settlements come from
  outside, and `Crossing.TransferAndFailCanBlock` proves that this can follow any reachable state at rest that has a
  reversible transfer. `Locks.WaitCyclesExactly` says exactly when calls wait in a circle: if and only if a deposit or
  withdrawal stands before its entry while a reset holds the entries, or such an INSERT waits for a Fail that waits,
  through any number of others, for it. `Locks.SomeClientCanMove` proves that without a circle somebody can take a
  step.
- `SetStatus` does not raise the version (internal/account/account.go:172), so an account is known to be ACTIVE when it is
  read, not when the booking commits. `Races.BlockedAccountStillMoves` gives a run in which a deposit commits on an account
  that was blocked just before. `Blocking.BlockedExactlySince` says exactly when an account that a call has read and may
  still post to is blocked: if and only if a SetStatus committed since the call began has blocked it and none after that
  has activated it.
- `ParseDecimal` lets signs into the fraction. `Money.SignedFractions` says exactly which: a lone sign, a plus and a digit,
  or a minus zero, so that 1.+5 is 1.05 (`Money.OneAndFiveHundredths`); `Money.ParsesExactly` is the grammar of everything
  it accepts. The printed form of a negative amount is not read back (`Money.RoundTrip`).
- `FormatCents` negates its argument, which the smallest int64 survives: that one amount is printed with two signs and a
  fraction of -8, and every other is printed right (`Money.PrintsExactly`).

## Model

| member | source | states |
|---|---|---|
| BankLaws.ExecKeepsDbInv | internal/transfer/transfer.go:194-214 | every operation keeps the whole invariant: running sums, versions, bookings, unique keys, references |
| BankLaws.ExecKeepsBooking | internal/transfer/transfer.go:437-447 | after any operation every transfer has 0, 2 or 4 entries of the right accounts, types and amount; 4 only when FAILED, exactly 2 when SETTLED |
| BankLaws.ExecKeepsLedger | internal/account/account.go:112-135 | after any operation version counts entries, each entry states the running sum, the balance is the last one and within 0 and 2^63-1 |
| BankLaws.ExecReverseEffect | internal/transfer/transfer.go:464-494 | a reversal keeps the two booking entries and adds the same pair the other way round |
| BankLaws.ExecOtherTransfer | internal/transfer/transfer.go:148-226 | an operation on one transfer leaves the row and the entries of every other as they were |
| Common.SumWraps | internal/transfer/transfer.go:194-195 | the sum of two non-negative int64 amounts overflows exactly when it wraps to a negative number, which the balance check then refuses |
| History.BookedAtMostOnce | internal/transfer/transfer.go:155-172 | over any legal history no transfer is booked twice, and a live one is booked exactly when it has entries |
| History.VersionCountsChanges | internal/transfer/transfer.go:248-261 | the version of an account is the number of balance changes ever committed to it |
| History.StatusMoves | internal/transfer/transfer.go:372-414 | status leaves PENDING once, but for an unconditional markFailed; time and reference of settlement are never overwritten |
| History.NoEntryAfterPending | internal/transfer/transfer.go:155-172 | no operation adds an entry to a transfer that has left PENDING |
| Invariant.OthersKeepLinked | internal/transfer/transfer.go:155-174 | what a call has read under its locks stays true, and what it has read without stays true exactly while the version does, whatever operation another call commits |
| Statements.UpdateAccOk | internal/transfer/transfer.go:248-261 | an optimistic update either keeps all facts of the call with the new balance written privately, or rolls back and commits nothing |
| Statements.LockRowOk | internal/transfer/transfer.go:155-164 | reading a row FOR UPDATE fixes it for the rest of the transaction, and every branch on its status keeps the invariant |
| Statements.ReadAccOk | internal/transfer/transfer.go:174-192 | a plain read commits nothing, and a call goes on only past ACTIVE accounts and a sufficient balance |
| Statements.LockAccOk | internal/transfer/transfer.go:464-479 | a reversal holds both account rows and their current versions before it computes balances |
| Statements.CreateOk | internal/transfer/transfer.go:97-106 | an INSERT that succeeds commits a new PENDING row whose key nobody has |
| Statements.FindOk | internal/transfer/transfer.go:112-119 | a call that finds its key works on the row of that key with its own parameters, or changes nothing |
| Commits.BookCommits | internal/transfer/transfer.go:197-225 | COMMIT of a transfer is the atomic booking, allowed by the bank at that very moment |
| Commits.ReverseCommits | internal/transfer/transfer.go:464-494 | COMMIT of a failure is the atomic reversal, allowed at that very moment |
| Commits.MutateCommits | internal/account/account.go:97-144 | COMMIT of a deposit or withdrawal is the atomic balance change, allowed at that very moment |
| Commits.CommitOk | internal/transfer/transfer.go:222-225 | a COMMIT publishes exactly one allowed atomic operation or nothing, under locks that cover it |
| Refinement.StepKeepsInv | internal/transfer/transfer.go:148-226 | every statement, lock, abort and new call keeps refinement, mutual exclusion and the facts of all calls |
| Refinement.EveryInterleavingRefinesTheAtomicBank | internal/transfer/transfer.go:148-226 | for any number of clients and any interleaving, the committed tables are those of the atomic bank running the committed operations one at a time in commit order, each allowed when it happened |
| Steps.NoTransferComesBack | internal/simulation/simulation.go:218-235 | a transfer that exists at two moments of a run exists at all moments between |
| Calls.TransferResultsAreHonest | internal/transfer/transfer.go:69-146 | nil means the transfer of the key is booked exactly once in the whole history; an error means the call moved no money; a call that never got a transfer changed nothing |
| Calls.LostAttemptsAreForeign | internal/transfer/transfer.go:122-146 | at every moment the attempts a call has lost are at most the balance commits of others on its two accounts since it began; without any the first attempt never conflicts |
| Calls.ConflictsAreForeign | internal/simulation/simulation.go:364-377 | a CONFLICT took three balance commits of others on its two accounts for every try that did not find its key taken with other parameters |
| Keys.AloneNeverClashes | internal/transfer/transfer.go:112-119 | in any run, a Transfer call whose key no other call ever carried never finds the key taken with other parameters |
| Keys.OwnConflictsAreForeign | internal/simulation/simulation.go:364-377 | a call alone with its key that ends in CONFLICT lost all its tries, three times each, to balance commits of others since it began: 3 for the API, 15 for a worker of the simulator |
| Calls.FailNeverConflicts | internal/transfer/transfer.go:464-487 | in no run does Fail end in a version conflict |
| Calls.CollisionIsPaid | internal/transfer/transfer.go:204-206 | an update whose version does not match means a balance commit of another call after the attempt began |
| Effects.CallsCommitExactlyWhatTheySay | internal/account/account.go:78-144 | a deposit, withdrawal, opening, blocking or reset commits its one operation if and only if it completes; Settle and Fail commit at most the one asked for, a settlement with exactly the reference given or none for an empty one, and nothing when they refuse |
| Outcomes.AnswersAreTrue | internal/transfer/transfer.go:69-453 | in any run, every answer of every call was true of the bank at a moment of the call: an accepted transfer had entries and the status answered, done means done, a refusal the status, the missing entries, the spent balance or the blocked account it reports; an INTERNAL took a failing statement, a missing account, a balance that would not fit or a reset; a call that found its key taken met a row with other parameters |
| Outcomes.BadCallsAreTurnedDown | internal/transfer/transfer.go:69-78 | in any run, a Transfer with an empty key, equal accounts or no positive amount gets no further than its validation and can only be refused as invalid |
| Outcomes.RefusalsAreFinal | internal/transfer/transfer.go:137-143 | a Transfer that has been refused for its accounts or its funds answers that refusal with the transfer FAILED, whatever happens to its mark |
| Honesty.CommitTells | internal/transfer/transfer.go:388-413 | at its COMMIT a Settle or Fail leaves its transfer in the status asked for, whether it writes it or has locked the row with it |
| Honesty.BookedTells | internal/transfer/transfer.go:126-130 | the COMMIT of a booking leaves the row in the status that is answered: SETTLED inside, PENDING where settlements come from outside |
| Honesty.StatementHonest | internal/transfer/transfer.go:148-226 | a statement that ends a call ends it with an answer that the tables at hand or an account it has read bear out, whatever the call |
| Modes.InternalBookingsSettle | internal/transfer/transfer.go:216-220 | in any run of the internal mode, no transfer with entries is PENDING |
| Awaiting.NewTransfersArePending | internal/transfer/transfer.go:122-132 | where settlements come from outside, an API call that created its transfer and is accepted answers PENDING |
| Undisturbed.StatementSame | internal/transfer/transfer.go:148-226 | no statement of an undisturbed call changes what the call will have answered and committed in the end |
| Answers.UndisturbedCallsReply | internal/transfer/transfer.go:69-146 | in any run, a call beside which nobody commits and no statement fails answers and leaves behind exactly what the bank at its beginning asks for, whatever the call |
| Answers.EveryCallIsAnswered | internal/transfer/transfer.go:372-495 | from any reachable state at rest every call can run to that answer, so it holds of something |
| Answers.FailEndsUnbooked | internal/transfer/transfer.go:444-463 | Fail on a PENDING transfer without entries completes, commits exactly the end of that transfer, and leaves the row FAILED, without entries, and all accounts alone |
| Mutations.MutateConflictsAreForeign | internal/account/account.go:78-95 | every lost attempt of a deposit or withdrawal is charged to a change of its account by another call since it began; a CONFLICT took three, and committed nothing |
| Settlement.OnlyMarkFailedLeavesMoneyMoved | internal/transfer/transfer.go:263-265 | an operation leaves every FAILED transfer void if and only if it is not markFailed on a transfer with two entries |
| Settlement.StrandedExactlyByMarkFailed | internal/transfer/transfer.go:139-143 | over any history a live transfer is FAILED with its money moved if and only if markFailed hit it while it was booked |
| Settlement.FailedNeverStrandsMoney | internal/transfer/transfer.go:122-146 | with at most one Transfer in flight for every key, no reachable state has a FAILED transfer that is booked and not reversed |
| Settlement.FailedNetsToZero | internal/transfer/transfer.go:488-494 | over the entries of such a FAILED transfer every account nets to zero |
| Settlement.TerminalStatesAreFinal | internal/transfer/transfer.go:372-453 | under the same condition SETTLED and FAILED are final over whole runs, with time and reference of settlement |
| Settlement.SettlementIsWrittenOnce | internal/transfer/transfer.go:402-405 | in any run at all, settled_at and settlement_ref are written at most once |
| Settlement.NoLateEntries | internal/transfer/transfer.go:155-172 | in any run at all, a transfer that has left PENDING stays out of it and never gets another entry |
| Stats.MoneyIsConserved | internal/simulation/stats.go:70-79 | at every moment of every run the balances add up to deposits minus withdrawals since the last reset |
| Stats.ExecMovesMoney | internal/transfer/transfer.go:194-214 | only deposits, withdrawals and resets change the sum of all balances |
| Stats.LedgerTellsBalances | internal/account/account.go:112-135 | in every reachable state version, running sums and balance agree with the account's entries in commit order |
| Stats.TransfersAreBookedRight | internal/transfer/transfer.go:209-214 | in every reachable state the entries of a transfer are 0, 2 or 4 of the right kind, and nothing is SETTLED unbooked |
| Stats.DashboardAgreesWithLedger | internal/simulation/stats.go:51-79 | in every reachable state no account is divergent, and settled and pending volume are what the ledger debited for those transfers |
| Stats.TamperingShows | internal/simulation/stats.go:70-79 | changing the balance of an account behind the ledger's back makes that account divergent and no other |
| Stats.VolumeIsDebits | internal/simulation/stats.go:51-61 | the amounts of transfers with two entries sum to the DEBIT entries of these transfers |
| Backlog.Query | internal/transfer/transfer.go:317-320 | picking the first of the rows left, again and again, yields LIMIT and OFFSET of the matching rows, earlier created first and the smaller identifier first among equals |
| Backlog.ListForSettlement | internal/transfer/transfer.go:312-343 | exactly the matching rows with offset to offset + limit others ahead of them, the k-th having offset + k, by time of creation and then identifier; has_next if and only if more than offset + limit match |
| Backlog.FollowPages | docs/handoff-liquida-v1.1.0.md:98 | a client that asks for the next page while has_next is true gets every matching transfer once, in order of creation and then of identifier |
| Backlog.PagesCoverTheListing | internal/transfer/transfer.go:312-343 | pages of any positive size followed to the last give every matching transfer once, in order of creation and then of identifier, as many as the dashboard counts |
| Backlog.ListingIsUnique | internal/transfer/transfer.go:317-320 | creation time and identifier determine the order of the rows completely |
| Locks.WaitCyclesExactly | internal/simulation/simulation.go:218-235 | in every reachable state calls wait in a circle if and only if a deposit or withdrawal before its entry meets a reset that holds the entries, or an INSERT that goes down waits for a Fail that waits for it; every circle runs through such a pair |
| Locks.SomeClientCanMove | internal/transfer/transfer.go:174-207 | in every reachable state in which nobody waits in a circle, while a call is unfinished some client can take a step |
| Locks.ServiceAscends | internal/transfer/transfer.go:464-474 | every call but a deposit or withdrawal, and but an INSERT of a transfer from the greater account to the smaller, waits only for locks above all it holds: transfers, entries, accounts, account rows and their keys by identifier |
| Locks.ResetRetriesAreBounded | internal/simulation/simulation.go:204-216 | a reset gives up on its locks at most three times |
| Resets.ResetTriesThreeTimes | internal/simulation/simulation.go:204-216 | in any run, a reset has failed on its locks as often as it was sent back, gives up on the third time, and never before |
| Exclusion.LocksExclude | internal/simulation/simulation.go:218-235 | in every reachable state no two calls hold the same row lock, the same key beside FOR UPDATE, or a table beside an exclusive lock on it |
| Exclusion.LocksAreGranted | internal/transfer/transfer.go:155-156 | a lock is granted if and only if nobody else holds one that conflicts with it |
| Exclusion.PlainStatementsAskForTables | internal/transfer/transfer.go:234-246 | plain reads, INSERTs of entries and accounts, and a search for a key ask for no lock on any row |
| Exclusion.ResetRunsAlone | internal/simulation/simulation.go:218-235 | once a reset holds its three tables no other call can execute anything but the test of its parameters |
| Races.OverlappingCallsStrandMoney | internal/transfer/transfer.go:122-146 | a run of two overlapping calls with one key and one deposit ends with a booked transfer FAILED, while every other invariant holds |
| Races.DepositAndResetBlockEachOther | internal/account/account.go:117-135 | a run in which a deposit and a reset wait for each other |
| Crossing.TransferAndFailCanBlock | internal/transfer/transfer.go:464-474 | from any reachable state at rest with a transfer that can be reversed, its Fail and a new Transfer between the same accounts, from the greater to the smaller, can come to wait for each other |
| Crossing.TransferAndFailBlockEachOther | internal/transfer/transfer.go:97-106 | a run from the empty bank in which they do |
| Races.BlockedAccountStillMoves | internal/account/account.go:108-119 | a run in which a deposit commits on an account that SetStatus has just blocked |
| Blocking.BlockedExactlySince | internal/transfer/transfer.go:176-185 | at every moment of every run, up to its COMMIT, an account that a call has read is BLOCKED if and only if somebody has blocked it since the call began and nobody has activated it after that |
| Blocking.StatusIsTheLastSet | internal/account/account.go:169-183 | over any legal history an account is blocked exactly when the last SetStatus on it said so |
| Solo.SoloTransfer | internal/transfer/transfer.go:69-226 | from any reachable state in which nobody holds a lock, a funded Transfer with a new key creates its row, books it and answers the status of that row |
| Solo.SoloRepeat | internal/transfer/transfer.go:97-226 | a repeated call with the key and parameters of an unbooked PENDING transfer books that transfer and answers the status of its row |
| Solo.SoloLacksFunds | internal/transfer/transfer.go:187-192 | a Transfer with too little money ends its transaction without a booking and holds nothing when it goes on to mark the transfer |
| Solo.SoloMarkFail | internal/transfer/transfer.go:263-265 | the mark goes through whatever the status has become |
| Solo.SoloMutate | internal/account/account.go:97-144 | a deposit or withdrawal on an ACTIVE account that leaves a balance in range goes through |
| SoloSettlement.SoloSettle | internal/transfer/transfer.go:372-414 | Settle on a booked PENDING transfer leaves it SETTLED with a time, with the reference given, and with none when it is empty |
| SoloSettlement.SoloFail | internal/transfer/transfer.go:416-495 | Fail on a booked PENDING transfer whose destination can pay reverses it |
| SoloSettlement.ReverseUndoesBook | internal/transfer/transfer.go:455-495 | booking and reversing restores every balance, leaves the row FAILED and four entries |
| RunAccounting.ResultsTellTransfers | internal/transfer/transfer.go:97-146 | whatever came before it and goes on beside it, a call alone with its key leaves its transfer in the state that its result tells, unless its FAILED mark was lost, the tables were truncated since it began, or its transfer was voided after a CONFLICT |
| RunAccounting.CompletedRunAddsUp | internal/simulation/simulation.go:312-397 | where outcomes classify such results, rows created, booked, FAILED unbooked and PENDING unbooked are as many as dispatched, accepted, rejected_insufficient and conflict_exhausted |
| Simulation.BothSidesRun | internal/simulation/simulation.go:312-333 | what simulator and bank do together is a run of each |
| Simulation.JobsMakeOneCall | internal/simulation/simulation.go:318-321 | in every reachable state of both, a job has made a call, one and its own, if and only if it was counted as dispatched |
| Simulation.JobKeysDiffer | internal/simulation/simulation.go:367 | different jobs, of one run or of two, have different keys |
| Simulation.FinishedSimulationAddsUp | internal/simulation/simulation.go:270-274 | once the simulator says finished without errors, its run has created one row for every transfer asked for, and its three counters are the numbers of rows booked, FAILED unbooked and PENDING unbooked, whatever other clients and earlier resets did, as long as nobody used its keys, no FAILED mark was lost, and nobody voided a transfer whose conflicts were exhausted |
| Simulation.OutcomesTellAnswers | internal/simulation/simulation.go:379-397 | in every reachable state each recorded outcome is that of the call of its job: accepted, refused with its transfer FAILED, CONFLICT, or any other answer |
| Simulation.ExhaustedJobsLostFifteen | internal/simulation/simulation.go:364-377 | a job counted as exhausted by a call alone with its key lost 15 attempts to balance commits of others on its two accounts |
| Simulation.JobsBeginExactly | internal/simulation/simulation.go:364-367 | a worker with a job can begin its call for every pair of different accounts and every amount from 100 to 40000 cents, and for no other |
| Runner.RunsKeepToThemselves | internal/simulation/simulation.go:237-275 | a step of one run touches no other run and no other done channel, and after its terminal phase neither the board nor its own counters |
| Runner.OneLiveRun | internal/simulation/simulation.go:123-143 | at most one run has its terminal phase still to write, and it is the one on the board |
| Runner.ResetTruncatesAtRest | internal/simulation/simulation.go:159-179 | whenever a reset truncates, no run is between Start and its terminal phase, and no worker is left |
| Runner.StopAnswersAtRest | internal/simulation/simulation.go:145-157 | once its done channel is closed a run has written its terminal phase, and the board shows it unless something newer has come |
| Runner.CountersAddUp | internal/simulation/simulation.go:316-321 | dispatched is always the four outcome counters plus the transfers in flight, which are at most the workers; every configured worker is there |
| Runner.FinishedMeansComplete | internal/simulation/simulation.go:270-274 | phase finished means that every job from 1 to the configured number has exactly one outcome and nothing is in flight |
| Runner.PhaseTellsCompletion | internal/simulation/simulation.go:270-274 | for a run of at least one transfer, a terminal phase on the board is finished if and only if every job from 1 to the number configured has its outcome; its workers have quit |
| Endings.EveryRunCanEnd | internal/simulation/simulation.go:255-275 | from any reachable state of the runner without an active run or a reset, a new run of any configuration with workers can reach finished, and, unless it has no transfers, can also be stopped |
| Finishing.SimulationCanFinish | internal/simulation/simulation.go:312-333 | from any reachable state of simulator and bank at rest with two accounts that can pay, a run of the two together ends in finished, with its one transfer accepted, booked and the money moved |
| Finishing.FirstRunFinishes | internal/simulation/simulation.go:270-274 | from the empty bank simulator and bank reach finished together |
| Runner.JobsAreSentInOrder | internal/simulation/simulation.go:335-344 | every run hands out its jobs once, in the order 1, 2, 3 |
| Pacing.RoomInClosedForm | internal/simulation/simulation.go:356-362 | the sum of the first n batch sizes in closed form |
| Pacing.PaceIsEven | internal/simulation/simulation.go:356-362 | the jobs given room are never behind the rate and at most 2.5 ahead of it |
| Pacing.Dispatch | internal/simulation/simulation.go:331-354 | sends a prefix of the jobs in order, all of them unless it was cancelled at that very moment, after exactly as many ticks as the rate demands, and terminates although batches can be empty |
| Money.OverflowTestIsExact | internal/platform/money/money.go:45-48 | the test after the fact passes exactly when the fraction is not negative and the amount fits an int64, and then nothing has wrapped |
| Money.ParsesExactly | internal/platform/money/money.go:11-50 | the grammar: spaces aside, digits, possibly with a point and a fraction of one of six shapes, whose amount fits an int64; accepted if and only if, with that amount |
| Money.TrimmedOfSpaces | internal/platform/money/money.go:12 | what is left of a text after trimming is the text without the spaces around it |
| Money.RoundTrip | internal/platform/money/money.go:52-69 | parsing undoes printing for every int64 that is not negative, and for no other |
| Money.PrintsExactly | internal/platform/money/money.go:52-69 | every int64 but the smallest is printed as sign, whole units without leading zeros, point and two digits; the smallest is garbled in one way |
| Money.SignedFractions | internal/platform/money/money.go:31-44 | a fraction that is not all digits is accepted if and only if it is a lone sign, a plus and a digit, or a minus zero; only the digit after a plus adds to the amount, as hundredths |
| Flow.StatementFlows | internal/transfer/transfer.go:122-226 | where each service can stand after each of its statements, whatever the tables hold |
| Database.Database.constructor | migrations/0001_init.up.sql:12-42 | the empty database is the beginning of a run |
| Database.Database.PublishAccounts | internal/transfer/transfer.go:248-261 | the loop over the updated accounts leaves the table that COMMIT publishes |
| Database.Database.Perform | internal/transfer/transfer.go:97-267 | updating tables and session in place, whatever the statement at hand, extends the run by exactly that step of the protocol |
| Database.Database.OthersTurn | internal/transfer/transfer.go:148-226 | other clients do exactly what the oracle of strangers says, extend the run without touching this session, and all they commit is theirs |
| Database.Database.TakeLocks | internal/transfer/transfer.go:155-156 | waits until the locks of the next statement are held, and fails only where all others have taken their turns and one of the locks is still not free; nothing else of the session changes |
| Database.Database.Execute | internal/transfer/transfer.go:148-226 | a statement takes effect in place as a step of the protocol, or fails exactly when the oracle of faults says so or its locks can never be had |
| Database.Database.LockTable | internal/simulation/simulation.go:218-235 | a reset holds one more table, or fails on it exactly when the oracle says so or the wait would never end |
| Service.Service.ProcessOnce | internal/transfer/transfer.go:148-226 | one attempt ends in an answer, before markFailed, at the start of the next attempt, or given up after the third |
| Service.Service.Process | internal/transfer/transfer.go:122-146 | answers after at most three attempts, and versionConflicts grows by exactly the attempts lost |
| Service.Service.Transfer | internal/transfer/transfer.go:69-95 | terminates with an honest result among any other clients: exactly one booking, or no money moved, or three foreign commits since its beginning for every try, 15 for a worker alone with its key; settled in the internal mode; refused at once if and only if key, accounts or amount are bad; undisturbed and without a database failure it answers exactly what the bank asks for; versionConflicts grows by exactly the attempts lost |
| Service.Service.Mutate | internal/account/account.go:78-144 | terminates having committed exactly its balance change if it completed, and nothing otherwise; its answer was true at a moment of the call, a CONFLICT takes three changes of the account by others, and an error a cause in the tables or a failure of the database |
| Service.Service.Settle | internal/transfer/transfer.go:372-414 | terminates; its answer was true at a moment of the call, so that a completed one saw the transfer SETTLED; a refusal has committed nothing, anything else at most the settlement, with the reference given or none for an empty one; undisturbed and without a failure of the database it answers exactly what the bank asks for |
| Service.Service.Fail | internal/transfer/transfer.go:416-495 | terminates, never in a version conflict; its answer was true at a moment of the call, so that a completed one saw the transfer FAILED; a refusal has committed nothing, anything else at most the reversal or the end of an unbooked transfer; undisturbed and without a failure of the database it answers exactly what the bank asks for |
| Service.Service.OpenAccount | internal/account/account.go:46-64 | commits one new account if it completed, nothing otherwise; an error takes a failure of the database |
| Service.Service.SetStatus | internal/account/account.go:169-183 | commits the status if it completed, nothing otherwise; not found was true at a moment of the call, and an error takes a failure of the database |
| Service.Service.TruncateWithRetry | internal/simulation/simulation.go:204-235 | terminates after at most three lock failures, having truncated if it completed and done nothing otherwise; it gives up after exactly three or on a failing statement, and only if the database failed it |
| Simulator.Simulator.Start | internal/simulation/simulation.go:123-143 | refused exactly while a run is active; otherwise a new run with counters of its own |
| Simulator.Simulator.Stop | internal/simulation/simulation.go:145-157 | cancels the active run and names its done channel, or does nothing |
| Simulator.Simulator.Reset | internal/simulation/simulation.go:159-216 | truncates exactly when no run is active and one of at most three attempts succeeds, the ones before it having failed on their locks and not otherwise; then no worker of any run is left and the default configuration is back; a failed reset changes nothing |
| Simulator.Simulator.Announce | internal/simulation/simulation.go:237-275 | after the terminal phase is written no run is live and none is active; a run announces finished if and only if every job from 1 to the number configured has its outcome, and stopped otherwise |

## Left out

- HTTP handlers, routing, JSON, authentication, configuration and the start-up of the program: plumbing around the services. The ranges the handlers check (positive amounts, a rate of at least one, a positive page size) are preconditions here.
- Wall-clock time: backoff sleeps, jitter, ticker timing, the throughput and latency figures of the dashboard. Time is the order of events, and stored times are opaque numbers.
- Random generation: identifiers are any value never used before, amounts and pairs of accounts are arguments. Account numbers are not modelled, nor the repetition of Open when one is taken.
- PostgreSQL beyond Read Committed, row locks and table locks: foreign keys other than those of a new transfer (they point to customers, or to rows that the same transaction has locked), an INSERT that waits for an uncommitted row with its key, the order in which waiting clients are served, wrap-around of the INTEGER version, and COMMITs whose outcome is unknown. FOR UPDATE takes the row of an account and then its key.
- UPDATE of a row whose version moved on while it waited: it is taken to lock nothing, as its transaction rolls back at once.
- Service.Service.Transfer: `tries` joins the API's single call and the worker's loop of five (internal/simulation/simulation.go:364-377) in one method, because both run the same statements; one class stands for transfer.Service, account.Service and the reset of the runner.
- Database.Database.TakeLocks: a client that would wait for ever fails its statement instead, as a cancelled context would make it.
- Awaiting.NewTransfersArePending: calls of one try. A worker of the simulator that repeats its call may find that the transfer it created has been settled in between, and then answers SETTLED.
- Calls.ConflictsAreForeign: a CONFLICT of versions is described by the commits of others that it took, not by the tables, since an undisturbed call never ends in one. Only the other one, a key taken with other parameters, is an answer of `Replies.ReplyTo`.
- Service.Service.OpenAccount: the three tries for an account number that is not taken; one INSERT stands for them.
- Simulator.Simulator.Reset: the class is the runner alone. In Simulation a reset of the runner and the protocol's reset call share their TRUNCATE, not their lock failures.
- Simulation.JobKeysDiffer: the key of a job has the number of its run where the code prints a UUID. That no client but the workers uses such a key is a hypothesis of Simulation.FinishedSimulationAddsUp.
- Stop answers after the done channel is closed; the wait itself is not a step of the model, and the seeding of accounts is one step that succeeds or fails.
- Sums of amounts on the dashboard are exact integers; the cast of an aggregate beyond int64 is not modelled.
- ledger.List orders entries by created_at, the start time of their transactions, which need not be the order of commits. All statements about running balances are about commit order.
- Money: texts are sequences of Unicode characters, so malformed UTF-8 is outside the model.
- ListByStatus, ListByStatusForOwner, Get, Statement, List and Status: plain reads of one snapshot that would add only easy members.
