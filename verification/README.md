# StellarStream: a verified model

StellarStream pays out deposits over time. A Soroban contract holds the deposits and keeps one
record per stream; a backend indexes the contract's events, delivers webhooks, rewrites its SQL for
Postgres, signs accounts in and shows progress; a second contract lets token holders govern
parameters. This project models the parts of that system whose correctness spans several
operations and proves what they promise over all runs.

`dafny verify dfyconfig.toml` checks the whole project.

## How it is organized

- **The streaming contract.** `Vesting` and `VestingLaws` are one stream and its floor division
  under pause, resume, cancel and split. `StreamState` is the whole contract as a state machine
  (`Exec` one call, `Run` any sequence of calls and ledger closes, by anyone). `StreamContract` is
  the contract as code: a class whose entry points change its storage step by step, each proved to
  do what `Exec` says. `StreamAnswers` says of each call, in plain figures, exactly when it goes
  through, what record it leaves and who pays whom how much; `StreamTerms` says over every run whose
  a stream is and whom it pays. `StreamRuns`, `StreamIds`, `Solvency`, `StreamHistory` and
  `StreamConsequences` prove what every run keeps; `StreamExamples` are the runs in which a promise
  fails.
- **The event indexer.** `Breaker` (circuit breaker and the polls it admits), `IndexerModel` (polls
  that fail anywhere, restarts, and the chain behind them), `IndexerLaws` (the table they build),
  `IndexerService` (the code).
- **Webhooks.** `WebhookModel`, `WebhookLaws` (conservation, the retry schedule, bounded attempts, no
  starvation), `WebhookService` (the code).
- **SQL placeholders.** `Placeholders` and `PlaceholderLaws` (what a statement means before and
  after translation), `PlaceholderText` (what happens to its text, inside and outside quotes),
  `Translator` (the two scans as loops).
- **Governance.** `DaoModel`, `DaoLaws` (what every run keeps), `DaoAnswers` (which votes count, which
  proposals pass, what they change), `DaoContract` (the code); `DaoShared` is the DAO in one instance
  with the streaming contract.
- **Sign-in challenges.** `Auth`. **The backend's own vesting formula.** `OffChain`.

## How the code is read

- A panic, and an error returned by an entry point, undoes everything the call did. So a throttled
  claim leaves no event behind, although contracts/src/lib.rs:652-653 says one is emitted.
- Timestamps and durations are `u64` and saturate exactly where the code saturates; amounts are
  `i128` and a product or sum that does not fit panics. Ledger time does not run backwards, and
  neither do the backend's clocks.
- `require_auth` of an account holds unless that account is the contract itself, which signs nothing.
- A token is its balances, with a transfer that fails on a missing balance or an overflowing payee;
  balances of anyone but the contract may change at any time, and the contract may be given tokens.
- The DAO has an instance of its own: nothing but its entry points writes its storage. (It is built
  into one binary with the streaming contract, contracts/src/dao.rs:122-128; `DaoShared` says what
  changes if the two are deployed as one instance.)
- Which events the indexer's database takes is part of each reply: an event is passed over when its
  stream has no row, and when processing it throws for any other reason (`thrown`). Such a reason is
  `JSON.stringify`, which refuses a bigint: created, claimed, paused and resumed events carry 64- and
  128-bit numbers in their metadata (backend/src/services/indexer.ts:560-660), so if the SDK hands those
  over as bigint, these events are always passed over.
- What comes from outside (RPC replies, the database's answer to the batch query, delivery outcomes,
  whether a transaction commits, whether a challenge is well formed) is a parameter and may be
  anything, except as follows. The RPC node shows the chain truly: pages are consecutive, the node never
  falls behind a ledger it announced, and an empty page or a page without cursor exhausts what it
  has (`IndexerModel.HonestPages`). The batch query answers as SQL prescribes
  (`WebhookModel.ValidBatch`). The two statements that record one delivery outcome take effect together.

## Where a promise fails, and exactly when

- **A cancel can pay a refund without writing it off.** Line 774 compares the ledger clock with the
  end of the schedule although the refund was computed on the stream's own, paused, clock. It happens
  exactly when the stream is canceled at or after its end having been paused before it (or when
  saturated timestamps left the schedule no length): `VestingLaws.CancelDividesTotal`, and for whole
  calls `Solvency.LeakHappens`. Conservation holds of a stream if and only if its cancel was not of this
  kind (`StreamHistory.DepositConserved`); each call keeps the books if and only if it is neither such a
  cancel nor a re-pointing of the native token while native streams are unpaid
  (`Solvency.SurplusKeptIff`); escrow covers its debt if and only if initial balance and gifts make up
  for both (`Solvency.SolventIff`). `StreamExamples.LeakBreaksSolvency`: deposit 100, pause half way,
  cancel at the end; the contract holds 50 and owes 100.
- **Canceling a paused stream before its end lowers what has vested** until it is resumed: exactly when
  the pause began earlier and something had vested (`VestingLaws.CancelFreezes`, `VestingLaws.ResumeAfterCancelRestores`).
  `StreamExamples.CancelShrinksVested`: of 50 vested at the pause 35 are left.
- **A pause that shifts the end past 2^64 - 1** cuts the schedule off, so it vests faster than the
  original: exactly when the shifted end lies beyond that timestamp and the shifted start before it
  (`StreamHistory.StoppedClockIff`, `StreamExamples.LastSecondIsCutOff`).
- **The token allow-list** binds every creation but a split: a creation stores a stream in an unlisted
  token if and only if it is a split given one (`StreamConsequences.UnlistedIffSplit`,
  `StreamExamples.SplitIsNotListed`).
- **Indexing.** A key gets a row if and only if some committed page showed it while its stream had its
  row and nothing else threw (`IndexerLaws.RowsAreFirstAccepted`); an honest run shows every event up to
  its checkpoint (`IndexerLaws.EveryEventIndexed`), so an event is lost if and only if it was passed over
  every time it was shown, and once the checkpoint has passed it is not shown again
  (`IndexerLaws.MissedForGood`). `IndexerLaws.UnknownStreamIsLost` and `IndexerLaws.ThrownEventIsLost` are
  successful polls that lose an event.
- **Two events of one kind on one stream in one ledger** share a key, and only the first has a row
  (`IndexerLaws.SecondOfAKindIsLost`); an event alone with its key has its own row if and only if it
  was accepted (`IndexerLaws.SoleEventIndexed`).
- **Backend and contract: the pause.** The record built from the chain carries no pause. The two agree
  about a paused stream from now on if and only if it has nothing to pay or was paused after its end
  (`OffChain.PauseIsNotShown`); `StreamExamples.PauseIsShownAsRunning` shows 70 where 50 have vested.
- **Backend and contract: the cliff.** The backend ignores it. The two agree at all times about a stream
  that is not paused if and only if less than one unit accrues before the cliff ends and the schedule has
  a length, or there is nothing to pay (`OffChain.CliffIsIgnored`);
  `StreamExamples.CliffIsShownAsRunning` shows 40 where nothing has vested.
- **Placeholders.** A statement that has a `$` in front of a digit does not read back as it was
  translated (`PlaceholderLaws.NamedTranslationMeans`, `PlaceholderLaws.DollarBeforeDigitIsMisread`); in
  the positional form neither does one with a digit right behind an unquoted `?`
  (`PlaceholderLaws.PositionalTranslationMeans`, `PlaceholderLaws.QuestionBeforeDigitIsMisread`).
- **Webhook delays.** The fifth delay, 900 seconds, is never used (`WebhookLaws.LongestDelayUnused`).
- **Quorum.** The quorum is a tenth of the supply rounded down, less once the multiplication
  saturates (`DaoLaws.QuorumRoundsDown`).
- **One instance for both contracts.** They would share the cell that holds the admin. From activation
  on the admin is then the one the executed targets prescribe if and only if the streaming contract's
  `set_admin` never hands the role on (`DaoShared.GovernedIffNotOverridden`), and a streaming contract
  initialized first blocks the DAO for ever (`DaoShared.InitializeBlocksDao`, `DaoShared.SharingMatters`).

## Model

| member | source | states |
|---|---|---|
| VestingLaws.VestedIsFloor | contracts/src/lib.rs:1208-1233 | past the cliff, v satisfies v * duration <= total * elapsed < (v + 1) * duration; never more than the total |
| VestingLaws.VestedMeans | contracts/src/lib.rs:1208-1233 | read at its own clock a stream has vested nothing before the cliff, its total from the end on, and in between the total's share of the time gone by, rounded down; no cliff reaches past the last timestamp |
| VestingLaws.TrapMeans | contracts/src/lib.rs:1219-1232 | the formula overflows exactly past the cliff when total times time gone by does not fit in i128 |
| VestingLaws.VestedMonotone | contracts/src/lib.rs:1208-1233 | vesting never runs backwards in time, paused or not |
| VestingLaws.VestedAtEnd | contracts/src/lib.rs:1219-1232 | an unpaused, uncanceled stream has vested exactly its total at and after its end |
| VestingLaws.FitsNeverTraps | contracts/src/lib.rs:1232 | if total * duration fits in i128, evaluating the formula overflows at no time |
| VestingLaws.EditsKeepFit | contracts/src/lib.rs:769-777 | pausing, resuming and canceling keep that product in range |
| VestingLaws.ShiftLaw | contracts/src/lib.rs:884-885 | a schedule moved d seconds later has vested at t what the original had at t - d, cliff included |
| VestingLaws.ResumeKeepsVested | contracts/src/lib.rs:878-887 | resuming takes back nothing that had vested, even where the timestamps saturate |
| VestingLaws.CancelDividesTotal | contracts/src/lib.rs:766-777 | refund and remaining total make up the old total if and only if the cancel does not leak |
| VestingLaws.CanceledVested | contracts/src/lib.rs:763-777 | at every later time a canceled stream has vested what had vested at the cancel, or strictly less when its clock lagged |
| VestingLaws.CancelFreezes | contracts/src/lib.rs:752-793 | the entitlement is frozen at all later times if and only if the stream was not canceled while its paused clock lagged |
| VestingLaws.ResumeAfterCancelRestores | contracts/src/lib.rs:868-887 | resuming such a stream restores exactly the amount vested at the cancel |
| VestingLaws.SplitDust | contracts/src/lib.rs:507-570 | children together vest at most what one stream of the sum vests, short by at most one unit per child after the first |
| VestingLaws.SplitExactAtEnd | contracts/src/lib.rs:507-570 | from the end on the children have vested exactly the sum |
| StreamContract.Contract.constructor | contracts/src/lib.rs:300-316 | a new deployment has no admin, no streams and no templates |
| StreamContract.Contract.TransferTokens | contracts/src/lib.rs:1121-1136 | resolves the native sentinel and moves the amount, or does nothing when the address, the balance or the payee's range does not allow it |
| StreamContract.Contract.Initialize | contracts/src/lib.rs:300-316 | sets admin, native token and allow-list once; a second call fails |
| StreamContract.Contract.CreateTemplate | contracts/src/lib.rs:322-390 | positive duration, cliff within it, at most the allowed number per sender; otherwise fails without a trace |
| StreamContract.Contract.CreateWithConfig | contracts/src/lib.rs:1082-1192 | takes the deposit and stores one fresh stream under the next id, or fails without a trace |
| StreamContract.Contract.CreateStream | contracts/src/lib.rs:436-460 | the same without a cliff |
| StreamContract.Contract.CreateStreamFromTemplate | contracts/src/lib.rs:409-433 | the same on the template's schedule, starting now |
| StreamContract.Contract.StoreChildren | contracts/src/lib.rs:507-566 | the loop over recipients: child records, parent table, child list, events and allocation sum, unless an allocation is not positive |
| StreamContract.Contract.CreateSplitStream | contracts/src/lib.rs:462-580 | one deposit, one parent id and a block of children whose totals add up to it; a bad allocation undoes everything |
| StreamContract.Contract.PayAndStore | contracts/src/lib.rs:779-797 | pays out of escrow and stores the record together, or does neither |
| StreamContract.Contract.Claim | contracts/src/lib.rs:654-750 | pays the recipient up to the claimable amount; wrong caller, throttle, overdraft and lack of funds each change nothing |
| StreamContract.Contract.Cancel | contracts/src/lib.rs:752-809 | refunds the unvested part and truncates the schedule; canceling again does nothing |
| StreamContract.Contract.TransferStream | contracts/src/lib.rs:811-833 | only the recipient hands the stream on, and nothing else changes |
| StreamContract.Contract.PauseStream | contracts/src/lib.rs:835-866 | stops the clock of a running, uncanceled stream |
| StreamContract.Contract.ResumeStream | contracts/src/lib.rs:868-903 | moves the schedule by the time paused |
| StreamContract.Contract.Clawback | contracts/src/lib.rs:909-967 | pays the admin the smaller of the amount asked for and what is vested but unclaimed |
| StreamContract.Contract.AddAllowedToken | contracts/src/lib.rs:969-990 | admin only; adding a listed token changes nothing |
| StreamContract.Contract.RemoveAllowedToken | contracts/src/lib.rs:992-1013 | admin only; removes the first occurrence |
| StreamContract.Contract.SetNativeToken | contracts/src/lib.rs:1046-1059 | admin only; re-points the native sentinel |
| StreamContract.Contract.SetAdmin | contracts/src/lib.rs:1063-1074 | only the admin hands over the role |
| StreamContract.Contract.GetClaimableBatch | contracts/src/lib.rs:619-642 | for up to twenty ids, exactly those ids are answered, each with its claimable amount, zero when there is no such stream |
| StreamAnswers.ClaimAnswers | contracts/src/lib.rs:654-750 | a claim goes through if and only if the recorded recipient asks, not too soon, for a positive amount of what has vested and is unpaid, and escrow can pay it; then exactly that amount moves from escrow to the recipient and is noted; too early is an error of its own |
| StreamAnswers.CancelAnswers | contracts/src/lib.rs:752-809 | a cancel goes through if and only if the sender asks and the refund, if any, can be paid; the first moves exactly the unvested amount to the sender and cuts the schedule off, later ones do nothing |
| StreamAnswers.ClawbackAnswers | contracts/src/lib.rs:909-967 | a clawback goes through if and only if the admin asks for a positive amount and it can be paid; the smaller of that amount and what is vested but unpaid moves to the admin |
| StreamAnswers.PauseAnswers | contracts/src/lib.rs:835-866 | only the sender pauses, and only a running stream that was not canceled; the moment is noted and nothing else changes |
| StreamAnswers.ResumeAnswers | contracts/src/lib.rs:868-903 | only the sender resumes, and only a paused stream; both ends of the schedule move by the time paused, up to the last timestamp |
| StreamAnswers.TransferAnswers | contracts/src/lib.rs:811-833 | a transfer goes through exactly with the recipient's signature and replaces the recipient alone |
| StreamAnswers.CreateAnswers | contracts/src/lib.rs:409-460 | exactly when a plain or template creation goes through; field by field, the record names the sender, recipient, token, deposit, window, cliff and interval asked for, or the template's; the deposit moves from sender to escrow |
| StreamAnswers.SplitAnswers | contracts/src/lib.rs:462-580 | a split goes through if and only if it has recipients, each share is positive, the shares add up to the deposit, the window has a length and the sender can pay; the deposit moves into escrow |
| StreamAnswers.ChildrenAsAgreed | contracts/src/lib.rs:507-566 | child i of a split, right behind the parent's number, names the i-th recipient and the i-th share, with no cliff and no interval |
| StreamAnswers.TemplateAnswers | contracts/src/lib.rs:322-390 | a template is stored if and only if its sender signs, it has a length, the cliff is within it and the sender has fewer than ten; it then says what was asked for |
| StreamAnswers.InitializeAnswers | contracts/src/lib.rs:300-316 | initialization goes through if and only if no admin is stored |
| StreamAnswers.AdminAnswers | contracts/src/lib.rs:969-1074 | each admin call works if and only if the stored admin signs; what it lists, unlists (one entry) or re-points, with all else unchanged |
| StreamTerms.TermsAreKept | contracts/src/lib.rs:1138-1189 | over every run a stream has the sender, token, cliff, interval and announced deposit and window of the call that created it, and the recipient that call named or the last transfer that went through |
| StreamTerms.ClaimsPayTheNamed | contracts/src/lib.rs:654-750 | over every run a claim goes through only for the recipient named at creation or by the last transfer, and then exactly the amount asked for moves to that account |
| StreamTerms.OnlyTheCreatorStops | contracts/src/lib.rs:752-903 | over every run only the account that created a stream cancels, pauses or resumes it, and the first cancel sends what has not vested back to that account |
| StreamTerms.DepositIsAgreed | contracts/src/lib.rs:1138-1189 | the deposit that the conservation laws speak of is the amount the creating call named |
| StreamRuns.RunKeepsStreams | contracts/src/lib.rs:654-967 | every run keeps every stream sound: schedule in order, cliff inside it, payments within total, and within vesting while uncanceled |
| StreamRuns.ClaimsNeverOvertakeVesting | contracts/src/lib.rs:608-617 | in every reachable state 0 <= claimed <= total; for uncanceled streams claimed <= vested, so the clamp in `claimable` is not needed |
| StreamIds.RunKeepsIds | contracts/src/lib.rs:499-577 | every run keeps the id space sound: numbers up to the counter are streams or parents, families are contiguous blocks known from both sides |
| StreamIds.NextIdCountsAll | contracts/src/lib.rs:593-606 | the counter equals the number of stream records plus the number of split parents |
| StreamIds.SplitTablesInverse | contracts/src/lib.rs:539-577 | parent-to-children and child-to-parent are inverse relations |
| StreamIds.FamiliesDisjoint | contracts/src/lib.rs:499-577 | different families take disjoint blocks of ids |
| StreamIds.IdsNeverReused | contracts/src/lib.rs:1138-1168 | an id goes on naming the same stream for ever; its total never grows, payments never shrink, a cancel is final |
| StreamIds.NewIdsAreFresh | contracts/src/lib.rs:1138-1143 | a new record's id lies beyond every id in use |
| StreamIds.ClaimsAreSpaced | contracts/src/lib.rs:648-694 | between two successful claims on a stream lies at least its minimum interval, whatever happens in between |
| Solvency.PlanBooks | contracts/src/lib.rs:696-949 | each operation on a stream pays out exactly what it writes off, save for a leaking cancel |
| Solvency.LeakHappens | contracts/src/lib.rs:752-809 | a cancel pays out without writing off exactly when its sender calls it, nothing traps, escrow covers the refund, and the stream's clock had stopped short |
| Solvency.EditSurplus | contracts/src/lib.rs:654-967 | such an operation leaves balance minus debt unchanged in every token, save that a leaking cancel loses its refund |
| Solvency.StepSurplus | contracts/src/lib.rs:300-1074 | how any call at all changes balance minus debt in any token |
| Solvency.SurplusIsNetInflow | contracts/src/lib.rs:462-1074 | over every run, balance minus debt is exactly gifts less leaked refunds, adjusted for a re-pointed native token |
| Solvency.SolventIff | contracts/src/lib.rs:462-1074 | over every run, a token's balance covers its streams if and only if initial balance and gifts make up for leaked refunds and re-pointed debt |
| Solvency.Solvent | contracts/src/lib.rs:462-967 | in every state a guarded run reaches, each token balance covers all streams in that token |
| Solvency.SurplusKeptIff | contracts/src/lib.rs:774-777 | a call other than a gift leaves every token's books alone if and only if it is not a leaking cancel and does not move native debt |
| StreamConsequences.FundedClaimGoesThrough | contracts/src/lib.rs:654-750 | with funds in escrow only throttling, overflow or the payee's limit stops a claim |
| StreamConsequences.ClaimsAreFunded | contracts/src/lib.rs:654-750 | after a guarded run no claim within the claimable amount fails for lack of funds |
| StreamConsequences.SplitMatchesSingle | contracts/src/lib.rs:462-580 | a new family against one stream of the whole deposit, at every time: at most as much, short by at most n - 1 units, equal from the end on |
| StreamConsequences.UnlistedIffSplit | contracts/src/lib.rs:462-500 | a successful creation stores a stream in a token neither listed nor native if and only if it is a split given such a token |
| StreamExamples.LeakBreaksSolvency | contracts/src/lib.rs:752-809 | a concrete run after which escrow holds 50 and owes 100 |
| StreamExamples.CancelShrinksVested | contracts/src/lib.rs:763-777 | a concrete run in which a cancel lowers the vested amount from 50 to 35 |
| StreamExamples.LastSecondIsCutOff | contracts/src/lib.rs:884-885 | a concrete run in which a saturated end makes a resumed stream vest ahead of its stopped clock |
| StreamExamples.PauseIsShownAsRunning | backend/src/services/streamStore.ts:386-388 | a concrete paused stream shown with 70 where 50 have vested |
| StreamExamples.CliffIsShownAsRunning | backend/src/services/streamStore.ts:447-467 | a concrete stream before its cliff shown with 40 where nothing has vested |
| StreamExamples.SplitIsNotListed | contracts/src/lib.rs:462-500 | a concrete split in a token that a plain creation is refused |
| StreamHistory.DepositConserved | contracts/src/lib.rs:654-967 | deposit = claims + clawbacks + refunds + still owed, over any run, if and only if the stream's cancel did not leak |
| StreamHistory.FullClaimPaysVested | contracts/src/lib.rs:696-722 | however payments were divided, a claim of everything claimable brings the total paid to exactly the vested amount |
| StreamHistory.FullClaimAtEndPaysDeposit | contracts/src/lib.rs:696-722 | at or after the end that total is exactly the deposit |
| StreamHistory.PausesStopTheClock | contracts/src/lib.rs:835-903 | after any number of pauses the vested amount is the original schedule's at the time less the completed pauses, cliff included, as long as the shifted end stays in the 64-bit range (`StoppedClockIff` has the rest); constant while paused |
| StreamHistory.StoppedClockIff | contracts/src/lib.rs:868-903 | a stream vests at all times like the original delayed by its pauses if and only if the delayed schedule ends in the 64-bit range or begins beyond it |
| StreamHistory.FitIsKept | contracts/src/lib.rs:1232 | a stream whose product fits in i128 once never overflows in any later state |
| StreamHistory.ReachedAccount | contracts/src/lib.rs:724-807 | the event log accounts for every field of every reachable stream |
| Breaker.CircuitBreaker.GetState | backend/src/services/indexer.ts:127-135 | half-opens exactly when open and the timeout has passed |
| Breaker.CircuitBreaker.OnSuccess | backend/src/services/indexer.ts:137-143 | closes and forgets the failures |
| Breaker.CircuitBreaker.OnFailure | backend/src/services/indexer.ts:145-156 | counts, and opens on the fifth failure or on a failed probe |
| Breaker.ClosedIffFewFailures | backend/src/services/indexer.ts:116-156 | in every run, closed exactly while fewer than five consecutive failures are recorded |
| Breaker.PollBeginsIff | backend/src/services/indexer.ts:386-400 | over every run the timer begins a poll if and only if none is in flight and fewer than five failures are recorded or the timeout has passed since the last one |
| Breaker.FailuresAreInARow | backend/src/services/indexer.ts:137-156 | over every run the failures recorded are the polls that failed in a row |
| Breaker.Recovers | backend/src/services/indexer.ts:116-156 | after any run with no poll in flight, waiting out the timeout lets one poll through; if it succeeds the breaker is closed with no failures, if it fails one more failure is recorded, as of then |
| Breaker.OpenHoldsPollsBack | backend/src/services/indexer.ts:386-400 | no poll begins while one is in flight, nor before the timeout once five failures are recorded |
| Breaker.FailingPollsArePaced | backend/src/services/indexer.ts:386-430 | polls begun after opening and until a success, times the timeout, fit in the time elapsed, whoever reads the state |
| IndexerService.Service.Restart | backend/src/services/indexer.ts:253-324 | a restart keeps table and saved checkpoint and starts from the larger of checkpoint and configured ledger |
| IndexerService.Service.ProcessEvent | backend/src/services/indexer.ts:542-675 | an event is inserted if it is recognized, its key is free, its stream has a row and nothing throws; any error leaves the table alone |
| IndexerService.Service.ProcessPage | backend/src/services/indexer.ts:516-525 | a page inserts its events in order and raises the high-water mark |
| IndexerService.Service.SweepAll | backend/src/services/indexer.ts:470-534 | the page loop ends on an error, an empty page or a missing cursor, with the table of the pages before |
| IndexerService.Service.IndexEvents | backend/src/services/indexer.ts:386-430 | a poll does work if and only if none is in flight and fewer than five failures are recorded or the timeout has passed; what it leaves in table, checkpoint and breaker, and that the checkpoint moves only after a full sweep |
| IndexerLaws.RowsAreFirstAccepted | backend/src/services/eventHistory.ts:54-80 | over any run and whatever the node answers, a key's row is the one it had or else its first accepted showing; it has a row if and only if some committed page showed and accepted it |
| IndexerLaws.SweepShowsChain | backend/src/services/indexer.ts:470-540 | a sweep, however it ends, has shown a stretch of the chain truly and in order; a full one reaches the new checkpoint |
| IndexerLaws.ExactlyOnce | backend/src/services/indexer.ts:253-540 | after any run of failures and restarts, a key up to the checkpoint has exactly the row of its first chain event if and only if what was accepted first is what was shown first, so whenever nothing of it was passed over |
| IndexerLaws.OnlyChainEvents | backend/src/services/eventHistory.ts:54-80 | no row that is not that of a chain event after the starting ledger |
| IndexerLaws.EveryEventIndexed | backend/src/services/indexer.ts:470-540 | every recognized event up to the checkpoint was shown; its key has a row if and only if it was accepted at least once |
| IndexerLaws.SoleEventIndexed | backend/src/services/indexer.ts:470-540 | an event alone with its key has its own row if and only if it was accepted at least once |
| IndexerLaws.RunsAgree | backend/src/services/indexer.ts:253-540 | two runs, faulty or not, were shown the same first event of a key both have checkpointed, and hold the same row if both accepted it first |
| IndexerLaws.MissedForGood | backend/src/services/indexer.ts:534-536 | what the checkpoint has passed is never shown again while the checkpoint can be loaded, so what is missing then stays missing |
| IndexerLaws.SweptIff | backend/src/services/indexer.ts:470-540 | a sweep ends well if and only if some reply is an empty page or a committed page without cursor and all before it are committed pages that lead on |
| IndexerLaws.PollAnswers | backend/src/services/indexer.ts:386-540 | the checkpoint moves if and only if the node is ahead, a reply ends the sweep well and the save commits; memory and disk then hold the largest of the announced ledger and the ledgers committed |
| IndexerLaws.RestartAnswers | backend/src/services/indexer.ts:253-324 | a restart takes up the saved checkpoint, or the configured start when that is later or nothing can be loaded |
| IndexerLaws.PollStores | backend/src/services/indexer.ts:470-675 | every event on a committed page up to the first failure, of a known kind, with its stream's row and not throwing, has a row afterwards, and earlier rows stay |
| IndexerLaws.UnknownStreamIsLost | backend/src/services/indexer.ts:516-536 | a concrete successful poll that passes over an event of a stream without a row |
| IndexerLaws.ThrownEventIsLost | backend/src/services/indexer.ts:542-675 | a concrete successful poll that passes over an event whose processing throws |
| IndexerLaws.SecondOfAKindIsLost | backend/src/services/eventHistory.ts:54-80 | a concrete successful poll that stores one of two claims in one ledger |
| WebhookService.Service.TriggerWebhook | backend/src/services/webhook.ts:15-59 | queues one pending delivery due now, if a destination is valid, the stream is known and the insert succeeds; else nothing |
| WebhookService.Service.RequeueDeadLetter | backend/src/services/webhook.ts:90-115 | moves one dead letter back with its attempts reset; unknown ids change nothing |
| WebhookService.Service.PruneDeadLettersOlderThan | backend/src/services/webhook.ts:76-82 | deletes and counts exactly the letters older than the cut-off |
| WebhookService.Service.ClearDeadLetters | backend/src/services/webhook.ts:84-88 | deletes and counts all of them |
| WebhookService.Service.RecordAttempt | backend/src/services/webhookWorker.ts:70-103 | success, retry after the fixed delay, or dead letter |
| WebhookService.Service.ProcessWebhookQueue | backend/src/services/webhookWorker.ts:11-110 | one poll is the sequence of attempts on its batch, cut short by an exception; nothing at all while another poll runs |
| WebhookModel.RunKeepsSound | backend/src/services/webhookWorker.ts:41-104 | every run keeps pending rows below five attempts, spaced by the delays, and the batch in step with the table |
| WebhookLaws.AttemptsFollowTheSchedule | backend/src/services/webhookWorker.ts:70-103 | in every reachable state a delivery failing for the 1st, 2nd, 3rd or 4th time stays pending and is due exactly 5, 15, 60 or 300 seconds from now, the 5th failure makes it a dead letter, a success marks it, and no other row changes |
| WebhookLaws.QueuedIsDueNow | backend/src/services/webhook.ts:15-59 | a job just queued or queued again has no attempts made and is due exactly now, in a new row with no other changed |
| WebhookLaws.RetriesAreSpaced | backend/src/services/webhook.ts:117-122 | over every run a row with 0 to 4 failures is due no sooner than 0, 5, 20, 80 or 380 seconds after it was queued |
| WebhookLaws.PruneKeepsTheRecent | backend/src/services/webhook.ts:76-88 | pruning keeps exactly the letters that failed at the cut-off or later, unchanged; clearing keeps none |
| WebhookLaws.PollsBeginAndEnd | backend/src/services/webhookWorker.ts:11-110 | a poll begins only when none is in flight, takes its rows as they are, and ends or is cut short leaving the rest as it was |
| WebhookLaws.BatchExists | backend/src/services/webhookWorker.ts:33-39 | in every state the worker's query has an answer, empty if and only if no pending row is due |
| WebhookLaws.JobsConserved | backend/src/services/webhookWorker.ts:70-103 | unless letters are deleted on purpose, the jobs pending, delivered and dead are exactly those queued |
| WebhookLaws.DeadLettersAreSpent | backend/src/services/webhookWorker.ts:77-89 | a delivery is given up only on its fifth failure and at least 380 seconds after it was queued |
| WebhookLaws.LongestDelayUnused | backend/src/services/webhook.ts:117-122 | no retry is ever scheduled 900 seconds out |
| WebhookLaws.AttemptsBounded | backend/src/services/webhookWorker.ts:41-104 | with no new work, attempts are bounded by those left; with a failing receiver they are used up one by one |
| WebhookLaws.SpentIffNothingPending | backend/src/services/webhookWorker.ts:33-39 | no attempts left if and only if nothing is pending |
| WebhookLaws.RankFallsByAttempts | backend/src/services/webhookWorker.ts:33-104 | pending deliveries due no later than a due one drop by exactly one per attempt, whatever is enqueued or requeued |
| WebhookLaws.NoStarvation | backend/src/services/webhookWorker.ts:11-110 | in every reachable state, a poll in flight or not, a due delivery of rank r is attempted before r / 10, rounded up, further polls complete (one more at most if one was in flight) |
| Placeholders.ReadsBackIff | backend/src/services/db.ts:76-149 | a written statement reads back as its pieces if and only if no `$` or placeholder is followed by a literal digit |
| Placeholders.NamedTokensSpell | backend/src/services/db.ts:113-145 | quoted regions and all other text are copied character by character |
| Placeholders.PositionalTokensSpell | backend/src/services/db.ts:82-97 | the same for the positional form |
| PlaceholderLaws.NamesAreDistinct | backend/src/services/db.ts:131-141 | one parameter per distinct unquoted name, none for anything else |
| PlaceholderLaws.NamedTranslationMeans | backend/src/services/db.ts:101-148 | putting the parameters into the output gives the source with its names replaced by their values; reads back if and only if no source `$` precedes a digit |
| PlaceholderLaws.PositionalTranslationMeans | backend/src/services/db.ts:77-98 | the same for `?`, with the exact condition for that form |
| PlaceholderLaws.QuestionBeforeDigitIsMisread | backend/src/services/db.ts:92-93 | `?1` is sent as `$11` and loses its value |
| PlaceholderLaws.DollarBeforeDigitIsMisread | backend/src/services/db.ts:101-148 | a `$1` in the text of a named statement is read as its first parameter |
| PlaceholderLaws.QuestionsNumberedInOrder | backend/src/services/db.ts:92-93 | unquoted question marks are numbered 1 to n in order |
| PlaceholderText.QuestionsAreNumbered | backend/src/services/db.ts:77-98 | in text without unescaped quote marks every `?` is replaced by the next number and nothing else is touched |
| PlaceholderText.QuotesStay | backend/src/services/db.ts:82-97 | text, a quoted stretch, and a rest: the text is numbered, the stretch is copied verbatim with its quotes, and the rest is translated with the numbering continued |
| PlaceholderText.OpenQuoteStays | backend/src/services/db.ts:82-97 | a quote that is never closed is copied to the end |
| PlaceholderText.PlainTextStays | backend/src/services/db.ts:101-148 | text without quote marks and `@` is copied and uses no name |
| PlaceholderText.NamesAreNumbered | backend/src/services/db.ts:118-141 | outside quotes a whole `@name` becomes the place of that name's first use, and what follows is translated with it known |
| PlaceholderText.LoneAtStays | backend/src/services/db.ts:118-145 | an `@` with no name behind it is copied |
| PlaceholderText.NamedQuotesStay | backend/src/services/db.ts:113-145 | the named form of QuotesStay: a quoted stretch is copied, `@name`s included, and names are carried on behind it |
| PlaceholderText.NamedOpenQuoteStays | backend/src/services/db.ts:113-145 | the named form of OpenQuoteStays |
| PlaceholderText.ParametersAreValues | backend/src/services/db.ts:131-141 | one parameter per name used, in order of first use: its value, or null if none was given |
| Translator.TranslatePositional | backend/src/services/db.ts:77-98 | the first scan computes the positional translation |
| Translator.ScanName | backend/src/services/db.ts:120-126 | reads exactly the longest name at the position |
| Translator.NotePlaceholder | backend/src/services/db.ts:131-141 | a name keeps its first position; a new one is appended, with null for a missing value |
| Translator.TranslateNamed | backend/src/services/db.ts:101-148 | the second scan computes the named translation and its parameters |
| Translator.TranslateSqlAndParams | backend/src/services/db.ts:76-149 | which form is used for which parameters, and what is returned |
| DaoContract.Contract.constructor | contracts/src/dao.rs:134-160 | a new DAO is not set up, not activated and has no proposals |
| DaoContract.Contract.InitializeDao | contracts/src/dao.rs:134-160 | one-time setup |
| DaoContract.Contract.Activate | contracts/src/dao.rs:212-224 | only the admin, only once |
| DaoContract.Contract.SetDaoAdmin | contracts/src/dao.rs:228-240 | only the admin, only before activation |
| DaoContract.Contract.CreateProposal | contracts/src/dao.rs:244-286 | the next id, voting open from now |
| DaoContract.Contract.Vote | contracts/src/dao.rs:290-343 | one vote per account and proposal inside the window, weighted by the balance then |
| DaoContract.Contract.Execute | contracts/src/dao.rs:348-414 | after the window: fails without quorum, false when rejected or executed before, otherwise applies the target |
| DaoLaws.RunKeepsSound | contracts/src/dao.rs:244-414 | every run keeps set-up, ids, tallies, ballots and executions in step with the event log |
| DaoLaws.OutcomesFreeze | contracts/src/dao.rs:290-414 | once the window is over no later call changes tallies, target or verdict |
| DaoLaws.ExecutionEndsVoting | contracts/src/dao.rs:290-361 | after an `execute` that did not fail, every later vote on that proposal fails |
| DaoLaws.VerdictDecides | contracts/src/dao.rs:348-414 | not passed when the window closes: never executed, and asking changes nothing; passed: executed when next asked, at most once over any run |
| DaoLaws.TalliesAreDistinctVotes | contracts/src/dao.rs:303-331 | tallies are the sums of the recorded weights, one ballot per account and proposal |
| DaoLaws.TalliesWeighHoldings | contracts/src/dao.rs:312-328 | however tokens move, the two tallies are the sums of what each voter held at the moment of voting |
| DaoLaws.VotesWeighHoldings | contracts/src/dao.rs:312-343 | every vote of the log is a call that was made, with the weight of its voter's balance just before it |
| DaoLaws.GovernedByExecutedTargets | contracts/src/dao.rs:375-397 | in an instance of its own, parameters since initialization and admin since activation are the fold of the executed targets |
| DaoLaws.QuorumRoundsDown | contracts/src/dao.rs:365-370 | the quorum is a tenth of the supply rounded down, and a fixed smaller figure past saturation |
| DaoAnswers.SetUpAnswers | contracts/src/dao.rs:134-240 | set-up goes through if and only if no admin is stored; activation and handing over the role if and only if the admin calls before activation; each with all else unchanged |
| DaoAnswers.ProposalAnswers | contracts/src/dao.rs:244-286 | a proposal is stored if and only if the DAO is active, with the target, proposer and time given and no votes; its end is announced a week ahead |
| DaoAnswers.VoteAnswers | contracts/src/dao.rs:290-343 | a vote counts if and only if the DAO is active, the proposal exists, is not executed and at most a week old, the voter has not voted on it and the tally has room; it adds what the voter holds to the side chosen alone |
| DaoAnswers.ProposalsAreAsProposed | contracts/src/dao.rs:244-286 | over every run each proposal has the target, proposer and time of a `create_proposal` call that was made |
| DaoAnswers.MajorityDecides | contracts/src/dao.rs:348-414 | over every run, for an unexecuted proposal past its week: executed if and only if supporters' holdings at voting exceed opponents' and both together times ten, plus nine, reach the supply; `false` if and only if enough votes but no majority; failure if and only if not enough (with the fixed figure past saturation) |
| DaoAnswers.ExecutionWaits | contracts/src/dao.rs:348-364 | within its week a proposal cannot be executed; once executed, asking again answers `false` and changes nothing |
| DaoAnswers.SettingsAreLastVotedIn | contracts/src/dao.rs:375-397 | fee, minimum duration and admin are each what the last executed proposal about it asked for, or as set up |
| DaoAnswers.ExecutionIsLogged | contracts/src/dao.rs:399-414 | an execution marks the proposal and logs its number and target |
| DaoShared.GovernedIffNotOverridden | contracts/src/lib.rs:1063-1074 | in one instance with the streaming contract, the admin stays that fold if and only if `set_admin` never hands the role on |
| DaoShared.ParamsStayGoverned | contracts/src/dao.rs:375-397 | there too the parameters are changed by executed targets alone |
| DaoShared.InitializeBlocksDao | contracts/src/dao.rs:143-145 | there, a streaming contract initialized first makes set-up, votes and executions fail for ever |
| DaoShared.SharingMatters | contracts/src/dao.rs:122-160 | concrete calls that do both |
| Auth.NonceStore.CleanUp | backend/src/services/auth.ts:29-37 | the timer deletes exactly the expired nonces |
| Auth.NonceStore.Consume | backend/src/services/auth.ts:219-235 | a challenge passes when its timestamp is within a minute and its nonce is not stored, and is then stored for a minute |
| Auth.PresentAnswers | backend/src/services/auth.ts:181-235 | any challenge, colliding nonces or not, is accepted if and only if this server issued it, it can be read, its timestamp is within 60 seconds and its nonce is not remembered; the nonce is then remembered for 60 seconds, and the timer forgets exactly what is past that |
| Auth.SingleUse | backend/src/services/auth.ts:107-235 | whenever the timer runs, no challenge is accepted twice, even if nonces collide |
| Auth.ForgettingIsInvisible | backend/src/services/auth.ts:25-235 | with nonces that do not repeat, accepted exactly when issued, at most a minute old and never accepted before; no nonce is accepted twice |
| Auth.ForgottenIsExpired | backend/src/services/auth.ts:29-37 | a forgotten nonce's challenge fails the timestamp check from then on |
| OffChain.OffChainIsPlain | backend/src/services/streamStore.ts:447-467 | the backend's amount, rounded down, is the contract's formula without pause and cliff, at every time |
| OffChain.OffChainAgrees | backend/src/services/streamStore.ts:377-391 | for every reachable unpaused stream, canceled ones included, both agree outside the cliff window if and only if the schedule has a length or nothing to pay |
| OffChain.CliffIsIgnored | backend/src/services/streamStore.ts:447-467 | backend and contract agree at all times about a stream that is not paused if and only if less than a unit accrues before the cliff ends and the schedule has a length, or there is nothing to pay |
| OffChain.PauseIsNotShown | backend/src/services/streamStore.ts:386-388 | they agree about a paused stream from now on if and only if it has nothing to pay or was paused after its end |
| OffChain.ShownAtLeastVested | backend/src/services/streamStore.ts:447-467 | what is shown of a stream is never less than what it has vested |
| OffChain.StatusIsRight | backend/src/services/streamStore.ts:421-438 | the status shown of an unpaused stream is canceled, scheduled or completed exactly when the stream was canceled, has not started, or has ended; unless its schedule collapsed, completed exactly when all of it has vested |

## Left out

- Contract metadata, vesting type, token symbols and event fields that carry no amount or schedule: no arithmetic depends on them.
- The stream, template and proposal counters are unbounded; they would need 2^64 creations to wrap.
- The test-only escrow contract and the relaxed allow-list of test builds.
- Solvency.Solvent: runs with a leaking cancel or a re-pointed native token are excluded; `Solvency.SolventIff` covers every run by an exact balance.
- The indexer's fallback mode (one page per poll, so the checkpoint rests on a response limit that is not visible), bulk synchronization and reconciliation.
- What happens to a failing insert on Postgres, where an error aborts the surrounding transaction; the model follows SQLite.
- Webhook bodies, headers and signatures, and a crash between the two statements that record one outcome.
- Placeholders: JavaScript's inherited property names and explicitly undefined values; SQL is read as text in which `$` and digits name a parameter anywhere, quotes included.
- The Postgres worker's handshake and `translateDdl`.
- Which of several deliveries due at the same second the database picks first: any choice is allowed.
- Signatures, the signer lookup and the token issued after a challenge is accepted (a challenge counts as used even if its signatures then fail), and challenges signed by another process with the same key.
- JavaScript floating point and rounding: the backend's amounts are exact rationals.
- The backend's own pause and resume of records, its cache, statistics, exports, routes, rate limits and health checks; the frontend.
