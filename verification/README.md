# A verified model of the regtest swap stack

This project models the parts of the swap program whose guarantees no single function shows:
a swap runner that survives crashes, the solver's ledger and swap store, exact decimal amounts,
the HTLC script with the transactions around it, and the bytes and proofs other parties rely on.
`dafny verify dfyconfig.toml` checks everything.

## How the model is built

**The durable swap runner.** `SwapCalls` lists every call a run makes to its files, the two
databases, the chain and the Lightning nodes, each with the answer it got. A run is known by the
log of its calls, so a crash is a log that stops. `Obeys` is the discipline of a log: what must
already be in it before each effect. `SwapRunner` is the runner statement by statement, as a class
whose answers are all arbitrary. Its methods prove that the log always obeys the discipline, that
a success is justified, and that a failure comes with a reason (`Refused`) in the request or among
the answers.

`SwapPlan` says what a run does next: after any answers so far there is at most one call, and each
answer leads to one point of the plan. `Follows` is a log that makes exactly the plan's calls. The
runner carries its point as ghost state: each method proves where its answers lead. The contracts
of the three runs say that the log follows the plan and that Ok is returned exactly when the plan
is finished.

`SwapFailure` says when an answer ends a run (`Fatal`) by the calls before it alone: what a read file,
row or height is for follows from the last calls, not from the plan. `SwapVerdicts` proves that a
run fails exactly on such an answer (`FailsIff`); a transaction that is not visible at the first
look, or a file that already holds what was to be stored, is none (`SecondChance`). The proof goes
task by task (`SwapTells`, `SwapJudged`).

`SwapWorld` is one session seen from outside: recovery record, three outbox files, client row,
solver reservation, hold invoice and payment, under any interleaving of any number of forward,
reverse and refund runs. A file is absent, partial (its writer known) or complete. The
environment is free except for what is written down in `CallPossible` and `MovePossible`:

- answers are true when they are given, and observations concern the transaction asked about;
- Settled and Canceled invoices are final, and a payment succeeds only on a settled invoice;
- a prepared spend binds the funding outpoint it was given (`src/swaps/liquid.rs:488-497`);
- a failed write, transition or settlement may still have taken effect.

A behaviour lets runs make any call their discipline allows; what is proved of every behaviour
therefore holds of the program. An execution (`SwapExecution`) lets them make only the plan's calls,
and the Lightning client report only the holds its own checks let through; what can happen is
proved of executions.

`SwapSafety` proves the session invariant, `SwapTheorems` and `SwapEffects` the guarantees over
whole behaviours, `SwapReplay` and `SwapResume` what later runs can still do, `SwapProgress` when
runs get to their end, and `SwapCounterexamples` gives executions, call for call, for what the code does not
guarantee.

**Ledger, journal and store.** `SolverStore.SqliteStore` holds the tables as maps; its methods
commit or leave everything as it was. Its invariant says that every solver's columns are the
totals of its reservations, that available plus consumed is what the ledger was opened with,
that the journal's transition entries are exactly the walks the swaps have taken, and that it
holds one entry for every stored reservation. Every public method states exactly when it succeeds.

**Amounts.** `CoinAmount` specifies the scientific-notation parser by the exact rational value of
the text, for digits and exponents of any size, and relates it to the wallet's parser and printer.

**Contracts.** `Script` encodes, decodes and interprets the opcodes the HTLC uses (BIP 65,
"Summary"; BIP 141, "Witness program"). `Htlc` characterises what the script accepts and connects
signing and preimage extraction to it; `HtlcTransactions` covers building, conservation and the
Liquid signer. Hashing and signatures are function parameters, relied on only for sizes and for
a signature verifying under its own key.

**Quotes, timing, exits.** `QuoteEncoding` has the signed bytes and the terms, `Timing` the
cross-network checks, `ExitProof` the on-chain exit proofs (BIP 68, "Specification"),
`LightningInvoice` the summary of a hold's HTLCs.

## What the proofs found

- Between storing a forward claim and recording CLAIM_PENDING a crash strands the session: every
  resume replays the claim but asks for SETTLED from OUTPUT_SETTLED, which the observer refuses
  (`StrandedReachable`, `StrandedForever`). With the record and the claim file whole, the exact
  condition for a new run to be able to finish is `FinishableIff`: the hold was not canceled, a
  payment is under way, and under the durable observer the row has left OUTPUT_SETTLED and the
  reservation was not released. For a forward session under that observer only the row matters
  (`ForwardFinishableIff`), for a reverse session under the no-op observer only the hold and the
  payment (`ReverseFinishableIff`). A run whose answers cooperate then does finish, whatever else
  happens meanwhile (`CooperatingReplayFinishes`).
- A crash during the write of a file strands the session as well: no run finishes or replaces a
  half written file, and nothing that needs it is ever reported (`PartialForever`,
  `PartialNeverReports`).
- Overlapping runs of a reverse session can store both a claim and a refund, in either order, and
  one run can cancel the hold another has funded (`OverlapStoresBoth`, `OverlapCancelsFunded`). The
  exact conditions: both files exist exactly when one of the two creations falls between what the
  other run looked at and its own creation (`BothStoredIffCrossed`); a cancellation follows a funding
  broadcast exactly when another run broadcast between the canceling run's look at the funding
  file and its cancellation (`CancelAfterFunding`). Without overlap neither happens
  (`NonOverlapClaimXorRefund`, `NoCancelAfterFunding`).
- The durable observer enters REFUNDING only from INPUT_LOCKED, but a payment that can fail has
  already moved the row to OUTPUT_PENDING: under it no refund is ever broadcast
  (`DurableObserverBlocksRefund`).
- Attaching a reservation does not always leave a held one attached. A release between the check
  and the update leaves a released reservation attached (`AttachCanBindReleased`); attaching a
  closed row again to its own swap succeeds even alone (`AttachAcceptsClosed`). A success leaves the
  row held exactly when it was held at the update, or, if nothing was written, at the statement
  that found it attached (`AttachedIsHeldIff`); alone, exactly when it was held before
  (`AttachAlone`).
- `reserve` counts its amount as reserved whatever state the row carries; the totals survive
  exactly when it is held or moves nothing (`ReserveKeepsBalance`).
- The two amount parsers accept different texts. The wallet's alone accepts a leading plus, nothing
  after the point, and a plus after it (`WalletOnlyTexts`); the other alone accepts an exponent and
  more than eight fraction digits (`NodeOnlyTexts`). On common texts they agree (`ParsersAgree`). A
  plus after the point takes a digit's place, so "1.+1" is 1.01 coins (`InnerPlusDiffers`).
- A claim that spends with any true selector other than the single byte 1 is accepted by the
  script but not by the extractor (`AcceptedClaimReveals`).
- A missing and an empty payment request have the same signed bytes (`EmptyRequestIsAmbiguous`).

## Model

| member | source | states |
|---|---|---|
| Settlement.WalkDescends | src/core/settlement.rs:24-41 | every transition lowers a fixed measure and never lowers the observer's rank, so the state graph is acyclic |
| Settlement.WalksAreShortAndSimple | src/core/settlement.rs:24-41 | any walk along allowed transitions visits no state twice and has at most seven transitions |
| Settlement.LongestWalk | src/core/settlement.rs:24-41 | the bound of seven is met |
| Settlement.EdgesByName | src/core/settlement.rs:24-41 | exactly the thirteen edges |
| Settlement.RanksByName | src/cli/live.rs:673-685 | the rank of every state |
| SwapRunner.Runner.WriteOutbox | src/swaps/outbox.rs:70-105 | an outbox file is created exclusively, only when its contents are allowed then; success means this run wrote exactly these contents or found them already stored |
| SwapRunner.Runner.LoadRecovery | src/swaps/recovery.rs:162-211 | a run goes on only under a stored record that matches its request, found or written once |
| SwapRunner.Runner.WriteRecovery | src/swaps/recovery.rs:247-300 | the recovery record is write-once; losing the race succeeds only against an identical record |
| SwapRunner.Runner.OnPhase | src/cli/live.rs:600-656 | the durable observer moves the row only from the expected state, accepts a row already past the phase, and on OUTPUT_SETTLED always consumes the reservation |
| SwapRunner.Runner.ConsumeSolverReservation | src/cli/live.rs:579-598 | the reservation is consumed only after the payment was seen with the record's preimage |
| SwapRunner.Runner.EnsureInvoice | src/swaps/orchestrator.rs:684-705 | the invoice a run starts from was looked up or created under the record's hash, for the exact amount, not canceled, and with a request if it is open |
| SwapRunner.Runner.ValidateOpenInvoice | src/swaps/orchestrator.rs:707-740 | an open invoice passes exactly when it carries a request that decodes to the record's hash |
| SwapRunner.Runner.PayIfOpen | src/swaps/orchestrator.rs:742-774 | a payment is issued only for an open invoice, under the full payment precondition |
| SwapRunner.Runner.AcceptedHold | src/swaps/orchestrator.rs:776-812 | success means an exact-amount hold was seen Accepted or Settled, together with a tip that leaves an Accepted one more than six blocks |
| SwapRunner.Runner.SettleInvoice | src/swaps/orchestrator.rs:814-828 | success means the hold is settled by this run or was seen settled |
| SwapRunner.Runner.TrackSuccess | src/swaps/orchestrator.rs:830-860 | success means the payment succeeded with the record's preimage |
| SwapRunner.Runner.CancelIfAccepted | src/swaps/orchestrator.rs:1043-1056 | looks at the hold once and cancels exactly if it is Accepted; callable only with no funding exposed and its outbox read as missing |
| SwapRunner.Runner.FundingOutbox | src/swaps/orchestrator.rs:862-876 | the funding transaction is the stored one or is stored before anything else happens |
| SwapRunner.Runner.PrepareOrReplayFunding | src/swaps/orchestrator.rs:862-906 | funding is stored, recorded, broadcast and observed in this order; exposure is marked before the broadcast; a failure has an answer that is fatal by the log alone, and a first missing observation is not |
| SwapRunner.Runner.ClaimOutbox | src/swaps/orchestrator.rs:908-934 | a claim is stored only when everything that justifies it is in the log, and it binds the observed funding output |
| SwapRunner.Runner.ClaimOrReplay | src/swaps/orchestrator.rs:908-946 | success means the stored claim, bound to this funding, was broadcast and seen |
| SwapRunner.Runner.ReplayCompleted | src/swaps/orchestrator.rs:948-1017 | a run that finds a claim outbox replays it, and its success holds everything a fresh success holds |
| SwapRunner.Runner.CheckForwardTiming | src/swaps/orchestrator.rs:504-553 | passes only with a height inside the forward bound, or on a settled invoice with a funding transaction found stored |
| SwapRunner.Runner.CheckReverseTiming | src/swaps/orchestrator.rs:612-650 | passes exactly when the height was read and the held invoice's expiry leaves room for the refund height over it |
| SwapRunner.Runner.BuildEvidence | src/swaps/orchestrator.rs:1019-1041 | only a confirmed funding and a verified claim are reported |
| SwapRunner.Runner.RunForwardSwap | src/swaps/orchestrator.rs:260-309 | whatever the answers: the log follows the plan call for call and obeys the discipline; it returns Ok exactly when the plan is finished, with a justified report, and fails exactly when one of its answers was fatal by the log alone |
| SwapRunner.Runner.RunReverseSwap | src/swaps/orchestrator.rs:311-360 | the same for the reverse direction |
| SwapRunner.Runner.RefundFundedSwap | src/swaps/orchestrator.rs:387-491 | the same for a refund run |
| SwapRunner.Runner.RequireFailedPayment | src/swaps/orchestrator.rs:414-437 | a refund needs a failed payment and a canceled hold of the exact amount |
| SwapRunner.Runner.RequireUnclaimedFunding | src/swaps/orchestrator.rs:439-461 | a refund needs a missing claim outbox, a stored funding transaction and a height past the lock |
| SwapRunner.Runner.RefundOutbox | src/swaps/orchestrator.rs:463-480 | a refund is stored once, bound to the stored funding output |
| SwapRunner.RefusedStays | src/swaps/orchestrator.rs:296-305 | a reason to fail survives the clean-up a failed run still performs |
| SwapPlan.RunsPartOnAnswers | src/swaps/orchestrator.rs:260-659 | a run is fixed by its request and its answers: two runs part only where the same question got different answers |
| SwapWorld.BehaviourPrefix | src/swaps/outbox.rs:54-105 | a crash is a behaviour that stops: every prefix of a behaviour is one |
| SwapSafety.EventGrows | src/swaps/outbox.rs:70-105 | only its writer completes a file; complete files, row rank, consumption, final invoice states and payments never go back |
| SwapSafety.InvKept | src/swaps/orchestrator.rs:862-946 | every event of any run or of the environment preserves the session invariant |
| SwapSafety.InvHolds | src/swaps/orchestrator.rs:862-946 | every reachable point of every interleaving satisfies the session invariant |
| SwapTheorems.BroadcastWasStored | src/swaps/orchestrator.rs:862-946 | every broadcast transaction was already the complete contents of its outbox file |
| SwapTheorems.OneTransactionPerKind | src/swaps/orchestrator.rs:456-476 | over any interleaving with crashes, all funding broadcasts carry one transaction, and likewise all claims and all refunds |
| SwapTheorems.ForwardClaimXorRefund | src/swaps/orchestrator.rs:409-437 | a forward session never holds both a claim and a refund outbox, under any interleaving |
| SwapTheorems.ClaimIsSettled | src/swaps/orchestrator.rs:553-567 | a stored forward claim implies a settled hold, and with the durable observer a consumed reservation and a row at OUTPUT_SETTLED or above |
| SwapTheorems.RefundIsCanceled | src/swaps/orchestrator.rs:414-437 | a stored refund implies a canceled hold |
| SwapTheorems.CrossStore | src/cli/live.rs:579-685 | the invariant across both databases, the four files and the invoice for sessions under the durable observer |
| SwapTheorems.RowNeverFallsBack | src/cli/live.rs:673-685 | the durable row never loses rank, across crashes |
| SwapTheorems.CompletedReportsFiles | src/swaps/orchestrator.rs:948-1041 | a success reports the stored record's direction and the stored funding and claim transactions, fresh or replayed |
| SwapTheorems.RefundReportsFiles | src/swaps/orchestrator.rs:463-491 | a successful refund reports the stored funding and refund transactions, on a canceled hold |
| SwapTheorems.SuccessesAgree | src/swaps/orchestrator.rs:1105-1138 | any two successes of one session report the same direction and transactions |
| SwapTheorems.OneHash | src/swaps/orchestrator.rs:661-705 | every Lightning call of every run names the hash of the one stored record, and settlements its preimage |
| SwapEffects.ForwardPayFollowsFunding | src/swaps/orchestrator.rs:504-551 | a forward run pays only after, in the same run, the timing check passed, the stored funding was broadcast and its HTLC output seen |
| SwapEffects.ForwardClaimFollowsPayment | src/swaps/orchestrator.rs:553-567 | a forward claim is stored only after the payment was seen to succeed with the record's preimage |
| SwapEffects.ReverseFundingFollowsHold | src/swaps/orchestrator.rs:589-641 | a reverse run broadcasts funding only after an exact-amount hold and a passed timing check on its expiry |
| SwapEffects.ReverseSettleFollowsClaim | src/swaps/orchestrator.rs:641-659 | a reverse run settles the hold only after it broadcast the stored claim and saw it |
| SwapEffects.NoLatePay | src/swaps/orchestrator.rs:742-750 | once the invoice was accepted, no run that starts later ever pays |
| SwapEffects.CancelAfterFunding | src/swaps/orchestrator.rs:296-305 | a cancellation follows a funding broadcast exactly when another run broadcast it between the canceling run's look at the funding file and its cancellation |
| SwapEffects.BothStoredIffCrossed | src/swaps/orchestrator.rs:409-461 | a session holds both a claim and a refund outbox exactly when a reverse and a refund run crossed: one creation between what the other looked at and its own creation |
| SwapEffects.NoCancelAfterFunding | src/swaps/orchestrator.rs:296-305 | without overlap the hold is never canceled once any run has broadcast the funding, through crashes and failures |
| SwapEffects.NonOverlapClaimXorRefund | src/swaps/orchestrator.rs:409-461 | without overlap no session of either direction holds both a claim and a refund outbox |
| SwapResume.StrandedStays | src/cli/live.rs:633 | a session that crashed between storing its claim and recording CLAIM_PENDING is never moved again by later runs |
| SwapResume.StrandedForever | src/swaps/orchestrator.rs:1000-1001 | no later run of such a session ever reports completion |
| SwapResume.ResumeCompletes | src/swaps/orchestrator.rs:948-1017 | a session whose stored claim is recorded can be finished by a new forward run making exactly the calls of its plan, which reports the stored transactions |
| SwapResume.DurableObserverBlocksRefund | src/cli/live.rs:668 | with every run under the durable observer no refund is ever broadcast |
| SwapReplay.ReplayCompletes | src/swaps/orchestrator.rs:948-1017 | one new run, in either direction and under either observer, finishes such a session making exactly the calls of its plan |
| SwapResume.FinishableIff | src/swaps/orchestrator.rs:948-1017 | the exact condition: a new run can finish a session with a stored claim if and only if the hold was not canceled, a payment is under way and, under the durable observer, the row has left OUTPUT_SETTLED and the reservation was not released |
| SwapResume.ForwardFinishableIff | src/cli/live.rs:600-656 | a forward session under the durable observer: the row having left OUTPUT_SETTLED is the only gate |
| SwapResume.ReverseFinishableIff | src/swaps/orchestrator.rs:948-1017 | a reverse session resumed under the no-op observer: only the hold and the payment gate it |
| SwapProgress.CooperatingReplayFinishes | src/swaps/orchestrator.rs:948-1017 | from every session that can be finished a new run whose answers cooperate never fails and reports after a bounded number of calls, whatever other runs and the environment do meanwhile |
| SwapProgress.CooperatingResumeFinishes | src/swaps/orchestrator.rs:948-1017 | for a forward session under the durable observer: after at most thirteen calls |
| SwapVerdicts.FailsIff | src/swaps/orchestrator.rs:260-491 | a run has failed exactly when its request was refused at once or one of its answers was fatal, judged by the calls before it without the plan: a lost creation only if the file holds something else, a missing observation only after a confirmation of the same transaction, a row, height, hold, invoice, payment or outbox exactly when it does not fit |
| SwapVerdicts.SecondChance | src/swaps/orchestrator.rs:887-902 | what ended a failed run was neither a first missing observation of a funding or a spend nor a file or record that already held what it was about to store |
| SwapVerdicts.MissIsConfirmed | src/swaps/orchestrator.rs:891-894 | after a look that missed, a run that has not failed confirms next |
| SwapVerdicts.ConfirmedIsLookedFor | src/swaps/orchestrator.rs:895-901 | after a confirmation it looks for the same transaction again |
| SwapVerdicts.Culprit | src/swaps/orchestrator.rs:296-305 | a run that failed did so on exactly one answer, which was fatal, and only looked at and canceled the hold after it |
| SwapVerdicts.CleansUpIff | src/swaps/orchestrator.rs:293-309 | a failed run looks at the hold again, and cancels it if it was accepted, exactly when it had started and nothing it may have broadcast was stored; otherwise the fatal answer is its last |
| SwapPlan.PhasesByName | src/cli/live.rs:658-671 | the states every phase moves between |
| SwapPlan.PhasesAreEdges | src/cli/live.rs:658-671 | every phase asks for an edge the store allows; only the end of a refund keeps the rank |
| SwapProgress.PartialForever | src/swaps/outbox.rs:70-105 | a file left half written by a crash is never finished or replaced |
| SwapProgress.PartialNeverReports | src/swaps/outbox.rs:53-68 | over a half written record or funding file nothing is ever reported, over a claim no completion, over a refund no refund |
| SwapCounterexamples.OverlapStoresBoth | src/swaps/orchestrator.rs:439-461 | an execution in which a reverse and a refund run store both a claim and a refund, in either order |
| SwapCounterexamples.OverlapCancelsFunded | src/swaps/orchestrator.rs:347-356 | an execution in which one reverse run cancels the hold another has funded |
| SwapCounterexamples.StrandedReachable | src/swaps/orchestrator.rs:931-935 | an execution of one forward run that crashes in the stranded state |
| SwapCounterexamples.ResumableReachable | src/swaps/orchestrator.rs:931-946 | an execution that crashes one row transition later, in a state that can be finished |
| Timing.ForwardAcceptsExactly | src/swaps/timing.rs:22-55 | in plain integers: accepted exactly for positive values with limit*600 + margin < delta*60 whose sides fit 64 bits; each error's condition; both sides and the least sufficient delta are reported |
| Timing.ForwardDeltaIsLeast | src/swaps/timing.rs:22-55 | a refund delta whose seconds fit 64 bits is accepted exactly when it is at least the returned one |
| Timing.ReverseAcceptsExactly | src/swaps/timing.rs:57-90 | in plain integers: accepted exactly when the Bitcoin blocks left, at 600 s, exceed the Liquid delta, at 60 s, by more than the margin; each error's condition; the values reported |
| Timing.ForwardScheduleSafe | src/swaps/timing.rs:22-55 | with Liquid blocks at least 60 s and Bitcoin blocks at most 600 s apart, acceptance means the Lightning limit and the margin elapse before the lock height |
| Timing.ReverseScheduleSafe | src/swaps/timing.rs:57-90 | for blocks at the assumed pace the reverse check means the refund height and the margin are reached before the hold expires |
| Ledger.TotalAfterWrite | src/core/storage.rs:440-450 | writing one reservation changes a running total by what the row counted before and after |
| Ledger.ReserveKeepsBalance | src/core/storage.rs:388-454 | reserving keeps the ledger totals exactly when the row is held or moves nothing |
| Ledger.ClosingKeepsBalance | src/core/storage.rs:618-664 | consuming or releasing a held reservation keeps every solver's totals and its inventory |
| Ledger.HeldIsCovered | src/core/storage.rs:618-640 | a held reservation is covered by its ledger row, so balance and overflow checks cannot fail |
| Ledger.OpeningKeepsBalance | src/core/storage.rs:370-386 | opening a ledger keeps the totals of every other solver and starts its own at zero |
| Ledger.LedgerIsExact | src/core/storage.rs:388-454 | a balanced row: available is the inventory less what was consumed, reserved backs the held reservations, and together they never exceed the inventory |
| Journal.KeyIsInjective | src/core/storage.rs:259-262 | a transition key names one swap and one edge, whatever characters the id contains |
| Journal.NextEdgeIsNew | src/core/storage.rs:942-988 | the key of a swap's next transition is never taken, so the journal conflict is unreachable |
| Journal.TransitionKeepsRecord | src/core/storage.rs:256-276 | recording the next edge keeps the journal equal to the walks taken |
| Journal.JournalIsThePath | src/core/storage.rs:225-283 | the transition entries of a swap are exactly the edges of one simple path, at most seven |
| Journal.ParseInvertsText | src/core/storage.rs:990-1021 | a text parses to a state exactly when it is the stored text of the state |
| Journal.TextsByName | src/core/storage.rs:990-1004 | the stored text and the key name of every state |
| SolverStore.SqliteStore.constructor | src/core/storage.rs:78-145 | an empty store is valid |
| SolverStore.SqliteStore.EnsureSolverLedger | src/core/storage.rs:370-386 | opens a ledger once; a repeat changes nothing |
| SolverStore.SqliteStore.Reserve | src/core/storage.rs:388-454 | succeeds exactly when the ledger covers the amount and id, quote and hash are new; stores the row, adds to the reserved column, and appends exactly one journal entry under the id's free key; a failure changes nothing |
| SolverStore.SqliteStore.AttachReservation | src/core/storage.rs:456-524 | run alone: attaches exactly an unexpired held reservation without a swap, or repeats |
| SolverStore.AttachNeverSteals | src/core/storage.rs:456-524 | with other writers between its statements a success leaves the row attached to this swap for good and replaces nothing |
| SolverStore.RefusedAttachWritesNothing | src/core/storage.rs:456-524 | with other writers in between as well, a refused call wrote nothing |
| SolverStore.AttachCanBindReleased | src/core/storage.rs:497-503 | a release between the check and the update leaves a released reservation attached |
| SolverStore.AttachedIsHeldIff | src/core/storage.rs:456-524 | a success leaves the row held exactly when it was held at the update, or at the statement that found it attached |
| SolverStore.AttachAlone | src/core/storage.rs:456-524 | alone on the table: the exact success condition; a success leaves the row held exactly when it was held, and the last look never decides |
| SolverStore.AttachAcceptsClosed | src/core/storage.rs:474-486 | attaching a closed row again to its own swap succeeds |
| SolverStore.SqliteStore.ConsumeReservationWithHash | src/core/storage.rs:574-664 | exact success condition; moves the amount once; a repeat changes nothing; balance and overflow errors never occur |
| SolverStore.SqliteStore.ConsumeReservation | src/core/storage.rs:526-528 | the same without a hash |
| SolverStore.SqliteStore.ReleaseReservation | src/core/storage.rs:666-759 | releases exactly an expired held reservation without a swap or with one in CREATED, FAILED or REFUNDED; a repeat changes nothing; the balance error never occurs |
| SolverStore.SqliteStore.InsertSwap | src/core/storage.rs:151-196 | inserts once; a replay is accepted exactly on an equal digest and changes nothing |
| SolverStore.SqliteStore.TransitionSwap | src/core/storage.rs:225-283 | succeeds exactly along an allowed edge from the current state; every column of the new row; appends exactly one journal entry, given by key and text; extends the swap's walk |
| SolverStore.SqliteStore.RecordSwapEvidence | src/core/storage.rs:285-368 | fills the four evidence columns once, every other column unchanged; a later call must repeat them and the journalled values |
| SolverStore.SqliteStore.AppendJournal | src/core/storage.rs:761-765 | an entry under a taken key is accepted only if identical; keys outside the store's own prefixes keep the agreement |
| SolverStore.TransitionKeepsJournal | src/core/storage.rs:225-283 | state, journal and walk move together, and the key was free |
| SolverStore.ReserveKeepsJournal | src/core/storage.rs:440-451 | the key of a new reservation is free, and its entry keeps the agreement |
| SolverStore.ReservationIsJournaled | src/core/storage.rs:440-452 | the journal holds the entry of a reservation exactly if it is stored, and the entry names it |
| Numerals.CanonicalIffPrinted | src/core/amount.rs:12-28 | an amount text is accepted with value n exactly when it is the printed form of n |
| Numerals.CanonicalTexts | src/core/amount.rs:12-28 | the accepted texts are the digit strings without a leading zero below 2^64 |
| CoinAmount.FoldIsValue | src/chain/observation.rs:509-521 | the checked 128-bit fold fails exactly when the exponent's magnitude does not fit |
| CoinAmount.ScaleIsExact | src/chain/observation.rs:523-573 | string scaling returns n exactly when digits times ten to the shift is the integer n below 2^64, for shifts of any size |
| CoinAmount.RenderParses | src/chain/observation.rs:450-490 | on a decimal in scientific notation the parser returns its exact value |
| CoinAmount.ParseDecimalSatsIsExact | src/chain/observation.rs:450-573 | the parser accepts a text with amount n exactly when it is a decimal whose exponent magnitude fits 128 bits and whose value times 10^8 is n below 2^64 |
| CoinAmount.ParseDecimalSatsInvertsPrinter | src/chain/observation.rs:450-573 | the node-answer parser inverts the printer on every amount |
| CoinAmount.ParseSatsIsExact | src/swaps/liquid.rs:713-739 | on a plain decimal the wallet parser is exact, and accepts it exactly up to eight fraction digits |
| CoinAmount.ParseSatsInvertsPrinter | src/swaps/liquid.rs:713-743 | the wallet parser inverts the printer on every amount |
| CoinAmount.ParsersAgree | src/swaps/liquid.rs:713-743 | a text both parsers accept has one amount |
| CoinAmount.ParseSatsOnEveryText | src/swaps/liquid.rs:713-739 | on every text: the wallet parser returns n exactly when the text has its form and n is its amount below 2^64 |
| CoinAmount.WalletOnlyTexts | src/swaps/liquid.rs:713-739 | it alone accepts a text exactly when it accepts one with a leading plus, nothing after the point, or a plus after it |
| CoinAmount.NodeOnlyTexts | src/chain/observation.rs:450-490 | the node-answer parser alone accepts exactly its texts with an exponent or more than eight fraction digits |
| CoinAmount.LeadingPlusDiffers | src/swaps/liquid.rs:720-732 | only the wallet parser accepts a leading plus |
| CoinAmount.EmptyFractionDiffers | src/swaps/liquid.rs:720-732 | only the wallet parser accepts an empty fraction |
| CoinAmount.InnerPlusDiffers | src/swaps/liquid.rs:727-732 | only the wallet parser accepts a plus sign in the fraction |
| Script.ScriptDecodes | src/chain/htlc_script.rs:38-55 | decoding the script bytes returns the operations the builder pushed |
| Script.NumDecodes | src/chain/htlc_script.rs:49 | a pushed number is read back as itself |
| Script.TrueIsNonZero | src/chain/htlc_script.rs:39 | an element selects the claim branch exactly when the number it stands for is not zero |
| Htlc.BuildWitnessScript | src/chain/htlc_script.rs:14-65 | a script is built exactly for heights from 1 up to 500000000 exclusive, and decodes to the contract's operations |
| Htlc.ScriptBytes | src/chain/htlc_script.rs:38-55 | the script byte for byte |
| Htlc.ScriptAcceptsExactly | src/chain/htlc_script.rs:38-55 | the script succeeds on exactly the claim stacks and the mature refund stacks |
| Htlc.ContractIsValidIff | src/chain/contract.rs:38-55 | a contract is valid exactly when asset and chain agree, the height is in range and both scripts are rebuilt from its terms |
| Htlc.ContractAcceptsExactly | src/chain/contract.rs:38-55 | the output script a contract is paid at accepts a witness carrying the contract's script exactly on those stacks, within the item limit |
| Htlc.AcceptsOnlyCommitted | src/chain/contract.rs:21 | that output accepts no witness but one ending in a script of the committed hash |
| Htlc.BuiltRefundIsMature | src/chain/bitcoin.rs:312-326 | a refund with the built lock time and sequence passes the height check however it is completed |
| Htlc.SignedBranchIsAccepted | src/chain/liquid.rs:535-553 | a signature by the key of the selected branch completes an accepted witness |
| Htlc.SignBitcoinHtlcSpend | src/chain/bitcoin.rs:178-231 | signing succeeds exactly for a valid contract and the branch key; the contract then accepts the input, a refund from its height on |
| Htlc.AcceptedClaimReveals | src/chain/bitcoin.rs:234-264 | an accepted spend yields the committed preimage to the extractor exactly when it is a claim with selector 1 |
| Htlc.SignedSpendRoundTrip | src/chain/bitcoin.rs:178-264 | built, signed, accepted, extracted, on either chain: acceptance exactly for a claim or a refund build, and the extractor returns the preimage signed with |
| HtlcTransactions.BitcoinFundingConserves | src/chain/bitcoin.rs:57-79 | built exactly when the input equals contract, change and a positive fee; spends that outpoint, pays the contract at output 0 and non-zero change to the change script, and loses exactly the fee |
| HtlcTransactions.BitcoinSpendIsSpendable | src/chain/bitcoin.rs:138-175 | a spend is built exactly when a positive fee leaves something; it spends the one funding outpoint and pays all but the fee to the destination, with the lock time and sequence of its kind; signed under either branch key it is accepted exactly if it claims or was built as a refund, and a claim's preimage is extracted |
| HtlcTransactions.FundingOutputs | src/chain/liquid.rs:375-402 | the outputs in order, with their scripts, zero change left out; per asset they carry exactly the stated parts |
| HtlcTransactions.BuildLiquidFundingTransaction | src/chain/liquid.rs:75-95 | the exact success condition; inputs and outputs in order; inputs equal outputs for every asset, also when payment and fee share one |
| HtlcTransactions.SpendOutputs | src/chain/liquid.rs:404-425 | the outputs in order, with their scripts, zero change left out; per asset they carry exactly the stated parts |
| HtlcTransactions.BuildLiquidHtlcSpend | src/chain/liquid.rs:126-143 | the exact success condition; inputs equal outputs for every asset, the whole funding amount goes to the destination, lock time and sequence are those of its kind |
| HtlcTransactions.LiquidSpendIsSpendable | src/chain/liquid.rs:126-208 | a built Liquid spend, once signed under either branch key, is accepted exactly if it claims or was built as a refund, and a claim's preimage is extracted |
| HtlcTransactions.SignLiquidHtlcSpend | src/chain/liquid.rs:168-208 | signing both inputs succeeds exactly for the branch key and the wallet key; both witnesses, and the contract accepts the first input |
| QuoteEncoding.AppendField | src/core/rfq.rs:339-343 | appends one length-prefixed field |
| QuoteEncoding.QuoteBytes | src/core/rfq.rs:147-215 | the signed bytes are the 33 fields in order |
| QuoteEncoding.FieldsInOrder | src/core/rfq.rs:147-213 | the 33 fields by name |
| QuoteEncoding.FieldIsPrefixed | src/core/rfq.rs:339-343 | a field is its length in eight bytes, the most significant first, and its text |
| QuoteEncoding.NetworksByName | src/core/network.rs:34-45 | the spellings of the networks in an endpoint id |
| QuoteEncoding.EndpointIsValidIff | src/core/endpoint.rs:36-72 | exactly which endpoints are valid: alphabet, networks of the known assets, asset hash |
| QuoteEncoding.EncodingIsInjective | src/core/rfq.rs:339-343 | length prefixes make the field list recoverable, whatever the fields contain |
| QuoteEncoding.EndpointIsRecovered | src/core/endpoint.rs:32-72 | a valid endpoint is determined by its id and its hash field |
| QuoteEncoding.SignedBytesAreInjective | src/core/rfq.rs:147-215 | two accepted quotes with equal signed bytes are equal up to a missing against an empty payment request |
| QuoteEncoding.EmptyRequestIsAmbiguous | src/core/rfq.rs:212 | that exception is real for every accepted quote without a payment request |
| QuoteEncoding.QuoteIsAcceptedIff | src/core/rfq.rs:217-337 | a quote is accepted exactly when it copies intent, context and adapter, meets the amount, fee and expiry limits, and its deadlines are ahead and in order by the margin in plain integers |
| QuoteEncoding.DeadlinesAreOrdered | src/core/rfq.rs:299-325 | in an accepted quote the source deadline exceeds the destination's by more than the margin in exact arithmetic |
| ExitProof.FindsTheCandidate | src/exit/proof.rs:118-123 | with distinct output indices the candidate found is the only one |
| ExitProof.FindTimeoutProof | src/exit/proof.rs:106-164 | succeeds exactly when some input meets every binding condition, returns the least one and pairs it with the output of the same index |
| ExitProof.BindsIff | src/exit/proof.rs:106-229 | the binding conditions item by item: five witness items, signature types, hash comparison, first listed output script, paired amount and script |
| ExitProof.CsvSequenceMeansBlocks | src/exit/proof.rs:272-283 | a sequence passes exactly when relative locking is on, counts blocks and is long enough |
| ExitProof.OwnedOutputsAreAll | src/exit/proof.rs:286-336 | succeeds exactly when every positive output is owned and the sum is positive and fits, and returns the sum of all outputs |
| ExitProof.CsvSpendRecoversAll | src/exit/proof.rs:231-269 | an accepted sweep recovers the sum of all its outputs under a block-mode sequence at a mature height |
| ExitProof.CsvSpendIsExact | src/exit/proof.rs:231-269 | a sweep is accepted exactly when its first input of the source counts blocks up to the delay, the delay has passed, and every positive output is owned with a positive sum that fits |
| ExitProof.RecoveryIsConservative | src/exit/proof.rs:339-370 | the exact success condition; the sweep is attributed up to the principal; net recovery is the smaller of principal less both fees and final sweep less the timeout fee, each floored at zero |
| LightningInvoice.CountsIff | src/lightning/client.rs:540-556 | which HTLCs count, and for what |
| LightningInvoice.SummaryIsExact | src/lightning/client.rs:534-572 | an amount is reported exactly when some HTLC counts, all are whole satoshis and the sum fits; it is the exact sum next to the least expiry |

## Left out

- HTTP, JSON-RPC, TLS and the node clients: their calls are events with arbitrary truthful answers. The client's state gates on settling and canceling appear as what `CallPossible` lets those calls do.
- SQL, WAL, file permissions and directory syncs: tables are maps, a transaction commits or not, and a statement that fails for an outside reason counts as not committed. Power loss that drops a synced file is not modelled.
- serde, BOLT11, hexadecimal and consensus serialization: records, invoices and transactions are values, and an invoice's decoding is one yes-or-no parameter.
- SHA-256, RIPEMD-160, ECDSA, AES-GCM and key generation: parameters. The key, hash and contract-rebuild checks of a recovery record are one predicate of the record. Nothing assumes a hash to be injective, so a witness with another script of the same hash is outside `ContractAcceptsExactly`.
- Liveness in general: whether remote nodes answer, confirm or pay. `CooperatingReplayFinishes` takes the cooperation of the answers as given.
- SwapRunner.Runner.ConsumeSolverReservation: the check of the preimage against the commitment and the second look at a consumed row are part of its one answer.
- SwapRunner.Runner.ValidateOpenInvoice: decoding the payment request and reading its amount is one parameter of the hash.
- The amounts an invoice carries are free in the session model; the checks on them are in the runner.
- The client's evidence row and its growing confirmation count: a replay across new blocks is refused by `record_swap_evidence`, which `RecordSwapEvidence` states only per call.
- The recovery record's refund height and quote are not compared with the request on replay, in the code and in the model alike.
- SolverStore.SqliteStore.AttachReservation: stated without other writers; `AttachNeverSteals` covers interleaving on table values, not on the object.
- The reservation set-up, swap-record set-up and evidence steps of the CLI, its parsing, printing and paths.
- The route catalogue is a parameter of the quote check; the pinned-key map and the signature over the quote bytes are not modelled.
- The P2WPKH funding signatures, apart from the fee input of a Liquid spend; its script code is identified with its script.
- The Liquid wallet adapter's `make_funding` and `make_spend`: their transactions are those of `HtlcTransactions`, their choice of change is not modelled.
- RPC observation of outputs and spends in `src/chain/observation.rs` beyond its amount parser, and wallet coin selection.
- Recovery bundles and funding-outbox rows of the store, endpoint enumeration, regtest harness, mining helpers and scripts.
