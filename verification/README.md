# Clustly escrow: a verified model

The escrow program holds, for each task, one bounty per slot in a token vault
owned by the program. Claimers enroll in slots, deliver, and are paid minus a
fee; a poster can reject three times; a claimer can dispute a rejection; cranks
that anyone may call take over when the poster or the admin stays silent. A task
record stores three counters and no list of its claims, and nothing stores what
is owed to whom. This project models the whole program as one state machine over
a token ledger and proves that the counters, the claims and the vaults agree in
every reachable state, and what follows from that over whole runs.

## How it is organised

| file | content |
|---|---|
| `Prelude.dfy` | machine integers, options, results |
| `Accounts.dfy` | configuration, task and claim records, the fee split |
| `Tokens.dfy` | balances, transfers, the supply of a mint |
| `Instructions.dfy` | the transition system: 17 instructions and 3 environment steps, when each is refused and with which error, its payment and its effect |
| `Slots.dfy`, `Invariant.dfy` | the claims of a task as sets, and the invariant of every reachable state |
| `Bookkeeping.dfy` | the history of payments per task, and solvency |
| `Program.dfy` | the program as it runs: a class with one handler per instruction, in the order of the source and without undo, and the runtime around them |
| `Runs.dfy`, `ClaimHistory.dfy`, `Isolation.dfy` | theorems about every run |
| `Acceptance.dfy` | when each instruction goes through and what each error means, for every reachable world |
| `Outcomes.dfy` | what each step changes: balances, token accounts, the clock, claim records |
| `FundedMint.dfy` | theorems about every run that never re-pins the mint while a task is funded |
| `Refinement.dfy` | the counters and vault as an escrow of boxes |
| `Progress.dfy`, `Repin.dfy` | when a task can be wound up by claimers and cranks alone, and three runs in which a re-pin of a funded task breaks that, strands a deposit, or sends it to the next user of its id |

A *world* is the program's state together with its books. The books are a record
the program does not keep: a fold over the payments of a run that no instruction
reads. A *history* is a run of successful steps from before the program's
initialization; a failed transaction changes nothing, which
`Program.Escrow.Execute` proves of the handlers and the runtime together. Most
theorems are about every point of every history.

Handlers write token balances as they go and write records at the end, as the
source does, and nothing undoes a transfer except `Execute`. So the contract
"a refused settlement leaves everything as it was" of the handlers says that the
source's order of effects before bookkeeping is harmless. It holds whenever the
pinned mint is the one the task was funded in; `Isolation.RefusedIff` and
`Isolation.PayoutStopsHalfwayIff` say exactly when a settlement fails, and when
it fails half made, for every pinned mint.

`update_mint` is modelled as the program runs it, without its documented
precondition that no task is funded. Vaults are keyed by task and mint, and the
theorems say what survives a re-pin: the funding vault of an open task never
falls below what its unsettled slots are owed, but as long as another mint is
pinned the task cannot be wound up without the admin. While the task is open the
admin can pin the funding mint again (`Progress.AdminCanPinBack`). If the task is
closed while another mint is pinned, what its funding vault holds then is out of
everyone's reach for good, the admin's included (`Runs.StrandedForever`,
`Repin.ClosingStrandsTheDeposit`); a close settles in full exactly when the
funding mint is pinned or its vault is empty (`Runs.CloseSettles`). If the task is
cancelled while another mint is pinned, its poster gets nothing of the deposit
(`Runs.CancelRefunds`) and the id becomes free. The deposit then stays where it is
until the id is initialized again (`Runs.RemovedIsFrozen`), and after that it can
go to the new task's poster when the first mint is pinned again
(`Repin.CancellingMisdirectsTheDeposit`): `cancel_before_enroll` refunds in full
exactly when the funding mint is pinned, and otherwise reusing an id is not safe.
In runs that keep the documented precondition none of this happens:
`FundedMint.dfy` proves exact solvency, progress, full settlement, full refunds
and safe reuse of ids there for every task.

Where the source and its documentation disagree, the model follows the source:
the fee is floored, not the net amount (docs/overview.md, lines 181-182); there
are 17 instructions, not 16 (docs/overview.md, line 8); `approve_claim` creates no token account
(docs/overview.md, line 16).

## Model

| member | source | states |
|---|---|---|
| Accounts.FeeSplitIsExact | programs/clustly-escrow/src/state.rs:137-145 | under the 5% cap the split never errs or truncates; net and fee add up to the bounty, the fee is the floor of the exact fee and at most a twentieth of the bounty |
| Accounts.NetVersusDocumentation | docs/overview.md:181-182 | the program's net is the documented one or one unit more, and equal exactly when 10000 divides bounty times rate |
| Tokens.SupplyMove | programs/clustly-escrow/src/instructions/claim.rs:238-262 | a transfer within a mint preserves the supply of every mint |
| Tokens.NoOverflow | programs/clustly-escrow/src/instructions/claim.rs:238-262 | when the supply fits 64 bits a covered transfer cannot overflow its destination |
| Slots.BoxesPartition | programs/clustly-escrow/src/state.rs:99-107 | the set of a task's claims is the disjoint union of its active, paid and refunded ones |
| Slots.BoxSizesAddUp | programs/clustly-escrow/src/state.rs:45-47 | so their numbers add up to the number of its claims |
| Slots.TallyMove | programs/clustly-escrow/src/instructions/claim.rs:264-270 | settling an active claim adds one to the counter of its outcome and to no other |
| Invariant.InvStep | programs/clustly-escrow/src/lib.rs:29-121 | every step by anyone preserves the invariant: fee cap, claims pointing at existing tasks of other people, rejection counts and timestamps fitting the status, counters equal to set sizes, closed tasks without active claims, supply within 64 bits |
| Invariant.SupplyIsConserved | programs/clustly-escrow/src/instructions/fees.rs:41-64 | every step preserves the token supply of every mint |
| Runs.CloseGate | programs/clustly-escrow/src/instructions/task.rs:262-268 | in every reachable state the doubly saturating gate of close_task passes exactly when every claim of the task is terminal |
| Runs.TermsNeverChange | programs/clustly-escrow/src/instructions/task.rs:80-93 | in every run poster, bounty, slots and deadline of a task never change and a closed task does not reopen; only cancel_before_enroll removes one |
| Runs.BalancesFollowPayments | programs/clustly-escrow/src/instructions/claim.rs:232-262 | in every run every balance is the initial one plus credits minus debits of the steps' payments; creating and closing accounts moves nothing |
| Bookkeeping.SoundStep | programs/clustly-escrow/src/instructions/dispute.rs:143-200 | every step keeps the books of every task balanced against its counters and its vault |
| Program.Escrow.Transfer | programs/clustly-escrow/src/instructions/claim.rs:238-249 | a transfer fails only for lack of funds, then changing nothing |
| Program.Escrow.InitializeConfig | programs/clustly-escrow/src/instructions/config.rs:38-60 | sets the configuration unless the fee exceeds the cap |
| Program.Escrow.UpdateAdmin | programs/clustly-escrow/src/instructions/config.rs:75-80 | replaces the admin and nothing else |
| Program.Escrow.UpdateFee | programs/clustly-escrow/src/instructions/config.rs:95-101 | replaces the fee and nothing else, unless it exceeds the cap |
| Program.Escrow.UpdateMint | programs/clustly-escrow/src/instructions/config.rs:122-131 | replaces the pinned mint and nothing else |
| Program.Escrow.InitializeTask | programs/clustly-escrow/src/instructions/task.rs:55-114 | opens a task and funds its new vault with bounty times slots, or reports zero bounty, bad slots, overflow or missing funds in that order |
| Program.Escrow.SweepVault | programs/clustly-escrow/src/instructions/task.rs:270-304 | moves everything in the vault to the poster and closes the vault; this never fails |
| Program.Escrow.CancelBeforeEnroll | programs/clustly-escrow/src/instructions/task.rs:155-203 | refunds and removes an open task nobody enrolled in; a refusal changes nothing |
| Program.Escrow.CloseTask | programs/clustly-escrow/src/instructions/task.rs:247-310 | sweeps and closes an open task without active slots, for its poster or after its deadline; a refusal changes nothing |
| Program.Escrow.AutoCancelTask | programs/clustly-escrow/src/instructions/task.rs:353-409 | sweeps and closes an open task without enrolments after its deadline; a refusal changes nothing |
| Program.Escrow.Enroll | programs/clustly-escrow/src/instructions/claim.rs:58-100 | fills one slot with a fresh claim; the counter cannot overflow |
| Program.Escrow.Submit | programs/clustly-escrow/src/instructions/claim.rs:124-143 | submits an enrolled or rejected claim and restarts its window |
| Program.Escrow.PayDeliverer | programs/clustly-escrow/src/instructions/claim.rs:223-262 | net to the claimer, then fee to the fee vault, as one payout of the bounty; says exactly what a failure between the transfers leaves behind |
| Program.Escrow.RefundPoster | programs/clustly-escrow/src/instructions/claim.rs:347-364 | one bounty back to the poster, or nothing moves |
| Program.Escrow.ApproveClaim | programs/clustly-escrow/src/instructions/claim.rs:208-281 | pays a submitted claim of an open task; a refusal changes nothing while the pinned mint is the funding mint |
| Program.Escrow.RejectClaim | programs/clustly-escrow/src/instructions/claim.rs:330-393 | counts a rejection, or on the third cancels the claim and refunds its bounty; a refusal changes nothing |
| Program.Escrow.AutoApprove | programs/clustly-escrow/src/instructions/claim.rs:454-533 | pays a claim submitted at least 14 days ago; a refusal changes nothing while the pinned mint is the funding mint |
| Program.Escrow.OpenDispute | programs/clustly-escrow/src/instructions/dispute.rs:30-42 | puts a rejected claim in dispute and starts its window |
| Program.Escrow.ResolveDispute | programs/clustly-escrow/src/instructions/dispute.rs:118-203 | pays or refunds a disputed claim as ruled; a refusal changes nothing while the pinned mint is the funding mint |
| Program.Escrow.AutoResolveDispute | programs/clustly-escrow/src/instructions/dispute.rs:264-337 | pays a claim disputed at least 14 days ago; a refusal changes nothing while the pinned mint is the funding mint |
| Program.Escrow.WithdrawFees | programs/clustly-escrow/src/instructions/fees.rs:41-64 | moves up to the fee vault's balance to any account of the mint; a refusal changes nothing |
| Program.Escrow.Dispatch | programs/clustly-escrow/src/lib.rs:29-121 | every handler succeeds exactly when its guards hold, with exactly the effect of the transition system, and otherwise reports the first failing guard and writes no record |
| Program.Escrow.Execute | programs/clustly-escrow/src/lib.rs:24-122 | one transaction is one step of the transition system or leaves the world unchanged, and always leaves it valid |
| Acceptance.InitializeConfigIff | programs/clustly-escrow/src/instructions/config.rs:8-60 | the program can be configured exactly once per fee vault that is not there yet, with a fee of at most 500 |
| Acceptance.AdminUpdatesIff | programs/clustly-escrow/src/instructions/config.rs:62-131 | exactly the admin can hand over, re-pin the mint, and set any fee up to 500 |
| Acceptance.WithdrawFeesIff | programs/clustly-escrow/src/instructions/fees.rs:12-45 | a withdrawal goes through exactly for the admin, to an existing account of the pinned mint, up to the balance of that mint's existing fee vault |
| Acceptance.InitializeTaskIff | programs/clustly-escrow/src/instructions/task.rs:8-104 | a task can be initialized exactly on a free id without a vault, with a positive bounty, 1 to 100 slots and a poster who holds the deposit; the checked product never decides |
| Acceptance.CancelBeforeEnrollIff | programs/clustly-escrow/src/instructions/task.rs:118-163 | a cancel goes through exactly for the poster of an open task nobody enrolled in, whose vault in the pinned mint exists |
| Acceptance.CloseTaskIff | programs/clustly-escrow/src/instructions/task.rs:207-268 | a close goes through exactly while the task is open, its vault in the pinned mint exists and all its claims are terminal, for the poster whatever the deadline and for anyone else once a set deadline has passed |
| Acceptance.AutoCancelTaskIff | programs/clustly-escrow/src/instructions/task.rs:314-370 | anyone can cancel exactly an open task nobody enrolled in, with its vault in the pinned mint, once a set deadline has passed |
| Acceptance.EnrollIff | programs/clustly-escrow/src/instructions/claim.rs:10-89 | anyone but the poster can fill a slot of an open task with a new claim exactly as long as fewer claims than slots exist |
| Acceptance.SubmitIff | programs/clustly-escrow/src/instructions/claim.rs:104-130 | exactly the claimer can deliver, after enrolling and after every rejection that does not cancel |
| Acceptance.ApproveClaimIff | programs/clustly-escrow/src/instructions/claim.rs:147-245 | exactly the poster can approve, every submitted claim of the task, as long as the mint named is the pinned one, both vaults exist and one bounty is there |
| Acceptance.RejectClaimIff | programs/clustly-escrow/src/instructions/claim.rs:285-364 | exactly the poster can reject, every submitted claim; only the third rejection needs one bounty in the vault |
| Acceptance.AutoApproveIff | programs/clustly-escrow/src/instructions/claim.rs:397-474 | anyone can have a payable submitted claim paid exactly from 1,209,600 seconds after its submission on |
| Acceptance.OpenDisputeIff | programs/clustly-escrow/src/instructions/dispute.rs:10-42 | exactly the claimer can dispute, exactly while the claim stands rejected |
| Acceptance.RejectedClaimerCanAct | programs/clustly-escrow/src/instructions/dispute.rs:30-35 | at once after a first or second rejection the claimer's dispute and new submission go through, and after a third neither does |
| Acceptance.ResolveDisputeIff | programs/clustly-escrow/src/instructions/dispute.rs:53-135 | exactly the admin can rule, in either favor, on every disputed claim that is payable |
| Acceptance.AutoResolveDisputeIff | programs/clustly-escrow/src/instructions/dispute.rs:207-280 | anyone can have a payable disputed claim paid exactly from 1,209,600 seconds after its dispute on |
| Acceptance.FundedClaimCanBePaid | programs/clustly-escrow/src/instructions/claim.rs:223-262 | while the funding mint of a task is pinned every unsettled claim of it is payable as soon as the fee vault exists |
| Acceptance.ErrorsAreExact | programs/clustly-escrow/src/errors.rs:1-39 | in every reachable world each instruction reports an error exactly when that error's stated meaning holds and nothing checked earlier was wrong |
| Outcomes.WithdrawalMovesAmount | programs/clustly-escrow/src/instructions/fees.rs:47-60 | a withdrawal takes exactly the amount asked for from the fee vault of the pinned mint to the destination and changes no other balance |
| Outcomes.SweepPaysPoster | programs/clustly-escrow/src/instructions/task.rs:270-304 | closing, cancelling and auto-cancelling pay the whole vault in the pinned mint to the poster, remove it, and change no other balance |
| Outcomes.PayoutMovesBounty | programs/clustly-escrow/src/instructions/claim.rs:223-262 | every payout takes one bounty from the task's vault, gives the floor of bounty times rate over 10,000 to the fee vault and the rest to the claimer, and changes no other balance |
| Outcomes.RefundMovesBounty | programs/clustly-escrow/src/instructions/claim.rs:347-364 | a third rejection and a ruling for the poster give one bounty from the task's vault to the poster and change no other balance |
| Outcomes.NoMoneyMoves | programs/clustly-escrow/src/instructions/claim.rs:330-345 | all other instructions but the deposit change no balance |
| Outcomes.AccountsFollowSteps | programs/clustly-escrow/src/instructions/task.rs:292-304 | vaults and fee vaults exist exactly as steps create and close them, and only the clock moves the time |
| Outcomes.RecordIsLatest | programs/clustly-escrow/src/instructions/claim.rs:91-143 | a claim record always carries claimer, task and time of its enrollment, hash and time of its latest submission, and the time of its dispute |
| Runs.HistoryIsSound | programs/clustly-escrow/src/lib.rs:3-11 | every reachable world satisfies the invariant and has balanced books |
| Runs.TokensAreConserved | programs/clustly-escrow/src/instructions/task.rs:95-104 | no run creates or destroys a token |
| Runs.FeeVaultAccount | programs/clustly-escrow/src/instructions/fees.rs:41-60 | in every run and mint the fee vault holds the fees routed to it plus what steps sent to it minus the amounts its withdrawals asked for, wherever withdrawals went |
| Runs.ConfigIsLatest | programs/clustly-escrow/src/instructions/config.rs:75-131 | the configuration is what the latest setting step said, within the fee cap, and every admin instruction is signed by the admin appointed last |
| Runs.CountersAreExact | programs/clustly-escrow/src/state.rs:45-47 | in every reachable state the three counters are the numbers of a task's claims, of those approved or resolved for the deliverer, and of those cancelled or resolved for the poster |
| Runs.ClosingIsAuthorized | programs/clustly-escrow/src/instructions/task.rs:248-268 | a task closes only at its poster's word or after its positive deadline, with every claim terminal |
| Runs.SettlementLedger | programs/clustly-escrow/src/state.rs:137-145 | at every point of every run from a task's initialization on, and after it is cancelled until its id is initialized again, deposit plus gifts equal nets, fees, refunds, sweeps and balance of the funding vault; while the task exists, over all vaults its slots were settled from, paid slots cost exactly one bounty each, refunded slots one each, and the fees are at most the floor of 5% of the paid bounties, however the rate and the mint changed; a cancelled task never settled a slot |
| Runs.FundingFloor | programs/clustly-escrow/src/instructions/config.rs:103-131 | across arbitrary re-pins of the mint the funding vault of an open task never falls below what its unsettled slots are owed, and is exactly that plus gifts if no slot was settled in another mint |
| Runs.ClosedIsFrozen | programs/clustly-escrow/src/instructions/dispute.rs:118-127 | once closed, a task's record, claims and settlement stay the same for the rest of every run, although submit and the three dispute instructions never test the task status |
| Runs.ClosedTaskPaysNothing | programs/clustly-escrow/src/instructions/dispute.rs:264-273 | after closing nothing is ever paid out of the task's vaults in any mint |
| Runs.CloseSettles | programs/clustly-escrow/src/instructions/task.rs:270-307 | after every close the poster has received one bounty per slot not paid out of the funding vault plus all gifts if and only if the funding mint was pinned or its vault was empty; a close in the funding mint removes the vault; and all of this is final |
| Runs.StrandedForever | programs/clustly-escrow/src/instructions/task.rs:247-310 | after a close while another mint is pinned the funding vault's balance never falls again in the rest of any run |
| Runs.TermsAreAsSigned | programs/clustly-escrow/src/instructions/task.rs:80-93 | from its initialization on a task that is not cancelled carries the poster, bounty, slots and deadline its poster signed |
| Runs.DepositIsThePosters | programs/clustly-escrow/src/instructions/task.rs:95-104 | initializing a task takes bounty times slots from its poster's wallet into a new vault and touches no other balance |
| Runs.RemovalIsAuthorized | programs/clustly-escrow/src/instructions/task.rs:119-163 | a task is removed only by its own poster, while open and without claims, and what is swept to that poster is its vault in the pinned mint |
| Runs.CancelRefunds | programs/clustly-escrow/src/instructions/task.rs:138-203 | at every cancel the funding vault holds the whole deposit and every gift; exactly when the funding mint is pinned the cancel pays all of that to the poster and removes the vault, and otherwise it leaves the vault as it was and the poster's wallet of that mint gets nothing |
| Runs.RemovedIsFrozen | programs/clustly-escrow/src/instructions/task.rs:129-136 | from a cancel until the id is initialized again the settlement is final and no vault of the id falls in any mint |
| Runs.OnlyOpenTaskLowersVault | programs/clustly-escrow/src/instructions/task.rs:138-143 | in every run a task vault falls only in a step on the open task that has its id at that moment and while its mint is pinned |
| Runs.TaskIdsAreFresh | programs/clustly-escrow/src/instructions/task.rs:129-136 | a task id is initialized only when no claim points at it and never after it was closed |
| ClaimHistory.TerminalForever | programs/clustly-escrow/src/state.rs:99-107 | once a claim is terminal nothing in the rest of any run changes it |
| ClaimHistory.HistoryIsScripted | programs/clustly-escrow/src/instructions/claim.rs:340-390 | in every run the signed acts on a claim are exactly those its status and rejection count prescribe: rounds of submission by the claimer and rejection by the poster, then the one ending |
| ClaimHistory.RefundNeedsThreeRoundsOrAdmin | programs/clustly-escrow/src/instructions/claim.rs:330-390 | whenever a claim's bounty is returned, the claim went through exactly three submitted and rejected rounds, or its claimer had disputed and the admin ruled for the poster |
| ClaimHistory.DisputingRulesOutCancellation | programs/clustly-escrow/src/instructions/dispute.rs:30-42 | a claim that was ever disputed never ends cancelled |
| ClaimHistory.AutoApprovalWaits | programs/clustly-escrow/src/instructions/claim.rs:464-474 | every auto_approve is preceded by a submit of that claim at least 1,209,600 seconds earlier with the claim untouched in between |
| ClaimHistory.AutoResolutionWaits | programs/clustly-escrow/src/instructions/dispute.rs:275-280 | every auto_resolve_dispute is preceded by an open_dispute of that claim at least 1,209,600 seconds earlier with the claim untouched in between |
| ClaimHistory.SettlementPaysItsParties | programs/clustly-escrow/src/instructions/claim.rs:187-262 | a payment for a claim is made in exactly the step that makes it terminal; it takes one bounty out of one vault of the claim's task, all of it to the claimer and the fee vault by the split, or all of it to the poster, and changes no other account |
| ClaimHistory.SettledExactlyOnce | programs/clustly-escrow/src/instructions/claim.rs:218-221 | in every run a claim has been settled once if it is terminal and never otherwise |
| ClaimHistory.ActivityIsBounded | programs/clustly-escrow/src/instructions/claim.rs:64-89 | one incarnation of a task accepts at most seven claim instructions per slot in any run |
| Isolation.TasksAreIsolated | docs/overview.md:193-193 | steps that do not name a task never change its record, claims or settlement and never lower its vault in any mint |
| Isolation.AdminSpendsBountiesOnly | programs/clustly-escrow/src/instructions/dispute.rs:118-203 | as long as only an admin acts on a task, whatever happens to others, all its vaults in whatever mints together lose exactly one bounty per dispute the run ends, and only disputes open at its start end |
| Isolation.AdminPaysOnlyParties | programs/clustly-escrow/src/instructions/fees.rs:7-11 | everything an admin takes out of a task's vaults while nobody else acts on it settles a claim that was in dispute at the start, to its claimer and the fee vault by the split or to the poster, and no other account gains |
| Isolation.AdminReachesOnlyDisputes | programs/clustly-escrow/src/instructions/fees.rs:7-11 | as long as only an admin acts on a task each single vault of it loses at most one bounty per claim that was in dispute at the start |
| Isolation.RefusedIff | programs/clustly-escrow/src/instructions/dispute.rs:118-199 | in every reachable world, whatever mint is pinned, a settlement instruction is refused exactly by its opening checks, or for lack of funds when money must move and the task's vault in the pinned mint holds less than one bounty; the arithmetic never fails |
| Isolation.OpeningGuardsSuffice | programs/clustly-escrow/src/instructions/claim.rs:208-221 | while the pinned mint is the funding mint the opening checks alone decide |
| Isolation.PayoutStopsHalfwayIff | programs/clustly-escrow/src/instructions/claim.rs:238-262 | a payout stops between its two transfers exactly when the vault covers the net amount but not the bounty |
| Refinement.RunRefinesBoxes | programs/clustly-escrow/src/instructions/claim.rs:86-89 | in every run the record and the claims of a task are what an escrow of boxes reaches by its moves alone, and every further step makes one enabled move of it or none |
| Refinement.CancelRefinesBoxes | programs/clustly-escrow/src/instructions/task.rs:155-163 | a task is removed only while all its boxes are unfilled |
| Refinement.BoxesConserve | programs/clustly-escrow/src/instructions/claim.rs:347-373 | what the boxes held is held or released: one bounty when a box is paid or given back, the unfilled ones when the escrow closes |
| Refinement.CountersCountBoxes | programs/clustly-escrow/src/instructions/task.rs:262-268 | the record's counters count the boxes |
| Refinement.VaultHoldsBoxes | programs/clustly-escrow/src/instructions/task.rs:69-104 | the funding vault holds what the boxes hold plus gifts plus the bounties of slots settled in another mint |
| Refinement.PaymentsFollowBoxes | programs/clustly-escrow/src/instructions/claim.rs:223-262 | every step of every run takes out of a task's vaults exactly what its move releases from the boxes, all of it in the pinned mint; emptying the boxes takes whatever the vault of that mint holds, in the funding mint the unfilled boxes plus gifts and stray bounties |
| Refinement.ClosingEmptiesUnfilledBoxes | programs/clustly-escrow/src/instructions/task.rs:270-293 | closing in the funding mint pays the poster exactly the unfilled boxes plus gifts and stray bounties |
| Progress.ProgressIff | docs/overview.md:228-234 | an open task can be wound up by its claimers' submissions, the clock and cranks of outsiders alone, with every claim terminal and the vault gone, if and only if it has a deadline and the pinned mint is its funding mint; and the same condition decides when anybody but its poster and the admin may do anything |
| Progress.PlanExists | programs/clustly-escrow/src/instructions/task.rs:247-309 | builds that plan: create the fee vault, one submission per claim with something to deliver, one wait to the later of window and deadline, one crank per unsettled claim, one close by an outsider |
| Progress.StuckForever | programs/clustly-escrow/src/instructions/config.rs:103-107 | without deadline, or while another mint is pinned, no steps without the poster and the admin wind the task up |
| Progress.AdminCanPinBack | programs/clustly-escrow/src/instructions/config.rs:122-131 | while a task with a deadline is open, re-pinning its funding mint always goes through and makes it possible to wind it up without poster and admin |
| Progress.NothingLeavesClosedTask | programs/clustly-escrow/src/instructions/claim.rs:208-221 | from a closed task no plan of anyone's, its poster's and the admin's included, lowers the balance of any of its vaults |
| Repin.RepinningBreaksProgress | programs/clustly-escrow/src/instructions/config.rs:122-131 | a concrete run with a re-pin while a task is funded, after which an approval fails between its two transfers and no plan winds the task up |
| Repin.ClosingStrandsTheDeposit | programs/clustly-escrow/src/instructions/task.rs:270-307 | a concrete run that closes a task while another mint is pinned, after which its whole deposit stays in its funding vault whatever anyone does |
| Repin.CancellingMisdirectsTheDeposit | programs/clustly-escrow/src/instructions/task.rs:129-143 | a concrete run that cancels a task while another mint is pinned, after which its deposit ends with the poster of the next task on its id |
| FundedMint.FundedTasksArePinned | programs/clustly-escrow/src/instructions/config.rs:103-107 | in every run whose re-pins find every task closed, nothing is ever settled in another mint than a task's own and every open task's mint is pinned |
| FundedMint.VaultIsOwed | programs/clustly-escrow/src/instructions/task.rs:69-104 | in such runs the vault of an open task holds exactly one bounty per unsettled slot plus gifts |
| FundedMint.OpeningChecksDecide | programs/clustly-escrow/src/instructions/claim.rs:454-474 | in such runs a settlement instruction is refused exactly by its opening checks |
| FundedMint.DeadlineDecides | docs/overview.md:228-234 | in such runs an open task can be wound up by claimers, the clock and cranks alone if and only if it has a deadline |
| FundedMint.EveryCloseSettles | programs/clustly-escrow/src/instructions/task.rs:270-307 | in such runs after every close the vault is gone, paid slots have cost one bounty each and the poster has received all other bounties and every gift |
| FundedMint.EveryCancelRefunds | docs/overview.md:24-24 | in such runs every cancel returns the whole deposit and every gift to the poster and removes the vault |
| FundedMint.NoDepositIsLeftBehind | programs/clustly-escrow/src/instructions/task.rs:129-136 | in such runs every vault that is not the funding vault of an open task holds at most what it held before the program started and what was sent to it, so no deposit outlives its task and ids can be reused |

## Left out

- Program.Escrow.Dispatch: the order in which the account framework reports several failing account constraints of one instruction is not modelled beyond missing accounts first; all of them come before the handler, as in the source.
- Progress.ProgressIff: assumes that the clock is at least 14 days below the largest 64-bit time, since no window could pass otherwise; Progress.PlanExists, Progress.AdminCanPinBack and FundedMint.DeadlineDecides assume the same.
- Account derivation, bumps, discriminators, sizes and reserved bytes: addresses are taken to be injective in their seeds, and an account that exists cannot be created again.
- Status bytes: a status is an enumeration here; the source only ever stores bytes it can decode.
- Rent, lamports and the native side of closing an account: only the removal of the vault or task entry is modelled.
- User token accounts: all accounts of one user in one mint are one wallet that always exists; vaults and fee vaults exist only once created, by the program or by anyone.
- Minting and burning: balances are arbitrary at the start within a 64-bit supply; a mint of new tokens is a gift from a reserve wallet.
- The token program's internals beyond a bounded transfer with its two failures, and freezing of token accounts.
- Deliverable hashes are opaque values; log messages and error texts are not modelled.
- The submission deadline a task stores is kept in its record, and as in the source no instruction reads it, so an enrolled claim never expires.
- Transactions of several instructions: each instruction is one transaction.
- Upgrade authority, multisig administration, and everything off-chain.
- Aliasing of account objects: tasks and claims are entries of maps that handlers copy, change and write back, as the account framework does on success.
