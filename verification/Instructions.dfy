/**
 The transition system of the escrow program: its state, its steps, when a
 step is refused and with which error, and what a step that goes through does.

 A step's money is described once, as a Payment; the token moves follow from it.
 The sequenced, partially failing form of the instructions is in Program.dfy.
 */
module Instructions {
  import opened Prelude
  import opened Accounts
  import opened Tokens

  datatype State = State(
    config: Option<Config>,
    tasks: map<TaskId, Task>,
    claims: map<ClaimId, Claim>,
    ledger: Ledger,
    now: int)

  datatype Favor = Deliverer | Poster

  /**
   The seventeen instructions with their signers and arguments, then three
   steps of the environment: the clock advances, anyone creates a token
   account, anyone sends tokens anywhere.
   */
  datatype Step =
    | InitializeConfig(payer: Key, admin: Key, feeBps: u16, mint: Key)
    | UpdateAdmin(signer: Key, newAdmin: Key)
    | UpdateFee(signer: Key, newFeeBps: u16)
    | UpdateMint(signer: Key, newMint: Key)
    | InitializeTask(
        poster: Key, task: TaskId, bounty: u64, maxSlots: u16, claimDeadlineSecs: u32, deadline: i64)
    | CancelBeforeEnroll(poster: Key, task: TaskId)
    | CloseTask(caller: Key, task: TaskId)
    | AutoCancelTask(caller: Key, task: TaskId)
    | Enroll(claimer: Key, task: TaskId, claim: ClaimId)
    | Submit(claimer: Key, task: TaskId, claim: ClaimId, hash: Hash)
    | ApproveClaim(poster: Key, task: TaskId, claim: ClaimId, mint: Key)
    | RejectClaim(poster: Key, task: TaskId, claim: ClaimId)
    | AutoApprove(caller: Key, task: TaskId, claim: ClaimId, mint: Key)
    | OpenDispute(claimer: Key, task: TaskId, claim: ClaimId)
    | ResolveDispute(signer: Key, task: TaskId, claim: ClaimId, mint: Key, favor: Favor)
    | AutoResolveDispute(caller: Key, task: TaskId, claim: ClaimId, mint: Key)
    | WithdrawFees(signer: Key, dst: Account, amount: u64)
    | Tick(time: i64)
    | OpenAccount(account: Account)
    | GiveTokens(owner: Key, mint: Key, dst: Account, amount: u64)

  // ----- account constraints -----

  /** Some account the instruction names has not been created. */
  predicate AccountsMissing(s: State, st: Step) {
    match st
    case InitializeConfig(_, _, _, _) => false
    case UpdateAdmin(_, _) => s.config.None?
    case UpdateFee(_, _) => s.config.None?
    case UpdateMint(_, _) => s.config.None?
    case InitializeTask(_, _, _, _, _, _) => s.config.None?
    case CancelBeforeEnroll(_, t) => s.config.None? || t !in s.tasks || Vault(t, s.config.value.mint) !in s.ledger
    case CloseTask(_, t) => s.config.None? || t !in s.tasks || Vault(t, s.config.value.mint) !in s.ledger
    case AutoCancelTask(_, t) => s.config.None? || t !in s.tasks || Vault(t, s.config.value.mint) !in s.ledger
    case Enroll(_, t, _) => s.config.None? || t !in s.tasks
    case Submit(_, t, c, _) => t !in s.tasks || c !in s.claims
    case ApproveClaim(_, t, c, m) => PayoutAccountsMissing(s, t, c, m)
    case RejectClaim(_, t, c) =>
      s.config.None? || t !in s.tasks || c !in s.claims || Vault(t, s.config.value.mint) !in s.ledger
    case AutoApprove(_, t, c, m) => PayoutAccountsMissing(s, t, c, m)
    case OpenDispute(_, t, c) => t !in s.tasks || c !in s.claims
    case ResolveDispute(_, t, c, m, _) => PayoutAccountsMissing(s, t, c, m)
    case AutoResolveDispute(_, t, c, m) => PayoutAccountsMissing(s, t, c, m)
    case WithdrawFees(_, dst, _) =>
      s.config.None? || FeeVault(s.config.value.mint) !in s.ledger || !Exists(s.ledger, dst)
    case Tick(_) => false
    case OpenAccount(_) => false
    case GiveTokens(_, _, dst, _) => !Exists(s.ledger, dst)
  }

  predicate PayoutAccountsMissing(s: State, t: TaskId, c: ClaimId, mint: Key) {
    || s.config.None? || t !in s.tasks || c !in s.claims
    || Vault(t, mint) !in s.ledger || FeeVault(mint) !in s.ledger
  }

  function Require(ok: bool, e: Error): Option<Error> {
    if ok then None else Some(e)
  }

  /** What an instruction's account declarations check before its handler runs. */
  function Constraints(s: State, st: Step): Option<Error> {
    if AccountsMissing(s, st) then Some(AccountMissing)
    else match st
      case InitializeConfig(_, _, _, mint) => Require(s.config.None? && FeeVault(mint) !in s.ledger, AlreadyInUse)
      case UpdateAdmin(signer, _) => Require(s.config.value.admin == signer, Unauthorized)
      case UpdateFee(signer, _) => Require(s.config.value.admin == signer, Unauthorized)
      case UpdateMint(signer, _) => Require(s.config.value.admin == signer, Unauthorized)
      case InitializeTask(_, t, _, _, _, _) =>
        Require(t !in s.tasks && Vault(t, s.config.value.mint) !in s.ledger, AlreadyInUse)
      case CancelBeforeEnroll(poster, t) => Require(s.tasks[t].poster == poster, Unauthorized)
      case CloseTask(_, _) => None
      case AutoCancelTask(_, _) => None
      case Enroll(_, _, c) => Require(c !in s.claims, AlreadyInUse)
      case Submit(claimer, t, c, _) =>
        if s.claims[c].claimer != claimer then Some(Unauthorized) else Require(s.claims[c].task == t, TaskClaimMismatch)
      case ApproveClaim(poster, t, c, _) =>
        if s.tasks[t].poster != poster then Some(Unauthorized) else Require(s.claims[c].task == t, TaskClaimMismatch)
      case RejectClaim(poster, t, c) =>
        if s.tasks[t].poster != poster then Some(Unauthorized) else Require(s.claims[c].task == t, TaskClaimMismatch)
      case AutoApprove(_, t, c, _) => Require(s.claims[c].task == t, TaskClaimMismatch)
      case OpenDispute(claimer, t, c) =>
        if s.claims[c].claimer != claimer then Some(Unauthorized) else Require(s.claims[c].task == t, TaskClaimMismatch)
      case ResolveDispute(signer, t, c, _, _) =>
        if s.config.value.admin != signer then Some(Unauthorized) else Require(s.claims[c].task == t, TaskClaimMismatch)
      case AutoResolveDispute(_, t, c, _) => Require(s.claims[c].task == t, TaskClaimMismatch)
      case WithdrawFees(signer, dst, _) =>
        if s.config.value.admin != signer then Some(Unauthorized)
        else Require(dst.mint == s.config.value.mint, WrongMint)
      case Tick(_) => None
      case OpenAccount(_) => None
      case GiveTokens(_, mint, dst, _) => Require(dst.mint == mint, WrongMint)
  }

  // ----- handler guards -----

  /** The task deadline is set and has passed. */
  predicate PastDeadline(task: Task, now: int) {
    0 < task.deadline <= now
  }

  /** The gate of `close_task`, with its two saturating subtractions. */
  function ActiveSlots(task: Task): nat {
    SaturatingSub(SaturatingSub(task.slotsEnrolled, task.slotsApproved), task.slotsRefunded)
  }

  function WindowGuard(since: int, now: int, window: int): Option<Error> {
    Require(since > 0 && now - since >= window, AutoActionTooEarly)
  }

  /** The payout of one bounty: the split must succeed and the vault must cover it. */
  function PayoutGuard(s: State, t: TaskId, mint: Key): Option<Error>
    requires s.config.Some? && t in s.tasks
  {
    match ComputeFeeSplit(s.tasks[t].bounty, s.config.value.feeBps)
    case Err(e) => Some(e)
    case Ok(_) => RefundGuard(s, t, mint)
  }

  /** The vault must cover one bounty. */
  function RefundGuard(s: State, t: TaskId, mint: Key): Option<Error>
    requires t in s.tasks
  {
    Require(s.tasks[t].bounty <= Bal(s.ledger, Vault(t, mint)), InsufficientFunds)
  }

  /** The third rejection cancels a claim. */
  predicate FinalStrike(cl: Claim) {
    cl.rejections + 1 >= MAX_REJECTIONS
  }

  /** What a handler checks once the account constraints hold, in its order. */
  function Guards(s: State, st: Step): Option<Error>
    requires Constraints(s, st).None?
  {
    match st
    case InitializeConfig(_, _, feeBps, _) => Require(feeBps <= FEE_BPS_CAP, FeeTooHigh)
    case UpdateAdmin(_, _) => None
    case UpdateFee(_, newFeeBps) => Require(newFeeBps <= FEE_BPS_CAP, FeeTooHigh)
    case UpdateMint(_, _) => None
    case InitializeTask(poster, t, bounty, maxSlots, _, _) =>
      if bounty == 0 then Some(ZeroBounty)
      else if !(1 <= maxSlots <= MAX_SLOTS_LIMIT) then Some(InvalidSlots)
      else if bounty * maxSlots > U64_MAX then Some(MathOverflow)
      else Require(bounty * maxSlots <= Bal(s.ledger, Wallet(poster, s.config.value.mint)), InsufficientFunds)
    case CancelBeforeEnroll(_, t) =>
      if s.tasks[t].slotsEnrolled != 0 then Some(TaskHasEnrollments)
      else Require(s.tasks[t].status.Open?, InvalidStateTransition)
    case CloseTask(caller, t) =>
      if caller != s.tasks[t].poster && !PastDeadline(s.tasks[t], s.now) then Some(DeadlineNotReached)
      else if !s.tasks[t].status.Open? then Some(InvalidStateTransition)
      else Require(ActiveSlots(s.tasks[t]) == 0, ClaimsNotResolved)
    case AutoCancelTask(_, t) =>
      if s.tasks[t].slotsEnrolled != 0 then Some(TaskHasEnrollments)
      else if !s.tasks[t].status.Open? then Some(InvalidStateTransition)
      else Require(PastDeadline(s.tasks[t], s.now), DeadlineNotReached)
    case Enroll(claimer, t, _) =>
      if !s.tasks[t].status.Open? then Some(InvalidStateTransition)
      else if s.tasks[t].slotsEnrolled >= s.tasks[t].maxSlots then Some(SlotsFull)
      else Require(claimer != s.tasks[t].poster, SelfEnrollment)
    case Submit(_, _, c, _) =>
      Require(s.claims[c].status.Enrolled? || s.claims[c].status.Rejected?, InvalidStateTransition)
    case ApproveClaim(_, t, c, mint) =>
      if mint != s.config.value.mint then Some(InvalidMint)
      else if !s.tasks[t].status.Open? || !s.claims[c].status.Submitted? then Some(InvalidStateTransition)
      else PayoutGuard(s, t, mint)
    case RejectClaim(_, t, c) =>
      if !s.tasks[t].status.Open? || !s.claims[c].status.Submitted? then Some(InvalidStateTransition)
      else if FinalStrike(s.claims[c]) then RefundGuard(s, t, s.config.value.mint)
      else None
    case AutoApprove(_, t, c, mint) =>
      if mint != s.config.value.mint then Some(InvalidMint)
      else if !s.tasks[t].status.Open? || !s.claims[c].status.Submitted? then Some(InvalidStateTransition)
      else (match WindowGuard(s.claims[c].submittedAt, s.now, AUTO_APPROVE_WINDOW_SECS)
            case Some(e) => Some(e)
            case None => PayoutGuard(s, t, mint))
    case OpenDispute(_, _, c) => Require(s.claims[c].status.Rejected?, InvalidStateTransition)
    case ResolveDispute(_, t, c, mint, favor) =>
      if mint != s.config.value.mint then Some(InvalidMint)
      else if !s.claims[c].status.Disputed? then Some(InvalidStateTransition)
      else if favor.Deliverer? then PayoutGuard(s, t, mint)
      else RefundGuard(s, t, mint)
    case AutoResolveDispute(_, t, c, mint) =>
      if mint != s.config.value.mint then Some(InvalidMint)
      else if !s.claims[c].status.Disputed? then Some(InvalidStateTransition)
      else (match WindowGuard(s.claims[c].disputedAt, s.now, AUTO_DISPUTE_WINDOW_SECS)
            case Some(e) => Some(e)
            case None => PayoutGuard(s, t, mint))
    case WithdrawFees(_, _, amount) =>
      Require(amount <= Bal(s.ledger, FeeVault(s.config.value.mint)), InsufficientFeeVault)
    case Tick(time) => Require(s.now <= time, ClockRunsForward)
    case OpenAccount(_) => None
    case GiveTokens(owner, mint, _, amount) => Require(amount <= Bal(s.ledger, Wallet(owner, mint)), InsufficientFunds)
  }

  function Refuse(s: State, st: Step): Option<Error> {
    match Constraints(s, st)
    case Some(e) => Some(e)
    case None => Guards(s, st)
  }

  // ----- the money of a step -----

  datatype Payment =
    | NoPayment
    | Deposited(task: TaskId, mint: Key, poster: Key, amount: nat)
    | PaidOut(task: TaskId, claim: ClaimId, mint: Key, claimer: Key, net: nat, fee: nat)
    | Returned(task: TaskId, claim: ClaimId, mint: Key, poster: Key, amount: nat)
    | Swept(task: TaskId, mint: Key, poster: Key, amount: nat)
    | Withdrawn(mint: Key, dst: Account, amount: nat)
    | Given(mint: Key, owner: Key, dst: Account, amount: nat)

  function Payout(s: State, t: TaskId, c: ClaimId): Payment
    requires s.config.Some? && t in s.tasks && c in s.claims
    requires ComputeFeeSplit(s.tasks[t].bounty, s.config.value.feeBps).Ok?
  {
    var split := ComputeFeeSplit(s.tasks[t].bounty, s.config.value.feeBps).value;
    PaidOut(t, c, s.config.value.mint, s.claims[c].claimer, split.net, split.fee)
  }

  function Refund(s: State, t: TaskId, c: ClaimId): Payment
    requires s.config.Some? && t in s.tasks
  {
    Returned(t, c, s.config.value.mint, s.tasks[t].poster, s.tasks[t].bounty)
  }

  function Sweep(s: State, t: TaskId): Payment
    requires s.config.Some? && t in s.tasks
  {
    var mint := s.config.value.mint;
    Swept(t, mint, s.tasks[t].poster, Bal(s.ledger, Vault(t, mint)))
  }

  /** The one payment a successful step makes. */
  function PaymentOf(s: State, st: Step): Payment
    requires Refuse(s, st).None?
  {
    match st
    case InitializeTask(poster, t, bounty, maxSlots, _, _) =>
      Deposited(t, s.config.value.mint, poster, bounty * maxSlots)
    case CancelBeforeEnroll(_, t) => Sweep(s, t)
    case CloseTask(_, t) => Sweep(s, t)
    case AutoCancelTask(_, t) => Sweep(s, t)
    case ApproveClaim(_, t, c, _) => Payout(s, t, c)
    case RejectClaim(_, t, c) => if FinalStrike(s.claims[c]) then Refund(s, t, c) else NoPayment
    case AutoApprove(_, t, c, _) => Payout(s, t, c)
    case ResolveDispute(_, t, c, _, favor) => if favor.Deliverer? then Payout(s, t, c) else Refund(s, t, c)
    case AutoResolveDispute(_, t, c, _) => Payout(s, t, c)
    case WithdrawFees(_, dst, amount) => Withdrawn(s.config.value.mint, dst, amount)
    case GiveTokens(owner, mint, dst, amount) => Given(mint, owner, dst, amount)
    case _ => NoPayment
  }

  /** The account a payment comes out of, and how much leaves it. */
  predicate Covered(l: Ledger, p: Payment) {
    match p
    case NoPayment => true
    case Deposited(_, m, poster, n) => n <= Bal(l, Wallet(poster, m))
    case PaidOut(t, _, m, _, net, fee) => net + fee <= Bal(l, Vault(t, m))
    case Returned(t, _, m, _, n) => n <= Bal(l, Vault(t, m))
    case Swept(t, m, _, n) => n <= Bal(l, Vault(t, m))
    case Withdrawn(m, _, n) => n <= Bal(l, FeeVault(m))
    case Given(m, owner, _, n) => n <= Bal(l, Wallet(owner, m))
  }

  function Settle(l: Ledger, p: Payment): Ledger
    requires Covered(l, p)
  {
    match p
    case NoPayment => l
    case Deposited(t, m, poster, n) => Move(l, Wallet(poster, m), Vault(t, m), n)
    case PaidOut(t, _, m, claimer, net, fee) =>
      Move(Move(l, Vault(t, m), Wallet(claimer, m), net), Vault(t, m), FeeVault(m), fee)
    case Returned(t, _, m, poster, n) => Move(l, Vault(t, m), Wallet(poster, m), n)
    case Swept(t, m, poster, n) => Move(l, Vault(t, m), Wallet(poster, m), n)
    case Withdrawn(m, dst, n) => Move(l, FeeVault(m), dst, n)
    case Given(m, owner, dst, n) => Move(l, Wallet(owner, m), dst, n)
  }

  // ----- effects -----

  function NextConfig(s: State, st: Step): Option<Config>
    requires Refuse(s, st).None?
  {
    match st
    case InitializeConfig(_, admin, feeBps, mint) => Some(Config(admin, mint, feeBps))
    case UpdateAdmin(_, newAdmin) => Some(s.config.value.(admin := newAdmin))
    case UpdateFee(_, newFeeBps) => Some(s.config.value.(feeBps := newFeeBps))
    case UpdateMint(_, newMint) => Some(s.config.value.(mint := newMint))
    case _ => s.config
  }

  function EnrolledSlot(task: Task): Task { task.(slotsEnrolled := task.slotsEnrolled + 1) }
  function PaidSlot(task: Task): Task { task.(slotsApproved := task.slotsApproved + 1) }
  function RefundedSlot(task: Task): Task { task.(slotsRefunded := task.slotsRefunded + 1) }

  function NextTasks(s: State, st: Step): map<TaskId, Task>
    requires Refuse(s, st).None?
  {
    match st
    case InitializeTask(poster, t, bounty, maxSlots, claimDeadlineSecs, deadline) =>
      s.tasks[t := Task(poster, bounty, maxSlots, 0, 0, 0, Open, deadline, claimDeadlineSecs)]
    case CancelBeforeEnroll(_, t) => s.tasks - {t}
    case CloseTask(_, t) => s.tasks[t := s.tasks[t].(status := Closed)]
    case AutoCancelTask(_, t) => s.tasks[t := s.tasks[t].(status := Closed)]
    case Enroll(_, t, _) => s.tasks[t := EnrolledSlot(s.tasks[t])]
    case ApproveClaim(_, t, _, _) => s.tasks[t := PaidSlot(s.tasks[t])]
    case RejectClaim(_, t, c) =>
      if FinalStrike(s.claims[c]) then s.tasks[t := RefundedSlot(s.tasks[t])] else s.tasks
    case AutoApprove(_, t, _, _) => s.tasks[t := PaidSlot(s.tasks[t])]
    case ResolveDispute(_, t, _, _, favor) =>
      s.tasks[t := if favor.Deliverer? then PaidSlot(s.tasks[t]) else RefundedSlot(s.tasks[t])]
    case AutoResolveDispute(_, t, _, _) => s.tasks[t := PaidSlot(s.tasks[t])]
    case _ => s.tasks
  }

  /** The claim a step writes, if any. */
  function ClaimOf(st: Step): Option<ClaimId> {
    match st
    case Enroll(_, _, c) => Some(c)
    case Submit(_, _, c, _) => Some(c)
    case ApproveClaim(_, _, c, _) => Some(c)
    case RejectClaim(_, _, c) => Some(c)
    case AutoApprove(_, _, c, _) => Some(c)
    case OpenDispute(_, _, c) => Some(c)
    case ResolveDispute(_, _, c, _, _) => Some(c)
    case AutoResolveDispute(_, _, c, _) => Some(c)
    case _ => None
  }

  /** The claim state machine: the record a step writes. */
  function NextClaim(s: State, st: Step): Claim
    requires Refuse(s, st).None? && ClaimOf(st).Some?
  {
    match st
    case Enroll(claimer, t, _) => Claim(t, claimer, Enrolled, s.now, 0, 0, 0, 0)
    case Submit(_, _, c, hash) => s.claims[c].(status := Submitted, submittedAt := s.now, hash := hash)
    case ApproveClaim(_, _, c, _) => s.claims[c].(status := Approved)
    case RejectClaim(_, _, c) =>
      s.claims[c].(rejections := s.claims[c].rejections + 1,
                   status := if FinalStrike(s.claims[c]) then Cancelled else Rejected)
    case AutoApprove(_, _, c, _) => s.claims[c].(status := Approved)
    case OpenDispute(_, _, c) => s.claims[c].(status := Disputed, disputedAt := s.now)
    case ResolveDispute(_, _, c, _, favor) =>
      s.claims[c].(status := if favor.Deliverer? then ResolvedDeliverer else ResolvedPoster)
    case AutoResolveDispute(_, _, c, _) => s.claims[c].(status := ResolvedDeliverer)
  }

  function NextClaims(s: State, st: Step): map<ClaimId, Claim>
    requires Refuse(s, st).None?
  {
    match ClaimOf(st)
    case None => s.claims
    case Some(c) => s.claims[c := NextClaim(s, st)]
  }

  function NextLedger(s: State, st: Step): Ledger
    requires Refuse(s, st).None?
  {
    match st
    case InitializeConfig(_, _, _, mint) => s.ledger[FeeVault(mint) := 0]
    case InitializeTask(_, t, _, _, _, _) =>
      Settle(s.ledger[Vault(t, s.config.value.mint) := 0], PaymentOf(s, st))
    case CancelBeforeEnroll(_, t) => Settle(s.ledger, Sweep(s, t)) - {Vault(t, s.config.value.mint)}
    case CloseTask(_, t) => Settle(s.ledger, Sweep(s, t)) - {Vault(t, s.config.value.mint)}
    case AutoCancelTask(_, t) => Settle(s.ledger, Sweep(s, t)) - {Vault(t, s.config.value.mint)}
    case OpenAccount(a) => if Exists(s.ledger, a) then s.ledger else s.ledger[a := 0]
    case _ => Settle(s.ledger, PaymentOf(s, st))
  }

  function Effect(s: State, st: Step): State
    requires Refuse(s, st).None?
  {
    State(NextConfig(s, st), NextTasks(s, st), NextClaims(s, st), NextLedger(s, st),
          if st.Tick? then st.time else s.now)
  }
}
