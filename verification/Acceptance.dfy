/**
 When each instruction goes through, in every reachable world, and what every
 error means. The conditions speak of accounts, signers, sets of claims, times in
 seconds and balances; the counters of a task record do not appear in them. What
 needs no history is said of every state.
 */
module Acceptance {
  import opened Prelude
  import opened Accounts
  import opened Tokens
  import opened Slots
  import opened Instructions
  import opened Invariant
  import opened Bookkeeping
  import opened Runs

  // ----- what every reachable state gives the conditions -----

  ghost predicate TaskFacts(s: State, t: TaskId) {
    t in s.tasks ==>
      && s.config.Some? && s.tasks[t].slotsEnrolled == |Members(s.claims, t)|
      && (ActiveSlots(s.tasks[t]) == 0 <==> AllTerminal(s, t))
      && ComputeFeeSplit(s.tasks[t].bounty, s.config.value.feeBps).Ok?
  }

  predicate ClaimFacts(s: State, c: ClaimId) {
    c in s.claims ==>
      var cl := s.claims[c];
      && cl.task in s.tasks && s.config.Some?
      && (BoxOf(cl.status).Active? ==> s.tasks[cl.task].status.Open?)
      && (cl.status.Submitted? ==> 0 < cl.submittedAt && cl.rejections <= 2)
      && (cl.status.Disputed? ==> 0 < cl.disputedAt)
  }

  lemma TaskFactsAt(ws: seq<World>, sts: seq<Step>, n: nat, t: TaskId)
    requires IsHistory(ws, sts) && n < |ws|
    ensures TaskFacts(ws[n].s, t)
  {
    if t in ws[n].s.tasks {
      CountersAreExact(ws, sts, n, t);
      CloseGate(ws, sts, n, t);
      HistoryIsSound(ws, sts, n);
      SplitAddsUp(ws[n].s, t);
    }
  }

  lemma ClaimFactsAt(ws: seq<World>, sts: seq<Step>, n: nat, c: ClaimId)
    requires IsHistory(ws, sts) && n < |ws|
    ensures ClaimFacts(ws[n].s, c)
  {
    HistoryIsSound(ws, sts, n);
    if c in ws[n].s.claims {
      assert ClaimShape(ws[n].s.claims[c], ws[n].s.now);
      if BoxOf(ws[n].s.claims[c].status).Active? {
        ActiveClaimLeavesRoom(ws[n].s, c);
      }
    }
  }

  // ----- terms of the conditions -----

  predicate IsAdmin(s: State, k: Key) {
    s.config.Some? && s.config.value.admin == k
  }

  predicate IsPoster(s: State, t: TaskId, k: Key) {
    t in s.tasks && s.tasks[t].poster == k
  }

  predicate IsOpen(s: State, t: TaskId) {
    t in s.tasks && s.tasks[t].status.Open?
  }

  /** The task's vault in the pinned mint exists. */
  predicate HasVault(s: State, t: TaskId) {
    s.config.Some? && Vault(t, s.config.value.mint) in s.ledger
  }

  /** The claim exists, belongs to the task, and is in this status. */
  predicate ClaimIs(s: State, t: TaskId, c: ClaimId, status: ClaimStatus) {
    c in s.claims && s.claims[c].task == t && s.claims[c].status == status
  }

  /** The task's vault in the pinned mint holds at least one bounty. */
  predicate Covers(s: State, t: TaskId) {
    s.config.Some? && t in s.tasks && s.tasks[t].bounty <= Bal(s.ledger, Vault(t, s.config.value.mint))
  }

  /** A payout can be made: the mint named is the pinned one, both vaults exist, and one bounty is there. */
  predicate CanPay(s: State, t: TaskId, mint: Key) {
    s.config.Some? && mint == s.config.value.mint && HasVault(s, t) && FeeVault(mint) in s.ledger && Covers(s, t)
  }

  // ----- configuration -----

  /** The program is configured once, within the fee cap of 5%. */
  lemma InitializeConfigIff(s: State, payer: Key, admin: Key, feeBps: u16, mint: Key)
    ensures Refuse(s, InitializeConfig(payer, admin, feeBps, mint)).None? <==>
            s.config.None? && FeeVault(mint) !in s.ledger && feeBps <= 500
  {
  }

  /** The admin can always hand over, re-pin the mint, and set any fee up to 5%; nobody else can. */
  lemma AdminUpdatesIff(s: State, signer: Key, newAdmin: Key, newFeeBps: u16, newMint: Key)
    ensures Refuse(s, UpdateAdmin(signer, newAdmin)).None? <==> IsAdmin(s, signer)
    ensures Refuse(s, UpdateMint(signer, newMint)).None? <==> IsAdmin(s, signer)
    ensures Refuse(s, UpdateFee(signer, newFeeBps)).None? <==> IsAdmin(s, signer) && newFeeBps <= 500
  {
  }

  /** A withdrawal goes through for the admin, up to what the fee vault of the pinned mint holds. */
  lemma WithdrawFeesIff(s: State, signer: Key, dst: Account, amount: u64)
    ensures Refuse(s, WithdrawFees(signer, dst, amount)).None? <==>
            && IsAdmin(s, signer)
            && var mint := s.config.value.mint;
               && FeeVault(mint) in s.ledger && Exists(s.ledger, dst) && dst.mint == mint
               && amount <= Bal(s.ledger, FeeVault(mint))
  {
  }

  // ----- tasks -----

  /**
   A task can be initialized by whoever holds the whole deposit. The checked
   product never decides: a deposit that anyone can hold fits 64 bits.
   */
  lemma InitializeTaskIff(
      ws: seq<World>, sts: seq<Step>, n: nat,
      poster: Key, t: TaskId, bounty: u64, maxSlots: u16, claimDeadlineSecs: u32, deadline: i64)
    requires IsHistory(ws, sts) && n < |ws|
    ensures Refuse(ws[n].s, InitializeTask(poster, t, bounty, maxSlots, claimDeadlineSecs, deadline)).None? <==>
            && t !in ws[n].s.tasks && ws[n].s.config.Some? && !HasVault(ws[n].s, t)
            && 0 < bounty && 1 <= maxSlots <= 100
            && bounty * maxSlots <= Bal(ws[n].s.ledger, Wallet(poster, ws[n].s.config.value.mint))
  {
    HistoryIsSound(ws, sts, n);
    if ws[n].s.config.Some? {
      BalanceFits(ws[n].s, Wallet(poster, ws[n].s.config.value.mint));
    }
  }

  lemma BalanceFits(s: State, a: Account)
    requires Inv(s)
    ensures Bal(s.ledger, a) <= U64_MAX
  {
    SupplyWrite(s.ledger, a, 0, a.mint);
  }

  /** The poster can cancel exactly while the task is open and nobody has enrolled. */
  lemma CancelBeforeEnrollIff(ws: seq<World>, sts: seq<Step>, n: nat, poster: Key, t: TaskId)
    requires IsHistory(ws, sts) && n < |ws|
    ensures Refuse(ws[n].s, CancelBeforeEnroll(poster, t)).None? <==>
            && IsPoster(ws[n].s, t, poster) && IsOpen(ws[n].s, t) && HasVault(ws[n].s, t)
            && Members(ws[n].s.claims, t) == {}
  {
    TaskFactsAt(ws, sts, n, t);
  }

  /**
   A task can be closed exactly while it is open and all of its claims are
   terminal: by its poster at any time and with any deadline, and by anyone else
   once a deadline that is set has passed.
   */
  lemma CloseTaskIff(ws: seq<World>, sts: seq<Step>, n: nat, caller: Key, t: TaskId)
    requires IsHistory(ws, sts) && n < |ws|
    ensures Refuse(ws[n].s, CloseTask(caller, t)).None? <==>
            && IsOpen(ws[n].s, t) && HasVault(ws[n].s, t) && AllTerminal(ws[n].s, t)
            && (IsPoster(ws[n].s, t, caller) || 0 < ws[n].s.tasks[t].deadline <= ws[n].s.now)
  {
    TaskFactsAt(ws, sts, n, t);
  }

  /** Anyone can cancel an open task nobody enrolled in once its deadline has passed. */
  lemma AutoCancelTaskIff(ws: seq<World>, sts: seq<Step>, n: nat, caller: Key, t: TaskId)
    requires IsHistory(ws, sts) && n < |ws|
    ensures Refuse(ws[n].s, AutoCancelTask(caller, t)).None? <==>
            && IsOpen(ws[n].s, t) && HasVault(ws[n].s, t) && Members(ws[n].s.claims, t) == {}
            && 0 < ws[n].s.tasks[t].deadline <= ws[n].s.now
  {
    TaskFactsAt(ws, sts, n, t);
  }

  // ----- claims -----

  /** Anyone but the poster can fill a slot of an open task as long as one is free. */
  lemma EnrollIff(ws: seq<World>, sts: seq<Step>, n: nat, claimer: Key, t: TaskId, c: ClaimId)
    requires IsHistory(ws, sts) && n < |ws|
    ensures Refuse(ws[n].s, Enroll(claimer, t, c)).None? <==>
            && IsOpen(ws[n].s, t) && !IsPoster(ws[n].s, t, claimer) && c !in ws[n].s.claims
            && |Members(ws[n].s.claims, t)| < ws[n].s.tasks[t].maxSlots
  {
    TaskFactsAt(ws, sts, n, t);
  }

  /** A claimer can deliver after enrolling and after every rejection that does not cancel. */
  lemma SubmitIff(ws: seq<World>, sts: seq<Step>, n: nat, claimer: Key, t: TaskId, c: ClaimId, hash: Hash)
    requires IsHistory(ws, sts) && n < |ws|
    ensures Refuse(ws[n].s, Submit(claimer, t, c, hash)).None? <==>
            && (ClaimIs(ws[n].s, t, c, Enrolled) || ClaimIs(ws[n].s, t, c, Rejected))
            && ws[n].s.claims[c].claimer == claimer
  {
    ClaimFactsAt(ws, sts, n, c);
  }

  /** A poster can approve every submitted claim, whatever happened to it before, as long as it can be paid. */
  lemma ApproveClaimIff(ws: seq<World>, sts: seq<Step>, n: nat, poster: Key, t: TaskId, c: ClaimId, mint: Key)
    requires IsHistory(ws, sts) && n < |ws|
    ensures Refuse(ws[n].s, ApproveClaim(poster, t, c, mint)).None? <==>
            ClaimIs(ws[n].s, t, c, Submitted) && IsPoster(ws[n].s, t, poster) && CanPay(ws[n].s, t, mint)
  {
    TaskFactsAt(ws, sts, n, t);
    ClaimFactsAt(ws, sts, n, c);
  }

  /** A poster can reject every submitted claim; the third time one bounty must be there to return. */
  lemma RejectClaimIff(ws: seq<World>, sts: seq<Step>, n: nat, poster: Key, t: TaskId, c: ClaimId)
    requires IsHistory(ws, sts) && n < |ws|
    ensures Refuse(ws[n].s, RejectClaim(poster, t, c)).None? <==>
            && ClaimIs(ws[n].s, t, c, Submitted) && IsPoster(ws[n].s, t, poster) && HasVault(ws[n].s, t)
            && (ws[n].s.claims[c].rejections == 2 ==> Covers(ws[n].s, t))
  {
    ClaimFactsAt(ws, sts, n, c);
  }

  /** Anyone can have a claim paid that was submitted at least 14 days ago, and not a second earlier. */
  lemma AutoApproveIff(ws: seq<World>, sts: seq<Step>, n: nat, caller: Key, t: TaskId, c: ClaimId, mint: Key)
    requires IsHistory(ws, sts) && n < |ws|
    ensures Refuse(ws[n].s, AutoApprove(caller, t, c, mint)).None? <==>
            && ClaimIs(ws[n].s, t, c, Submitted) && CanPay(ws[n].s, t, mint)
            && ws[n].s.claims[c].submittedAt + 1_209_600 <= ws[n].s.now
  {
    TaskFactsAt(ws, sts, n, t);
    ClaimFactsAt(ws, sts, n, c);
  }

  // ----- disputes -----

  /** A claimer can dispute exactly a claim that stands rejected. */
  lemma OpenDisputeIff(ws: seq<World>, sts: seq<Step>, n: nat, claimer: Key, t: TaskId, c: ClaimId)
    requires IsHistory(ws, sts) && n < |ws|
    ensures Refuse(ws[n].s, OpenDispute(claimer, t, c)).None? <==>
            ClaimIs(ws[n].s, t, c, Rejected) && ws[n].s.claims[c].claimer == claimer
  {
    ClaimFactsAt(ws, sts, n, c);
  }

  /** After the first and after the second rejection the claimer can at once dispute or deliver again. */
  lemma RejectedClaimerCanAct(ws: seq<World>, sts: seq<Step>, i: nat, hash: Hash)
    requires IsHistory(ws, sts) && i < |sts| && sts[i].RejectClaim?
    ensures sts[i].claim in ws[i].s.claims
    ensures var t, c, cl := sts[i].task, sts[i].claim, ws[i].s.claims[sts[i].claim];
            && cl.rejections <= 2
            && (Refuse(ws[i + 1].s, OpenDispute(cl.claimer, t, c)).None? <==> cl.rejections < 2)
            && (Refuse(ws[i + 1].s, Submit(cl.claimer, t, c, hash)).None? <==> cl.rejections < 2)
  {
    assert Follows(ws, sts, i);
    var t, c := sts[i].task, sts[i].claim;
    ClaimFactsAt(ws, sts, i, c);
    OpenDisputeIff(ws, sts, i + 1, ws[i].s.claims[c].claimer, t, c);
    SubmitIff(ws, sts, i + 1, ws[i].s.claims[c].claimer, t, c, hash);
    RejectionWrites(ws[i].s, sts[i]);
  }

  lemma RejectionWrites(s: State, st: Step)
    requires Refuse(s, st).None? && st.RejectClaim? && s.claims[st.claim].rejections <= 2
    ensures var cl := s.claims[st.claim];
            ClaimIs(Effect(s, st), st.task, st.claim, if cl.rejections == 2 then Cancelled else Rejected)
            && Effect(s, st).claims[st.claim].claimer == cl.claimer
  {
  }

  /** The admin can rule on every disputed claim, in either favor, as long as one bounty is there. */
  lemma ResolveDisputeIff(
      ws: seq<World>, sts: seq<Step>, n: nat, signer: Key, t: TaskId, c: ClaimId, mint: Key, favor: Favor)
    requires IsHistory(ws, sts) && n < |ws|
    ensures Refuse(ws[n].s, ResolveDispute(signer, t, c, mint, favor)).None? <==>
            ClaimIs(ws[n].s, t, c, Disputed) && IsAdmin(ws[n].s, signer) && CanPay(ws[n].s, t, mint)
  {
    TaskFactsAt(ws, sts, n, t);
    ClaimFactsAt(ws, sts, n, c);
  }

  /** Anyone can have a claim paid that was disputed at least 14 days ago, and not a second earlier. */
  lemma AutoResolveDisputeIff(ws: seq<World>, sts: seq<Step>, n: nat, caller: Key, t: TaskId, c: ClaimId, mint: Key)
    requires IsHistory(ws, sts) && n < |ws|
    ensures Refuse(ws[n].s, AutoResolveDispute(caller, t, c, mint)).None? <==>
            && ClaimIs(ws[n].s, t, c, Disputed) && CanPay(ws[n].s, t, mint)
            && ws[n].s.claims[c].disputedAt + 1_209_600 <= ws[n].s.now
  {
    TaskFactsAt(ws, sts, n, t);
    ClaimFactsAt(ws, sts, n, c);
  }

  /**
   While the pinned mint is the one a task was funded in, an unsettled claim of
   it can be paid and refunded: its vault exists and covers it, and only the fee
   vault of the mint may still have to be created, which anyone can do.
   */
  lemma FundedClaimCanBePaid(ws: seq<World>, sts: seq<Step>, n: nat, c: ClaimId)
    requires IsHistory(ws, sts) && n < |ws| && c in ws[n].s.claims && !IsTerminal(ws[n].s.claims[c].status)
    requires ws[n].s.claims[c].task in ws[n].books && ws[n].s.config.Some?
    requires ws[n].books[ws[n].s.claims[c].task].mint == ws[n].s.config.value.mint
    ensures var s, t, mint := ws[n].s, ws[n].s.claims[c].task, ws[n].s.config.value.mint;
            && IsOpen(s, t) && HasVault(s, t) && Covers(s, t)
            && (CanPay(s, t, mint) <==> FeeVault(mint) in s.ledger)
  {
    HistoryIsSound(ws, sts, n);
    ActiveClaimLeavesRoom(ws[n].s, c);
    ActiveClaimIsCovered(ws[n], c);
    FundingFloor(ws, sts, n, ws[n].s.claims[c].task);
  }

  /** The clock only runs forward; anyone can create an account; anyone can send what they hold. */
  lemma EnvironmentIff(s: State, time: i64, owner: Key, mint: Key, dst: Account, amount: u64)
    ensures Refuse(s, Tick(time)).None? <==> s.now <= time
    ensures Refuse(s, OpenAccount(dst)).None?
    ensures Refuse(s, GiveTokens(owner, mint, dst, amount)).None? <==>
            Exists(s.ledger, dst) && dst.mint == mint && amount <= Bal(s.ledger, Wallet(owner, mint))
  {
  }

  // ----- what an error means -----

  /** The claim a step names and expects to exist. */
  predicate NamesClaim(st: Step) {
    ClaimOf(st).Some? && !st.Enroll?
  }

  /** The instructions that pay out of a task's vault in a mint they name. */
  predicate NamesMint(st: Step) {
    st.ApproveClaim? || st.AutoApprove? || st.ResolveDispute? || st.AutoResolveDispute?
  }

  /** The instructions that do not look at the configuration. */
  predicate NeedsNoConfig(st: Step) {
    || st.InitializeConfig? || st.Submit? || st.OpenDispute?
    || st.Tick? || st.OpenAccount? || st.GiveTokens?
  }

  /** The token accounts a step names and expects to exist are there. */
  predicate TokenAccountsThere(s: State, st: Step)
    requires !NeedsNoConfig(st) ==> s.config.Some?
  {
    && (NamesMint(st) ==> Vault(st.task, st.mint) in s.ledger && FeeVault(st.mint) in s.ledger)
    && (st.CancelBeforeEnroll? || st.CloseTask? || st.AutoCancelTask? || st.RejectClaim? ==> HasVault(s, st.task))
    && (st.WithdrawFees? ==> FeeVault(s.config.value.mint) in s.ledger && Exists(s.ledger, st.dst))
    && (st.GiveTokens? ==> Exists(s.ledger, st.dst))
  }

  /** Every account the step names and expects to exist is there. */
  predicate AllThere(s: State, st: Step) {
    && (NeedsNoConfig(st) || s.config.Some?)
    && (TaskOf(st).Some? && !st.InitializeTask? ==> st.task in s.tasks)
    && (NamesClaim(st) ==> st.claim in s.claims)
    && TokenAccountsThere(s, st)
  }

  /** An account the step would create is there already. */
  predicate TakenAlready(s: State, st: Step)
    requires AllThere(s, st)
  {
    || (st.InitializeConfig? && (s.config.Some? || FeeVault(st.mint) in s.ledger))
    || (st.InitializeTask? && (st.task in s.tasks || HasVault(s, st.task)))
    || (st.Enroll? && st.claim in s.claims)
  }

  /** The step is signed by the one person who may sign it, if it takes one. */
  predicate SignedRight(s: State, st: Step)
    requires AllThere(s, st)
  {
    match st
    case UpdateAdmin(signer, _) => IsAdmin(s, signer)
    case UpdateFee(signer, _) => IsAdmin(s, signer)
    case UpdateMint(signer, _) => IsAdmin(s, signer)
    case ResolveDispute(signer, _, _, _, _) => IsAdmin(s, signer)
    case WithdrawFees(signer, _, _) => IsAdmin(s, signer)
    case CancelBeforeEnroll(poster, t) => IsPoster(s, t, poster)
    case ApproveClaim(poster, t, _, _) => IsPoster(s, t, poster)
    case RejectClaim(poster, t, _) => IsPoster(s, t, poster)
    case Submit(claimer, _, c, _) => s.claims[c].claimer == claimer
    case OpenDispute(claimer, _, c) => s.claims[c].claimer == claimer
    case _ => true
  }

  /** The claim named belongs to another task. */
  predicate Mismatched(s: State, st: Step)
    requires AllThere(s, st)
  {
    NamesClaim(st) && s.claims[st.claim].task != st.task
  }

  /** Tokens would go to an account of another mint. */
  predicate MintsDiffer(s: State, st: Step)
    requires AllThere(s, st)
  {
    || (st.WithdrawFees? && st.dst.mint != s.config.value.mint)
    || (st.GiveTokens? && st.dst.mint != st.mint)
  }

  /** Accounts, signer, claim and mints are in order; what is left are the instruction's own reasons. */
  predicate Admitted(s: State, st: Step) {
    && AllThere(s, st) && !TakenAlready(s, st) && SignedRight(s, st)
    && !Mismatched(s, st) && !MintsDiffer(s, st)
  }

  predicate PaysInPinnedMint(s: State, st: Step)
    requires NamesMint(st) ==> s.config.Some?
  {
    NamesMint(st) ==> st.mint == s.config.value.mint
  }

  /** The claim is not in the status the instruction acts on. */
  predicate WrongStatus(s: State, st: Step)
    requires NamesClaim(st) && st.claim in s.claims
  {
    var status := s.claims[st.claim].status;
    match st
    case Submit(_, _, _, _) => !status.Enrolled? && !status.Rejected?
    case OpenDispute(_, _, _) => !status.Rejected?
    case ResolveDispute(_, _, _, _, _) => !status.Disputed?
    case AutoResolveDispute(_, _, _, _) => !status.Disputed?
    case _ => !status.Submitted?
  }

  /** The 14 days are not over. */
  predicate StillWaiting(s: State, st: Step)
    requires NamesClaim(st) && st.claim in s.claims
  {
    || (st.AutoApprove? && s.now < s.claims[st.claim].submittedAt + 1_209_600)
    || (st.AutoResolveDispute? && s.now < s.claims[st.claim].disputedAt + 1_209_600)
  }

  /** The caller may not close the task now. */
  predicate TooEarlyToClose(s: State, st: Step)
    requires st.CloseTask? && st.task in s.tasks
  {
    !IsPoster(s, st.task, st.caller) && !(0 < s.tasks[st.task].deadline <= s.now)
  }

  /** The instruction pays or returns a bounty. */
  predicate TakesBounty(s: State, st: Step)
    requires NamesClaim(st) && st.claim in s.claims
  {
    NamesMint(st) || (st.RejectClaim? && s.claims[st.claim].rejections == 2)
  }

  /**
   What it means that an instruction reports an error. Reasons checked earlier are
   excluded, so no two errors can be meant.
   */
  ghost predicate Means(s: State, st: Step, e: Error) {
    match e
    case AccountMissing => !AllThere(s, st)
    case AlreadyInUse => AllThere(s, st) && TakenAlready(s, st)
    case Unauthorized => AllThere(s, st) && !SignedRight(s, st)
    case TaskClaimMismatch => AllThere(s, st) && SignedRight(s, st) && Mismatched(s, st)
    case WrongMint => AllThere(s, st) && SignedRight(s, st) && MintsDiffer(s, st)
    case _ => Admitted(s, st) && OwnReason(s, st, e)
  }

  ghost predicate OwnReason(s: State, st: Step, e: Error)
    requires Admitted(s, st)
  {
    match st
    case InitializeConfig(_, _, feeBps, _) => e.FeeTooHigh? && feeBps > 500
    case UpdateFee(_, newFeeBps) => e.FeeTooHigh? && newFeeBps > 500
    case InitializeTask(poster, _, bounty, maxSlots, _, _) =>
      if bounty == 0 then e.ZeroBounty?
      else if maxSlots < 1 || maxSlots > 100 then e.InvalidSlots?
      else if bounty * maxSlots >= 0x1_0000_0000_0000_0000 then e.MathOverflow?
      else e.InsufficientFunds? && bounty * maxSlots > Bal(s.ledger, Wallet(poster, s.config.value.mint))
    case CancelBeforeEnroll(_, t) =>
      if Members(s.claims, t) != {} then e.TaskHasEnrollments?
      else e.InvalidStateTransition? && !IsOpen(s, t)
    case AutoCancelTask(_, t) =>
      if Members(s.claims, t) != {} then e.TaskHasEnrollments?
      else if !IsOpen(s, t) then e.InvalidStateTransition?
      else e.DeadlineNotReached? && !(0 < s.tasks[t].deadline <= s.now)
    case CloseTask(_, t) =>
      if TooEarlyToClose(s, st) then e.DeadlineNotReached?
      else if !IsOpen(s, t) then e.InvalidStateTransition?
      else e.ClaimsNotResolved? && !AllTerminal(s, t)
    case Enroll(claimer, t, _) =>
      if !IsOpen(s, t) then e.InvalidStateTransition?
      else if |Members(s.claims, t)| >= s.tasks[t].maxSlots then e.SlotsFull?
      else e.SelfEnrollment? && IsPoster(s, t, claimer)
    case WithdrawFees(_, _, amount) =>
      e.InsufficientFeeVault? && amount > Bal(s.ledger, FeeVault(s.config.value.mint))
    case GiveTokens(owner, mint, _, amount) => e.InsufficientFunds? && amount > Bal(s.ledger, Wallet(owner, mint))
    case Tick(time) => e.ClockRunsForward? && time < s.now
    case UpdateAdmin(_, _) => false
    case UpdateMint(_, _) => false
    case OpenAccount(_) => false
    case _ =>
      if !PaysInPinnedMint(s, st) then e.InvalidMint?
      else if WrongStatus(s, st) then e.InvalidStateTransition?
      else if StillWaiting(s, st) then e.AutoActionTooEarly?
      else e.InsufficientFunds? && TakesBounty(s, st) && !Covers(s, st.task)
  }

  /** The facts about the task and the claim a step names. */
  ghost predicate StepFacts(s: State, st: Step) {
    && (TaskOf(st).Some? ==> TaskFacts(s, TaskOf(st).value))
    && (ClaimOf(st).Some? ==> ClaimFacts(s, ClaimOf(st).value))
  }

  /**
   Every instruction, in every reachable world, reports an error exactly when
   that error's meaning holds. In particular no instruction of a funded task
   ever reports an overflow, nor the token program one.
   */
  lemma ErrorsAreExact(ws: seq<World>, sts: seq<Step>, n: nat, st: Step, e: Error)
    requires IsHistory(ws, sts) && n < |ws|
    ensures Refuse(ws[n].s, st) == Some(e) <==> Means(ws[n].s, st, e)
  {
    if TaskOf(st).Some? {
      TaskFactsAt(ws, sts, n, TaskOf(st).value);
    }
    if ClaimOf(st).Some? {
      ClaimFactsAt(ws, sts, n, ClaimOf(st).value);
    }
    ConstraintsMean(ws[n].s, st, e);
    if Constraints(ws[n].s, st).None? {
      GuardsMean(ws[n].s, st, e);
    }
  }

  lemma MissingMeans(s: State, st: Step)
    ensures AccountsMissing(s, st) <==> !AllThere(s, st)
  {
  }

  lemma ConstraintsMean(s: State, st: Step, e: Error)
    ensures Constraints(s, st).None? <==> Admitted(s, st)
    ensures Constraints(s, st).Some? ==> (Constraints(s, st) == Some(e) <==> Means(s, st, e))
  {
    MissingMeans(s, st);
  }

  lemma GuardsMean(s: State, st: Step, e: Error)
    requires Constraints(s, st).None? && Admitted(s, st) && StepFacts(s, st)
    ensures Guards(s, st) == Some(e) <==> Means(s, st, e)
  {
    hide Constraints, Guards, Admitted, Means, OwnReason, StepFacts;
    AdmittedMeans(s, st, e);
    if st.ApproveClaim? || st.AutoApprove? {
      ApprovalGuardsMean(s, st, e);
    } else if st.ResolveDispute? || st.AutoResolveDispute? {
      RulingGuardsMean(s, st, e);
    } else if NamesClaim(st) {
      ClaimGuardsMean(s, st, e);
    } else {
      TaskGuardsMean(s, st, e);
    }
  }

  lemma ReasonIsOwn(s: State, st: Step, e: Error)
    requires Admitted(s, st) && OwnReason(s, st, e)
    ensures !e.AccountMissing? && !e.AlreadyInUse? && !e.Unauthorized? && !e.TaskClaimMismatch? && !e.WrongMint?
  {
  }

  lemma AdmittedMeans(s: State, st: Step, e: Error)
    requires Admitted(s, st)
    ensures Means(s, st, e) <==> OwnReason(s, st, e)
  {
    hide OwnReason;
    if OwnReason(s, st, e) {
      ReasonIsOwn(s, st, e);
    }
  }

  lemma ApprovalGuardsMean(s: State, st: Step, e: Error)
    requires Constraints(s, st).None? && Admitted(s, st) && StepFacts(s, st) && (st.ApproveClaim? || st.AutoApprove?)
    ensures Guards(s, st) == Some(e) <==> OwnReason(s, st, e)
  {
    hide Constraints;
  }

  lemma RulingGuardsMean(s: State, st: Step, e: Error)
    requires Constraints(s, st).None? && Admitted(s, st) && StepFacts(s, st)
    requires st.ResolveDispute? || st.AutoResolveDispute?
    ensures Guards(s, st) == Some(e) <==> OwnReason(s, st, e)
  {
    hide Constraints;
  }

  lemma ClaimGuardsMean(s: State, st: Step, e: Error)
    requires Constraints(s, st).None? && Admitted(s, st) && StepFacts(s, st) && NamesClaim(st) && !NamesMint(st)
    ensures Guards(s, st) == Some(e) <==> OwnReason(s, st, e)
  {
    hide Constraints;
  }

  lemma TaskGuardsMean(s: State, st: Step, e: Error)
    requires Constraints(s, st).None? && Admitted(s, st) && StepFacts(s, st) && !NamesClaim(st)
    ensures Guards(s, st) == Some(e) <==> OwnReason(s, st, e)
  {
    hide Constraints;
  }
}
