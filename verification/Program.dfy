/**
 The program as it runs: one object holding the accounts, and one method per
 instruction that does its checks, token transfers and counter updates in the
 order of the source. Handlers do not undo anything: a transfer that has been
 made stays made when a later check fails. Execute adds the runtime around
 them, which validates accounts first and discards a failed transaction.
 */
module Program {
  import opened Prelude
  import opened Accounts
  import opened Tokens
  import opened Slots
  import opened Instructions
  import opened Invariant
  import opened Bookkeeping

  datatype Outcome = Done | Failed(error: Error)

  /**
   A handler refines the transition system: it succeeds exactly when the guards
   hold, with exactly the specified effect; otherwise it reports the specified
   error and has written no account, except perhaps token balances.
   */
  predicate Carries(before: State, st: Step, r: Outcome, after: State)
    requires Constraints(before, st).None?
  {
    match Guards(before, st)
    case None => r == Done && after == Effect(before, st)
    case Some(e) => r == Failed(e) && after == before.(ledger := after.ledger)
  }

  /** What a failed payout leaves behind: the net amount has moved if the vault covered that much. */
  function Halfway(s: State, t: TaskId, c: ClaimId): Ledger
    requires s.config.Some? && t in s.tasks && c in s.claims
  {
    var mint := s.config.value.mint;
    match ComputeFeeSplit(s.tasks[t].bounty, s.config.value.feeBps)
    case Err(_) => s.ledger
    case Ok(sp) =>
      if sp.net <= Bal(s.ledger, Vault(t, mint))
      then Move(s.ledger, Vault(t, mint), Wallet(s.claims[c].claimer, mint), sp.net)
      else s.ledger
  }

  class Escrow {
    var config: Option<Config>
    var tasks: map<TaskId, Task>
    var claims: map<ClaimId, Claim>
    var ledger: Ledger
    var now: int
    ghost var books: Books

    function Snapshot(): State
      reads this
    {
      State(config, tasks, claims, ledger, now)
    }

    ghost function Here(): World
      reads this
    {
      World(Snapshot(), books)
    }

    ghost predicate Valid()
      reads this
    {
      Sound(Here())
    }

    /** The pinned mint is the one this task was funded in. */
    ghost predicate PinnedAsFunded(t: TaskId)
      reads this
    {
      config.Some? && t in books && books[t].mint == config.value.mint
    }

    /** Before initialization: no program accounts, arbitrary token balances. */
    constructor (now: i64, ledger: Ledger)
      requires 0 < now && SupplyFits(ledger)
      ensures Valid() && Genesis(Snapshot()) && books == map[]
      ensures this.now == now && this.ledger == ledger
    {
      this.config := None;
      this.tasks := map[];
      this.claims := map[];
      this.ledger := ledger;
      this.now := now;
      this.books := map[];
    }

    // ----- the token program -----

    /** A transfer: insufficient funds, then a no-op to itself, then a checked credit. */
    method Transfer(src: Account, dst: Account, amount: nat) returns (r: Outcome)
      requires src.mint == dst.mint && Supply(ledger, src.mint) <= U64_MAX
      modifies this`ledger
      ensures r == if amount <= old(Bal(ledger, src)) then Done else Failed(InsufficientFunds)
      ensures r.Done? ==> ledger == Move(old(ledger), src, dst, amount)
      ensures r.Failed? ==> ledger == old(ledger)
    {
      if Bal(ledger, src) < amount {
        return Failed(InsufficientFunds);
      }
      if amount == 0 || src == dst {
        return Done;
      }
      NoOverflow(ledger, src, dst, amount);
      if Bal(ledger, dst) + amount > U64_MAX {
        return Failed(TokenOverflow);
      }
      ledger := ledger[src := Bal(ledger, src) - amount];
      ledger := ledger[dst := Bal(ledger, dst) + amount];
      return Done;
    }

    // ----- what validity gives a handler -----

    lemma RuntimeFacts()
      requires Valid()
      ensures 0 < now <= I64_MAX
      ensures forall mint: Key :: Supply(ledger, mint) <= U64_MAX
    {
    }

    /** The counters of a task stay far from their limits, and its fee split succeeds. */
    lemma TaskFacts(t: TaskId)
      requires Valid() && t in tasks
      ensures config.Some? && ComputeFeeSplit(tasks[t].bounty, config.value.feeBps).Ok?
      ensures var sp := ComputeFeeSplit(tasks[t].bounty, config.value.feeBps).value;
              sp.net + sp.fee == tasks[t].bounty
      ensures tasks[t].slotsEnrolled <= MAX_SLOTS_LIMIT
      ensures tasks[t].slotsApproved <= MAX_SLOTS_LIMIT && tasks[t].slotsRefunded <= MAX_SLOTS_LIMIT
    {
      assert TaskShape(tasks[t], t, claims);
      SplitAddsUp(Snapshot(), t);
    }

    /** While the mint is pinned as funded, the vault covers every active claim. */
    lemma ClaimIsCovered(c: ClaimId)
      requires Valid() && c in claims && BoxOf(claims[c].status).Active?
      ensures claims[c].task in tasks && claims[c].rejections <= 2
      ensures PinnedAsFunded(claims[c].task) ==>
                tasks[claims[c].task].bounty <= Bal(ledger, Vault(claims[c].task, config.value.mint))
    {
      ActiveClaimIsCovered(Here(), c);
    }

    // ----- configuration -----

    method InitializeConfig(payer: Key, admin: Key, feeBps: u16, mint: Key) returns (r: Outcome)
      requires Valid() && Constraints(Snapshot(), Step.InitializeConfig(payer, admin, feeBps, mint)).None?
      modifies this`config, this`ledger
      ensures Carries(old(Snapshot()), Step.InitializeConfig(payer, admin, feeBps, mint), r, Snapshot())
    {
      ledger := ledger[FeeVault(mint) := 0];
      if feeBps > FEE_BPS_CAP {
        return Failed(FeeTooHigh);
      }
      config := Some(Config(admin, mint, feeBps));
      return Done;
    }

    method UpdateAdmin(signer: Key, newAdmin: Key) returns (r: Outcome)
      requires Valid() && Constraints(Snapshot(), Step.UpdateAdmin(signer, newAdmin)).None?
      modifies this`config
      ensures Carries(old(Snapshot()), Step.UpdateAdmin(signer, newAdmin), r, Snapshot())
    {
      config := Some(config.value.(admin := newAdmin));
      return Done;
    }

    method UpdateFee(signer: Key, newFeeBps: u16) returns (r: Outcome)
      requires Valid() && Constraints(Snapshot(), Step.UpdateFee(signer, newFeeBps)).None?
      modifies this`config
      ensures Carries(old(Snapshot()), Step.UpdateFee(signer, newFeeBps), r, Snapshot())
    {
      if newFeeBps > FEE_BPS_CAP {
        return Failed(FeeTooHigh);
      }
      config := Some(config.value.(feeBps := newFeeBps));
      return Done;
    }

    method UpdateMint(signer: Key, newMint: Key) returns (r: Outcome)
      requires Valid() && Constraints(Snapshot(), Step.UpdateMint(signer, newMint)).None?
      modifies this`config
      ensures Carries(old(Snapshot()), Step.UpdateMint(signer, newMint), r, Snapshot())
    {
      config := Some(config.value.(mint := newMint));
      return Done;
    }

    // ----- tasks -----

    method InitializeTask(poster: Key, t: TaskId, bounty: u64, maxSlots: u16, claimDeadlineSecs: u32, deadline: i64)
      returns (r: Outcome)
      requires Valid()
      requires Constraints(
                 Snapshot(), Step.InitializeTask(poster, t, bounty, maxSlots, claimDeadlineSecs, deadline)).None?
      modifies this`tasks, this`ledger
      ensures Carries(old(Snapshot()), Step.InitializeTask(poster, t, bounty, maxSlots, claimDeadlineSecs, deadline),
                      r, Snapshot())
    {
      var mint := config.value.mint;
      SupplyWrite(ledger, Vault(t, mint), 0, mint);
      ledger := ledger[Vault(t, mint) := 0];
      if bounty == 0 {
        return Failed(ZeroBounty);
      }
      if !(1 <= maxSlots && maxSlots <= MAX_SLOTS_LIMIT) {
        return Failed(InvalidSlots);
      }
      var total := bounty * maxSlots;
      if total > U64_MAX {
        return Failed(MathOverflow);
      }
      var task := Task(poster, bounty, maxSlots, 0, 0, 0, Open, deadline, claimDeadlineSecs);
      r := Transfer(Wallet(poster, mint), Vault(t, mint), total);
      if r.Failed? {
        return;
      }
      tasks := tasks[t := task];
    }

    /** Transfer everything in the vault to the poster, then close the vault account. */
    method SweepVault(t: TaskId) returns (r: Outcome)
      requires Valid() && config.Some? && t in tasks && Vault(t, config.value.mint) in ledger
      modifies this`ledger
      ensures r.Done?
      ensures ledger == Settle(old(ledger), Sweep(old(Snapshot()), t)) - {Vault(t, config.value.mint)}
    {
      var vault := Vault(t, config.value.mint);
      var remaining := Bal(ledger, vault);
      if remaining > 0 {
        r := Transfer(vault, Wallet(tasks[t].poster, config.value.mint), remaining);
        if r.Failed? {
          return;
        }
      }
      if Bal(ledger, vault) != 0 {
        return Failed(InsufficientFunds);
      }
      ledger := ledger - {vault};
      return Done;
    }

    method CancelBeforeEnroll(poster: Key, t: TaskId) returns (r: Outcome)
      requires Valid() && Constraints(Snapshot(), Step.CancelBeforeEnroll(poster, t)).None?
      modifies this`tasks, this`ledger
      ensures Carries(old(Snapshot()), Step.CancelBeforeEnroll(poster, t), r, Snapshot())
      ensures r.Failed? ==> Snapshot() == old(Snapshot())
    {
      hide Sound;
      if tasks[t].slotsEnrolled != 0 {
        return Failed(TaskHasEnrollments);
      }
      if tasks[t].status != Open {
        return Failed(InvalidStateTransition);
      }
      r := SweepVault(t);
      tasks := tasks - {t};
    }

    method CloseTask(caller: Key, t: TaskId) returns (r: Outcome)
      requires Valid() && Constraints(Snapshot(), Step.CloseTask(caller, t)).None?
      modifies this`tasks, this`ledger
      ensures Carries(old(Snapshot()), Step.CloseTask(caller, t), r, Snapshot())
      ensures r.Failed? ==> Snapshot() == old(Snapshot())
    {
      hide Sound;
      var isPoster := caller == tasks[t].poster;
      if !isPoster {
        if !(tasks[t].deadline > 0 && now >= tasks[t].deadline) {
          return Failed(DeadlineNotReached);
        }
      }
      if tasks[t].status != Open {
        return Failed(InvalidStateTransition);
      }
      var active := SaturatingSub(tasks[t].slotsEnrolled, tasks[t].slotsApproved);
      active := SaturatingSub(active, tasks[t].slotsRefunded);
      if active != 0 {
        return Failed(ClaimsNotResolved);
      }
      r := SweepVault(t);
      tasks := tasks[t := tasks[t].(status := Closed)];
    }

    method AutoCancelTask(caller: Key, t: TaskId) returns (r: Outcome)
      requires Valid() && Constraints(Snapshot(), Step.AutoCancelTask(caller, t)).None?
      modifies this`tasks, this`ledger
      ensures Carries(old(Snapshot()), Step.AutoCancelTask(caller, t), r, Snapshot())
      ensures r.Failed? ==> Snapshot() == old(Snapshot())
    {
      hide Sound;
      if tasks[t].slotsEnrolled != 0 {
        return Failed(TaskHasEnrollments);
      }
      if tasks[t].status != Open {
        return Failed(InvalidStateTransition);
      }
      if !(tasks[t].deadline > 0 && now >= tasks[t].deadline) {
        return Failed(DeadlineNotReached);
      }
      r := SweepVault(t);
      tasks := tasks[t := tasks[t].(status := Closed)];
    }

    // ----- claims -----

    method Enroll(claimer: Key, t: TaskId, c: ClaimId) returns (r: Outcome)
      requires Valid() && Constraints(Snapshot(), Step.Enroll(claimer, t, c)).None?
      modifies this`tasks, this`claims
      ensures Carries(old(Snapshot()), Step.Enroll(claimer, t, c), r, Snapshot())
    {
      hide Sound;
      var task := tasks[t];
      TaskFacts(t);
      if task.status != Open {
        return Failed(InvalidStateTransition);
      }
      if task.slotsEnrolled >= task.maxSlots {
        return Failed(SlotsFull);
      }
      if claimer == task.poster {
        return Failed(SelfEnrollment);
      }
      var claim := Claim(t, claimer, Enrolled, now, 0, 0, 0, 0);
      if task.slotsEnrolled + 1 > U16_MAX {
        return Failed(MathOverflow);
      }
      task := task.(slotsEnrolled := task.slotsEnrolled + 1);
      tasks, claims := tasks[t := task], claims[c := claim];
      return Done;
    }

    method Submit(claimer: Key, t: TaskId, c: ClaimId, hash: Hash) returns (r: Outcome)
      requires Valid() && Constraints(Snapshot(), Step.Submit(claimer, t, c, hash)).None?
      modifies this`claims
      ensures Carries(old(Snapshot()), Step.Submit(claimer, t, c, hash), r, Snapshot())
    {
      hide Sound;
      var claim := claims[c];
      if claim.status != Enrolled && claim.status != Rejected {
        return Failed(InvalidStateTransition);
      }
      claim := claim.(status := Submitted);
      claim := claim.(submittedAt := now);
      claim := claim.(hash := hash);
      claims := claims[c := claim];
      return Done;
    }

    /**
     The net amount to the claimer, then the fee to the fee vault. If the vault
     covers the first transfer only, the first one stays made.
     */
    method PayDeliverer(t: TaskId, c: ClaimId) returns (r: Outcome)
      requires Valid() && config.Some? && t in tasks && c in claims
      modifies this`ledger
      ensures PayoutGuard(old(Snapshot()), t, config.value.mint) == (if r.Done? then None else Some(r.error))
      ensures r.Done? ==> ledger == Settle(old(ledger), Payout(old(Snapshot()), t, c))
      ensures r.Failed? ==> old(Bal(ledger, Vault(t, config.value.mint))) < tasks[t].bounty
      ensures r.Failed? ==> ledger == Halfway(old(Snapshot()), t, c)
    {
      hide Sound;
      var mint := config.value.mint;
      RuntimeFacts();
      TaskFacts(t);
      var net, fee: nat;
      match ComputeFeeSplit(tasks[t].bounty, config.value.feeBps) {
        case Err(e) => return Failed(e);
        case Ok(split) => net, fee := split.net, split.fee;
      }
      if net > 0 {
        r := Transfer(Vault(t, mint), Wallet(claims[c].claimer, mint), net);
        if r.Failed? {
          return;
        }
        SupplyMove(old(ledger), Vault(t, mint), Wallet(claims[c].claimer, mint), net, mint);
      }
      if fee > 0 {
        r := Transfer(Vault(t, mint), FeeVault(mint), fee);
        if r.Failed? {
          return;
        }
      }
      return Done;
    }

    /** One bounty back to the poster. */
    method RefundPoster(t: TaskId, ghost c: ClaimId) returns (r: Outcome)
      requires Valid() && config.Some? && t in tasks
      modifies this`ledger
      ensures RefundGuard(old(Snapshot()), t, config.value.mint) == (if r.Done? then None else Some(r.error))
      ensures r.Done? ==> ledger == Settle(old(ledger), Refund(old(Snapshot()), t, c))
      ensures r.Failed? ==> ledger == old(ledger)
    {
      hide Sound;
      RuntimeFacts();
      r := Transfer(Vault(t, config.value.mint), Wallet(tasks[t].poster, config.value.mint), tasks[t].bounty);
    }

    method ApproveClaim(poster: Key, t: TaskId, c: ClaimId, mint: Key) returns (r: Outcome)
      requires Valid() && Constraints(Snapshot(), Step.ApproveClaim(poster, t, c, mint)).None?
      modifies this`tasks, this`claims, this`ledger
      ensures Carries(old(Snapshot()), Step.ApproveClaim(poster, t, c, mint), r, Snapshot())
      ensures r.Failed? && old(PinnedAsFunded(t)) ==> Snapshot() == old(Snapshot())
    {
      hide Sound;
      RuntimeFacts();
      if mint != config.value.mint {
        return Failed(InvalidMint);
      }
      if tasks[t].status != Open {
        return Failed(InvalidStateTransition);
      }
      if claims[c].status != Submitted {
        return Failed(InvalidStateTransition);
      }
      TaskFacts(t);
      ClaimIsCovered(c);
      r := PayDeliverer(t, c);
      if r.Failed? {
        return;
      }
      var claim, task := claims[c].(status := Approved), tasks[t];
      if task.slotsApproved + 1 > U16_MAX {
        return Failed(MathOverflow);
      }
      task := task.(slotsApproved := task.slotsApproved + 1);
      tasks, claims := tasks[t := task], claims[c := claim];
    }

    method RejectClaim(poster: Key, t: TaskId, c: ClaimId) returns (r: Outcome)
      requires Valid() && Constraints(Snapshot(), Step.RejectClaim(poster, t, c)).None?
      modifies this`tasks, this`claims, this`ledger
      ensures Carries(old(Snapshot()), Step.RejectClaim(poster, t, c), r, Snapshot())
      ensures r.Failed? ==> Snapshot() == old(Snapshot())
    {
      hide Sound;
      RuntimeFacts();
      if tasks[t].status != Open {
        return Failed(InvalidStateTransition);
      }
      if claims[c].status != Submitted {
        return Failed(InvalidStateTransition);
      }
      TaskFacts(t);
      ClaimIsCovered(c);
      var newRejections := claims[c].rejections + 1;
      if newRejections > U8_MAX {
        return Failed(MathOverflow);
      }
      if newRejections >= MAX_REJECTIONS {
        r := RefundPoster(t, c);
        if r.Failed? {
          return;
        }
        var claim, task := claims[c], tasks[t];
        claim := claim.(rejections := newRejections);
        claim := claim.(status := Cancelled);
        if task.slotsRefunded + 1 > U16_MAX {
          return Failed(MathOverflow);
        }
        task := task.(slotsRefunded := task.slotsRefunded + 1);
        tasks, claims := tasks[t := task], claims[c := claim];
      } else {
        var claim := claims[c];
        claim := claim.(rejections := newRejections);
        claim := claim.(status := Rejected);
        claims := claims[c := claim];
        return Done;
      }
    }

    method AutoApprove(caller: Key, t: TaskId, c: ClaimId, mint: Key) returns (r: Outcome)
      requires Valid() && Constraints(Snapshot(), Step.AutoApprove(caller, t, c, mint)).None?
      modifies this`tasks, this`claims, this`ledger
      ensures Carries(old(Snapshot()), Step.AutoApprove(caller, t, c, mint), r, Snapshot())
      ensures r.Failed? && old(PinnedAsFunded(t)) ==> Snapshot() == old(Snapshot())
    {
      hide Sound;
      RuntimeFacts();
      if mint != config.value.mint {
        return Failed(InvalidMint);
      }
      if tasks[t].status != Open {
        return Failed(InvalidStateTransition);
      }
      if claims[c].status != Submitted {
        return Failed(InvalidStateTransition);
      }
      var submittedAt := claims[c].submittedAt;
      if !(submittedAt > 0 && SaturatingSubI64(now, submittedAt) >= AUTO_APPROVE_WINDOW_SECS) {
        return Failed(AutoActionTooEarly);
      }
      TaskFacts(t);
      ClaimIsCovered(c);
      r := PayDeliverer(t, c);
      if r.Failed? {
        return;
      }
      var claim, task := claims[c].(status := Approved), tasks[t];
      if task.slotsApproved + 1 > U16_MAX {
        return Failed(MathOverflow);
      }
      task := task.(slotsApproved := task.slotsApproved + 1);
      tasks, claims := tasks[t := task], claims[c := claim];
    }

    // ----- disputes -----

    method OpenDispute(claimer: Key, t: TaskId, c: ClaimId) returns (r: Outcome)
      requires Valid() && Constraints(Snapshot(), Step.OpenDispute(claimer, t, c)).None?
      modifies this`claims
      ensures Carries(old(Snapshot()), Step.OpenDispute(claimer, t, c), r, Snapshot())
    {
      hide Sound;
      var claim := claims[c];
      if claim.status != Rejected {
        return Failed(InvalidStateTransition);
      }
      claim := claim.(status := Disputed);
      claim := claim.(disputedAt := now);
      claims := claims[c := claim];
      return Done;
    }

    method ResolveDispute(signer: Key, t: TaskId, c: ClaimId, mint: Key, favor: Favor) returns (r: Outcome)
      requires Valid() && Constraints(Snapshot(), Step.ResolveDispute(signer, t, c, mint, favor)).None?
      modifies this`tasks, this`claims, this`ledger
      ensures Carries(old(Snapshot()), Step.ResolveDispute(signer, t, c, mint, favor), r, Snapshot())
      ensures r.Failed? && old(PinnedAsFunded(t)) ==> Snapshot() == old(Snapshot())
    {
      hide Sound;
      RuntimeFacts();
      if mint != config.value.mint {
        return Failed(InvalidMint);
      }
      if claims[c].status != Disputed {
        return Failed(InvalidStateTransition);
      }
      TaskFacts(t);
      ClaimIsCovered(c);
      match favor {
        case Deliverer =>
          r := PayDeliverer(t, c);
          if r.Failed? {
            return;
          }
          var claim, task := claims[c].(status := ResolvedDeliverer), tasks[t];
          if task.slotsApproved + 1 > U16_MAX {
            return Failed(MathOverflow);
          }
          task := task.(slotsApproved := task.slotsApproved + 1);
          tasks, claims := tasks[t := task], claims[c := claim];
        case Poster =>
          r := RefundPoster(t, c);
          if r.Failed? {
            return;
          }
          var claim, task := claims[c].(status := ResolvedPoster), tasks[t];
          if task.slotsRefunded + 1 > U16_MAX {
            return Failed(MathOverflow);
          }
          task := task.(slotsRefunded := task.slotsRefunded + 1);
          tasks, claims := tasks[t := task], claims[c := claim];
      }
    }

    method AutoResolveDispute(caller: Key, t: TaskId, c: ClaimId, mint: Key) returns (r: Outcome)
      requires Valid() && Constraints(Snapshot(), Step.AutoResolveDispute(caller, t, c, mint)).None?
      modifies this`tasks, this`claims, this`ledger
      ensures Carries(old(Snapshot()), Step.AutoResolveDispute(caller, t, c, mint), r, Snapshot())
      ensures r.Failed? && old(PinnedAsFunded(t)) ==> Snapshot() == old(Snapshot())
    {
      hide Sound;
      RuntimeFacts();
      if mint != config.value.mint {
        return Failed(InvalidMint);
      }
      if claims[c].status != Disputed {
        return Failed(InvalidStateTransition);
      }
      var disputedAt := claims[c].disputedAt;
      if !(disputedAt > 0 && SaturatingSubI64(now, disputedAt) >= AUTO_DISPUTE_WINDOW_SECS) {
        return Failed(AutoActionTooEarly);
      }
      TaskFacts(t);
      ClaimIsCovered(c);
      r := PayDeliverer(t, c);
      if r.Failed? {
        return;
      }
      var claim, task := claims[c].(status := ResolvedDeliverer), tasks[t];
      if task.slotsApproved + 1 > U16_MAX {
        return Failed(MathOverflow);
      }
      task := task.(slotsApproved := task.slotsApproved + 1);
      tasks, claims := tasks[t := task], claims[c := claim];
    }

    // ----- fees -----

    method WithdrawFees(signer: Key, dst: Account, amount: u64) returns (r: Outcome)
      requires Valid() && Constraints(Snapshot(), Step.WithdrawFees(signer, dst, amount)).None?
      modifies this`ledger
      ensures Carries(old(Snapshot()), Step.WithdrawFees(signer, dst, amount), r, Snapshot())
      ensures r.Failed? ==> Snapshot() == old(Snapshot())
    {
      hide Sound;
      RuntimeFacts();
      var feeVault := FeeVault(config.value.mint);
      if !(Bal(ledger, feeVault) >= amount) {
        return Failed(InsufficientFeeVault);
      }
      r := Transfer(feeVault, dst, amount);
    }

    // ----- the environment -----

    method Tick(time: i64) returns (r: Outcome)
      requires Valid()
      modifies this`now
      ensures Carries(old(Snapshot()), Step.Tick(time), r, Snapshot())
    {
      if time < now {
        return Failed(ClockRunsForward);
      }
      now := time;
      return Done;
    }

    method OpenAccount(account: Account) returns (r: Outcome)
      requires Valid()
      modifies this`ledger
      ensures Carries(old(Snapshot()), Step.OpenAccount(account), r, Snapshot())
    {
      if !Exists(ledger, account) {
        ledger := ledger[account := 0];
      }
      return Done;
    }

    method GiveTokens(owner: Key, mint: Key, dst: Account, amount: u64) returns (r: Outcome)
      requires Valid() && Constraints(Snapshot(), Step.GiveTokens(owner, mint, dst, amount)).None?
      modifies this`ledger
      ensures Carries(old(Snapshot()), Step.GiveTokens(owner, mint, dst, amount), r, Snapshot())
    {
      r := Transfer(Wallet(owner, mint), dst, amount);
    }

    // ----- dispatch -----

    /** The program's entry point hands each instruction to its handler. */
    method Dispatch(st: Step) returns (r: Outcome)
      requires Valid() && Constraints(Snapshot(), st).None?
      modifies this`config, this`tasks, this`claims, this`ledger, this`now
      ensures Carries(old(Snapshot()), st, r, Snapshot())
    {
      match st {
        case InitializeConfig(payer, admin, feeBps, mint) => r := InitializeConfig(payer, admin, feeBps, mint);
        case UpdateAdmin(signer, newAdmin) => r := UpdateAdmin(signer, newAdmin);
        case UpdateFee(signer, newFeeBps) => r := UpdateFee(signer, newFeeBps);
        case UpdateMint(signer, newMint) => r := UpdateMint(signer, newMint);
        case InitializeTask(poster, t, bounty, maxSlots, claimDeadlineSecs, deadline) =>
          r := InitializeTask(poster, t, bounty, maxSlots, claimDeadlineSecs, deadline);
        case CancelBeforeEnroll(poster, t) => r := CancelBeforeEnroll(poster, t);
        case CloseTask(caller, t) => r := CloseTask(caller, t);
        case AutoCancelTask(caller, t) => r := AutoCancelTask(caller, t);
        case Enroll(claimer, t, c) => r := Enroll(claimer, t, c);
        case Submit(claimer, t, c, hash) => r := Submit(claimer, t, c, hash);
        case ApproveClaim(poster, t, c, mint) => r := ApproveClaim(poster, t, c, mint);
        case RejectClaim(poster, t, c) => r := RejectClaim(poster, t, c);
        case AutoApprove(caller, t, c, mint) => r := AutoApprove(caller, t, c, mint);
        case OpenDispute(claimer, t, c) => r := OpenDispute(claimer, t, c);
        case ResolveDispute(signer, t, c, mint, favor) => r := ResolveDispute(signer, t, c, mint, favor);
        case AutoResolveDispute(caller, t, c, mint) => r := AutoResolveDispute(caller, t, c, mint);
        case WithdrawFees(signer, dst, amount) => r := WithdrawFees(signer, dst, amount);
        case Tick(time) => r := Tick(time);
        case OpenAccount(account) => r := OpenAccount(account);
        case GiveTokens(owner, mint, dst, amount) => r := GiveTokens(owner, mint, dst, amount);
      }
    }

    /**
     One transaction: account validation, the handler, and the discarding of a
     failed transaction. The program moves exactly as the transition system
     does, and every transaction keeps it valid.
     */
    method Execute(st: Step) returns (r: Outcome)
      requires Valid()
      modifies this
      ensures Valid()
      ensures match Refuse(old(Snapshot()), st)
              case None => r == Done && Here() == Next(old(Here()), st)
              case Some(e) => r == Failed(e) && Here() == old(Here())
    {
      hide Sound, Constraints, Guards, Effect, Post, PaymentOf;
      var invalid := Constraints(Snapshot(), st);
      if invalid.Some? {
        return Failed(invalid.value);
      }
      var before := ledger;
      r := Dispatch(st);
      if r.Failed? {
        ledger := before;
      } else {
        SoundStep(old(Here()), st);
        books := Post(books, PaymentOf(old(Snapshot()), st));
      }
    }
  }
}
