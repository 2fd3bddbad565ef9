/**
 The invariant of the program: what holds in every reachable state, whatever
 anyone signs and in whatever order.
 */
module Invariant {
  import opened Prelude
  import opened Accounts
  import opened Tokens
  import opened Slots
  import opened Instructions

  /** The rejection counter and the timestamps a claim can have in its status. */
  predicate ClaimShape(cl: Claim, now: int) {
    match cl.status
    case Enrolled => cl.rejections == 0
    case Submitted => cl.rejections <= 2 && 0 < cl.submittedAt <= now
    case Rejected => 1 <= cl.rejections <= 2
    case Disputed => 1 <= cl.rejections <= 2 && 0 < cl.disputedAt <= now
    case Approved => cl.rejections <= 2
    case Cancelled => cl.rejections == 3
    case ResolvedDeliverer => 1 <= cl.rejections <= 2
    case ResolvedPoster => 1 <= cl.rejections <= 2
  }

  ghost predicate TaskShape(task: Task, t: TaskId, claims: Claims) {
    && 0 < task.bounty && 1 <= task.maxSlots <= 100
    && task.bounty * task.maxSlots <= U64_MAX && task.deadline <= I64_MAX
    && Tallied(task, t, claims)
    && task.slotsApproved + task.slotsRefunded <= task.slotsEnrolled <= task.maxSlots
    && (task.status.Closed? ==> task.slotsApproved + task.slotsRefunded == task.slotsEnrolled)
  }

  predicate ClaimsSound(s: State) {
    forall c :: c in s.claims ==>
      && s.claims[c].task in s.tasks
      && s.claims[c].claimer != s.tasks[s.claims[c].task].poster
      && ClaimShape(s.claims[c], s.now)
  }

  ghost predicate TasksSound(s: State) {
    forall t :: t in s.tasks ==> TaskShape(s.tasks[t], t, s.claims)
  }

  ghost predicate SupplyFits(l: Ledger) {
    forall mint: Key :: Supply(l, mint) <= U64_MAX
  }

  predicate ConfigSound(s: State) {
    && 0 < s.now <= I64_MAX
    && (s.config.Some? ==> s.config.value.feeBps <= 500)
    && (s.config.None? ==> s.tasks == map[])
  }

  ghost predicate Inv(s: State) {
    ConfigSound(s) && ClaimsSound(s) && TasksSound(s) && SupplyFits(s.ledger)
  }

  /** Before the program is initialized; token accounts and balances are arbitrary. */
  ghost predicate Genesis(s: State) {
    && s.config.None? && s.tasks == map[] && s.claims == map[]
    && 0 < s.now <= I64_MAX && SupplyFits(s.ledger)
  }

  // ----- each part is preserved -----

  /** The terms of a task never change, and a closed task does not reopen. */
  predicate SameTerms(a: Task, b: Task) {
    && a.poster == b.poster && a.bounty == b.bounty && a.maxSlots == b.maxSlots
    && a.deadline == b.deadline && a.claimDeadlineSecs == b.claimDeadlineSecs
    && (a.status.Closed? ==> b.status.Closed?)
  }

  /** Only `cancel_before_enroll` removes a task record; nothing changes its terms. */
  lemma TermsAreFrozen(s: State, st: Step, t: TaskId)
    requires Refuse(s, st).None? && t in s.tasks
    ensures t !in NextTasks(s, st) <==> st.CancelBeforeEnroll? && st.task == t
    ensures t in NextTasks(s, st) ==> SameTerms(s.tasks[t], NextTasks(s, st)[t])
  {
  }

  /** The claim record a step writes has the shape of its new status. */
  lemma WrittenClaimIsSound(s: State, st: Step)
    requires ConfigSound(s) && ClaimsSound(s) && Refuse(s, st).None? && ClaimOf(st).Some?
    ensures var cl := NextClaim(s, st);
            && cl.task == st.task && cl.task in s.tasks
            && cl.claimer != s.tasks[cl.task].poster
            && ClaimShape(cl, s.now)
  {
  }

  lemma ClaimsSoundStep(s: State, st: Step)
    requires Inv(s) && Refuse(s, st).None?
    ensures ClaimsSound(Effect(s, st))
  {
    var s' := Effect(s, st);
    if ClaimOf(st).Some? {
      WrittenClaimIsSound(s, st);
    }
    if st.CancelBeforeEnroll? {
      EmptyTaskHasNoClaims(s, st.task);
    }
    forall c | c in s'.claims
      ensures s'.claims[c].task in s'.tasks
      ensures s'.claims[c].claimer != s'.tasks[s'.claims[c].task].poster
      ensures ClaimShape(s'.claims[c], s'.now)
    {
      ClaimOnItsTask(s, st, c);
      TermsAreFrozen(s, st, s'.claims[c].task);
      ShapeOutlivesTime(s'.claims[c], s.now, s'.now);
    }
  }

  /** Before the tasks change, every claim of the next state is as the invariant says. */
  lemma ClaimOnItsTask(s: State, st: Step, c: ClaimId)
    requires ClaimsSound(s) && Refuse(s, st).None? && c in NextClaims(s, st)
    requires ClaimOf(st).Some? ==>
               var cl := NextClaim(s, st);
               && cl.task == st.task && cl.task in s.tasks
               && cl.claimer != s.tasks[cl.task].poster && ClaimShape(cl, s.now)
    ensures var cl := NextClaims(s, st)[c];
            cl.task in s.tasks && cl.claimer != s.tasks[cl.task].poster && ClaimShape(cl, s.now)
  {
  }

  lemma ShapeOutlivesTime(cl: Claim, now: int, later: int)
    requires ClaimShape(cl, now) && now <= later
    ensures ClaimShape(cl, later)
  {
  }

  lemma EmptyTaskHasNoClaims(s: State, t: TaskId)
    requires Inv(s) && (t in s.tasks ==> s.tasks[t].slotsEnrolled == 0)
    ensures Members(s.claims, t) == {}
    ensures forall c :: c in s.claims ==> s.claims[c].task != t
  {
    if t in s.tasks {
      assert TaskShape(s.tasks[t], t, s.claims);
    }
    assert forall c :: c in s.claims && s.claims[c].task == t ==> c in Members(s.claims, t);
  }

  /** A step that writes an existing claim finds it active, in the task it names. */
  lemma WritesActiveClaim(s: State, st: Step)
    requires Refuse(s, st).None? && ClaimOf(st).Some? && !st.Enroll?
    ensures var c := ClaimOf(st).value;
            && c in s.claims && BoxOf(s.claims[c].status).Active?
            && NextClaim(s, st).task == s.claims[c].task == st.task
            && NextClaim(s, st).claimer == s.claims[c].claimer
  {
  }

  lemma TasksSoundStep(s: State, st: Step)
    requires Inv(s) && Refuse(s, st).None?
    ensures TasksSound(Effect(s, st))
  {
    var s' := Effect(s, st);
    forall t | t in s'.tasks
      ensures TaskShape(s'.tasks[t], t, s'.claims)
    {
      match ClaimOf(st)
      case None => TaskStepAlone(s, st, t);
      case Some(c) => TaskStepWithClaim(s, st, t, c);
    }
  }

  lemma TaskStepAlone(s: State, st: Step, t: TaskId)
    requires Inv(s) && Refuse(s, st).None? && ClaimOf(st).None?
    requires t in NextTasks(s, st)
    ensures TaskShape(NextTasks(s, st)[t], t, s.claims)
  {
    if t in s.tasks {
      assert TaskShape(s.tasks[t], t, s.claims);
    } else {
      EmptyTaskHasNoClaims(s, t);
      BoxSizesAddUp(s.claims, t);
    }
  }

  lemma TaskStepWithClaim(s: State, st: Step, t: TaskId, c: ClaimId)
    requires Inv(s) && Refuse(s, st).None? && ClaimOf(st) == Some(c)
    requires t in NextTasks(s, st)
    ensures TaskShape(NextTasks(s, st)[t], t, NextClaims(s, st))
  {
    hide Refuse, NextTasks, NextClaim;
    var cl := NextClaim(s, st);
    ClaimStepOnTask(s, st, t);
    assert TaskShape(s.tasks[t], t, s.claims);
    if st.Enroll? {
      EnrollWritesFreshClaim(s, st);
      TallyEnroll(s.claims, c, cl, t, s.tasks[t]);
    } else {
      WritesActiveClaim(s, st);
      TallyMove(s.claims, c, cl, t, s.tasks[t]);
      ActiveClaimLeavesRoom(s, c);
    }
  }

  lemma EnrollWritesFreshClaim(s: State, st: Step)
    requires Refuse(s, st).None? && st.Enroll?
    ensures st.claim !in s.claims && NextClaim(s, st).status.Enrolled? && NextClaim(s, st).task == st.task
  {
  }

  /** What a claim instruction does to the task record, by the box the claim ends in. */
  lemma ClaimStepOnTask(s: State, st: Step, t: TaskId)
    requires Refuse(s, st).None? && ClaimOf(st).Some? && t in NextTasks(s, st)
    ensures t in s.tasks
    ensures NextTasks(s, st)[t] ==
            if t != st.task then s.tasks[t]
            else if st.Enroll? then EnrolledSlot(s.tasks[t])
            else match BoxOf(NextClaim(s, st).status)
              case Active => s.tasks[t]
              case Paid => PaidSlot(s.tasks[t])
              case Refunded => RefundedSlot(s.tasks[t])
    ensures st.Enroll? ==> s.tasks[st.task].status.Open? && s.tasks[st.task].slotsEnrolled < s.tasks[st.task].maxSlots
  {
  }

  /** A task with an active claim has more slots enrolled than settled. */
  lemma ActiveClaimLeavesRoom(s: State, c: ClaimId)
    requires Inv(s) && c in s.claims && BoxOf(s.claims[c].status).Active?
    ensures var task := s.tasks[s.claims[c].task];
            && task.slotsApproved + task.slotsRefunded < task.slotsEnrolled
            && task.status.Open?
  {
    var t := s.claims[c].task;
    assert TaskShape(s.tasks[t], t, s.claims);
    BoxSizesAddUp(s.claims, t);
    assert c in InBox(s.claims, t, Active);
  }

  lemma SettlePreservesSupply(l: Ledger, p: Payment, mint: Key)
    requires Covered(l, p)
    requires p.Withdrawn? || p.Given? ==> p.dst.mint == p.mint
    ensures Supply(Settle(l, p), mint) == Supply(l, mint)
  {
    match p
    case NoPayment =>
    case Deposited(t, m, poster, n) => SupplyMove(l, Wallet(poster, m), Vault(t, m), n, mint);
    case PaidOut(t, _, m, claimer, net, fee) =>
      SupplyMove(l, Vault(t, m), Wallet(claimer, m), net, mint);
      SupplyMove(Move(l, Vault(t, m), Wallet(claimer, m), net), Vault(t, m), FeeVault(m), fee, mint);
    case Returned(t, _, m, poster, n) => SupplyMove(l, Vault(t, m), Wallet(poster, m), n, mint);
    case Swept(t, m, poster, n) => SupplyMove(l, Vault(t, m), Wallet(poster, m), n, mint);
    case Withdrawn(m, dst, n) => SupplyMove(l, FeeVault(m), dst, n, mint);
    case Given(m, owner, dst, n) => SupplyMove(l, Wallet(owner, m), dst, n, mint);
  }

  /** Most steps change the ledger by their payment alone. */
  lemma NextLedgerSettles(s: State, st: Step)
    requires Refuse(s, st).None?
    requires !st.InitializeConfig? && !st.InitializeTask? && !st.OpenAccount?
    requires !st.CancelBeforeEnroll? && !st.CloseTask? && !st.AutoCancelTask?
    ensures Covered(s.ledger, PaymentOf(s, st)) && NextLedger(s, st) == Settle(s.ledger, PaymentOf(s, st))
    ensures PaymentOf(s, st).Withdrawn? || PaymentOf(s, st).Given? ==>
              PaymentOf(s, st).dst.mint == PaymentOf(s, st).mint
  {
  }

  /** Every step preserves the supply of every mint: tokens are moved, never made or lost. */
  lemma SupplyIsConserved(s: State, st: Step, mint: Key)
    requires Refuse(s, st).None?
    ensures Supply(Effect(s, st).ledger, mint) == Supply(s.ledger, mint)
  {
    var p := PaymentOf(s, st);
    match st
    case InitializeConfig(_, _, _, m) => SupplyWrite(s.ledger, FeeVault(m), 0, mint);
    case InitializeTask(_, t, _, _, _, _) =>
      var v := Vault(t, s.config.value.mint);
      SupplyWrite(s.ledger, v, 0, mint);
      SettlePreservesSupply(s.ledger[v := 0], p, mint);
    case CancelBeforeEnroll(_, t) => SweepConserves(s, t, mint);
    case CloseTask(_, t) => SweepConserves(s, t, mint);
    case AutoCancelTask(_, t) => SweepConserves(s, t, mint);
    case OpenAccount(a) => SupplyWrite(s.ledger, a, 0, mint);
    case _ =>
      NextLedgerSettles(s, st);
      SettlePreservesSupply(s.ledger, p, mint);
  }

  lemma SweepConserves(s: State, t: TaskId, mint: Key)
    requires s.config.Some? && t in s.tasks && Vault(t, s.config.value.mint) in s.ledger
    ensures Supply(Settle(s.ledger, Sweep(s, t)) - {Vault(t, s.config.value.mint)}, mint) == Supply(s.ledger, mint)
  {
    var v := Vault(t, s.config.value.mint);
    SettlePreservesSupply(s.ledger, Sweep(s, t), mint);
    SupplyClose(Settle(s.ledger, Sweep(s, t)), v, mint);
  }

  /** Every step preserves the invariant. */
  lemma InvStep(s: State, st: Step)
    requires Inv(s) && Refuse(s, st).None?
    ensures Inv(Effect(s, st))
  {
    ClaimsSoundStep(s, st);
    TasksSoundStep(s, st);
    forall mint: Key
      ensures Supply(Effect(s, st).ledger, mint) <= U64_MAX
    {
      SupplyIsConserved(s, st, mint);
    }
  }

  // ----- the gate of close_task -----

  /**
   The doubly saturating gate of `close_task` passes exactly when every claim
   of the task is terminal, although the task stores no list of its claims.
   */
  lemma CloseGateIsExact(s: State, t: TaskId)
    requires Inv(s) && t in s.tasks
    ensures ActiveSlots(s.tasks[t]) == |InBox(s.claims, t, Active)|
    ensures ActiveSlots(s.tasks[t]) == 0 <==>
            forall c :: c in s.claims && s.claims[c].task == t ==> IsTerminal(s.claims[c].status)
  {
    assert TaskShape(s.tasks[t], t, s.claims);
    BoxSizesAddUp(s.claims, t);
    NoActiveClaims(s.claims, t);
  }

  lemma NoActiveClaims(claims: Claims, t: TaskId)
    ensures |InBox(claims, t, Active)| == 0 <==>
            forall c :: c in claims && claims[c].task == t ==> IsTerminal(claims[c].status)
  {
    var active := InBox(claims, t, Active);
    assert forall c :: c in claims && claims[c].task == t && !IsTerminal(claims[c].status) <==> c in active;
    if active == {} {
      assert forall c :: c in claims && claims[c].task == t ==> c !in active;
    }
  }
}
