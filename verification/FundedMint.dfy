/**
 Runs that keep the documented precondition of `update_mint`, which the program
 does not check: the mint is only ever re-pinned while no task is funded. In
 such runs every open task is in the pinned mint, and what the other theorems
 say of tasks in their funding mint holds of every task.
 */
module FundedMint {
  import opened Prelude
  import opened Accounts
  import opened Tokens
  import opened Instructions
  import opened Invariant
  import opened Bookkeeping
  import opened Runs
  import opened Isolation
  import opened Progress

  /** Each of the first `n` steps that re-pins the mint finds every task closed. */
  ghost predicate NoFundedRepin(ws: seq<World>, sts: seq<Step>, n: nat)
    requires |ws| == |sts| + 1 && n < |ws|
  {
    forall k: nat :: k < n && sts[k].UpdateMint? ==> AllClosed(ws[k].s)
  }

  predicate AllClosed(s: State) {
    forall t :: t in s.tasks ==> s.tasks[t].status.Closed?
  }

  /** Nothing was settled in another mint, and while the task is open its mint is pinned. */
  predicate InPinnedMint(config: Option<Config>, task: Task, k: Book) {
    && k.strayPaid == k.strayRefunded == 0
    && (task.status.Open? ==> config.Some? && k.mint == config.value.mint)
  }

  predicate TaskInPinnedMint(w: World, t: TaskId)
    requires t in w.s.tasks
  {
    t in w.books && InPinnedMint(w.s.config, w.s.tasks[t], w.books[t])
  }

  /** A payment of an open task's slot is made in the pinned mint. */
  lemma PaymentInPinnedMint(s: State, st: Step)
    requires Refuse(s, st).None?
    ensures var p := PaymentOf(s, st);
            p.PaidOut? || p.Returned? || p.Deposited? ==> s.config.Some? && p.mint == s.config.value.mint
  {
  }

  lemma MintChanges(s: State, st: Step)
    requires Refuse(s, st).None? && s.config.Some? && !st.UpdateMint?
    ensures Effect(s, st).config.Some? && Effect(s, st).config.value.mint == s.config.value.mint
  {
  }

  lemma OpenTaskStays(w: World, st: Step, t: TaskId)
    requires Refuse(w.s, st).None? && t in w.s.tasks && t in NextTasks(w.s, st) && w.s.tasks[t].status.Open?
    requires TaskInPinnedMint(w, t) && !st.UpdateMint?
    ensures TaskInPinnedMint(Next(w, st), t)
  {
    var p := PaymentOf(w.s, st);
    PaymentInPinnedMint(w.s, st);
    PaymentCases(w.s, st, t);
    BookAfter(w.books, p, t);
    MintChanges(w.s, st);
  }

  lemma ClosedTaskStays(w: World, st: Step, t: TaskId)
    requires Sound(w) && Refuse(w.s, st).None? && t in w.s.tasks && w.s.tasks[t].status.Closed?
    requires TaskInPinnedMint(w, t)
    ensures t in Next(w, st).s.tasks && TaskInPinnedMint(Next(w, st), t)
  {
    ClosedTaskStep(w, st, t);
  }

  lemma NewTaskStarts(w: World, st: Step, t: TaskId)
    requires Refuse(w.s, st).None? && t !in w.s.tasks && t in NextTasks(w.s, st)
    ensures TaskInPinnedMint(Next(w, st), t)
  {
    NewTaskIsInitialized(w.s, st, t);
  }

  /** In such a run every task is in the pinned mint at every point, if it is still open. */
  lemma {:induction false} FundedTasksArePinned(ws: seq<World>, sts: seq<Step>, n: nat, t: TaskId)
    requires IsHistory(ws, sts) && n < |ws| && NoFundedRepin(ws, sts, n) && t in ws[n].s.tasks
    ensures TaskInPinnedMint(ws[n], t)
  {
    if n > 0 {
      assert Follows(ws, sts, n - 1);
      var w, st := ws[n - 1], sts[n - 1];
      if t !in w.s.tasks {
        NewTaskStarts(w, st, t);
      } else {
        FundedTasksArePinned(ws, sts, n - 1, t);
        HistoryIsSound(ws, sts, n - 1);
        if w.s.tasks[t].status.Open? {
          OpenTaskStays(w, st, t);
        } else {
          ClosedTaskStays(w, st, t);
        }
      }
    }
  }

  /**
   Exact solvency: the vault of an open task in the pinned mint holds one bounty
   for every slot not settled yet, plus what was given to it.
   */
  lemma VaultIsOwed(ws: seq<World>, sts: seq<Step>, n: nat, t: TaskId)
    requires IsHistory(ws, sts) && n < |ws| && NoFundedRepin(ws, sts, n)
    requires t in ws[n].s.tasks && ws[n].s.tasks[t].status.Open?
    ensures ws[n].s.config.Some? && t in ws[n].books
    ensures var task, vault := ws[n].s.tasks[t], Vault(t, ws[n].s.config.value.mint);
            && vault in ws[n].s.ledger
            && Bal(ws[n].s.ledger, vault) ==
               task.bounty * (task.maxSlots - task.slotsApproved - task.slotsRefunded) + ws[n].books[t].gifts
  {
    FundedTasksArePinned(ws, sts, n, t);
    FundingFloor(ws, sts, n, t);
  }

  /** A settlement instruction is refused by its opening checks and by nothing else. */
  lemma OpeningChecksDecide(ws: seq<World>, sts: seq<Step>, n: nat, st: Step)
    requires IsHistory(ws, sts) && n < |ws| && NoFundedRepin(ws, sts, n)
    requires SettlementStep(st) && Constraints(ws[n].s, st).None?
    ensures Guards(ws[n].s, st) == OpeningChecks(ws[n].s, st)
  {
    RefusedIff(ws, sts, n, st);
    if OpeningChecks(ws[n].s, st).None? {
      ChecksFindActiveClaim(ws[n].s, st);
      HistoryIsSound(ws, sts, n);
      ActiveClaimLeavesRoom(ws[n].s, st.claim);
      FundedTasksArePinned(ws, sts, n, st.task);
      OpeningGuardsSuffice(ws, sts, n, st);
    }
  }

  /**
   Progress: an open task can be wound up by claimers, the clock and cranks alone
   exactly when it has a deadline, and then nothing is left in its vault.
   */
  lemma DeadlineDecides(ws: seq<World>, sts: seq<Step>, n: nat, t: TaskId)
    requires IsHistory(ws, sts) && n < |ws| && NoFundedRepin(ws, sts, n)
    requires t in ws[n].s.tasks && ws[n].s.tasks[t].status.Open?
    requires ws[n].s.now + 1_209_600 <= I64_MAX
    ensures ws[n].s.config.Some?
    ensures (exists plan :: WindsUpUnaided(ws[n], plan, t, ws[n].s.config.value.mint)) <==>
            ws[n].s.tasks[t].deadline > 0
  {
    FundedTasksArePinned(ws, sts, n, t);
    HistoryIsSound(ws, sts, n);
    ProgressIff(ws[n], t);
  }

  /**
   Every close settles in full and for good: the vault is gone, claimers and the
   fee vault together have had one bounty per paid slot, and the poster has had
   the bounties of all other slots and every gift.
   */
  lemma EveryCloseSettles(ws: seq<World>, sts: seq<Step>, i: nat, j: nat, t: TaskId)
    requires IsHistory(ws, sts) && i < j < |ws| && NoFundedRepin(ws, sts, i) && Closes(sts[i], t)
    ensures t in ws[i].books && t in ws[j].books && t in ws[j].s.tasks
    ensures Vault(t, ws[i].books[t].mint) !in ws[i + 1].s.ledger
    ensures var task, k := ws[j].s.tasks[t], ws[j].books[t];
            && k.net + k.fees == task.bounty * task.slotsApproved
            && k.refunds + k.swept == task.bounty * (task.maxSlots - task.slotsApproved) + ws[i].books[t].gifts
  {
    CloseSettles(ws, sts, i, j, t);
    assert Follows(ws, sts, i);
    ClosingStepFindsOpenTask(ws[i].s, sts[i], t);
    FundedTasksArePinned(ws, sts, i, t);
    OpenTaskStays(ws[i], sts[i], t);
    ClosedIsFrozen(ws, sts, i + 1, j, t);
  }

  lemma ClosingStepFindsOpenTask(s: State, st: Step, t: TaskId)
    requires Refuse(s, st).None? && Closes(st, t)
    ensures t in s.tasks && s.tasks[t].status.Open?
  {
  }

  /** Every cancel refunds the poster in full: the deposit and every gift, and the vault is gone. */
  lemma EveryCancelRefunds(ws: seq<World>, sts: seq<Step>, i: nat)
    requires IsHistory(ws, sts) && i < |sts| && NoFundedRepin(ws, sts, i) && sts[i].CancelBeforeEnroll?
    ensures sts[i].task in ws[i].s.tasks && sts[i].task in ws[i].books && ws[i].s.config.Some?
    ensures var t, poster, k := sts[i].task, ws[i].s.tasks[sts[i].task].poster, ws[i].books[sts[i].task];
            && k.deposit == ws[i].s.tasks[t].bounty * ws[i].s.tasks[t].maxSlots
            && RefundsAll(PaymentAt(ws, sts, i), t, poster, k)
            && Vault(t, k.mint) !in ws[i + 1].s.ledger
  {
    CancelRefunds(ws, sts, i);
    assert Follows(ws, sts, i);
    FundedTasksArePinned(ws, sts, i, sts[i].task);
    SettlementLedger(ws, sts, i, sts[i].task);
  }

  /** The task with this id is open and the mint is pinned: then this is its funding vault. */
  predicate IsFunded(s: State, t: TaskId, mint: Key) {
    t in s.tasks && s.tasks[t].status.Open? && s.config.Some? && s.config.value.mint == mint
  }

  /**
   Task ids can be reused: a vault that is not the funding vault of an open task
   holds nothing but what it held before the program was initialized and what
   was sent to it since. So no deposit outlives its task, and a new task on an
   old id finds no token of the old one's poster.
   */
  lemma {:induction false} NoDepositIsLeftBehind(ws: seq<World>, sts: seq<Step>, n: nat, t: TaskId, mint: Key)
    requires IsHistory(ws, sts) && n < |ws| && NoFundedRepin(ws, sts, n) && !IsFunded(ws[n].s, t, mint)
    ensures Bal(ws[n].s.ledger, Vault(t, mint)) <=
            Bal(ws[0].s.ledger, Vault(t, mint)) + Sent(ws, sts, n, Vault(t, mint))
  {
    if n > 0 {
      StateStep(ws, sts, n - 1);
      var s, st := ws[n - 1].s, sts[n - 1];
      if IsFunded(s, t, mint) {
        DefundingEmptiesVault(s, st, t, mint);
      } else {
        NoDepositIsLeftBehind(ws, sts, n - 1, t, mint);
        LedgerLaw(s, st, Vault(t, mint));
        OnlySentTokensArrive(s, st, t, mint);
      }
    }
  }

  /** An open task in the pinned mint ends by a sweep of its funding vault, unless the mint is re-pinned. */
  lemma DefundingEmptiesVault(s: State, st: Step, t: TaskId, mint: Key)
    requires Refuse(s, st).None? && IsFunded(s, t, mint) && !IsFunded(Effect(s, st), t, mint)
    requires st.UpdateMint? ==> AllClosed(s)
    ensures Bal(Effect(s, st).ledger, Vault(t, mint)) == 0
  {
  }

  lemma OnlySentTokensArrive(s: State, st: Step, t: TaskId, mint: Key)
    requires Refuse(s, st).None? && !IsFunded(Effect(s, st), t, mint)
    ensures Credit(PaymentOf(s, st), Vault(t, mint)) == SentTo(st, Vault(t, mint))
  {
  }
}
