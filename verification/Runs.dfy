/**
 Runs: sequences of successful steps, by anyone and in any order, with the
 world before and after each. Failed transactions change nothing and are left
 out. The theorems of this file hold at every point of every run.
 */
module Runs {
  import opened Prelude
  import opened Accounts
  import opened Tokens
  import opened Slots
  import opened Instructions
  import opened Invariant
  import opened Bookkeeping

  ghost predicate Follows(ws: seq<World>, sts: seq<Step>, i: nat)
    requires i < |sts| && |ws| == |sts| + 1
  {
    Refuse(ws[i].s, sts[i]).None? && ws[i + 1] == Next(ws[i], sts[i])
  }

  ghost predicate IsRun(ws: seq<World>, sts: seq<Step>) {
    && |ws| == |sts| + 1
    && forall i: nat :: i < |sts| ==> Follows(ws, sts, i)
  }

  /** A run from before the program's initialization. */
  ghost predicate IsHistory(ws: seq<World>, sts: seq<Step>) {
    IsRun(ws, sts) && Genesis(ws[0].s) && ws[0].books == map[]
  }

  /** The payment of step `i` of a run. */
  ghost function PaymentAt(ws: seq<World>, sts: seq<Step>, i: nat): Payment
    requires IsRun(ws, sts) && i < |sts|
  {
    assert Follows(ws, sts, i);
    PaymentOf(ws[i].s, sts[i])
  }

  lemma GenesisIsSound(w: World)
    requires Genesis(w.s) && w.books == map[]
    ensures Sound(w)
  {
  }

  /** A run that starts sound is sound at every point. */
  lemma {:induction false} RunStaysSound(ws: seq<World>, sts: seq<Step>, n: nat)
    requires IsRun(ws, sts) && Sound(ws[0]) && n < |ws|
    ensures Sound(ws[n])
  {
    if n > 0 {
      RunStaysSound(ws, sts, n - 1);
      assert Follows(ws, sts, n - 1);
      SoundStep(ws[n - 1], sts[n - 1]);
    }
  }

  /** Every reachable world satisfies the invariant and has balanced books. */
  lemma HistoryIsSound(ws: seq<World>, sts: seq<Step>, n: nat)
    requires IsHistory(ws, sts) && n < |ws|
    ensures Sound(ws[n])
  {
    GenesisIsSound(ws[0]);
    RunStaysSound(ws, sts, n);
  }

  /** The program state before and after a step of a history. */
  lemma StateStep(ws: seq<World>, sts: seq<Step>, i: nat)
    requires IsHistory(ws, sts) && i < |sts|
    ensures Inv(ws[i].s) && Refuse(ws[i].s, sts[i]).None?
    ensures ws[i + 1].s == Effect(ws[i].s, sts[i])
  {
    HistoryIsSound(ws, sts, i);
    assert Follows(ws, sts, i);
  }

  // ----- conservation -----

  /** No run creates or destroys a token of any mint. */
  lemma {:induction false} TokensAreConserved(ws: seq<World>, sts: seq<Step>, n: nat, mint: Key)
    requires IsRun(ws, sts) && n < |ws|
    ensures Supply(ws[n].s.ledger, mint) == Supply(ws[0].s.ledger, mint)
  {
    if n > 0 {
      TokensAreConserved(ws, sts, n - 1, mint);
      assert Follows(ws, sts, n - 1);
      SupplyIsConserved(ws[n - 1].s, sts[n - 1], mint);
    }
  }

  /** What a run has debited and credited an account so far. */
  ghost function Debits(ws: seq<World>, sts: seq<Step>, n: nat, a: Account): nat
    requires IsRun(ws, sts) && n <= |sts|
  {
    if n == 0 then 0 else Debits(ws, sts, n - 1, a) + Debit(PaymentAt(ws, sts, n - 1), a)
  }

  ghost function Credits(ws: seq<World>, sts: seq<Step>, n: nat, a: Account): nat
    requires IsRun(ws, sts) && n <= |sts|
  {
    if n == 0 then 0 else Credits(ws, sts, n - 1, a) + Credit(PaymentAt(ws, sts, n - 1), a)
  }

  /** Every balance is accounted for by the payments of the run, and by nothing else. */
  lemma {:induction false} BalancesFollowPayments(ws: seq<World>, sts: seq<Step>, n: nat, a: Account)
    requires IsRun(ws, sts) && n <= |sts|
    ensures Bal(ws[n].s.ledger, a) + Debits(ws, sts, n, a) == Bal(ws[0].s.ledger, a) + Credits(ws, sts, n, a)
  {
    if n > 0 {
      BalancesFollowPayments(ws, sts, n - 1, a);
      assert Follows(ws, sts, n - 1);
      LedgerLaw(ws[n - 1].s, sts[n - 1], a);
    }
  }

  /** Fees routed to, and by the arguments of a step, tokens sent to an account and withdrawn from the fee vault. */
  function RoutedFee(p: Payment, mint: Key): nat {
    if p.PaidOut? && p.mint == mint then p.fee else 0
  }

  function SentTo(st: Step, a: Account): nat {
    if (st.GiveTokens? || st.WithdrawFees?) && st.dst == a then st.amount else 0
  }

  function WithdrawnFee(s: State, st: Step, mint: Key): nat {
    if st.WithdrawFees? && s.config.Some? && s.config.value.mint == mint then st.amount else 0
  }

  ghost function Routed(ws: seq<World>, sts: seq<Step>, n: nat, mint: Key): nat
    requires IsRun(ws, sts) && n <= |sts|
  {
    if n == 0 then 0 else Routed(ws, sts, n - 1, mint) + RoutedFee(PaymentAt(ws, sts, n - 1), mint)
  }

  ghost function Sent(ws: seq<World>, sts: seq<Step>, n: nat, a: Account): nat
    requires IsRun(ws, sts) && n <= |sts|
  {
    if n == 0 then 0 else Sent(ws, sts, n - 1, a) + SentTo(sts[n - 1], a)
  }

  ghost function Withdrawals(ws: seq<World>, sts: seq<Step>, n: nat, mint: Key): nat
    requires IsRun(ws, sts) && n <= |sts|
  {
    if n == 0 then 0 else Withdrawals(ws, sts, n - 1, mint) + WithdrawnFee(ws[n - 1].s, sts[n - 1], mint)
  }

  /**
   The fee vault holds the fees routed to it plus what was sent to it minus the
   amounts the withdrawals asked for, at every point of every run and in every mint, also when a
   withdrawal is sent to a task vault or back to the fee vault.
   */
  lemma {:induction false} FeeVaultAccount(ws: seq<World>, sts: seq<Step>, n: nat, mint: Key)
    requires IsRun(ws, sts) && n <= |sts|
    ensures Bal(ws[n].s.ledger, FeeVault(mint)) + Withdrawals(ws, sts, n, mint) ==
            Bal(ws[0].s.ledger, FeeVault(mint)) + Routed(ws, sts, n, mint) + Sent(ws, sts, n, FeeVault(mint))
  {
    if n > 0 {
      FeeVaultAccount(ws, sts, n - 1, mint);
      assert Follows(ws, sts, n - 1);
      LedgerLaw(ws[n - 1].s, sts[n - 1], FeeVault(mint));
      FeeVaultStep(ws[n - 1].s, sts[n - 1], mint);
    }
  }

  lemma FeeVaultStep(s: State, st: Step, mint: Key)
    requires Refuse(s, st).None?
    ensures var p := PaymentOf(s, st);
            && Debit(p, FeeVault(mint)) == WithdrawnFee(s, st, mint)
            && Credit(p, FeeVault(mint)) == RoutedFee(p, mint) + SentTo(st, FeeVault(mint))
  {
  }

  // ----- the configuration -----

  /** The admin, the mint and the fee set by the latest of the first `n` steps that sets one. */
  function LatestAdmin(sts: seq<Step>, n: nat): Option<Key>
    requires n <= |sts|
  {
    if n == 0 then None
    else match sts[n - 1]
      case InitializeConfig(_, admin, _, _) => Some(admin)
      case UpdateAdmin(_, newAdmin) => Some(newAdmin)
      case _ => LatestAdmin(sts, n - 1)
  }

  function LatestMint(sts: seq<Step>, n: nat): Option<Key>
    requires n <= |sts|
  {
    if n == 0 then None
    else match sts[n - 1]
      case InitializeConfig(_, _, _, mint) => Some(mint)
      case UpdateMint(_, newMint) => Some(newMint)
      case _ => LatestMint(sts, n - 1)
  }

  function LatestFee(sts: seq<Step>, n: nat): Option<nat>
    requires n <= |sts|
  {
    if n == 0 then None
    else match sts[n - 1]
      case InitializeConfig(_, _, feeBps, _) => Some(feeBps)
      case UpdateFee(_, newFeeBps) => Some(newFeeBps)
      case _ => LatestFee(sts, n - 1)
  }

  /** The step is one only the admin may sign. */
  predicate AdminStep(st: Step) {
    st.UpdateAdmin? || st.UpdateFee? || st.UpdateMint? || st.ResolveDispute? || st.WithdrawFees?
  }

  predicate ConfigIs(config: Option<Config>, admin: Option<Key>, mint: Option<Key>, fee: Option<nat>) {
    if config.None? then admin.None? && mint.None? && fee.None?
    else admin == Some(config.value.admin) && mint == Some(config.value.mint) && fee == Some(config.value.feeBps)
  }

  /**
   The configuration is what the latest step setting each field said, never
   above the fee cap; and every admin instruction in a run is signed by the
   admin appointed last.
   */
  lemma {:induction false} ConfigIsLatest(ws: seq<World>, sts: seq<Step>, n: nat)
    requires IsHistory(ws, sts) && n < |ws|
    ensures ConfigIs(ws[n].s.config, LatestAdmin(sts, n), LatestMint(sts, n), LatestFee(sts, n))
    ensures LatestFee(sts, n).Some? ==> LatestFee(sts, n).value <= 500
    ensures n < |sts| && AdminStep(sts[n]) ==> LatestAdmin(sts, n) == Some(sts[n].signer)
  {
    if n > 0 {
      ConfigIsLatest(ws, sts, n - 1);
      ConfigAcross(ws, sts, n - 1);
    }
    if n < |sts| && AdminStep(sts[n]) {
      AdminSigns(ws, sts, n);
    }
  }

  lemma ConfigAcross(ws: seq<World>, sts: seq<Step>, i: nat)
    requires IsHistory(ws, sts) && i < |sts|
    requires ConfigIs(ws[i].s.config, LatestAdmin(sts, i), LatestMint(sts, i), LatestFee(sts, i))
    ensures ConfigIs(ws[i + 1].s.config, LatestAdmin(sts, i + 1), LatestMint(sts, i + 1), LatestFee(sts, i + 1))
    ensures sts[i].InitializeConfig? ==> sts[i].feeBps <= 500
    ensures sts[i].UpdateFee? ==> sts[i].newFeeBps <= 500
  {
    assert Follows(ws, sts, i);
    ConfigStep(ws[i].s, sts[i]);
  }

  lemma AdminSigns(ws: seq<World>, sts: seq<Step>, i: nat)
    requires IsHistory(ws, sts) && i < |sts| && AdminStep(sts[i])
    ensures ws[i].s.config.Some? && sts[i].signer == ws[i].s.config.value.admin
  {
    assert Follows(ws, sts, i);
  }

  lemma ConfigStep(s: State, st: Step)
    requires Refuse(s, st).None?
    ensures st.InitializeConfig? ==>
              s.config.None? && st.feeBps <= 500
              && Effect(s, st).config == Some(Config(st.admin, st.mint, st.feeBps))
    ensures st.UpdateAdmin? ==> s.config.Some? && Effect(s, st).config == Some(s.config.value.(admin := st.newAdmin))
    ensures st.UpdateMint? ==> s.config.Some? && Effect(s, st).config == Some(s.config.value.(mint := st.newMint))
    ensures st.UpdateFee? ==>
              s.config.Some? && st.newFeeBps <= 500
              && Effect(s, st).config == Some(s.config.value.(feeBps := st.newFeeBps))
    ensures !st.InitializeConfig? && !st.UpdateAdmin? && !st.UpdateMint? && !st.UpdateFee? ==>
              Effect(s, st).config == s.config
  {
  }

  // ----- the counters of a task -----

  /**
   In every reachable state the three counters of a task are exact: they count
   its claims, those paid, and those refunded, over the one map of all claims.
   */
  lemma CountersAreExact(ws: seq<World>, sts: seq<Step>, n: nat, t: TaskId)
    requires IsHistory(ws, sts) && n < |ws| && t in ws[n].s.tasks
    ensures var task, claims := ws[n].s.tasks[t], ws[n].s.claims;
            && task.slotsEnrolled == |Members(claims, t)|
            && task.slotsApproved == |PaidClaims(claims, t)|
            && task.slotsRefunded == |RefundedClaims(claims, t)|
  {
    HistoryIsSound(ws, sts, n);
    assert TaskShape(ws[n].s.tasks[t], t, ws[n].s.claims);
    BoxesByStatus(ws[n].s.claims, t);
  }

  /**
   The doubly saturating gate of `close_task` passes exactly when every claim
   of the task is terminal, although the task stores no list of its claims.
   */
  lemma CloseGate(ws: seq<World>, sts: seq<Step>, n: nat, t: TaskId)
    requires IsHistory(ws, sts) && n < |ws| && t in ws[n].s.tasks
    ensures ActiveSlots(ws[n].s.tasks[t]) == 0 <==> AllTerminal(ws[n].s, t)
    ensures ActiveSlots(ws[n].s.tasks[t]) == |InBox(ws[n].s.claims, t, Active)|
  {
    HistoryIsSound(ws, sts, n);
    CloseGateIsExact(ws[n].s, t);
  }

  predicate AllTerminal(s: State, t: TaskId) {
    forall c :: c in s.claims && s.claims[c].task == t ==> IsTerminal(s.claims[c].status)
  }

  /**
   A task closes only at the word of its poster or after its deadline, and only
   once every one of its claims is terminal.
   */
  lemma ClosingIsAuthorized(ws: seq<World>, sts: seq<Step>, i: nat, t: TaskId)
    requires IsHistory(ws, sts) && i < |sts| && t in ws[i].s.tasks && ws[i].s.tasks[t].status.Open?
    requires t in ws[i + 1].s.tasks && ws[i + 1].s.tasks[t].status.Closed?
    ensures Closes(sts[i], t) && AllTerminal(ws[i].s, t)
    ensures sts[i] == CloseTask(ws[i].s.tasks[t].poster, t) || PastDeadline(ws[i].s.tasks[t], ws[i].s.now)
  {
    StateStep(ws, sts, i);
    ClosingCases(ws[i].s, sts[i], t);
    CloseGate(ws, sts, i, t);
  }

  lemma ClosingCases(s: State, st: Step, t: TaskId)
    requires Refuse(s, st).None? && t in s.tasks && s.tasks[t].status.Open?
    requires t in NextTasks(s, st) && NextTasks(s, st)[t].status.Closed?
    ensures Closes(st, t) && ActiveSlots(s.tasks[t]) == 0
    ensures st == CloseTask(s.tasks[t].poster, t) || PastDeadline(s.tasks[t], s.now)
  {
  }

  // ----- the settlement of a task -----

  /**
   The books of a task at any point of any run, from its initialization on and
   also after it was cancelled, until its id is initialized again. What went into
   its funding vault equals what came out plus what is there. While the task
   exists, counting every vault its slots were settled from, claimers and fee
   vaults together got one bounty per paid slot, the poster one per refunded
   slot, and the fees never exceed the cap on the paid bounties, however often
   the rate or the mint changed. A cancelled task never settled a slot.
   */
  lemma SettlementLedger(ws: seq<World>, sts: seq<Step>, n: nat, t: TaskId)
    requires IsHistory(ws, sts) && n < |ws| && (t in ws[n].s.tasks || t in ws[n].books)
    ensures t in ws[n].books && FundingVaultAccount(ws[n].books[t], Bal(ws[n].s.ledger, Vault(t, ws[n].books[t].mint)))
    ensures t in ws[n].s.tasks ==>
              && ws[n].books[t].deposit == ws[n].s.tasks[t].bounty * ws[n].s.tasks[t].maxSlots
              && PaidInTotal(ws[n].s.tasks[t], ws[n].books[t])
    ensures t !in ws[n].s.tasks ==> NothingSettled(ws[n].books[t])
  {
    if t in ws[n].s.tasks {
      HistoryIsSound(ws, sts, n);
      assert TaskBalances(ws[n].s, ws[n].books, t);
      TotalsOfBook(ws[n].s.tasks[t], ws[n].books[t], Bal(ws[n].s.ledger, Vault(t, ws[n].books[t].mint)));
    } else {
      RemovedTaskLedger(ws, sts, n, t);
    }
  }

  /** The books of a cancelled task: only its sweep and gifts moved anything. */
  lemma {:induction false} RemovedTaskLedger(ws: seq<World>, sts: seq<Step>, n: nat, t: TaskId)
    requires IsHistory(ws, sts) && n < |ws| && t in ws[n].books && t !in ws[n].s.tasks
    ensures NothingSettled(ws[n].books[t])
    ensures FundingVaultAccount(ws[n].books[t], Bal(ws[n].s.ledger, Vault(t, ws[n].books[t].mint)))
  {
    assert n > 0;
    assert Follows(ws, sts, n - 1);
    var w, st := ws[n - 1], sts[n - 1];
    if t in w.s.tasks {
      HistoryIsSound(ws, sts, n - 1);
      TermsAreFrozen(w.s, st, t);
      CancellingStep(w, st);
    } else {
      AbsentTaskStep(w, st, t);
      RemovedTaskLedger(ws, sts, n - 1, t);
      LedgerLaw(w.s, st, Vault(t, w.books[t].mint));
    }
  }

  /**
   The funding vault of an open task never falls below what its unsettled slots
   are owed, across arbitrary re-pins of the mint; and it holds exactly that
   plus the gifts as long as no slot was settled in another mint.
   */
  lemma FundingFloor(ws: seq<World>, sts: seq<Step>, n: nat, t: TaskId)
    requires IsHistory(ws, sts) && n < |ws| && t in ws[n].s.tasks && ws[n].s.tasks[t].status.Open?
    ensures t in ws[n].books && Vault(t, ws[n].books[t].mint) in ws[n].s.ledger
    ensures VaultIsExact(ws[n].s.tasks[t], ws[n].books[t], Bal(ws[n].s.ledger, Vault(t, ws[n].books[t].mint)))
    ensures var task := ws[n].s.tasks[t];
            task.slotsApproved + task.slotsRefunded <= task.slotsEnrolled <= task.maxSlots <= 100
  {
    HistoryIsSound(ws, sts, n);
    ExactSolvency(ws[n], t);
    assert TaskShape(ws[n].s.tasks[t], t, ws[n].s.claims);
  }

  // ----- what never changes -----

  /** As long as a task is not cancelled, its terms stay as they were set. */
  lemma {:induction false} TermsNeverChange(ws: seq<World>, sts: seq<Step>, i: nat, j: nat, t: TaskId)
    requires IsHistory(ws, sts) && i <= j < |ws| && t in ws[i].s.tasks
    requires forall k: nat :: i <= k < j ==> !(sts[k].CancelBeforeEnroll? && sts[k].task == t)
    ensures t in ws[j].s.tasks && SameTerms(ws[i].s.tasks[t], ws[j].s.tasks[t])
  {
    if i < j {
      TermsNeverChange(ws, sts, i, j - 1, t);
      StateStep(ws, sts, j - 1);
      TermsAreFrozen(ws[j - 1].s, sts[j - 1], t);
    }
  }

  /** The record carries the terms the poster signed when initializing the task. */
  predicate AsSigned(task: Task, st: Step)
    requires st.InitializeTask?
  {
    && task.poster == st.poster && task.bounty == st.bounty && task.maxSlots == st.maxSlots
    && task.deadline == st.deadline && task.claimDeadlineSecs == st.claimDeadlineSecs
  }

  /** From its initialization on, a task that is not cancelled carries the terms its poster signed. */
  lemma TermsAreAsSigned(ws: seq<World>, sts: seq<Step>, i: nat, j: nat)
    requires IsHistory(ws, sts) && i < j < |ws| && sts[i].InitializeTask?
    requires forall k: nat :: i < k < j ==> !(sts[k].CancelBeforeEnroll? && sts[k].task == sts[i].task)
    ensures sts[i].task in ws[j].s.tasks && AsSigned(ws[j].s.tasks[sts[i].task], sts[i])
  {
    FundingStep(ws, sts, i);
    TermsNeverChange(ws, sts, i + 1, j, sts[i].task);
  }

  /** A new task is open as signed, its vault is new, and its deposit covers every slot. */
  lemma FundingStep(ws: seq<World>, sts: seq<Step>, i: nat)
    requires IsHistory(ws, sts) && i < |sts| && sts[i].InitializeTask?
    ensures sts[i].task in ws[i + 1].s.tasks && AsSigned(ws[i + 1].s.tasks[sts[i].task], sts[i])
    ensures ws[i + 1].s.tasks[sts[i].task].status.Open? && ws[i].s.config.Some?
    ensures Vault(sts[i].task, ws[i].s.config.value.mint) !in ws[i].s.ledger
    ensures PaymentAt(ws, sts, i) ==
            Deposited(sts[i].task, ws[i].s.config.value.mint, sts[i].poster, sts[i].bounty * sts[i].maxSlots)
  {
    assert Follows(ws, sts, i);
  }

  /** The poster alone pays the whole deposit, into the new vault and nowhere else. */
  lemma DepositIsThePosters(ws: seq<World>, sts: seq<Step>, i: nat, a: Account)
    requires IsHistory(ws, sts) && i < |sts| && sts[i].InitializeTask?
    ensures ws[i].s.config.Some?
    ensures var mint, total := ws[i].s.config.value.mint, sts[i].bounty * sts[i].maxSlots;
            var before, after := Bal(ws[i].s.ledger, a), Bal(ws[i + 1].s.ledger, a);
            if a == Wallet(sts[i].poster, mint) then after == before - total
            else if a == Vault(sts[i].task, mint) then before == 0 && after == total
            else after == before
  {
    FundingStep(ws, sts, i);
    assert Follows(ws, sts, i);
    LedgerLaw(ws[i].s, sts[i], a);
  }

  /**
   A task is only ever removed by its own poster, while open and before anyone
   enrolled, and the poster gets what its vault in the pinned mint holds. Whether
   that is the deposit is in CancelRefunds.
   */
  lemma RemovalIsAuthorized(ws: seq<World>, sts: seq<Step>, i: nat, t: TaskId)
    requires IsHistory(ws, sts) && i < |sts| && t in ws[i].s.tasks && t !in ws[i + 1].s.tasks
    ensures sts[i] == CancelBeforeEnroll(ws[i].s.tasks[t].poster, t)
    ensures ws[i].s.tasks[t].status.Open? && Members(ws[i].s.claims, t) == {} && ws[i].s.config.Some?
    ensures PaymentAt(ws, sts, i) == Sweep(ws[i].s, t)
  {
    StateStep(ws, sts, i);
    TermsAreFrozen(ws[i].s, sts[i], t);
    EmptyTaskHasNoClaims(ws[i].s, t);
  }

  // ----- cancelled tasks -----

  /** A cancel that returns everything ever put into the funding vault and closes it. */
  predicate RefundsAll(p: Payment, t: TaskId, poster: Key, k: Book) {
    p == Swept(t, k.mint, poster, k.deposit + k.gifts)
  }

  /**
   Cancelling is documented to refund the poster in full. The funding vault then
   always holds the whole deposit and every gift. All of it goes to the poster,
   and the vault is gone, exactly when the funding mint is the pinned one;
   otherwise the cancel leaves the funding vault as it is and the poster's wallet
   in the funding mint gets nothing.
   */
  lemma CancelRefunds(ws: seq<World>, sts: seq<Step>, i: nat)
    requires IsHistory(ws, sts) && i < |sts| && sts[i].CancelBeforeEnroll?
    ensures sts[i].task in ws[i].s.tasks && sts[i].task in ws[i].books && ws[i].s.config.Some?
    ensures var t, poster, k := sts[i].task, ws[i].s.tasks[sts[i].task].poster, ws[i].books[sts[i].task];
            var vault, wallet, pinned := Vault(t, k.mint), Wallet(poster, k.mint), ws[i].s.config.value.mint;
            && Bal(ws[i].s.ledger, vault) == k.deposit + k.gifts && 0 < k.deposit
            && (RefundsAll(PaymentAt(ws, sts, i), t, poster, k) <==> pinned == k.mint)
            && (vault in ws[i + 1].s.ledger <==> pinned != k.mint)
            && Bal(ws[i + 1].s.ledger, vault) == (if pinned == k.mint then 0 else k.deposit + k.gifts)
            && Bal(ws[i + 1].s.ledger, wallet) ==
               Bal(ws[i].s.ledger, wallet) + (if pinned == k.mint then k.deposit + k.gifts else 0)
  {
    HistoryIsSound(ws, sts, i);
    assert Follows(ws, sts, i);
    CancellingStep(ws[i], sts[i]);
  }

  /** What cancelling a task does to its book, its funding vault and its poster's wallet. */
  lemma CancellingStep(w: World, st: Step)
    requires Sound(w) && Refuse(w.s, st).None? && st.CancelBeforeEnroll?
    ensures st.task in w.books && w.s.config.Some? && PaymentOf(w.s, st) == Sweep(w.s, st.task)
    ensures var t, poster, k, k' := st.task, w.s.tasks[st.task].poster, w.books[st.task], Next(w, st).books[st.task];
            var vault, wallet, pinned := Vault(t, k.mint), Wallet(poster, k.mint), w.s.config.value.mint;
            var ledger' := Effect(w.s, st).ledger;
            && Bal(w.s.ledger, vault) == k.deposit + k.gifts && 0 < k.deposit
            && (vault in ledger' <==> pinned != k.mint)
            && Bal(ledger', vault) == (if pinned == k.mint then 0 else k.deposit + k.gifts)
            && Bal(ledger', wallet) == Bal(w.s.ledger, wallet) + (if pinned == k.mint then k.deposit + k.gifts else 0)
            && NothingSettled(k') && FundingVaultAccount(k', Bal(ledger', vault)) && k'.mint == k.mint
  {
    var t := st.task;
    assert TaskBalances(w.s, w.books, t) && TaskShape(w.s.tasks[t], t, w.s.claims);
    var k := w.books[t];
    UnsettledBook(w.s.tasks[t], k, Bal(w.s.ledger, Vault(t, k.mint)));
    BookAfter(w.books, PaymentOf(w.s, st), t);
    LedgerLaw(w.s, st, Vault(t, k.mint));
    LedgerLaw(w.s, st, Wallet(w.s.tasks[t].poster, k.mint));
    CancelKeepsOtherVaults(w.s, st, k.mint);
  }

  lemma CancelKeepsOtherVaults(s: State, st: Step, mint: Key)
    requires Refuse(s, st).None? && st.CancelBeforeEnroll? && Vault(st.task, mint) in s.ledger
    ensures Vault(st.task, mint) in Effect(s, st).ledger <==> mint != s.config.value.mint
  {
  }

  lemma UnsettledBook(task: Task, k: Book, vault: nat)
    requires BookBalances(task, k, vault) && task.status.Open? && 0 < task.bounty && 1 <= task.maxSlots
    requires task.slotsApproved == task.slotsRefunded == 0
    ensures NothingSettled(k) && k.swept == 0 && vault == k.deposit + k.gifts && 0 < k.deposit
  {
    assert task.bounty * 0 == 0;
    TimesMonotonic(task.bounty, 1, task.maxSlots);
  }

  /** None of the steps from `i` to `j` initializes the task. */
  predicate NotInitialized(sts: seq<Step>, i: nat, j: nat, t: TaskId)
    requires i <= j <= |sts|
  {
    forall k: nat :: i <= k < j ==> !(sts[k].InitializeTask? && sts[k].task == t)
  }

  /** A step that does not initialize an absent task leaves it absent and its book alone, gifts aside. */
  lemma AbsentTaskStep(w: World, st: Step, t: TaskId)
    requires Refuse(w.s, st).None? && t !in w.s.tasks && !(st.InitializeTask? && st.task == t)
    ensures t !in Next(w, st).s.tasks && TaskOf(st) != Some(t)
    ensures t in Next(w, st).books <==> t in w.books
    ensures t in w.books ==> SameSettlement(w.books[t], Next(w, st).books[t])
    ensures t in w.books ==>
              var p, vault := PaymentOf(w.s, st), Vault(t, w.books[t].mint);
              Debit(p, vault) == 0 && Next(w, st).books[t].gifts == w.books[t].gifts + Credit(p, vault)
  {
    AbsentTaskIsNotNamed(w.s, st, t);
    PaymentNamesTask(w.s, st);
  }

  lemma AbsentTaskIsNotNamed(s: State, st: Step, t: TaskId)
    requires Refuse(s, st).None? && t !in s.tasks && !(st.InitializeTask? && st.task == t)
    ensures t !in NextTasks(s, st) && TaskOf(st) != Some(t)
  {
  }

  /**
   After a task is cancelled, and until its id is initialized again, its
   settlement is final and none of its vaults, in any mint, ever falls.
   */
  lemma {:induction false} RemovedIsFrozen(
      ws: seq<World>, sts: seq<Step>, i: nat, j: nat, t: TaskId, mint: Key)
    requires IsHistory(ws, sts) && i <= j < |ws| && t !in ws[i].s.tasks && NotInitialized(sts, i, j, t)
    ensures t !in ws[j].s.tasks && (t in ws[j].books <==> t in ws[i].books)
    ensures t in ws[i].books ==> SameSettlement(ws[i].books[t], ws[j].books[t])
    ensures Bal(ws[i].s.ledger, Vault(t, mint)) <= Bal(ws[j].s.ledger, Vault(t, mint))
  {
    if i < j {
      RemovedIsFrozen(ws, sts, i, j - 1, t, mint);
      assert Follows(ws, sts, j - 1);
      AbsentTaskStep(ws[j - 1], sts[j - 1], t);
      PaymentNamesTask(ws[j - 1].s, sts[j - 1]);
      LedgerLaw(ws[j - 1].s, sts[j - 1], Vault(t, mint));
    }
  }

  /**
   What guards the tokens in a vault of any task id: in every run its balance
   falls only in a step on the open task that has this id at that moment, and
   only while the vault's mint is pinned.
   */
  lemma OnlyOpenTaskLowersVault(ws: seq<World>, sts: seq<Step>, i: nat, t: TaskId, mint: Key)
    requires IsHistory(ws, sts) && i < |sts|
    requires Bal(ws[i + 1].s.ledger, Vault(t, mint)) < Bal(ws[i].s.ledger, Vault(t, mint))
    ensures TaskOf(sts[i]) == Some(t) && t in ws[i].s.tasks && ws[i].s.tasks[t].status.Open?
    ensures ws[i].s.config.Some? && ws[i].s.config.value.mint == mint
  {
    StateStep(ws, sts, i);
    LedgerLaw(ws[i].s, sts[i], Vault(t, mint));
    DebitsPinnedVault(ws[i].s, sts[i], t, mint);
    if ws[i].s.tasks[t].status.Closed? {
      ClosedTaskIsRefused(ws[i].s, sts[i], t);
    }
  }

  lemma DebitsPinnedVault(s: State, st: Step, t: TaskId, mint: Key)
    requires Refuse(s, st).None? && Debit(PaymentOf(s, st), Vault(t, mint)) > 0
    ensures TaskOf(st) == Some(t) && t in s.tasks && s.config.Some? && s.config.value.mint == mint
  {
  }

  // ----- closed tasks are frozen -----

  /** What a closed task keeps, from one world to a later one. */
  ghost predicate KeptTask(s: State, s': State, t: TaskId)
    requires t in s.tasks
  {
    && t in s'.tasks && s'.tasks[t] == s.tasks[t]
    && Members(s'.claims, t) == Members(s.claims, t)
    && forall c :: c in Members(s.claims, t) ==> s'.claims[c] == s.claims[c]
  }

  /** The book of a task, gifts aside. */
  predicate SameSettlement(k: Book, k': Book) {
    k' == k.(gifts := k'.gifts)
  }

  /**
   No step touches a closed task, although `submit`, `open_dispute`,
   `resolve_dispute` and `auto_resolve_dispute` never look at the task's status:
   all of its claims are terminal.
   */
  lemma ClosedTaskStep(w: World, st: Step, t: TaskId)
    requires Sound(w) && Refuse(w.s, st).None? && t in w.s.tasks && w.s.tasks[t].status.Closed?
    ensures KeptTask(w.s, Next(w, st).s, t)
    ensures t in w.books && t in Next(w, st).books && SameSettlement(w.books[t], Next(w, st).books[t])
    ensures forall mint: Key :: Debit(PaymentOf(w.s, st), Vault(t, mint)) == 0
  {
    hide Inv, BookBalances, Refuse, NextTasks;
    assert TaskBalances(w.s, w.books, t);
    ClosedTaskIsRefused(w.s, st, t);
    PaymentNamesTask(w.s, st);
    OtherTaskIsUntouched(w.s, st, t);
    BookAfter(w.books, PaymentOf(w.s, st), t);
  }

  /** A successful step that names a task and writes its record or a claim finds it open. */
  lemma ClosedTaskIsRefused(s: State, st: Step, t: TaskId)
    requires Inv(s) && Refuse(s, st).None? && t in s.tasks && s.tasks[t].status.Closed?
    ensures TaskOf(st) != Some(t)
  {
    if ClaimOf(st).Some? && !st.Enroll? && st.task == t {
      WritesActiveClaim(s, st);
      ActiveClaimLeavesRoom(s, ClaimOf(st).value);
    }
  }

  /** The task an instruction names. */
  function TaskOf(st: Step): Option<TaskId> {
    match st
    case InitializeTask(_, t, _, _, _, _) => Some(t)
    case CancelBeforeEnroll(_, t) => Some(t)
    case CloseTask(_, t) => Some(t)
    case AutoCancelTask(_, t) => Some(t)
    case Enroll(_, t, _) => Some(t)
    case Submit(_, t, _, _) => Some(t)
    case ApproveClaim(_, t, _, _) => Some(t)
    case RejectClaim(_, t, _) => Some(t)
    case AutoApprove(_, t, _, _) => Some(t)
    case OpenDispute(_, t, _) => Some(t)
    case ResolveDispute(_, t, _, _, _) => Some(t)
    case AutoResolveDispute(_, t, _, _) => Some(t)
    case _ => None
  }

  /** Only a payment of the task a step names debits a vault of a task. */
  lemma PaymentNamesTask(s: State, st: Step)
    requires Refuse(s, st).None?
    ensures var p := PaymentOf(s, st);
            p.Deposited? || p.PaidOut? || p.Returned? || p.Swept? ==> TaskOf(st) == Some(p.task)
    ensures forall t: TaskId, mint: Key :: TaskOf(st) != Some(t) ==> Debit(PaymentOf(s, st), Vault(t, mint)) == 0
  {
  }

  /** A step that does not name a task keeps its record, its claims and its book, gifts aside. */
  lemma OtherTaskIsUntouched(s: State, st: Step, t: TaskId)
    requires Refuse(s, st).None? && t in s.tasks && TaskOf(st) != Some(t)
    ensures KeptTask(s, Effect(s, st), t)
  {
    if ClaimOf(st).Some? {
      WriteClaim(s.claims, ClaimOf(st).value, NextClaim(s, st), t, Active);
    }
  }

  lemma {:induction false} ClosedIsFrozen(ws: seq<World>, sts: seq<Step>, i: nat, j: nat, t: TaskId)
    requires IsHistory(ws, sts) && i <= j < |ws|
    requires t in ws[i].s.tasks && ws[i].s.tasks[t].status.Closed?
    ensures KeptTask(ws[i].s, ws[j].s, t)
    ensures t in ws[i].books && t in ws[j].books && SameSettlement(ws[i].books[t], ws[j].books[t])
  {
    if i == j {
      HistoryIsSound(ws, sts, i);
      assert TaskBalances(ws[i].s, ws[i].books, t);
    } else {
      ClosedIsFrozen(ws, sts, i, j - 1, t);
      HistoryIsSound(ws, sts, j - 1);
      assert Follows(ws, sts, j - 1);
      ClosedTaskStep(ws[j - 1], sts[j - 1], t);
      KeptTwice(ws[i].s, ws[j - 1].s, ws[j].s, t);
    }
  }

  lemma KeptTwice(a: State, b: State, c: State, t: TaskId)
    requires t in a.tasks && t in b.tasks && KeptTask(a, b, t) && KeptTask(b, c, t)
    ensures KeptTask(a, c, t)
  {
  }

  /** After a task is closed, no step pays anything out of its vaults, in any mint. */
  lemma ClosedTaskPaysNothing(ws: seq<World>, sts: seq<Step>, i: nat, j: nat, t: TaskId, mint: Key)
    requires IsHistory(ws, sts) && i <= j < |sts|
    requires t in ws[i].s.tasks && ws[i].s.tasks[t].status.Closed?
    ensures Debit(PaymentAt(ws, sts, j), Vault(t, mint)) == 0
  {
    ClosedIsFrozen(ws, sts, i, j, t);
    HistoryIsSound(ws, sts, j);
    assert Follows(ws, sts, j);
    ClosedTaskStep(ws[j], sts[j], t);
  }

  /**
   What every close settles, and that no later step of the run changes it. The
   poster has received everything not paid out of the funding vault, gifts
   included, exactly when the pinned mint was the funding mint or there was
   nothing left in the funding vault. In the funding mint the vault is gone.
   */
  lemma CloseSettles(ws: seq<World>, sts: seq<Step>, i: nat, j: nat, t: TaskId)
    requires IsHistory(ws, sts) && i < j < |ws| && Closes(sts[i], t)
    ensures t in ws[i].books && ws[i].s.config.Some? && t in ws[j].books
    ensures t in ws[i + 1].s.tasks && ws[i + 1].s.tasks[t].status.Closed? && KeptTask(ws[i + 1].s, ws[j].s, t)
    ensures ws[i].s.config.value.mint == ws[i].books[t].mint ==>
              Vault(t, ws[i].books[t].mint) !in ws[i + 1].s.ledger
    ensures SettledInFull(ws[i + 1].s.tasks[t], ws[j].books[t], ws[i].books[t].gifts) <==>
              || ws[i].s.config.value.mint == ws[i].books[t].mint
              || Bal(ws[i].s.ledger, Vault(t, ws[i].books[t].mint)) == 0
  {
    HistoryIsSound(ws, sts, i);
    assert Follows(ws, sts, i);
    ClosingStepSettles(ws[i], sts[i], t);
    ClosedIsFrozen(ws, sts, i + 1, j, t);
    SettledInFullLasts(ws[i + 1].s.tasks[t], ws[i + 1].books[t], ws[j].books[t], ws[i].books[t].gifts);
  }

  /**
   What a close in another mint leaves in the funding vault stays there: its
   balance never falls again in the rest of any run, whoever signs what and
   whatever mint is pinned later.
   */
  lemma {:induction false} StrandedForever(ws: seq<World>, sts: seq<Step>, i: nat, j: nat, t: TaskId)
    requires IsHistory(ws, sts) && i < j < |ws| && Closes(sts[i], t)
    requires t in ws[i].books && ws[i].s.config.Some? && ws[i].s.config.value.mint != ws[i].books[t].mint
    ensures var vault := Vault(t, ws[i].books[t].mint);
            Bal(ws[i].s.ledger, vault) <= Bal(ws[j].s.ledger, vault)
  {
    var vault := Vault(t, ws[i].books[t].mint);
    assert Follows(ws, sts, j - 1);
    LedgerLaw(ws[j - 1].s, sts[j - 1], vault);
    if i + 1 == j {
      ClosingStepEmptiesVault(ws[i].s, sts[i], t);
    } else {
      StrandedForever(ws, sts, i, j - 1, t);
      StateStep(ws, sts, i);
      ClosingStepEmptiesVault(ws[i].s, sts[i], t);
      ClosedTaskPaysNothing(ws, sts, i + 1, j - 1, t, vault.mint);
    }
  }

  /**
   The poster got one bounty for every slot not paid out of the funding vault,
   plus the gifts; claimers and the fee vault got one for every slot that was.
   */
  predicate SettledInFull(task: Task, k: Book, gifts: nat) {
    && k.refunds + k.swept == task.bounty * (task.maxSlots - PaidHere(task, k)) + gifts
    && k.net + k.fees == task.bounty * PaidHere(task, k)
  }

  lemma SettledInFullLasts(task: Task, k: Book, k': Book, gifts: nat)
    requires SameSettlement(k, k')
    ensures SettledInFull(task, k, gifts) <==> SettledInFull(task, k', gifts)
  {
    assert PaidHere(task, k') == PaidHere(task, k);
  }

  predicate Closes(st: Step, t: TaskId) {
    (st.CloseTask? || st.AutoCancelTask?) && st.task == t
  }

  lemma ClosingStepSettles(w: World, st: Step, t: TaskId)
    requires Sound(w) && Refuse(w.s, st).None? && Closes(st, t)
    ensures t in w.books && w.s.config.Some? && t in Next(w, st).books
    ensures t in Next(w, st).s.tasks && Next(w, st).s.tasks[t].status.Closed?
    ensures w.s.config.value.mint == w.books[t].mint ==> Vault(t, w.books[t].mint) !in Next(w, st).s.ledger
    ensures SettledInFull(Next(w, st).s.tasks[t], Next(w, st).books[t], w.books[t].gifts) <==>
              w.s.config.value.mint == w.books[t].mint || Bal(w.s.ledger, Vault(t, w.books[t].mint)) == 0
  {
    var w' := Next(w, st);
    ClosingStepEmptiesVault(w.s, st, t);
    assert TaskBalances(w.s, w.books, t);
    var vault := Vault(t, w.books[t].mint);
    LedgerLaw(w.s, st, vault);
    BookAfter(w.books, PaymentOf(w.s, st), t);
    TaskKeepsBalancing(w, st, t);
    SettledInFullIff(w'.s.tasks[t], w'.books[t], Bal(w'.s.ledger, vault));
  }

  lemma ClosingStepEmptiesVault(s: State, st: Step, t: TaskId)
    requires Refuse(s, st).None? && Closes(st, t)
    ensures t in s.tasks && t in NextTasks(s, st) && NextTasks(s, st)[t].status.Closed?
    ensures Vault(t, s.config.value.mint) !in Effect(s, st).ledger
    ensures PaymentOf(s, st) == Sweep(s, t)
  {
  }

  lemma SettledInFullIff(task: Task, k: Book, vault: nat)
    requires BookBalances(task, k, vault)
    ensures SettledInFull(task, k, k.gifts) <==> vault == 0
  {
    TimesDifference(task.bounty, task.maxSlots, PaidHere(task, k), 0);
  }

  // ----- task ids -----

  /**
   A task id is only ever initialized when no claim of an earlier incarnation
   survives, so the new task starts with none; and an id that was closed is
   never initialized again. What an earlier incarnation can leave in a vault is in
   CancelRefunds and RemovedIsFrozen.
   */
  lemma TaskIdsAreFresh(ws: seq<World>, sts: seq<Step>, i: nat)
    requires IsHistory(ws, sts) && i < |sts| && sts[i].InitializeTask?
    ensures Members(ws[i].s.claims, sts[i].task) == {}
    ensures Members(ws[i + 1].s.claims, sts[i].task) == {}
    ensures forall h: nat :: h <= i && sts[i].task in ws[h].s.tasks ==> ws[h].s.tasks[sts[i].task].status.Open?
  {
    var t := sts[i].task;
    assert Follows(ws, sts, i);
    HistoryIsSound(ws, sts, i);
    EmptyTaskHasNoClaims(ws[i].s, t);
    forall h: nat | h <= i && t in ws[h].s.tasks
      ensures ws[h].s.tasks[t].status.Open?
    {
      if ws[h].s.tasks[t].status.Closed? {
        ClosedIsFrozen(ws, sts, h, i, t);
        assert false;
      }
    }
  }
}
