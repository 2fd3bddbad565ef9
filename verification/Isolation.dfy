/**
 What one party or one task cannot do to another: tasks are isolated from each
 other's instructions, an admin alone reaches only disputed claims, and exactly
 when a settlement instruction that passes its opening checks can still fail.
 */
module Isolation {
  import opened Prelude
  import opened Accounts
  import opened Tokens
  import opened Slots
  import opened Instructions
  import opened Invariant
  import opened Bookkeeping
  import opened Runs
  import opened ClaimHistory
  import opened Program

  // ----- tasks do not touch each other -----

  /** None of the steps from `i` to `j` names the task. */
  predicate Elsewhere(sts: seq<Step>, i: nat, j: nat, t: TaskId)
    requires i <= j <= |sts|
  {
    forall k: nat :: i <= k < j ==> TaskOf(sts[k]) != Some(t)
  }

  lemma VaultOnlyGrows(s: State, st: Step, t: TaskId, mint: Key)
    requires Refuse(s, st).None? && TaskOf(st) != Some(t)
    ensures Bal(s.ledger, Vault(t, mint)) <= Bal(Effect(s, st).ledger, Vault(t, mint))
    ensures Vault(t, mint) in s.ledger ==> Vault(t, mint) in Effect(s, st).ledger
  {
    LedgerLaw(s, st, Vault(t, mint));
    PaymentNamesTask(s, st);
    if Vault(t, mint) in s.ledger {
      VaultStays(s, st, t, mint);
    }
  }

  /**
   Whatever happens to other tasks, and whoever gives or withdraws tokens, a
   task that no step names keeps its record and its claims, its settlement
   so far, and every token in its vaults of any mint.
   */
  lemma {:induction false} TasksAreIsolated(ws: seq<World>, sts: seq<Step>, i: nat, j: nat, t: TaskId, mint: Key)
    requires IsHistory(ws, sts) && i <= j < |ws| && t in ws[i].s.tasks && Elsewhere(sts, i, j, t)
    ensures KeptTask(ws[i].s, ws[j].s, t)
    ensures t in ws[i].books && t in ws[j].books && SameSettlement(ws[i].books[t], ws[j].books[t])
    ensures Bal(ws[i].s.ledger, Vault(t, mint)) <= Bal(ws[j].s.ledger, Vault(t, mint))
  {
    if i == j {
      HistoryIsSound(ws, sts, i);
      assert TaskBalances(ws[i].s, ws[i].books, t);
    } else {
      TasksAreIsolated(ws, sts, i, j - 1, t, mint);
      assert Follows(ws, sts, j - 1);
      var s, st := ws[j - 1].s, sts[j - 1];
      OtherTaskIsUntouched(s, st, t);
      VaultOnlyGrows(s, st, t, mint);
      PaymentNamesTask(s, st);
      BookAfter(ws[j - 1].books, PaymentOf(s, st), t);
    }
  }

  // ----- an admin alone -----

  ghost function InDispute(claims: Claims, t: TaskId): set<ClaimId> {
    set c | c in claims && claims[c].task == t && claims[c].status.Disputed?
  }

  lemma RulingEndsDispute(s: State, st: Step, t: TaskId)
    requires Refuse(s, st).None? && st.ResolveDispute?
    ensures var before, after := InDispute(s.claims, t), InDispute(NextClaims(s, st), t);
            && after == before - {st.claim}
            && |before| - |after| == if st.task == t then 1 else 0
  {
    assert NextClaims(s, st) == s.claims[st.claim := NextClaim(s, st)];
    DisputeEnds(s.claims, st.claim, NextClaim(s, st), t);
  }

  lemma DisputeEnds(claims: Claims, c: ClaimId, cl: Claim, t: TaskId)
    requires c in claims && claims[c].status.Disputed? && !cl.status.Disputed? && claims[c].task == cl.task
    ensures var before, after := InDispute(claims, t), InDispute(claims[c := cl], t);
            && after == before - {c}
            && |before| - |after| == if cl.task == t then 1 else 0
  {
    var before, after := InDispute(claims, t), InDispute(claims[c := cl], t);
    assert after == before - {c};
    assert c in before <==> cl.task == t;
  }

  /** What a payment takes out of a task's vaults: a payment is in one mint. */
  function TakenFrom(p: Payment, t: TaskId): nat {
    if p.PaidOut? || p.Returned? || p.Swept? then Debit(p, Vault(t, p.mint)) else 0
  }

  /** What the steps from `i` to `j` take out of a task's vaults, over all mints. */
  ghost function Taken(ws: seq<World>, sts: seq<Step>, i: nat, j: nat, t: TaskId): nat
    requires IsRun(ws, sts) && i <= j <= |sts|
  {
    if i == j then 0 else Taken(ws, sts, i, j - 1, t) + TakenFrom(PaymentAt(ws, sts, j - 1), t)
  }

  /** Disputes ended, each for one bounty. */
  ghost predicate OneBountyEach(s: State, s': State, t: TaskId, taken: nat)
    requires t in s.tasks
  {
    && t in s'.tasks && s'.tasks[t].bounty == s.tasks[t].bounty
    && InDispute(s'.claims, t) <= InDispute(s.claims, t)
    && taken == s.tasks[t].bounty * (|InDispute(s.claims, t)| - |InDispute(s'.claims, t)|)
    && taken <= s.tasks[t].bounty * |InDispute(s.claims, t)|
  }

  /**
   From step `i` to `j` nobody but an admin does anything to the task: every step
   is an admin instruction or does not name it.
   */
  predicate OnlyAdminActs(sts: seq<Step>, i: nat, j: nat, t: TaskId)
    requires i <= j <= |sts|
  {
    forall k: nat :: i <= k < j ==> AdminStep(sts[k]) || TaskOf(sts[k]) != Some(t)
  }

  /**
   As long as only an admin acts on a task, whatever mints are pinned and
   whatever happens to other tasks on the way, all its vaults together lose
   exactly one bounty for each dispute of that task which the run ends.
   */
  lemma {:induction false} AdminSpendsBountiesOnly(ws: seq<World>, sts: seq<Step>, i: nat, j: nat, t: TaskId)
    requires IsHistory(ws, sts) && i <= j < |ws| && t in ws[i].s.tasks
    requires OnlyAdminActs(sts, i, j, t)
    ensures OneBountyEach(ws[i].s, ws[j].s, t, Taken(ws, sts, i, j, t))
  {
    if i == j {
      BountiesForNothing(ws[i].s, t);
    } else {
      AdminSpendsBountiesOnly(ws, sts, i, j - 1, t);
      AdminTakesAcross(ws, sts, j - 1, t);
      var before, last := Taken(ws, sts, i, j - 1, t), TakenFrom(PaymentAt(ws, sts, j - 1), t);
      BountiesAdd(ws[i].s, ws[j - 1].s, ws[j].s, t, before, last);
    }
  }

  lemma AdminTakesAcross(ws: seq<World>, sts: seq<Step>, i: nat, t: TaskId)
    requires IsHistory(ws, sts) && i < |sts| && OnlyAdminActs(sts, i, i + 1, t) && t in ws[i].s.tasks
    ensures OneBountyEach(ws[i].s, ws[i + 1].s, t, TakenFrom(PaymentAt(ws, sts, i), t))
  {
    StateStep(ws, sts, i);
    assert AdminStep(sts[i]) || TaskOf(sts[i]) != Some(t);
    AdminStepTakes(ws[i].s, sts[i], t);
  }

  lemma AdminStepTakes(s: State, st: Step, t: TaskId)
    requires Inv(s) && Refuse(s, st).None? && (AdminStep(st) || TaskOf(st) != Some(t)) && t in s.tasks
    ensures OneBountyEach(s, Effect(s, st), t, TakenFrom(PaymentOf(s, st), t))
  {
    TermsAreFrozen(s, st, t);
    if TaskOf(st) != Some(t) {
      OtherTaskIsUntouched(s, st, t);
      SameDisputes(s, Effect(s, st), t);
      PaymentNamesTask(s, st);
    } else if st.ResolveDispute? {
      RulingEndsDispute(s, st, t);
      SplitAddsUp(s, st.task);
      RulingTakes(s, st, t);
    } else {
      OtherAdminSteps(s, st, t);
    }
    BountiesForEnded(s, Effect(s, st), t, TakenFrom(PaymentOf(s, st), t));
  }

  lemma SameDisputes(s: State, s': State, t: TaskId)
    requires t in s.tasks && KeptTask(s, s', t)
    ensures InDispute(s'.claims, t) == InDispute(s.claims, t)
  {
    assert forall c :: c in InDispute(s.claims, t) || c in InDispute(s'.claims, t) ==> c in Members(s.claims, t);
  }

  lemma OtherAdminSteps(s: State, st: Step, t: TaskId)
    requires Refuse(s, st).None? && AdminStep(st) && !st.ResolveDispute?
    ensures NextClaims(s, st) == s.claims && TakenFrom(PaymentOf(s, st), t) == 0
  {
  }

  lemma BountiesForNothing(s: State, t: TaskId)
    requires t in s.tasks
    ensures OneBountyEach(s, s, t, 0)
  {
    BountiesForEnded(s, s, t, 0);
  }

  lemma BountiesForEnded(s: State, s': State, t: TaskId, taken: nat)
    requires t in s.tasks && t in s'.tasks && s'.tasks[t].bounty == s.tasks[t].bounty
    requires InDispute(s'.claims, t) <= InDispute(s.claims, t)
    requires var ended := |InDispute(s.claims, t)| - |InDispute(s'.claims, t)|;
             || (ended == 1 && taken == s.tasks[t].bounty)
             || (ended == 0 && taken == 0)
    ensures OneBountyEach(s, s', t, taken)
  {
    var before, after := |InDispute(s.claims, t)|, |InDispute(s'.claims, t)|;
    TimesMonotonic(s.tasks[t].bounty, before - after, before);
  }

  lemma RulingTakes(s: State, st: Step, t: TaskId)
    requires Refuse(s, st).None? && st.ResolveDispute? && t in s.tasks
    requires var sp := ComputeFeeSplit(s.tasks[st.task].bounty, s.config.value.feeBps);
             sp.Ok? ==> sp.value.net + sp.value.fee == s.tasks[st.task].bounty
    ensures TakenFrom(PaymentOf(s, st), t) == if st.task == t then s.tasks[t].bounty else 0
  {
  }

  lemma BountiesAdd(s: State, m: State, e: State, t: TaskId, x: nat, y: nat)
    requires t in s.tasks && OneBountyEach(s, m, t, x) && OneBountyEach(m, e, t, y)
    ensures OneBountyEach(s, e, t, x + y)
  {
    var a, b, c := |InDispute(s.claims, t)|, |InDispute(m.claims, t)|, |InDispute(e.claims, t)|;
    TimesSum(s.tasks[t].bounty, a - b, b - c);
    TimesMonotonic(s.tasks[t].bounty, a - c, a);
  }

  /** A task after admin steps: what its vault lost is paid for by resolved disputes. */
  ghost predicate OnlyDisputesSpent(s: State, s': State, t: TaskId, mint: Key)
    requires t in s.tasks
  {
    && t in s'.tasks && s'.tasks[t].bounty == s.tasks[t].bounty
    && InDispute(s'.claims, t) <= InDispute(s.claims, t)
    && Bal(s.ledger, Vault(t, mint)) <=
       Bal(s'.ledger, Vault(t, mint)) + s.tasks[t].bounty * (|InDispute(s.claims, t)| - |InDispute(s'.claims, t)|)
  }

  /**
   Hence as long as only an admin acts on a task, whatever keys and mints the
   admin sets, each vault of it loses at most one bounty for each of its claims
   that was in dispute before the run.
   */
  lemma AdminReachesOnlyDisputes(ws: seq<World>, sts: seq<Step>, i: nat, j: nat, t: TaskId, mint: Key)
    requires IsHistory(ws, sts) && i <= j < |ws| && t in ws[i].s.tasks
    requires OnlyAdminActs(sts, i, j, t)
    ensures OnlyDisputesSpent(ws[i].s, ws[j].s, t, mint)
    ensures Bal(ws[i].s.ledger, Vault(t, mint)) <=
            Bal(ws[j].s.ledger, Vault(t, mint)) + ws[i].s.tasks[t].bounty * |InDispute(ws[i].s.claims, t)|
  {
    AdminSpendsBountiesOnly(ws, sts, i, j, t);
    VaultLosesTaken(ws, sts, i, j, t, mint);
  }

  /** A vault of a task loses no more than what the payments take out of all of the task's vaults. */
  lemma {:induction false} VaultLosesTaken(ws: seq<World>, sts: seq<Step>, i: nat, j: nat, t: TaskId, mint: Key)
    requires IsRun(ws, sts) && i <= j < |ws|
    ensures Bal(ws[i].s.ledger, Vault(t, mint)) <= Bal(ws[j].s.ledger, Vault(t, mint)) + Taken(ws, sts, i, j, t)
  {
    if i < j {
      VaultLosesTaken(ws, sts, i, j - 1, t, mint);
      assert Follows(ws, sts, j - 1);
      LedgerLaw(ws[j - 1].s, sts[j - 1], Vault(t, mint));
      DebitIsTaken(PaymentAt(ws, sts, j - 1), t, mint);
    }
  }

  lemma DebitIsTaken(p: Payment, t: TaskId, mint: Key)
    ensures Debit(p, Vault(t, mint)) <= TakenFrom(p, t)
  {
  }

  /**
   Whatever an admin alone takes out of a task's vaults settles a claim that was
   in dispute before: its claimer and the fee vault get it, or the poster does,
   and no other account, the admin's included, gains anything.
   */
  lemma AdminPaysOnlyParties(ws: seq<World>, sts: seq<Step>, i: nat, k: nat, t: TaskId, a: Account)
    requires IsHistory(ws, sts) && i <= k < |sts| && t in ws[i].s.tasks
    requires OnlyAdminActs(sts, i, k + 1, t)
    requires TakenFrom(PaymentAt(ws, sts, k), t) > 0
    ensures var p, s := PaymentAt(ws, sts, k), ws[k].s;
            && (p.PaidOut? || p.Returned?) && p.claim in InDispute(ws[i].s.claims, t)
            && p.claim in s.claims && s.claims[p.claim].task in s.tasks && s.config.Some?
            && PaysItsParties(s, p, p.claim, a, Bal(s.ledger, a), Bal(ws[k + 1].s.ledger, a))
  {
    AdminSpendsBountiesOnly(ws, sts, i, k, t);
    assert Follows(ws, sts, k);
    assert AdminStep(sts[k]) || TaskOf(sts[k]) != Some(t);
    PaymentNamesTask(ws[k].s, sts[k]);
    RulingPaysFor(ws[k].s, sts[k], t);
    SettlementPaysItsParties(ws, sts, k, PaymentAt(ws, sts, k).claim, a);
  }

  lemma RulingPaysFor(s: State, st: Step, t: TaskId)
    requires Refuse(s, st).None? && AdminStep(st) && TakenFrom(PaymentOf(s, st), t) > 0
    ensures var p := PaymentOf(s, st);
            (p.PaidOut? || p.Returned?) && p.claim in InDispute(s.claims, t)
  {
  }

  // ----- guards suffice -----

  /** The instructions that settle claims. */
  predicate SettlementStep(st: Step) {
    st.ApproveClaim? || st.RejectClaim? || st.AutoApprove? || st.ResolveDispute? || st.AutoResolveDispute?
  }

  lemma ActiveClaimCanBeSettled(w: World, c: ClaimId)
    requires Sound(w) && c in w.s.claims && BoxOf(w.s.claims[c].status).Active? && w.s.config.Some?
    requires w.s.claims[c].task in w.books && w.books[w.s.claims[c].task].mint == w.s.config.value.mint
    ensures w.s.claims[c].task in w.s.tasks
    ensures PayoutGuard(w.s, w.s.claims[c].task, w.s.config.value.mint).None?
    ensures RefundGuard(w.s, w.s.claims[c].task, w.s.config.value.mint).None?
  {
    ActiveClaimIsCovered(w, c);
    SplitAddsUp(w.s, w.s.claims[c].task);
  }

  /** What a settlement instruction checks before it computes or moves any money. */
  function OpeningChecks(s: State, st: Step): Option<Error>
    requires SettlementStep(st) && Constraints(s, st).None?
  {
    var cl := s.claims[st.claim];
    if !st.RejectClaim? && st.mint != s.config.value.mint then Some(InvalidMint)
    else match st
      case ApproveClaim(_, t, _, _) => Require(s.tasks[t].status.Open? && cl.status.Submitted?, InvalidStateTransition)
      case RejectClaim(_, t, _) => Require(s.tasks[t].status.Open? && cl.status.Submitted?, InvalidStateTransition)
      case ResolveDispute(_, _, _, _, _) => Require(cl.status.Disputed?, InvalidStateTransition)
      case AutoApprove(_, t, _, _) =>
        if !s.tasks[t].status.Open? || !cl.status.Submitted? then Some(InvalidStateTransition)
        else Require(cl.submittedAt > 0 && cl.submittedAt + 1_209_600 <= s.now, AutoActionTooEarly)
      case AutoResolveDispute(_, _, _, _) =>
        if !cl.status.Disputed? then Some(InvalidStateTransition)
        else Require(cl.disputedAt > 0 && cl.disputedAt + 1_209_600 <= s.now, AutoActionTooEarly)
  }

  /** Every settlement instruction but the first two rejections of a claim. */
  predicate MovesMoney(s: State, st: Step)
    requires SettlementStep(st) && Constraints(s, st).None?
  {
    st.RejectClaim? ==> FinalStrike(s.claims[st.claim])
  }

  /**
   When exactly a settlement instruction is refused, in every reachable world,
   whatever mint is pinned: by its opening checks, or because money must move
   and the task's vault in the pinned mint holds less than one bounty. The
   arithmetic never fails.
   */
  lemma RefusedIff(ws: seq<World>, sts: seq<Step>, n: nat, st: Step)
    requires IsHistory(ws, sts) && n < |ws| && SettlementStep(st) && Constraints(ws[n].s, st).None?
    ensures ws[n].s.config.Some? && st.task in ws[n].s.tasks
    ensures var s := ws[n].s;
            Guards(s, st) ==
            if OpeningChecks(s, st).Some? then OpeningChecks(s, st)
            else if MovesMoney(s, st) && Bal(s.ledger, Vault(st.task, s.config.value.mint)) < s.tasks[st.task].bounty
            then Some(InsufficientFunds)
            else None
  {
    HistoryIsSound(ws, sts, n);
    SplitAddsUp(ws[n].s, st.task);
    GuardsByMoney(ws[n].s, st);
  }

  lemma GuardsByMoney(s: State, st: Step)
    requires SettlementStep(st) && Constraints(s, st).None?
    requires ComputeFeeSplit(s.tasks[st.task].bounty, s.config.value.feeBps).Ok?
    ensures Guards(s, st) ==
            if OpeningChecks(s, st).Some? then OpeningChecks(s, st)
            else if MovesMoney(s, st) then RefundGuard(s, st.task, s.config.value.mint)
            else None
  {
    match st
    case ApproveClaim(_, _, _, _) =>
    case RejectClaim(_, _, _) =>
    case AutoApprove(_, _, _, _) =>
    case ResolveDispute(_, _, _, _, _) =>
    case AutoResolveDispute(_, _, _, _) =>
  }

  /** A settlement instruction that passes its opening checks finds its claim active, in the task it names. */
  lemma ChecksFindActiveClaim(s: State, st: Step)
    requires SettlementStep(st) && Constraints(s, st).None? && OpeningChecks(s, st).None?
    ensures st.claim in s.claims && BoxOf(s.claims[st.claim].status).Active? && s.claims[st.claim].task == st.task
  {
  }

  /**
   While the pinned mint is the one the task was funded in, the vault always
   covers the bounty, so the opening checks alone decide.
   */
  lemma OpeningGuardsSuffice(ws: seq<World>, sts: seq<Step>, n: nat, st: Step)
    requires IsHistory(ws, sts) && n < |ws| && SettlementStep(st) && Constraints(ws[n].s, st).None?
    requires st.task in ws[n].books && ws[n].s.config.Some? && ws[n].books[st.task].mint == ws[n].s.config.value.mint
    ensures Guards(ws[n].s, st) == OpeningChecks(ws[n].s, st)
  {
    RefusedIff(ws, sts, n, st);
    if OpeningChecks(ws[n].s, st).None? {
      ChecksFindActiveClaim(ws[n].s, st);
      HistoryIsSound(ws, sts, n);
      ActiveClaimIsCovered(ws[n], st.claim);
    }
  }

  /**
   Without the runtime's rollback a payout can stop between its two transfers.
   It does so exactly when the vault covers the net amount but not the bounty.
   */
  lemma PayoutStopsHalfwayIff(ws: seq<World>, sts: seq<Step>, n: nat, t: TaskId, c: ClaimId)
    requires IsHistory(ws, sts) && n < |ws|
    requires ws[n].s.config.Some? && t in ws[n].s.tasks && c in ws[n].s.claims
    ensures HalfwayExactly(ws[n].s, t, c)
  {
    HistoryIsSound(ws, sts, n);
    SplitAddsUp(ws[n].s, t);
    HalfwayCases(ws[n].s, t, c);
  }

  predicate HalfwayExactly(s: State, t: TaskId, c: ClaimId)
    requires s.config.Some? && t in s.tasks && c in s.claims
  {
    var mint := s.config.value.mint;
    var split := ComputeFeeSplit(s.tasks[t].bounty, s.config.value.feeBps);
    && split.Ok?
    && (PayoutGuard(s, t, mint).Some? && Halfway(s, t, c) != s.ledger
        <==> split.value.net <= Bal(s.ledger, Vault(t, mint)) < s.tasks[t].bounty)
  }

  lemma HalfwayCases(s: State, t: TaskId, c: ClaimId)
    requires s.config.Some? && t in s.tasks && c in s.claims
    requires ComputeFeeSplit(s.tasks[t].bounty, s.config.value.feeBps).Ok?
    requires 0 < ComputeFeeSplit(s.tasks[t].bounty, s.config.value.feeBps).value.net
    ensures HalfwayExactly(s, t, c)
  {
    var mint := s.config.value.mint;
    var net := ComputeFeeSplit(s.tasks[t].bounty, s.config.value.feeBps).value.net;
    if net <= Bal(s.ledger, Vault(t, mint)) {
      var moved := Move(s.ledger, Vault(t, mint), Wallet(s.claims[c].claimer, mint), net);
      assert Bal(moved, Vault(t, mint)) == Bal(s.ledger, Vault(t, mint)) - net;
    }
  }
}
