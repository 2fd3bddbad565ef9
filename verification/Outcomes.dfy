/**
 What each step changes, in every run, in terms of its own arguments: every
 balance, every token account, the clock, and what a claim record carries.
 */
module Outcomes {
  import opened Prelude
  import opened Accounts
  import opened Tokens
  import opened Instructions
  import opened Invariant
  import opened Bookkeeping
  import opened Runs

  /** Seen from account `a`: an amount went from one account to another, and nothing else moved. */
  predicate Moved(s: State, s': State, src: Account, dst: Account, amount: int, a: Account) {
    Bal(s'.ledger, a) ==
    Bal(s.ledger, a) - (if a == src then amount else 0) + (if a == dst then amount else 0)
  }

  // ----- balances -----

  /** A withdrawal takes exactly the amount asked for out of the fee vault of the pinned mint. */
  lemma WithdrawalMovesAmount(ws: seq<World>, sts: seq<Step>, i: nat, a: Account)
    requires IsHistory(ws, sts) && i < |sts| && sts[i].WithdrawFees?
    ensures ws[i].s.config.Some?
    ensures Moved(ws[i].s, ws[i + 1].s, FeeVault(ws[i].s.config.value.mint), sts[i].dst, sts[i].amount, a)
  {
    StateStep(ws, sts, i);
    LedgerLaw(ws[i].s, sts[i], a);
  }

  /** Tokens are given exactly as the giver says. */
  lemma GiftMovesAmount(ws: seq<World>, sts: seq<Step>, i: nat, a: Account)
    requires IsHistory(ws, sts) && i < |sts| && sts[i].GiveTokens?
    ensures Moved(ws[i].s, ws[i + 1].s, Wallet(sts[i].owner, sts[i].mint), sts[i].dst, sts[i].amount, a)
  {
    StateStep(ws, sts, i);
    LedgerLaw(ws[i].s, sts[i], a);
  }

  /** A task ends, by any of its three exits, with its vault in the pinned mint paid to its poster whole. */
  lemma SweepPaysPoster(ws: seq<World>, sts: seq<Step>, i: nat, a: Account)
    requires IsHistory(ws, sts) && i < |sts|
    requires sts[i].CloseTask? || sts[i].AutoCancelTask? || sts[i].CancelBeforeEnroll?
    ensures ws[i].s.config.Some? && sts[i].task in ws[i].s.tasks
    ensures var s, t, mint := ws[i].s, sts[i].task, ws[i].s.config.value.mint;
            && Vault(t, mint) in s.ledger && Vault(t, mint) !in ws[i + 1].s.ledger
            && Moved(s, ws[i + 1].s, Vault(t, mint), Wallet(s.tasks[t].poster, mint), Bal(s.ledger, Vault(t, mint)), a)
  {
    StateStep(ws, sts, i);
    LedgerLaw(ws[i].s, sts[i], a);
  }

  /** The instructions that pay a claimer. */
  predicate PaysClaimer(st: Step) {
    st.ApproveClaim? || st.AutoApprove? || st.AutoResolveDispute? || (st.ResolveDispute? && st.favor.Deliverer?)
  }

  /**
   A payout takes one bounty out of the task's vault in the pinned mint. The fee
   is the floor of bounty times rate over ten thousand and goes to the fee vault;
   the claimer gets the rest; no other balance changes.
   */
  lemma PayoutMovesBounty(ws: seq<World>, sts: seq<Step>, i: nat, a: Account)
    requires IsHistory(ws, sts) && i < |sts| && PaysClaimer(sts[i])
    ensures ws[i].s.config.Some? && sts[i].task in ws[i].s.tasks && sts[i].claim in ws[i].s.claims
    ensures var s, config := ws[i].s, ws[i].s.config.value;
            var bounty := s.tasks[sts[i].task].bounty;
            var fee := bounty * config.feeBps / 10_000;
            Bal(ws[i + 1].s.ledger, a) == Bal(s.ledger, a) +
              if a == Vault(sts[i].task, config.mint) then 0 - bounty as int
              else if a == Wallet(s.claims[sts[i].claim].claimer, config.mint) then bounty - fee
              else if a == FeeVault(config.mint) then fee
              else 0
  {
    StateStep(ws, sts, i);
    LedgerLaw(ws[i].s, sts[i], a);
    PaidAsSplit(ws[i].s, sts[i]);
    SplitInNumbers(ws[i].s, sts[i].task);
  }

  lemma PaidAsSplit(s: State, st: Step)
    requires Refuse(s, st).None? && PaysClaimer(st)
    ensures s.config.Some? && st.task in s.tasks && st.claim in s.claims
    ensures ComputeFeeSplit(s.tasks[st.task].bounty, s.config.value.feeBps).Ok?
    ensures PaymentOf(s, st) == Payout(s, st.task, st.claim)
  {
  }

  lemma SplitInNumbers(s: State, t: TaskId)
    requires Inv(s) && s.config.Some? && t in s.tasks
    ensures var bounty := s.tasks[t].bounty;
            var fee := bounty * s.config.value.feeBps / 10_000;
            fee <= bounty && ComputeFeeSplit(bounty, s.config.value.feeBps) == Ok(Split(bounty - fee, fee))
  {
    BountyFits(s, t);
    FeeSplitIsExact(s.tasks[t].bounty, s.config.value.feeBps);
    SplitAddsUp(s, t);
  }

  /** The steps that return a bounty: a third rejection, and a ruling for the poster. */
  predicate ReturnsBounty(s: State, st: Step) {
    || (st.RejectClaim? && st.claim in s.claims && s.claims[st.claim].rejections == 2)
    || (st.ResolveDispute? && st.favor.Poster?)
  }

  lemma RefundedInFull(s: State, st: Step)
    requires Refuse(s, st).None? && ReturnsBounty(s, st)
    ensures s.config.Some? && st.task in s.tasks && st.claim in s.claims
    ensures PaymentOf(s, st) == Refund(s, st.task, st.claim)
  {
  }

  /** A refund takes one bounty out of the task's vault in the pinned mint and gives it to the poster. */
  lemma RefundMovesBounty(ws: seq<World>, sts: seq<Step>, i: nat, a: Account)
    requires IsHistory(ws, sts) && i < |sts| && ReturnsBounty(ws[i].s, sts[i])
    ensures ws[i].s.config.Some? && sts[i].task in ws[i].s.tasks
    ensures var s, mint, task := ws[i].s, ws[i].s.config.value.mint, ws[i].s.tasks[sts[i].task];
            Moved(s, ws[i + 1].s, Vault(sts[i].task, mint), Wallet(task.poster, mint), task.bounty, a)
  {
    StateStep(ws, sts, i);
    RefundedInFull(ws[i].s, sts[i]);
    LedgerLaw(ws[i].s, sts[i], a);
  }

  /** The steps that move no money: all others but the deposit, which is in DepositIsThePosters. */
  predicate MovesNoMoney(s: State, st: Step) {
    match st
    case RejectClaim(_, _, c) => c in s.claims && s.claims[c].rejections < 2
    case InitializeConfig(_, _, _, _) => true
    case UpdateAdmin(_, _) => true
    case UpdateFee(_, _) => true
    case UpdateMint(_, _) => true
    case Enroll(_, _, _) => true
    case Submit(_, _, _, _) => true
    case OpenDispute(_, _, _) => true
    case Tick(_) => true
    case OpenAccount(_) => true
    case _ => false
  }

  lemma NoMoneyMoves(ws: seq<World>, sts: seq<Step>, i: nat, a: Account)
    requires IsHistory(ws, sts) && i < |sts| && MovesNoMoney(ws[i].s, sts[i])
    ensures Bal(ws[i + 1].s.ledger, a) == Bal(ws[i].s.ledger, a)
  {
    StateStep(ws, sts, i);
    LedgerLaw(ws[i].s, sts[i], a);
  }

  // ----- token accounts and the clock -----

  /** The account a step creates if it is not there. */
  predicate Creates(s: State, st: Step, a: Account) {
    || (st.InitializeConfig? && a == FeeVault(st.mint))
    || (st.InitializeTask? && s.config.Some? && a == Vault(st.task, s.config.value.mint))
    || (st.OpenAccount? && a == st.account)
  }

  /** The account a step closes. */
  predicate ClosesAccount(s: State, st: Step, a: Account) {
    && (st.CloseTask? || st.AutoCancelTask? || st.CancelBeforeEnroll?)
    && s.config.Some? && a == Vault(st.task, s.config.value.mint)
  }

  /** Vaults and fee vaults come and go only as steps create and close them, and only a tick moves the clock. */
  lemma AccountsFollowSteps(ws: seq<World>, sts: seq<Step>, i: nat, a: Account)
    requires IsHistory(ws, sts) && i < |sts| && !a.Wallet?
    ensures a in ws[i + 1].s.ledger <==>
            Creates(ws[i].s, sts[i], a) || (a in ws[i].s.ledger && !ClosesAccount(ws[i].s, sts[i], a))
    ensures ws[i + 1].s.now == if sts[i].Tick? then sts[i].time else ws[i].s.now
  {
    StateStep(ws, sts, i);
    AccountsStep(ws[i].s, sts[i], a);
  }

  lemma AccountsStep(s: State, st: Step, a: Account)
    requires Refuse(s, st).None? && !a.Wallet?
    ensures a in Effect(s, st).ledger <==> Creates(s, st, a) || (a in s.ledger && !ClosesAccount(s, st, a))
    ensures Effect(s, st).now == if st.Tick? then st.time else s.now
  {
  }

  // ----- what a claim record carries -----

  datatype Deed = Enrolling | Submitting | Disputing

  predicate Does(st: Step, d: Deed, c: ClaimId) {
    match d
    case Enrolling => st.Enroll? && st.claim == c
    case Submitting => st.Submit? && st.claim == c
    case Disputing => st.OpenDispute? && st.claim == c
  }

  /** The latest of the first `n` steps that does this to the claim. */
  function Latest(sts: seq<Step>, n: nat, d: Deed, c: ClaimId): (r: Option<nat>)
    requires n <= |sts|
    ensures r.Some? ==> r.value < n && Does(sts[r.value], d, c)
  {
    if n == 0 then None
    else if Does(sts[n - 1], d, c) then Some(n - 1)
    else Latest(sts, n - 1, d, c)
  }

  /**
   A claim record carries the claimer, the task and the time of its enrollment,
   the hash and the time of its latest submission, and the time of its dispute;
   what it never did is zero.
   */
  ghost predicate Carries(ws: seq<World>, sts: seq<Step>, n: nat, c: ClaimId, cl: Claim)
    requires IsRun(ws, sts) && n <= |sts|
  {
    && (match Latest(sts, n, Enrolling, c)
        case None => false
        case Some(e) => sts[e] == Enroll(cl.claimer, cl.task, c) && cl.enrolledAt == ws[e].s.now)
    && (match Latest(sts, n, Submitting, c)
        case None => cl.hash == 0 && cl.submittedAt == 0
        case Some(j) => cl.hash == sts[j].hash && cl.submittedAt == ws[j].s.now)
    && (match Latest(sts, n, Disputing, c)
        case None => cl.disputedAt == 0
        case Some(d) => cl.disputedAt == ws[d].s.now)
  }

  lemma {:induction false} RecordIsLatest(ws: seq<World>, sts: seq<Step>, n: nat, c: ClaimId)
    requires IsHistory(ws, sts) && n < |ws|
    ensures c in ws[n].s.claims ==> Carries(ws, sts, n, c, ws[n].s.claims[c])
    ensures c !in ws[n].s.claims ==> forall d: Deed :: Latest(sts, n, d, c).None?
  {
    if n > 0 {
      RecordIsLatest(ws, sts, n - 1, c);
      StateStep(ws, sts, n - 1);
      RecordStep(ws[n - 1].s, sts[n - 1], c);
    }
  }

  /** How one step changes what a claim record carries. */
  lemma RecordStep(s: State, st: Step, c: ClaimId)
    requires Refuse(s, st).None?
    ensures c in NextClaims(s, st) <==> c in s.claims || Does(st, Enrolling, c)
    ensures Does(st, Enrolling, c) ==>
              c !in s.claims && NextClaims(s, st)[c] == Claim(st.task, st.claimer, Enrolled, s.now, 0, 0, 0, 0)
    ensures c !in s.claims ==> !Does(st, Submitting, c) && !Does(st, Disputing, c)
    ensures c in s.claims ==>
              var cl, cl' := s.claims[c], NextClaims(s, st)[c];
              && cl'.task == cl.task && cl'.claimer == cl.claimer && cl'.enrolledAt == cl.enrolledAt
              && cl'.submittedAt == (if Does(st, Submitting, c) then s.now else cl.submittedAt)
              && cl'.hash == (if Does(st, Submitting, c) then st.hash else cl.hash)
              && cl'.disputedAt == (if Does(st, Disputing, c) then s.now else cl.disputedAt)
  {
  }
}
