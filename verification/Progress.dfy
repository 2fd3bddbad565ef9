/**
 Progress without the poster and without the admin: when the claimers, the
 clock and permissionless cranks are enough to settle every claim of a task,
 close it and empty its vault.
 */
module Progress {
  import opened Prelude
  import opened Accounts
  import opened Tokens
  import opened Slots
  import opened Instructions
  import opened Invariant
  import opened Bookkeeping
  import opened Runs
  import opened Isolation

  // ----- plans -----

  /** The world after a sequence of steps, if each of them goes through. */
  ghost function Exec(w: World, plan: seq<Step>): Option<World>
    decreases |plan|
  {
    if plan == [] then Some(w)
    else if Refuse(w.s, plan[0]).Some? then None
    else Exec(Next(w, plan[0]), plan[1..])
  }

  lemma {:induction false} ExecConcat(w: World, p: seq<Step>, q: seq<Step>)
    requires Exec(w, p).Some?
    ensures Exec(w, p + q) == Exec(Exec(w, p).value, q)
    decreases |p|
  {
    if p == [] {
      assert p + q == q;
    } else {
      assert (p + q)[1..] == p[1..] + q;
      ExecConcat(Next(w, p[0]), p[1..], q);
    }
  }

  lemma ExecOne(w: World, st: Step)
    requires Refuse(w.s, st).None?
    ensures Exec(w, [st]) == Some(Next(w, st))
  {
    assert Exec(Next(w, st), [st][1..]) == Some(Next(w, st));
  }

  /** A plan that executes is a run. */
  lemma {:induction false} ExecIsRun(w: World, plan: seq<Step>) returns (ws: seq<World>)
    requires Exec(w, plan).Some?
    ensures IsRun(ws, plan) && ws[0] == w && ws[|plan|] == Exec(w, plan).value
    decreases |plan|
  {
    if plan == [] {
      ws := [w];
    } else {
      var rest := ExecIsRun(Next(w, plan[0]), plan[1..]);
      ws := [w] + rest;
      forall i: nat | i < |plan|
        ensures Follows(ws, plan, i)
      {
        if i > 0 {
          assert Follows(rest, plan[1..], i - 1);
        }
      }
    }
  }

  /**
   A step that neither this task's poster takes as its poster nor the admin
   takes as the admin. Everything else is allowed, also on other tasks.
   */
  predicate Unprivileged(st: Step, t: TaskId, poster: Key) {
    match st
    case InitializeConfig(_, _, _, _) => false
    case UpdateAdmin(_, _) => false
    case UpdateFee(_, _) => false
    case UpdateMint(_, _) => false
    case ResolveDispute(_, _, _, _, _) => false
    case WithdrawFees(_, _, _) => false
    case CancelBeforeEnroll(_, u) => u != t
    case ApproveClaim(_, u, _, _) => u != t
    case RejectClaim(_, u, _) => u != t
    case CloseTask(caller, u) => u != t || caller != poster
    case _ => true
  }

  predicate AllUnprivileged(plan: seq<Step>, t: TaskId, poster: Key) {
    forall st :: st in plan ==> Unprivileged(st, t, poster)
  }

  /**
   A step of the task's claimers, of the clock or of a crank on this task: nobody
   gives tokens, no other task is named, and neither the poster nor the admin
   signs a crank or the close.
   */
  predicate ByClaimersAndCranks(st: Step, t: TaskId, poster: Key, admin: Key) {
    match st
    case OpenAccount(a) => a.FeeVault?
    case Tick(_) => true
    case Submit(claimer, u, _, _) => u == t && claimer != poster
    case AutoApprove(caller, u, _, _) => u == t && caller != poster && caller != admin
    case AutoResolveDispute(caller, u, _, _) => u == t && caller != poster && caller != admin
    case CloseTask(caller, u) => u == t && caller != poster && caller != admin
    case _ => false
  }

  predicate AllByClaimersAndCranks(plan: seq<Step>, t: TaskId, poster: Key, admin: Key) {
    forall st :: st in plan ==> ByClaimersAndCranks(st, t, poster, admin)
  }

  lemma Prepend(w: World, st: Step, rest: seq<Step>, t: TaskId, poster: Key, admin: Key)
    requires Refuse(w.s, st).None? && ByClaimersAndCranks(st, t, poster, admin)
    requires AllByClaimersAndCranks(rest, t, poster, admin)
    ensures Exec(w, [st] + rest) == Exec(Next(w, st), rest)
    ensures AllByClaimersAndCranks([st] + rest, t, poster, admin)
  {
    assert ([st] + rest)[1..] == rest;
  }

  /** Closed, every claim terminal, and nothing left in the vault of the mint: it is gone. */
  ghost predicate WoundUp(s: State, t: TaskId, mint: Key) {
    && t in s.tasks && s.tasks[t].status.Closed?
    && (forall c :: c in s.claims && s.claims[c].task == t ==> IsTerminal(s.claims[c].status))
    && Vault(t, mint) !in s.ledger
  }

  ghost predicate WindsUp(w: World, plan: seq<Step>, t: TaskId, mint: Key)
    requires t in w.s.tasks
  {
    && AllUnprivileged(plan, t, w.s.tasks[t].poster)
    && Exec(w, plan).Some? && WoundUp(Exec(w, plan).value.s, t, mint)
  }

  /** The same by claimers, the clock and cranks alone. */
  ghost predicate WindsUpUnaided(w: World, plan: seq<Step>, t: TaskId, mint: Key)
    requires t in w.s.tasks && w.s.config.Some?
  {
    && AllByClaimersAndCranks(plan, t, w.s.tasks[t].poster, w.s.config.value.admin)
    && Exec(w, plan).Some? && WoundUp(Exec(w, plan).value.s, t, mint)
  }

  lemma UnaidedIsUnprivileged(w: World, plan: seq<Step>, t: TaskId, mint: Key)
    requires t in w.s.tasks && w.s.config.Some? && WindsUpUnaided(w, plan, t, mint)
    ensures WindsUp(w, plan, t, mint)
  {
  }

  // ----- building the plan -----

  /** An open task that was funded in the pinned mint, whose fee vault exists. */
  ghost predicate Workable(w: World, t: TaskId, mint: Key) {
    && Sound(w) && w.s.config.Some? && w.s.config.value.mint == mint
    && t in w.s.tasks && w.s.tasks[t].status.Open?
    && t in w.books && w.books[t].mint == mint
    && FeeVault(mint) in w.s.ledger
  }

  /** What the steps of the plan leave alone. */
  predicate SameTaskTerms(w: World, w': World, t: TaskId) {
    t in w.s.tasks && t in w'.s.tasks && SameTerms(w.s.tasks[t], w'.s.tasks[t])
    && w'.s.now == w.s.now && w'.s.config == w.s.config
  }

  ghost function ToSubmit(claims: Claims, t: TaskId): set<ClaimId> {
    set c | c in claims && claims[c].task == t && (claims[c].status.Enrolled? || claims[c].status.Rejected?)
  }

  lemma NoPaymentKeepsBooks(books: Books)
    ensures Post(books, NoPayment) == books
  {
  }

  lemma SubmitGoesThrough(s: State, t: TaskId, c: ClaimId, st: Step)
    requires t in s.tasks && c in ToSubmit(s.claims, t) && st == Submit(s.claims[c].claimer, t, c, 0)
    ensures Refuse(s, st).None? && PaymentOf(s, st).NoPayment?
    ensures Effect(s, st) ==
            s.(claims := s.claims[c := s.claims[c].(status := Submitted, submittedAt := s.now, hash := 0)])
    ensures ToSubmit(Effect(s, st).claims, t) == ToSubmit(s.claims, t) - {c}
    ensures InBox(Effect(s, st).claims, t, Active) == InBox(s.claims, t, Active)
  {
  }

  /** The key of somebody who is neither the task's poster nor the admin. */
  function Outsider(s: State, t: TaskId): Key
    requires t in s.tasks && s.config.Some?
  {
    s.tasks[t].poster + s.config.value.admin + 1
  }

  predicate AllSubmit(plan: seq<Step>) {
    forall st :: st in plan ==> st.Submit?
  }

  predicate AllCranks(plan: seq<Step>) {
    forall st :: st in plan ==> st.AutoApprove? || st.AutoResolveDispute?
  }

  lemma ClaimerIsNotPoster(w: World, c: ClaimId)
    requires Sound(w) && c in w.s.claims
    ensures w.s.claims[c].task in w.s.tasks
    ensures w.s.claims[c].claimer != w.s.tasks[w.s.claims[c].task].poster
  {
  }

  /** First, every claimer with something to deliver delivers it. */
  lemma {:induction false} SubmitAll(w: World, t: TaskId, mint: Key) returns (plan: seq<Step>, w': World)
    requires Workable(w, t, mint)
    ensures Exec(w, plan) == Some(w')
    ensures AllByClaimersAndCranks(plan, t, w.s.tasks[t].poster, w.s.config.value.admin)
    ensures AllSubmit(plan) && |plan| == |ToSubmit(w.s.claims, t)|
    ensures Workable(w', t, mint) && SameTaskTerms(w, w', t)
    ensures ToSubmit(w'.s.claims, t) == {} && InBox(w'.s.claims, t, Active) == InBox(w.s.claims, t, Active)
    decreases |ToSubmit(w.s.claims, t)|
  {
    hide Sound;
    if ToSubmit(w.s.claims, t) == {} {
      plan, w' := [], w;
    } else {
      var c :| c in ToSubmit(w.s.claims, t);
      var st := Submit(w.s.claims[c].claimer, t, c, 0);
      ClaimerIsNotPoster(w, c);
      SubmitGoesThrough(w.s, t, c, st);
      SoundStep(w, st);
      NoPaymentKeepsBooks(w.books);
      var rest;
      rest, w' := SubmitAll(Next(w, st), t, mint);
      Prepend(w, st, rest, t, w.s.tasks[t].poster, w.s.config.value.admin);
      plan := [st] + rest;
    }
  }

  /** The claim's waiting period is over. */
  predicate Ripe(cl: Claim, now: int) {
    || (cl.status.Submitted? && 0 < cl.submittedAt <= now - 1_209_600)
    || (cl.status.Disputed? && 0 < cl.disputedAt <= now - 1_209_600)
  }

  ghost predicate AllRipe(s: State, t: TaskId) {
    forall c :: c in InBox(s.claims, t, Active) ==> Ripe(s.claims[c], s.now)
  }

  function Crank(cl: Claim, caller: Key, t: TaskId, c: ClaimId, mint: Key): Step {
    if cl.status.Submitted? then AutoApprove(caller, t, c, mint) else AutoResolveDispute(caller, t, c, mint)
  }

  /** A ripe claim can be settled by anyone. */
  lemma CrankGoesThrough(w: World, t: TaskId, c: ClaimId, mint: Key, caller: Key, st: Step)
    requires Workable(w, t, mint) && c in InBox(w.s.claims, t, Active) && Ripe(w.s.claims[c], w.s.now)
    requires st == Crank(w.s.claims[c], caller, t, c, mint)
    ensures Refuse(w.s, st).None?
  {
    ActiveClaimCanBeSettled(w, c);
    ExactSolvency(w, t);
    RipeClaimIsCrankable(w.s, t, c, mint, caller, st);
  }

  lemma RipeClaimIsCrankable(s: State, t: TaskId, c: ClaimId, mint: Key, caller: Key, st: Step)
    requires s.config.Some? && s.config.value.mint == mint && t in s.tasks && s.tasks[t].status.Open?
    requires c in s.claims && s.claims[c].task == t && Ripe(s.claims[c], s.now)
    requires Vault(t, mint) in s.ledger && FeeVault(mint) in s.ledger && PayoutGuard(s, t, mint).None?
    requires st == Crank(s.claims[c], caller, t, c, mint)
    ensures Refuse(s, st).None?
  {
  }

  lemma CrankEffect(s: State, t: TaskId, c: ClaimId, mint: Key, caller: Key, st: Step)
    requires c in InBox(s.claims, t, Active) && (s.claims[c].status.Submitted? || s.claims[c].status.Disputed?)
    requires st == Crank(s.claims[c], caller, t, c, mint) && Refuse(s, st).None?
    ensures t in s.tasks && s.config.Some?
    ensures PaymentOf(s, st).PaidOut?
    ensures Effect(s, st).config == s.config && Effect(s, st).now == s.now
    ensures Effect(s, st).tasks == s.tasks[t := PaidSlot(s.tasks[t])]
    ensures Effect(s, st).claims == s.claims[c := NextClaim(s, st)]
    ensures NextClaim(s, st).task == s.claims[c].task && BoxOf(NextClaim(s, st).status).Paid?
  {
  }

  lemma CrankKeepsWorkable(w: World, t: TaskId, c: ClaimId, mint: Key, caller: Key, st: Step)
    requires Workable(w, t, mint) && c in InBox(w.s.claims, t, Active) && Ripe(w.s.claims[c], w.s.now)
    requires AllRipe(w.s, t)
    requires st == Crank(w.s.claims[c], caller, t, c, mint) && Refuse(w.s, st).None?
    ensures Workable(Next(w, st), t, mint) && SameTaskTerms(w, Next(w, st), t) && AllRipe(Next(w, st).s, t)
    ensures InBox(Next(w, st).s.claims, t, Active) == InBox(w.s.claims, t, Active) - {c}
  {
    SoundStep(w, st);
    CrankEffect(w.s, t, c, mint, caller, st);
    WriteClaim(w.s.claims, c, NextClaim(w.s, st), t, Active);
    BookAfter(w.books, PaymentOf(w.s, st), t);
    FeeVaultStays(w.s, st, mint);
  }

  lemma FeeVaultStays(s: State, st: Step, mint: Key)
    requires Refuse(s, st).None? && FeeVault(mint) in s.ledger
    ensures FeeVault(mint) in Effect(s, st).ledger
  {
  }

  /** Then, once the windows have passed, anyone settles every claim. */
  lemma {:induction false} SettleAll(w: World, t: TaskId, mint: Key) returns (plan: seq<Step>, w': World)
    requires Workable(w, t, mint) && AllRipe(w.s, t)
    ensures Exec(w, plan) == Some(w')
    ensures AllByClaimersAndCranks(plan, t, w.s.tasks[t].poster, w.s.config.value.admin)
    ensures AllCranks(plan) && |plan| == |InBox(w.s.claims, t, Active)|
    ensures Workable(w', t, mint) && SameTaskTerms(w, w', t)
    ensures InBox(w'.s.claims, t, Active) == {}
    decreases |InBox(w.s.claims, t, Active)|
  {
    hide Sound, Ripe;
    var active := InBox(w.s.claims, t, Active);
    if active == {} {
      plan, w' := [], w;
    } else {
      var c :| c in active;
      var caller := Outsider(w.s, t);
      var st := Crank(w.s.claims[c], caller, t, c, mint);
      CrankGoesThrough(w, t, c, mint, caller, st);
      CrankKeepsWorkable(w, t, c, mint, caller, st);
      var rest;
      rest, w' := SettleAll(Next(w, st), t, mint);
      Prepend(w, st, rest, t, w.s.tasks[t].poster, w.s.config.value.admin);
      plan := [st] + rest;
    }
  }

  /** Waiting makes every delivered or disputed claim ripe. */
  lemma WaitingRipens(w: World, t: TaskId, mint: Key, st: Step)
    requires Workable(w, t, mint) && ToSubmit(w.s.claims, t) == {}
    requires st.Tick? && w.s.now + 1_209_600 <= st.time
    ensures Refuse(w.s, st).None?
    ensures Workable(Next(w, st), t, mint) && Next(w, st).s == w.s.(now := st.time)
    ensures AllRipe(Next(w, st).s, t)
  {
    SoundStep(w, st);
    NoPaymentKeepsBooks(w.books);
    forall c | c in InBox(w.s.claims, t, Active)
      ensures Ripe(w.s.claims[c], st.time)
    {
      assert c !in ToSubmit(w.s.claims, t);
      assert ClaimShape(w.s.claims[c], w.s.now);
    }
  }

  lemma ClosingWindsUp(w: World, t: TaskId, mint: Key, st: Step)
    requires Workable(w, t, mint) && InBox(w.s.claims, t, Active) == {}
    requires PastDeadline(w.s.tasks[t], w.s.now) && st.CloseTask? && st.task == t
    ensures Refuse(w.s, st).None? && WoundUp(Next(w, st).s, t, mint)
  {
    CloseGateIsExact(w.s, t);
    assert TaskBalances(w.s, w.books, t);
    assert Refuse(w.s, st).None?;
    ClosingStepEmptiesVault(w.s, st, t);
  }

  lemma OpeningFeeVault(w: World, t: TaskId, mint: Key, st: Step)
    requires Sound(w) && w.s.config.Some? && w.s.config.value.mint == mint
    requires t in w.s.tasks && w.s.tasks[t].status.Open? && t in w.books && w.books[t].mint == mint
    requires st == OpenAccount(FeeVault(mint))
    ensures Refuse(w.s, st).None? && Workable(Next(w, st), t, mint) && SameTaskTerms(w, Next(w, st), t)
  {
    SoundStep(w, st);
    NoPaymentKeepsBooks(w.books);
  }

  /**
   The whole plan: someone creates the fee vault, each claimer with something to
   deliver delivers it, the windows and the deadline pass, a crank settles each
   unsettled claim, and someone closes the task.
   */
  lemma PlanExists(w: World, t: TaskId, mint: Key)
    returns (plan: seq<Step>, submits: seq<Step>, wait: Step, cranks: seq<Step>)
    requires Sound(w) && w.s.config.Some? && w.s.config.value.mint == mint
    requires t in w.s.tasks && w.s.tasks[t].status.Open? && t in w.books && w.books[t].mint == mint
    requires 0 < w.s.tasks[t].deadline && w.s.now + 1_209_600 <= I64_MAX
    ensures WindsUpUnaided(w, plan, t, mint)
    ensures plan == Phases(OpenAccount(FeeVault(mint)), submits, wait, cranks, CloseTask(Outsider(w.s, t), t))
    ensures AllSubmit(submits) && |submits| == |ToSubmit(w.s.claims, t)|
    ensures wait == Tick(Max(w.s.now + 1_209_600, w.s.tasks[t].deadline))
    ensures AllCranks(cranks) && |cranks| == |InBox(w.s.claims, t, Active)|
  {
    hide Sound, Inv, Phases, WoundUp;
    var open, close := OpenAccount(FeeVault(mint)), CloseTask(Outsider(w.s, t), t);
    OpeningFeeVault(w, t, mint, open);
    var w1, w3;
    submits, w1 := SubmitAll(Next(w, open), t, mint);
    wait, cranks, w3 := WaitAndSettle(w1, t, mint);
    ChainFive(w, open, submits, w1, wait, cranks, w3, close, t, w.s.tasks[t].poster, w.s.config.value.admin);
    plan := Phases(open, submits, wait, cranks, close);
  }

  /** The second half of the plan: once everything is delivered, wait and settle; then anyone can close. */
  lemma WaitAndSettle(w: World, t: TaskId, mint: Key) returns (wait: Step, cranks: seq<Step>, w': World)
    requires Workable(w, t, mint) && ToSubmit(w.s.claims, t) == {}
    requires 0 < w.s.tasks[t].deadline && w.s.now + 1_209_600 <= I64_MAX
    ensures wait == Tick(Max(w.s.now + 1_209_600, w.s.tasks[t].deadline))
    ensures Refuse(w.s, wait).None? && Exec(Next(w, wait), cranks) == Some(w')
    ensures AllByClaimersAndCranks(cranks, t, w.s.tasks[t].poster, w.s.config.value.admin)
    ensures AllCranks(cranks) && |cranks| == |InBox(w.s.claims, t, Active)|
    ensures var close := CloseTask(Outsider(w.s, t), t);
            Refuse(w'.s, close).None? && WoundUp(Next(w', close).s, t, mint)
  {
    hide WoundUp, Sound, Outsider;
    DeadlineFits(w, t);
    wait := Tick(Max(w.s.now + 1_209_600, w.s.tasks[t].deadline));
    WaitingRipens(w, t, mint, wait);
    cranks, w' := SettleAll(Next(w, wait), t, mint);
    ClosingWindsUp(w', t, mint, CloseTask(Outsider(w.s, t), t));
  }

  function Phases(a: Step, p: seq<Step>, b: Step, q: seq<Step>, c: Step): seq<Step> {
    [a] + (p + ([b] + (q + [c])))
  }

  lemma DeadlineFits(w: World, t: TaskId)
    requires Sound(w) && t in w.s.tasks
    ensures w.s.tasks[t].deadline <= I64_MAX
  {
    assert TaskShape(w.s.tasks[t], t, w.s.claims);
  }

  /** Three single steps around two plans make one plan. */
  lemma ChainFive(w: World, a: Step, p: seq<Step>, w1: World, b: Step, q: seq<Step>, w3: World, c: Step,
                  t: TaskId, poster: Key, admin: Key)
    requires Refuse(w.s, a).None? && Exec(Next(w, a), p) == Some(w1)
    requires Refuse(w1.s, b).None? && Exec(Next(w1, b), q) == Some(w3)
    requires Refuse(w3.s, c).None?
    requires ByClaimersAndCranks(a, t, poster, admin) && ByClaimersAndCranks(b, t, poster, admin)
    requires ByClaimersAndCranks(c, t, poster, admin)
    requires AllByClaimersAndCranks(p, t, poster, admin) && AllByClaimersAndCranks(q, t, poster, admin)
    ensures Exec(w, Phases(a, p, b, q, c)) == Some(Next(w3, c))
    ensures AllByClaimersAndCranks(Phases(a, p, b, q, c), t, poster, admin)
  {
    ExecOne(w3, c);
    ExecConcat(Next(w1, b), q, [c]);
    Prepend(w1, b, q + [c], t, poster, admin);
    ExecConcat(Next(w, a), p, [b] + (q + [c]));
    Prepend(w, a, p + ([b] + (q + [c])), t, poster, admin);
  }

  // ----- when there is no plan -----

  /** The task cannot be wound up without its poster or the admin. */
  predicate Stuck(s: State, t: TaskId, mint: Key) {
    && s.config.Some? && t in s.tasks
    && (|| (s.config.value.mint != mint && Vault(t, mint) in s.ledger)
        || (s.tasks[t].deadline <= 0 && s.tasks[t].status.Open?))
  }

  lemma StuckStep(s: State, st: Step, t: TaskId, mint: Key)
    requires Stuck(s, t, mint) && Refuse(s, st).None? && Unprivileged(st, t, s.tasks[t].poster)
    ensures Stuck(Effect(s, st), t, mint)
    ensures Effect(s, st).tasks[t].poster == s.tasks[t].poster
  {
    TermsAreFrozen(s, st, t);
    if s.config.value.mint != mint && Vault(t, mint) in s.ledger {
      SweepsPinnedMint(s, st);
      VaultStays(s, st, t, mint);
    }
  }

  lemma SweepsPinnedMint(s: State, st: Step)
    requires Refuse(s, st).None? && s.config.Some?
    ensures PaymentOf(s, st).Swept? ==> PaymentOf(s, st).mint == s.config.value.mint
  {
  }

  lemma {:induction false} StuckForever(w: World, plan: seq<Step>, t: TaskId, mint: Key)
    requires Stuck(w.s, t, mint) && AllUnprivileged(plan, t, w.s.tasks[t].poster) && Exec(w, plan).Some?
    ensures Stuck(Exec(w, plan).value.s, t, mint)
    decreases |plan|
  {
    if plan != [] {
      assert plan[0] in plan;
      StuckStep(w.s, plan[0], t, mint);
      StuckForever(Next(w, plan[0]), plan[1..], t, mint);
    }
  }

  /**
   When an open task can be wound up by its claimers, the clock and cranks
   alone: exactly when it has a deadline and the pinned mint is the one it was
   funded in. Nothing else that anyone but its poster and the admin can do, on
   this or any other task, helps when that is not so.
   */
  lemma ProgressIff(w: World, t: TaskId)
    requires Sound(w) && t in w.s.tasks && w.s.tasks[t].status.Open? && w.s.config.Some? && t in w.books
    requires w.s.now + 1_209_600 <= I64_MAX
    ensures (exists plan :: WindsUpUnaided(w, plan, t, w.books[t].mint)) <==>
            w.s.tasks[t].deadline > 0 && w.s.config.value.mint == w.books[t].mint
    ensures (exists plan :: WindsUp(w, plan, t, w.books[t].mint)) <==>
            w.s.tasks[t].deadline > 0 && w.s.config.value.mint == w.books[t].mint
  {
    var mint := w.books[t].mint;
    if w.s.tasks[t].deadline > 0 && w.s.config.value.mint == mint {
      var plan, _, _, _ := PlanExists(w, t, mint);
      UnaidedIsUnprivileged(w, plan, t, mint);
    } else {
      assert TaskBalances(w.s, w.books, t);
      forall plan
        ensures !WindsUp(w, plan, t, mint) && !WindsUpUnaided(w, plan, t, mint)
      {
        NoPlan(w, plan, t, mint);
      }
    }
  }

  lemma NoPlan(w: World, plan: seq<Step>, t: TaskId, mint: Key)
    requires Stuck(w.s, t, mint)
    ensures !WindsUp(w, plan, t, mint) && !WindsUpUnaided(w, plan, t, mint)
  {
    if WindsUpUnaided(w, plan, t, mint) {
      UnaidedIsUnprivileged(w, plan, t, mint);
    }
    if WindsUp(w, plan, t, mint) {
      StuckForever(w, plan, t, mint);
      assert false;
    }
  }

  // ----- when the admin can help -----

  /**
   While a task with a deadline is open, the admin can always make it possible
   to wind it up, by pinning the mint it was funded in.
   */
  lemma AdminCanPinBack(w: World, t: TaskId, st: Step)
    requires Sound(w) && t in w.s.tasks && w.s.tasks[t].status.Open? && w.s.config.Some? && t in w.books
    requires 0 < w.s.tasks[t].deadline && w.s.now + 1_209_600 <= I64_MAX
    requires st == UpdateMint(w.s.config.value.admin, w.books[t].mint)
    ensures Refuse(w.s, st).None? && Next(w, st).s.tasks == w.s.tasks && Next(w, st).s.config.Some?
    ensures exists plan :: WindsUpUnaided(Next(w, st), plan, t, w.books[t].mint)
  {
    SoundStep(w, st);
    NoPaymentKeepsBooks(w.books);
    ProgressIff(Next(w, st), t);
  }

  /**
   Once the task is closed nobody can: whatever anyone signs, its poster and the
   admin included, its vaults never hold less than at the close.
   */
  lemma {:induction false} NothingLeavesClosedTask(w: World, plan: seq<Step>, t: TaskId, mint: Key)
    requires Sound(w) && t in w.s.tasks && w.s.tasks[t].status.Closed? && Exec(w, plan).Some?
    ensures Bal(w.s.ledger, Vault(t, mint)) <= Bal(Exec(w, plan).value.s.ledger, Vault(t, mint))
    decreases |plan|
  {
    if plan != [] {
      SoundStep(w, plan[0]);
      ClosedTaskStep(w, plan[0], t);
      LedgerLaw(w.s, plan[0], Vault(t, mint));
      NothingLeavesClosedTask(Next(w, plan[0]), plan[1..], t, mint);
    }
  }
}
