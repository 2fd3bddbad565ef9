/**
 The life of one claim over a whole run: which instructions it went through,
 signed by whom, in which order and how far apart.
 */
module ClaimHistory {
  import opened Prelude
  import opened Accounts
  import opened Tokens
  import opened Slots
  import opened Instructions
  import opened Invariant
  import opened Bookkeeping
  import opened Runs

  // ----- how a claim changes -----

  /** A step writes the one claim it names and leaves every other claim alone. */
  lemma ClaimStep(s: State, st: Step, c: ClaimId)
    requires Refuse(s, st).None?
    ensures c in s.claims ==> c in NextClaims(s, st)
    ensures ClaimOf(st) != Some(c) ==>
              (c in NextClaims(s, st) <==> c in s.claims)
              && (c in s.claims ==> NextClaims(s, st)[c] == s.claims[c])
    ensures ClaimOf(st) == Some(c) ==>
              c in NextClaims(s, st) && NextClaims(s, st)[c] == NextClaim(s, st) && (c in s.claims <==> !st.Enroll?)
  {
  }

  /** Terminal claims never change again. */
  lemma TerminalIsAbsorbing(s: State, st: Step, c: ClaimId)
    requires Refuse(s, st).None? && c in s.claims && IsTerminal(s.claims[c].status)
    ensures c in Effect(s, st).claims && Effect(s, st).claims[c] == s.claims[c]
  {
    if ClaimOf(st) == Some(c) {
      WritesActiveClaim(s, st);
    }
  }

  /** Once a claim is terminal, nothing in the rest of a run changes it. */
  lemma {:induction false} TerminalForever(ws: seq<World>, sts: seq<Step>, i: nat, j: nat, c: ClaimId)
    requires IsHistory(ws, sts) && i <= j < |ws| && IsSettled(ws[i].s, c)
    ensures c in ws[j].s.claims && ws[j].s.claims[c] == ws[i].s.claims[c]
  {
    if i < j {
      TerminalForever(ws, sts, i, j - 1, c);
      TerminalAcross(ws, sts, j - 1, c);
    }
  }

  lemma TerminalAcross(ws: seq<World>, sts: seq<Step>, i: nat, c: ClaimId)
    requires IsHistory(ws, sts) && i < |sts| && IsSettled(ws[i].s, c)
    ensures c in ws[i + 1].s.claims && ws[i + 1].s.claims[c] == ws[i].s.claims[c]
  {
    StateStep(ws, sts, i);
    TerminalIsAbsorbing(ws[i].s, sts[i], c);
  }

  // ----- the log of a claim -----

  datatype Act =
    | Joined(signer: Key)
    | Delivered(signer: Key)
    | Struck(signer: Key)
    | Accepted(signer: Key)
    | TimedOut
    | Escalated(signer: Key)
    | Ruled(signer: Key, favor: Favor)
    | DefaultRuling

  /** What a step contributes to the log of a claim: the act, with its signer. */
  function ActOf(st: Step, c: ClaimId): seq<Act> {
    if ClaimOf(st) != Some(c) then []
    else match st
      case Enroll(claimer, _, _) => [Joined(claimer)]
      case Submit(claimer, _, _, _) => [Delivered(claimer)]
      case ApproveClaim(poster, _, _, _) => [Accepted(poster)]
      case RejectClaim(poster, _, _) => [Struck(poster)]
      case AutoApprove(_, _, _, _) => [TimedOut]
      case OpenDispute(claimer, _, _) => [Escalated(claimer)]
      case ResolveDispute(admin, _, _, _, favor) => [Ruled(admin, favor)]
      case AutoResolveDispute(_, _, _, _) => [DefaultRuling]
  }

  /** The acts on a claim in the first `n` steps of a run. */
  function Log(sts: seq<Step>, n: nat, c: ClaimId): seq<Act>
    requires n <= |sts|
  {
    if n == 0 then [] else Log(sts, n - 1, c) + ActOf(sts[n - 1], c)
  }

  /** Enrolled, then `r` times delivered by the claimer and rejected by the poster. */
  function Rounds(claimer: Key, poster: Key, r: nat): seq<Act> {
    if r == 0 then [Joined(claimer)]
    else Rounds(claimer, poster, r - 1) + [Delivered(claimer), Struck(poster)]
  }

  /** The only logs that lead to a claim record. */
  predicate Scripted(log: seq<Act>, cl: Claim, poster: Key) {
    var rounds := Rounds(cl.claimer, poster, cl.rejections);
    match cl.status
    case Enrolled => log == rounds
    case Submitted => log == rounds + [Delivered(cl.claimer)]
    case Rejected => log == rounds
    case Cancelled => log == rounds
    case Approved =>
      || log == rounds + [Delivered(cl.claimer), Accepted(poster)]
      || log == rounds + [Delivered(cl.claimer), TimedOut]
    case Disputed => log == rounds + [Escalated(cl.claimer)]
    case ResolvedDeliverer =>
      || log == rounds + [Escalated(cl.claimer), DefaultRuling]
      || EndsInRuling(log, rounds + [Escalated(cl.claimer)], Deliverer)
    case ResolvedPoster => EndsInRuling(log, rounds + [Escalated(cl.claimer)], Poster)
  }

  predicate EndsInRuling(log: seq<Act>, before: seq<Act>, favor: Favor) {
    && |log| > 0 && log[|log| - 1].Ruled? && log[|log| - 1].favor == favor
    && log == before + [log[|log| - 1]]
  }

  /** The claim state machine: who may act in which status, and what the record becomes. */
  predicate Allowed(cl: Claim, act: Act, cl': Claim, poster: Key) {
    && cl'.task == cl.task && cl'.claimer == cl.claimer
    && (act.Struck? || cl'.rejections == cl.rejections)
    && match act
       case Joined(_) => false
       case Delivered(k) => k == cl.claimer && (cl.status.Enrolled? || cl.status.Rejected?) && cl'.status.Submitted?
       case Struck(k) =>
         && k == poster && cl.status.Submitted? && cl'.rejections == cl.rejections + 1
         && cl'.status == if cl'.rejections == 3 then Cancelled else Rejected
       case Accepted(k) => k == poster && cl.status.Submitted? && cl'.status.Approved?
       case TimedOut => cl.status.Submitted? && cl'.status.Approved?
       case Escalated(k) => k == cl.claimer && cl.status.Rejected? && cl'.status.Disputed?
       case Ruled(_, favor) =>
         cl.status.Disputed? && cl'.status == if favor.Deliverer? then ResolvedDeliverer else ResolvedPoster
       case DefaultRuling => cl.status.Disputed? && cl'.status.ResolvedDeliverer?
  }

  lemma StepIsAllowed(s: State, st: Step, c: ClaimId)
    requires ClaimsSound(s) && Refuse(s, st).None? && ClaimOf(st) == Some(c) && !st.Enroll?
    ensures c in s.claims && |ActOf(st, c)| == 1
    ensures Allowed(s.claims[c], ActOf(st, c)[0], NextClaim(s, st), s.tasks[s.claims[c].task].poster)
  {
  }

  /** An allowed act extends one script to another. */
  lemma ScriptExtends(log: seq<Act>, cl: Claim, act: Act, cl': Claim, poster: Key)
    requires Scripted(log, cl, poster) && Allowed(cl, act, cl', poster)
    ensures Scripted(log + [act], cl', poster)
  {
    var rounds := Rounds(cl.claimer, poster, cl.rejections);
    var delivered, escalated := Delivered(cl.claimer), Escalated(cl.claimer);
    assert rounds + [delivered] + [act] == rounds + [delivered, act];
    assert rounds + [escalated] + [act] == rounds + [escalated, act];
  }

  lemma ScriptStep(s: State, st: Step, c: ClaimId, log: seq<Act>)
    requires ClaimsSound(s) && Refuse(s, st).None? && ClaimOf(st) == Some(c) && !st.Enroll?
    requires c in s.claims && Scripted(log, s.claims[c], s.tasks[s.claims[c].task].poster)
    ensures Scripted(log + ActOf(st, c), NextClaim(s, st), s.tasks[s.claims[c].task].poster)
  {
    StepIsAllowed(s, st, c);
    ScriptExtends(log, s.claims[c], ActOf(st, c)[0], NextClaim(s, st), s.tasks[s.claims[c].task].poster);
    assert ActOf(st, c) == [ActOf(st, c)[0]];
  }

  /** A claim has the log its record prescribes; an id without a claim has none. */
  predicate LogFits(s: State, c: ClaimId, log: seq<Act>) {
    if c in s.claims then
      s.claims[c].task in s.tasks && Scripted(log, s.claims[c], s.tasks[s.claims[c].task].poster)
    else log == []
  }

  /**
   The history of every claim is determined by its status and rejection count:
   in every run, the acts on it are exactly those its script prescribes, with
   the submissions and disputes signed by its claimer and the approvals and
   rejections by its task's poster.
   */
  lemma {:induction false} HistoryIsScripted(ws: seq<World>, sts: seq<Step>, n: nat, c: ClaimId)
    requires IsHistory(ws, sts) && n < |ws|
    ensures LogFits(ws[n].s, c, Log(sts, n, c))
  {
    if n > 0 {
      HistoryIsScripted(ws, sts, n - 1, c);
      LogAcross(ws, sts, n - 1, c, Log(sts, n - 1, c));
    }
  }

  lemma LogAcross(ws: seq<World>, sts: seq<Step>, i: nat, c: ClaimId, log: seq<Act>)
    requires IsHistory(ws, sts) && i < |sts| && LogFits(ws[i].s, c, log)
    ensures LogFits(ws[i + 1].s, c, log + ActOf(sts[i], c))
  {
    StateStep(ws, sts, i);
    LogStep(ws[i].s, sts[i], c, log);
  }

  lemma LogStep(s: State, st: Step, c: ClaimId, log: seq<Act>)
    requires Inv(s) && Refuse(s, st).None? && LogFits(s, c, log)
    ensures LogFits(Effect(s, st), c, log + ActOf(st, c))
  {
    ClaimStep(s, st, c);
    ClaimsSoundStep(s, st);
    if c in s.claims {
      TermsAreFrozen(s, st, s.claims[c].task);
      if ClaimOf(st) == Some(c) {
        ScriptStep(s, st, c, log);
        WritesActiveClaim(s, st);
      } else {
        assert log + [] == log;
      }
    }
  }

  // ----- refunds -----

  /**
   A poster cannot take back an enrolled slot alone. Whenever a claim's bounty
   is returned, either the claim has just gone through three rounds, each
   submitted by its claimer and then rejected; or its claimer had disputed a
   rejection and the admin of that moment ruled for the poster.
   */
  lemma RefundNeedsThreeRoundsOrAdmin(ws: seq<World>, sts: seq<Step>, i: nat)
    requires IsHistory(ws, sts) && i < |sts| && PaymentAt(ws, sts, i).Returned?
    ensures var c := PaymentAt(ws, sts, i).claim;
            && c in ws[i].s.claims && ws[i].s.claims[c].task in ws[i].s.tasks
            && var cl := ws[i].s.claims[c];
               var poster := ws[i].s.tasks[cl.task].poster;
               || Log(sts, i + 1, c) == Rounds(cl.claimer, poster, 3)
               || (&& ws[i].s.config.Some? && 1 <= cl.rejections <= 2
                   && Log(sts, i + 1, c) == Rounds(cl.claimer, poster, cl.rejections)
                        + [Escalated(cl.claimer)] + [Ruled(ws[i].s.config.value.admin, Poster)])
  {
    assert Follows(ws, sts, i);
    HistoryIsSound(ws, sts, i);
    var c := PaymentAt(ws, sts, i).claim;
    ReturnedBy(ws[i].s, sts[i]);
    HistoryIsScripted(ws, sts, i, c);
    var cl := ws[i].s.claims[c];
    RefundScript(Log(sts, i, c), cl, ws[i].s.tasks[cl.task].poster, ActOf(sts[i], c));
  }

  lemma ReturnedBy(s: State, st: Step)
    requires ClaimsSound(s) && Refuse(s, st).None? && PaymentOf(s, st).Returned?
    ensures PaymentOf(s, st).claim in s.claims && s.config.Some?
    ensures var c := PaymentOf(s, st).claim;
            var cl := s.claims[c];
            && cl.task in s.tasks
            && (|| (cl.status.Submitted? && cl.rejections == 2 && ActOf(st, c) == [Struck(s.tasks[cl.task].poster)])
                || (cl.status.Disputed? && 1 <= cl.rejections <= 2
                    && ActOf(st, c) == [Ruled(s.config.value.admin, Poster)]))
  {
    match st
    case RejectClaim(_, _, _) =>
    case ResolveDispute(_, _, _, _, _) =>
    case _ =>
  }

  lemma RefundScript(log: seq<Act>, cl: Claim, poster: Key, act: seq<Act>)
    requires Scripted(log, cl, poster)
    ensures cl.status.Disputed? ==>
              log + act == Rounds(cl.claimer, poster, cl.rejections) + [Escalated(cl.claimer)] + act
    ensures cl.status.Submitted? && cl.rejections == 2 && act == [Struck(poster)] ==>
              log + act == Rounds(cl.claimer, poster, 3)
  {
    var rounds := Rounds(cl.claimer, poster, 2);
    assert rounds + [Delivered(cl.claimer)] + [Struck(poster)] == rounds + [Delivered(cl.claimer), Struck(poster)];
  }

  /** A claim whose claimer has disputed a rejection never ends cancelled. */
  lemma {:induction false} DisputingRulesOutCancellation(ws: seq<World>, sts: seq<Step>, i: nat, j: nat, c: ClaimId)
    requires IsHistory(ws, sts) && i < j < |ws| && sts[i].OpenDispute? && sts[i].claim == c
    ensures WasDisputed(ws[j].s, c) && !ws[j].s.claims[c].status.Cancelled?
  {
    if i + 1 < j {
      DisputingRulesOutCancellation(ws, sts, i, j - 1, c);
    }
    DisputeAcross(ws, sts, j - 1, c);
  }

  lemma DisputeAcross(ws: seq<World>, sts: seq<Step>, i: nat, c: ClaimId)
    requires IsHistory(ws, sts) && i < |sts|
    requires WasDisputed(ws[i].s, c) || (sts[i].OpenDispute? && sts[i].claim == c)
    ensures WasDisputed(ws[i + 1].s, c)
  {
    StateStep(ws, sts, i);
    DisputeLasts(ws[i].s, sts[i], c);
  }

  predicate WasDisputed(s: State, c: ClaimId) {
    c in s.claims
    && (s.claims[c].status.Disputed? || s.claims[c].status.ResolvedDeliverer? || s.claims[c].status.ResolvedPoster?)
  }

  lemma DisputeLasts(s: State, st: Step, c: ClaimId)
    requires ClaimsSound(s) && Refuse(s, st).None?
    requires WasDisputed(s, c) || (st.OpenDispute? && st.claim == c)
    ensures WasDisputed(Effect(s, st), c)
  {
    ClaimStep(s, st, c);
    if ClaimOf(st) == Some(c) && !st.Enroll? {
      StepIsAllowed(s, st, c);
    }
  }

  // ----- timed cranks -----

  /** Nothing changed a claim between two points of a run. */
  ghost predicate Untouched(ws: seq<World>, c: ClaimId, i: nat, j: nat)
    requires i <= j < |ws|
  {
    c in ws[j].s.claims
    && forall k: nat :: i <= k <= j ==> c in ws[k].s.claims && ws[k].s.claims[c] == ws[j].s.claims[c]
  }

  /** A claim found submitted was either just submitted, or is as it was before the step. */
  lemma BecameSubmitted(s: State, st: Step, c: ClaimId)
    requires Refuse(s, st).None? && c in NextClaims(s, st) && NextClaims(s, st)[c].status.Submitted?
    ensures st.Submit? && st.claim == c ==> NextClaims(s, st)[c].submittedAt == s.now
    ensures !(st.Submit? && st.claim == c) ==> c in s.claims && s.claims[c] == NextClaims(s, st)[c]
  {
  }

  /** A submitted claim was submitted at the time it records, and untouched since. */
  lemma {:induction false} SubmittedSince(ws: seq<World>, sts: seq<Step>, n: nat, c: ClaimId) returns (i: nat)
    requires IsHistory(ws, sts) && n < |ws| && c in ws[n].s.claims && ws[n].s.claims[c].status.Submitted?
    ensures i < n && sts[i].Submit? && sts[i].claim == c
    ensures ws[i].s.now == ws[n].s.claims[c].submittedAt && Untouched(ws, c, i + 1, n)
  {
    assert n > 0;
    i := n - 1;
    assert Follows(ws, sts, i);
    BecameSubmitted(ws[i].s, sts[i], c);
    if !(sts[i].Submit? && sts[i].claim == c) {
      i := SubmittedSince(ws, sts, n - 1, c);
    }
  }

  /** A claim found disputed was either just disputed, or is as it was before the step. */
  lemma BecameDisputed(s: State, st: Step, c: ClaimId)
    requires Refuse(s, st).None? && c in NextClaims(s, st) && NextClaims(s, st)[c].status.Disputed?
    ensures st.OpenDispute? && st.claim == c ==> NextClaims(s, st)[c].disputedAt == s.now
    ensures !(st.OpenDispute? && st.claim == c) ==> c in s.claims && s.claims[c] == NextClaims(s, st)[c]
  {
  }

  /** A disputed claim was disputed at the time it records, and untouched since. */
  lemma {:induction false} DisputedSince(ws: seq<World>, sts: seq<Step>, n: nat, c: ClaimId) returns (i: nat)
    requires IsHistory(ws, sts) && n < |ws| && c in ws[n].s.claims && ws[n].s.claims[c].status.Disputed?
    ensures i < n && sts[i].OpenDispute? && sts[i].claim == c
    ensures ws[i].s.now == ws[n].s.claims[c].disputedAt && Untouched(ws, c, i + 1, n)
  {
    assert n > 0;
    i := n - 1;
    assert Follows(ws, sts, i);
    BecameDisputed(ws[i].s, sts[i], c);
    if !(sts[i].OpenDispute? && sts[i].claim == c) {
      i := DisputedSince(ws, sts, n - 1, c);
    }
  }

  /**
   Every permissionless payout is preceded, in every run, by a submission of
   the same claim at least 14 days, 1,209,600 seconds, earlier with nothing done to the claim in
   between: a resubmission always restarts the window.
   */
  lemma AutoApprovalWaits(ws: seq<World>, sts: seq<Step>, j: nat) returns (i: nat)
    requires IsHistory(ws, sts) && j < |sts| && sts[j].AutoApprove?
    ensures i < j && sts[i].Submit? && sts[i].claim == sts[j].claim
    ensures ws[i].s.now + 1_209_600 <= ws[j].s.now
    ensures Untouched(ws, sts[j].claim, i + 1, j)
  {
    assert Follows(ws, sts, j);
    i := SubmittedSince(ws, sts, j, sts[j].claim);
  }

  /** The same for the permissionless resolution of a dispute. */
  lemma AutoResolutionWaits(ws: seq<World>, sts: seq<Step>, j: nat) returns (i: nat)
    requires IsHistory(ws, sts) && j < |sts| && sts[j].AutoResolveDispute?
    ensures i < j && sts[i].OpenDispute? && sts[i].claim == sts[j].claim
    ensures ws[i].s.now + 1_209_600 <= ws[j].s.now
    ensures Untouched(ws, sts[j].claim, i + 1, j)
  {
    assert Follows(ws, sts, j);
    i := DisputedSince(ws, sts, j, sts[j].claim);
  }

  // ----- exactly one settlement -----

  /** The payment settles this claim. */
  predicate Settles(p: Payment, c: ClaimId) {
    (p.PaidOut? || p.Returned?) && p.claim == c
  }

  /** A claim is paid for in exactly the step that makes it terminal. */
  lemma SettlementIsTerminal(s: State, st: Step, c: ClaimId)
    requires Refuse(s, st).None?
    ensures Settles(PaymentOf(s, st), c) <==>
            c in s.claims && !IsTerminal(s.claims[c].status)
            && c in NextClaims(s, st) && IsTerminal(NextClaims(s, st)[c].status)
  {
    ClaimStep(s, st, c);
    SettlesItsClaim(s, st, c);
    if ClaimOf(st) == Some(c) && !st.Enroll? {
      WritesActiveClaim(s, st);
    }
  }

  lemma SettlesItsClaim(s: State, st: Step, c: ClaimId)
    requires Refuse(s, st).None?
    ensures Settles(PaymentOf(s, st), c) <==>
            ClaimOf(st) == Some(c) && !st.Enroll? && IsTerminal(NextClaim(s, st).status)
  {
  }

  /**
   A settlement moves exactly one bounty of the claim's task, out of a vault of
   that task: all of it to the claimer and the fee vault, or all of it to the
   poster. No other vault and nobody else's wallet changes.
   */
  predicate PaysItsParties(s: State, p: Payment, c: ClaimId, a: Account, before: nat, after: nat)
    requires c in s.claims && s.claims[c].task in s.tasks && s.config.Some?
  {
    var cl, mint := s.claims[c], s.config.value.mint;
    var task := s.tasks[cl.task];
    var split := ComputeFeeSplit(task.bounty, s.config.value.feeBps);
    && cl.claimer != task.poster && split.Ok? && split.value.net + split.value.fee == task.bounty
    && if a == Vault(cl.task, mint) then after == before - task.bounty
       else if p.PaidOut? && a == Wallet(cl.claimer, mint) then after == before + split.value.net
       else if p.PaidOut? && a == FeeVault(mint) then after == before + split.value.fee
       else if p.Returned? && a == Wallet(task.poster, mint) then after == before + task.bounty
       else after == before
  }

  lemma SettlementPaysItsParties(ws: seq<World>, sts: seq<Step>, i: nat, c: ClaimId, a: Account)
    requires IsHistory(ws, sts) && i < |sts| && Settles(PaymentAt(ws, sts, i), c)
    ensures c in ws[i].s.claims && !IsTerminal(ws[i].s.claims[c].status) && IsSettled(ws[i + 1].s, c)
    ensures ws[i].s.claims[c].task in ws[i].s.tasks && ws[i].s.config.Some?
    ensures PaysItsParties(ws[i].s, PaymentAt(ws, sts, i), c, a, Bal(ws[i].s.ledger, a), Bal(ws[i + 1].s.ledger, a))
  {
    StateStep(ws, sts, i);
    SettlementIsTerminal(ws[i].s, sts[i], c);
    SettlementMoves(ws[i].s, sts[i], c, a);
  }

  lemma SettlementMoves(s: State, st: Step, c: ClaimId, a: Account)
    requires Inv(s) && Refuse(s, st).None? && Settles(PaymentOf(s, st), c)
    ensures c in s.claims && s.claims[c].task in s.tasks && s.config.Some?
    ensures PaysItsParties(s, PaymentOf(s, st), c, a, Bal(s.ledger, a), Bal(Effect(s, st).ledger, a))
  {
    PartiesOf(s, st, c);
    LedgerLaw(s, st, a);
    SplitAddsUp(s, s.claims[c].task);
  }

  lemma PartiesOf(s: State, st: Step, c: ClaimId)
    requires ClaimsSound(s) && Refuse(s, st).None? && Settles(PaymentOf(s, st), c)
    ensures c in s.claims && s.claims[c].task in s.tasks && s.config.Some?
    ensures s.claims[c].claimer != s.tasks[s.claims[c].task].poster
    ensures PaymentOf(s, st).PaidOut? ==>
              ComputeFeeSplit(s.tasks[s.claims[c].task].bounty, s.config.value.feeBps).Ok?
              && PaymentOf(s, st) == Payout(s, s.claims[c].task, c)
    ensures PaymentOf(s, st).Returned? ==> PaymentOf(s, st) == Refund(s, s.claims[c].task, c)
  {
  }

  ghost function Settlements(ws: seq<World>, sts: seq<Step>, n: nat, c: ClaimId): nat
    requires IsRun(ws, sts) && n <= |sts|
  {
    if n == 0 then 0
    else Settlements(ws, sts, n - 1, c) + if Settles(PaymentAt(ws, sts, n - 1), c) then 1 else 0
  }

  /** In every run a claim has been settled exactly once if it is terminal, and otherwise never. */
  lemma {:induction false} SettledExactlyOnce(ws: seq<World>, sts: seq<Step>, n: nat, c: ClaimId)
    requires IsHistory(ws, sts) && n <= |sts|
    ensures Settlements(ws, sts, n, c) == if IsSettled(ws[n].s, c) then 1 else 0
  {
    if n > 0 {
      SettledExactlyOnce(ws, sts, n - 1, c);
      StateStep(ws, sts, n - 1);
      SettledStep(ws[n - 1].s, sts[n - 1], c);
    }
  }

  predicate IsSettled(s: State, c: ClaimId) {
    c in s.claims && IsTerminal(s.claims[c].status)
  }

  lemma SettledStep(s: State, st: Step, c: ClaimId)
    requires Refuse(s, st).None?
    ensures IsSettled(Effect(s, st), c) <==> IsSettled(s, c) || Settles(PaymentOf(s, st), c)
    ensures !(IsSettled(s, c) && Settles(PaymentOf(s, st), c))
  {
    SettlementIsTerminal(s, st, c);
    ClaimStep(s, st, c);
    if IsSettled(s, c) {
      TerminalIsAbsorbing(s, st, c);
    }
  }

  // ----- how long a claim can go on -----

  /** How many more acts a claim can still see. */
  function Rank(cl: Claim): nat {
    match cl.status
    case Enrolled => 6
    case Submitted => SaturatingSub(5, 2 * cl.rejections)
    case Rejected => SaturatingSub(6, 2 * cl.rejections)
    case Disputed => 1
    case _ => 0
  }

  /** Every claim instruction lowers the rank of the claim it acts on. */
  lemma RankFalls(s: State, st: Step, c: ClaimId)
    requires ClaimsSound(s) && Refuse(s, st).None? && ClaimOf(st) == Some(c) && !st.Enroll?
    ensures c in s.claims && Rank(NextClaim(s, st)) < Rank(s.claims[c])
  {
    StepIsAllowed(s, st, c);
  }

  ghost function Ranks(claims: Claims, t: TaskId): map<ClaimId, nat> {
    map c | c in claims && claims[c].task == t :: Rank(claims[c])
  }

  /** The claim instructions a task can still accept, counting seven for an unfilled slot. */
  ghost function Potential(task: Task, claims: Claims, t: TaskId): nat
    requires task.slotsEnrolled <= task.maxSlots
  {
    7 * (task.maxSlots - task.slotsEnrolled) + Sum(Ranks(claims, t))
  }

  /** The step is a claim instruction on this task. */
  predicate ActsOn(st: Step, t: TaskId) {
    ClaimOf(st).Some? && TaskOf(st) == Some(t)
  }

  lemma PotentialFalls(s: State, st: Step, t: TaskId)
    requires Inv(s) && Refuse(s, st).None? && t in s.tasks && t in NextTasks(s, st)
    ensures s.tasks[t].slotsEnrolled <= s.tasks[t].maxSlots
    ensures NextTasks(s, st)[t].slotsEnrolled <= NextTasks(s, st)[t].maxSlots
    ensures Potential(NextTasks(s, st)[t], NextClaims(s, st), t) + (if ActsOn(st, t) then 1 else 0)
            <= Potential(s.tasks[t], s.claims, t)
  {
    TasksSoundStep(s, st);
    assert TaskShape(s.tasks[t], t, s.claims);
    assert TaskShape(Effect(s, st).tasks[t], t, Effect(s, st).claims);
    TermsAreFrozen(s, st, t);
    match ClaimOf(st)
    case None =>
    case Some(c) =>
      ClaimStepOnTask(s, st, t);
      RanksAfter(s, st, t, c);
  }

  lemma RanksAfter(s: State, st: Step, t: TaskId, c: ClaimId)
    requires ConfigSound(s) && ClaimsSound(s) && Refuse(s, st).None? && ClaimOf(st) == Some(c)
    ensures st.task != t ==> Ranks(NextClaims(s, st), t) == Ranks(s.claims, t)
    ensures st.task == t && st.Enroll? ==> Sum(Ranks(NextClaims(s, st), t)) == Sum(Ranks(s.claims, t)) + 6
    ensures st.task == t && !st.Enroll? ==> Sum(Ranks(NextClaims(s, st), t)) < Sum(Ranks(s.claims, t))
  {
    WrittenClaimIsSound(s, st);
    RankWrite(s.claims, c, NextClaim(s, st), t);
    if !st.Enroll? {
      RankFalls(s, st, c);
    }
  }

  lemma RankWrite(claims: Claims, c: ClaimId, cl: Claim, t: TaskId)
    requires c in claims ==> claims[c].task == cl.task
    ensures cl.task != t ==> Ranks(claims[c := cl], t) == Ranks(claims, t)
    ensures cl.task == t ==>
              Sum(Ranks(claims[c := cl], t)) + (if c in claims then Rank(claims[c]) else 0) ==
              Sum(Ranks(claims, t)) + Rank(cl)
  {
    if cl.task == t {
      assert Ranks(claims[c := cl], t) == Ranks(claims, t)[c := Rank(cl)];
      SumWrite(Ranks(claims, t), c, Rank(cl));
    }
  }

  /** The claim instructions on a task among steps `lo` to `hi` of a run. */
  function ActsBetween(sts: seq<Step>, lo: nat, hi: nat, t: TaskId): nat
    requires lo <= hi <= |sts|
  {
    if lo == hi then 0 else ActsBetween(sts, lo, hi - 1, t) + if ActsOn(sts[hi - 1], t) then 1 else 0
  }

  /** A task has used up `acts` of its seven claim instructions per slot. */
  ghost predicate Used(s: State, t: TaskId, acts: nat) {
    && t in s.tasks && s.tasks[t].slotsEnrolled <= s.tasks[t].maxSlots
    && acts + Potential(s.tasks[t], s.claims, t) <= 7 * s.tasks[t].maxSlots
  }

  ghost predicate Lives(ws: seq<World>, lo: nat, hi: nat, t: TaskId)
    requires lo <= hi < |ws|
  {
    forall k: nat :: lo < k <= hi ==> t in ws[k].s.tasks
  }

  lemma UsedStep(s: State, st: Step, t: TaskId, acts: nat)
    requires Inv(s) && Refuse(s, st).None? && t in NextTasks(s, st)
    requires Used(s, t, acts)
    ensures Used(Effect(s, st), t, acts + if ActsOn(st, t) then 1 else 0)
  {
    TermsAreFrozen(s, st, t);
    PotentialFalls(s, st, t);
  }

  /**
   From the step that initializes a task on, as long as it is not cancelled,
   the task accepts at most seven claim instructions per slot.
   */
  lemma {:induction false} ActivityIsBounded(ws: seq<World>, sts: seq<Step>, lo: nat, hi: nat, t: TaskId)
    requires IsHistory(ws, sts) && lo < hi < |ws| && sts[lo].InitializeTask? && sts[lo].task == t
    requires Lives(ws, lo, hi, t)
    ensures Used(ws[hi].s, t, ActsBetween(sts, lo, hi, t))
    ensures ActsBetween(sts, lo, hi, t) <= 7 * ws[hi].s.tasks[t].maxSlots
  {
    if lo + 1 == hi {
      FreshTaskIsUnused(ws, sts, lo);
    } else {
      ActivityIsBounded(ws, sts, lo, hi - 1, t);
      UsedAcross(ws, sts, hi - 1, t, ActsBetween(sts, lo, hi - 1, t));
    }
  }

  lemma UsedAcross(ws: seq<World>, sts: seq<Step>, i: nat, t: TaskId, acts: nat)
    requires IsHistory(ws, sts) && i < |sts| && Used(ws[i].s, t, acts) && t in ws[i + 1].s.tasks
    ensures Used(ws[i + 1].s, t, acts + if ActsOn(sts[i], t) then 1 else 0)
  {
    StateStep(ws, sts, i);
    UsedStep(ws[i].s, sts[i], t, acts);
  }

  lemma FreshTaskIsUnused(ws: seq<World>, sts: seq<Step>, i: nat)
    requires IsHistory(ws, sts) && i < |sts| && sts[i].InitializeTask?
    ensures Used(ws[i + 1].s, sts[i].task, 0)
  {
    StateStep(ws, sts, i);
    FreshPotential(ws[i].s, sts[i]);
  }

  lemma FreshPotential(s: State, st: Step)
    requires Inv(s) && Refuse(s, st).None? && st.InitializeTask?
    ensures st.task in NextTasks(s, st)
    ensures NextTasks(s, st)[st.task].slotsEnrolled == 0 && NextTasks(s, st)[st.task].maxSlots == st.maxSlots
    ensures Potential(NextTasks(s, st)[st.task], NextClaims(s, st), st.task) == 7 * st.maxSlots
  {
    EmptyTaskHasNoClaims(s, st.task);
    assert Ranks(NextClaims(s, st), st.task) == map[];
  }
}
