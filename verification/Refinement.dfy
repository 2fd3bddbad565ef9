/**
 The task counters and the vault refine a plain escrow of boxes. The abstract
 escrow starts with `max_slots` boxes of one bounty each; a box is filled by a
 claim, and later its bounty is paid to the claimer or given back to the
 poster; closing the escrow empties the boxes nobody filled.
 */
module Refinement {
  import opened Prelude
  import opened Accounts
  import opened Tokens
  import opened Slots
  import opened Instructions
  import opened Invariant
  import opened Bookkeeping
  import opened Runs
  import opened ClaimHistory

  datatype Boxes = Boxes(bounty: nat, unfilled: nat, filled: map<ClaimId, Box>, open: bool)

  datatype BoxMove = Stutter | Fill(claim: ClaimId) | Pay(claim: ClaimId) | GiveBack(claim: ClaimId) | Empty

  ghost function ActiveIn(filled: map<ClaimId, Box>): set<ClaimId> {
    set c | c in filled && filled[c].Active?
  }

  ghost function ActiveBoxes(e: Boxes): set<ClaimId> {
    ActiveIn(e.filled)
  }

  /** What the boxes hold. */
  ghost function Held(e: Boxes): nat {
    if e.open then e.bounty * (e.unfilled + |ActiveBoxes(e)|) else 0
  }

  ghost predicate Enabled(e: Boxes, m: BoxMove) {
    match m
    case Stutter => true
    case Fill(c) => e.open && e.unfilled > 0 && c !in e.filled
    case Pay(c) => e.open && c in e.filled && e.filled[c].Active?
    case GiveBack(c) => e.open && c in e.filled && e.filled[c].Active?
    case Empty => e.open && ActiveBoxes(e) == {}
  }

  function Act(e: Boxes, m: BoxMove): Boxes {
    match m
    case Stutter => e
    case Fill(c) => e.(unfilled := SaturatingSub(e.unfilled, 1), filled := e.filled[c := Active])
    case Pay(c) => e.(filled := e.filled[c := Paid])
    case GiveBack(c) => e.(filled := e.filled[c := Refunded])
    case Empty => e.(open := false)
  }

  /** What leaves the boxes in a move: one bounty, or all unfilled boxes. */
  function Released(e: Boxes, m: BoxMove): nat {
    match m
    case Stutter => 0
    case Fill(_) => 0
    case Pay(_) => e.bounty
    case GiveBack(_) => e.bounty
    case Empty => e.bounty * e.unfilled
  }

  /** The abstract escrow conserves money: what it held is held or released. */
  lemma BoxesConserve(e: Boxes, m: BoxMove)
    requires Enabled(e, m)
    ensures Held(Act(e, m)) + Released(e, m) == Held(e)
  {
    ActiveBoxesAfter(e, m);
    match m
    case Pay(_) => OneBoxFewer(e.bounty, e.unfilled, |ActiveBoxes(e)|);
    case GiveBack(_) => OneBoxFewer(e.bounty, e.unfilled, |ActiveBoxes(e)|);
    case Empty => assert e.unfilled + |ActiveBoxes(e)| == e.unfilled;
    case Fill(_) => assert e.unfilled - 1 + (|ActiveBoxes(e)| + 1) == e.unfilled + |ActiveBoxes(e)|;
    case Stutter =>
  }

  lemma ActiveBoxesAfter(e: Boxes, m: BoxMove)
    requires Enabled(e, m)
    ensures |ActiveBoxes(Act(e, m))| ==
            |ActiveBoxes(e)| + (match m case Fill(_) => 1 case Pay(_) => -1 case GiveBack(_) => -1 case _ => 0)
    ensures m.Empty? ==> |ActiveBoxes(e)| == 0
  {
    match m
    case Fill(c) => BoxWritten(e.filled, c, Active);
    case Pay(c) => BoxWritten(e.filled, c, Paid);
    case GiveBack(c) => BoxWritten(e.filled, c, Refunded);
    case Stutter =>
    case Empty =>
  }

  lemma BoxWritten(filled: map<ClaimId, Box>, c: ClaimId, b: Box)
    ensures b.Active? && c !in filled ==> |ActiveIn(filled[c := b])| == |ActiveIn(filled)| + 1
    ensures !b.Active? && c in filled && filled[c].Active? ==> |ActiveIn(filled[c := b])| == |ActiveIn(filled)| - 1
  {
    var a, a' := ActiveIn(filled), ActiveIn(filled[c := b]);
    assert a' == if b.Active? then a + {c} else a - {c};
  }

  lemma OneBoxFewer(b: nat, u: nat, n: nat)
    requires n > 0
    ensures b * (u + (n - 1)) + b == b * (u + n)
  {
  }

  // ----- the abstraction -----

  /** The boxes a task record and the claim accounts stand for. */
  ghost function BoxesOf(s: State, t: TaskId): Boxes
    requires t in s.tasks
  {
    BoxesFor(s.tasks[t], s.claims, t)
  }

  ghost function BoxesFor(task: Task, claims: Claims, t: TaskId): Boxes {
    Boxes(task.bounty, SaturatingSub(task.maxSlots, task.slotsEnrolled), FilledBoxes(claims, t), task.status.Open?)
  }

  ghost function FilledBoxes(claims: Claims, t: TaskId): map<ClaimId, Box> {
    map c | c in claims && claims[c].task == t :: BoxOf(claims[c].status)
  }

  /** The abstract move an instruction makes on the task it names. */
  function MoveOf(s: State, st: Step, t: TaskId): BoxMove
    requires Refuse(s, st).None?
  {
    if TaskOf(st) != Some(t) then Stutter
    else if st.CloseTask? || st.AutoCancelTask? then Empty
    else match ClaimOf(st)
      case None => Stutter
      case Some(c) =>
        if st.Enroll? then Fill(c)
        else match BoxOf(NextClaim(s, st).status)
          case Active => Stutter
          case Paid => Pay(c)
          case Refunded => GiveBack(c)
  }

  /** Filling a slot, and moving an active claim, as moves of the boxes. */
  lemma WriteRefinesBoxes(task: Task, claims: Claims, c: ClaimId, cl: Claim, t: TaskId)
    requires c in claims ==> claims[c].task == cl.task && BoxOf(claims[c].status).Active?
    ensures cl.task != t ==> BoxesFor(task, claims[c := cl], t) == BoxesFor(task, claims, t)
    ensures cl.task == t && cl.status.Enrolled? && task.slotsEnrolled < task.maxSlots ==>
              BoxesFor(EnrolledSlot(task), claims[c := cl], t) == Act(BoxesFor(task, claims, t), Fill(c))
    ensures cl.task == t && c in claims ==>
              && c in FilledBoxes(claims, t) && FilledBoxes(claims, t)[c].Active?
              && match BoxOf(cl.status)
                 case Active => BoxesFor(task, claims[c := cl], t) == BoxesFor(task, claims, t)
                 case Paid => BoxesFor(PaidSlot(task), claims[c := cl], t) == Act(BoxesFor(task, claims, t), Pay(c))
                 case Refunded =>
                   BoxesFor(RefundedSlot(task), claims[c := cl], t) == Act(BoxesFor(task, claims, t), GiveBack(c))
  {
    var filled, filled' := FilledBoxes(claims, t), FilledBoxes(claims[c := cl], t);
    assert filled' == if cl.task == t then filled[c := BoxOf(cl.status)] else filled;
    assert cl.task == t && c in claims ==> filled[c := Active] == filled;
  }

  /**
   Every step makes, on every task that exists before and after it, exactly one
   enabled move of the abstract escrow or none. In particular a box is paid or
   given back only while its escrow is open, although the dispute instructions
   do not check that.
   */
  lemma StepRefinesBoxes(s: State, st: Step, t: TaskId)
    requires Inv(s) && Refuse(s, st).None? && t in s.tasks && t in NextTasks(s, st)
    ensures Enabled(BoxesOf(s, t), MoveOf(s, st, t))
    ensures BoxesOf(Effect(s, st), t) == Act(BoxesOf(s, t), MoveOf(s, st, t))
  {
    match ClaimOf(st)
    case None => TaskStepRefinesBoxes(s, st, t);
    case Some(c) => ClaimStepRefinesBoxes(s, st, t, c);
  }

  lemma TaskStepRefinesBoxes(s: State, st: Step, t: TaskId)
    requires Inv(s) && Refuse(s, st).None? && t in s.tasks && t in NextTasks(s, st) && ClaimOf(st).None?
    ensures Enabled(BoxesOf(s, t), MoveOf(s, st, t))
    ensures BoxesOf(Effect(s, st), t) == Act(BoxesOf(s, t), MoveOf(s, st, t))
  {
    TaskStepCases(s, st, t);
    if Closes(st, t) {
      CloseGateIsExact(s, t);
      assert ActiveBoxes(BoxesOf(s, t)) == InBox(s.claims, t, Active);
    }
  }

  /** An instruction that writes no claim closes the task it names or leaves its record alone. */
  lemma TaskStepCases(s: State, st: Step, t: TaskId)
    requires Inv(s) && Refuse(s, st).None? && t in s.tasks && t in NextTasks(s, st) && ClaimOf(st).None?
    ensures NextTasks(s, st)[t] == if Closes(st, t) then s.tasks[t].(status := Closed) else s.tasks[t]
    ensures Closes(st, t) ==> s.tasks[t].status.Open? && ActiveSlots(s.tasks[t]) == 0
    ensures MoveOf(s, st, t) == if Closes(st, t) then Empty else Stutter
  {
    assert TaskShape(s.tasks[t], t, s.claims);
  }

  lemma ClaimStepRefinesBoxes(s: State, st: Step, t: TaskId, c: ClaimId)
    requires Inv(s) && Refuse(s, st).None? && t in s.tasks && t in NextTasks(s, st) && ClaimOf(st) == Some(c)
    ensures Enabled(BoxesOf(s, t), MoveOf(s, st, t))
    ensures BoxesOf(Effect(s, st), t) == Act(BoxesOf(s, t), MoveOf(s, st, t))
  {
    ClaimMoveIsEnabled(s, st, t, c);
    hide Refuse, NextTasks, NextClaim, BoxesFor, FilledBoxes, Act, Enabled, Inv;
    ClaimStepOnTask(s, st, t);
    if st.Enroll? {
      EnrollWritesFreshClaim(s, st);
    } else {
      WritesActiveClaim(s, st);
    }
    WriteRefinesBoxes(s.tasks[t], s.claims, c, NextClaim(s, st), t);
  }

  /** A slot is filled only if one is unfilled, and a claim is settled only while its box is active. */
  lemma ClaimMoveIsEnabled(s: State, st: Step, t: TaskId, c: ClaimId)
    requires Inv(s) && Refuse(s, st).None? && t in s.tasks && t in NextTasks(s, st) && ClaimOf(st) == Some(c)
    ensures Enabled(BoxesOf(s, t), MoveOf(s, st, t))
  {
    hide Refuse, NextTasks, NextClaim, Inv;
    if st.Enroll? {
      EnrollWritesFreshClaim(s, st);
      ClaimStepOnTask(s, st, t);
    } else {
      WritesActiveClaim(s, st);
      ActiveClaimLeavesRoom(s, c);
    }
  }

  /** A task is initialized as `max_slots` unfilled boxes. */
  lemma InitializeRefinesBoxes(s: State, st: Step)
    requires Inv(s) && Refuse(s, st).None? && st.InitializeTask?
    ensures st.task in NextTasks(s, st)
    ensures BoxesOf(Effect(s, st), st.task) == Boxes(st.bounty, st.maxSlots, map[], true)
  {
    EmptyTaskHasNoClaims(s, st.task);
    assert FilledBoxes(s.claims, st.task) == map[];
  }

  /** A task is removed only while all of its boxes are unfilled. */
  lemma CancelledTaskIsUnfilled(s: State, st: Step)
    requires Inv(s) && Refuse(s, st).None? && st.CancelBeforeEnroll?
    ensures BoxesOf(s, st.task) == Boxes(s.tasks[st.task].bounty, s.tasks[st.task].maxSlots, map[], true)
  {
    EmptyTaskHasNoClaims(s, st.task);
    assert FilledBoxes(s.claims, st.task) == map[];
  }

  /** The counters of the record count the boxes. */
  lemma CountersMatchBoxes(s: State, t: TaskId)
    requires Inv(s) && t in s.tasks
    ensures var task, e := s.tasks[t], BoxesOf(s, t);
            && e.unfilled + |e.filled| == task.maxSlots && |e.filled| == task.slotsEnrolled
            && |ActiveBoxes(e)| == task.slotsEnrolled - task.slotsApproved - task.slotsRefunded
  {
    assert TaskShape(s.tasks[t], t, s.claims);
    BoxSizesAddUp(s.claims, t);
    var e := BoxesOf(s, t);
    assert ActiveBoxes(e) == InBox(s.claims, t, Active);
    assert e.filled.Keys == Members(s.claims, t);
  }

  /** The bounties of slots that were settled in another mint. */
  function Stray(task: Task, k: Book): nat {
    task.bounty * (k.strayPaid + k.strayRefunded)
  }

  /** A sweep of the unfilled boxes to the poster, with the gifts and the stray bounties. */
  ghost predicate SweepsUnfilled(p: Payment, t: TaskId, e: Boxes, task: Task, k: Book) {
    && p.Swept? && p.task == t && p.mint == k.mint && p.poster == task.poster
    && p.amount == Released(e, Empty) + k.gifts + Stray(task, k)
  }

  /**
   The vault of an open task holds what its boxes hold, plus the gifts, plus
   the bounties of slots that were settled in another mint.
   */
  lemma VaultMatchesBoxes(w: World, t: TaskId)
    requires Sound(w) && t in w.s.tasks && w.s.tasks[t].status.Open?
    ensures t in w.books
    ensures var k := w.books[t];
            Bal(w.s.ledger, Vault(t, k.mint)) ==
            Held(BoxesOf(w.s, t)) + k.gifts + Stray(w.s.tasks[t], k)
  {
    hide VaultIsExact, Held, Stray;
    ExactSolvency(w, t);
    HeldIsOwed(w.s, t);
    OwedAndMore(w.s.tasks[t], w.books[t], Bal(w.s.ledger, Vault(t, w.books[t].mint)), Held(BoxesOf(w.s, t)));
  }

  lemma OwedAndMore(task: Task, k: Book, vault: nat, held: nat)
    requires VaultIsExact(task, k, vault)
    requires held == task.bounty * (task.maxSlots - task.slotsApproved - task.slotsRefunded)
    ensures vault == held + k.gifts + Stray(task, k)
  {
  }

  lemma HeldIsOwed(s: State, t: TaskId)
    requires Inv(s) && t in s.tasks && s.tasks[t].status.Open?
    ensures var task := s.tasks[t];
            Held(BoxesOf(s, t)) == task.bounty * (task.maxSlots - task.slotsApproved - task.slotsRefunded)
  {
    CountersMatchBoxes(s, t);
    var task, e := s.tasks[t], BoxesOf(s, t);
    assert e.unfilled + |ActiveBoxes(e)| == task.maxSlots - task.slotsApproved - task.slotsRefunded;
  }

  /**
   Closing a task in its funding mint returns to the poster exactly the
   unfilled boxes, plus the gifts and the stray bounties.
   */
  lemma ClosingStepEmptiesBoxes(w: World, st: Step, t: TaskId)
    requires Sound(w) && Refuse(w.s, st).None? && Closes(st, t)
    requires t in w.books && w.books[t].mint == w.s.config.value.mint
    ensures t in w.s.tasks && t in NextTasks(w.s, st)
    ensures SweepsUnfilled(PaymentOf(w.s, st), t, BoxesOf(w.s, t), w.s.tasks[t], w.books[t])
  {
    ClosingStepEmptiesVault(w.s, st, t);
    TaskStepCases(w.s, st, t);
    TaskStepRefinesBoxes(w.s, st, t);
    BoxesConserve(BoxesOf(w.s, t), Empty);
    VaultMatchesBoxes(w, t);
  }

  // ----- over runs -----

  ghost function MoveAt(ws: seq<World>, sts: seq<Step>, i: nat, t: TaskId): BoxMove
    requires IsRun(ws, sts) && i < |sts|
  {
    assert Follows(ws, sts, i);
    MoveOf(ws[i].s, sts[i], t)
  }

  /** The abstract run from the initialization of a task at step `lo` on: moves only, no counters and no claims. */
  ghost function BoxRun(ws: seq<World>, sts: seq<Step>, lo: nat, hi: nat, t: TaskId): Boxes
    requires IsRun(ws, sts) && lo < hi <= |sts| && sts[lo].InitializeTask?
  {
    if hi == lo + 1 then Boxes(sts[lo].bounty, sts[lo].maxSlots, map[], true)
    else Act(BoxRun(ws, sts, lo, hi - 1, t), MoveAt(ws, sts, hi - 1, t))
  }

  /**
   Every run refines a run of the boxes: as long as a task is not cancelled, its
   record and claims are what the moves made so far lead to, and each further
   move is enabled there.
   */
  lemma {:induction false} RunRefinesBoxes(ws: seq<World>, sts: seq<Step>, lo: nat, hi: nat, t: TaskId)
    requires IsHistory(ws, sts) && lo < hi <= |sts| && sts[lo].InitializeTask? && sts[lo].task == t
    requires Lives(ws, lo, hi, t)
    ensures t in ws[hi].s.tasks && BoxesOf(ws[hi].s, t) == BoxRun(ws, sts, lo, hi, t)
    ensures hi < |sts| && t in ws[hi + 1].s.tasks ==> Enabled(BoxRun(ws, sts, lo, hi, t), MoveAt(ws, sts, hi, t))
  {
    if lo + 1 == hi {
      BoxesAtStart(ws, sts, lo);
    } else {
      RunRefinesBoxes(ws, sts, lo, hi - 1, t);
      BoxesAcross(ws, sts, hi - 1, t);
    }
    if hi < |sts| && t in ws[hi + 1].s.tasks {
      BoxesAcross(ws, sts, hi, t);
    }
  }

  lemma BoxesAtStart(ws: seq<World>, sts: seq<Step>, i: nat)
    requires IsHistory(ws, sts) && i < |sts| && sts[i].InitializeTask?
    ensures sts[i].task in ws[i + 1].s.tasks
    ensures BoxesOf(ws[i + 1].s, sts[i].task) == Boxes(sts[i].bounty, sts[i].maxSlots, map[], true)
  {
    StateStep(ws, sts, i);
    InitializeRefinesBoxes(ws[i].s, sts[i]);
  }

  lemma BoxesAcross(ws: seq<World>, sts: seq<Step>, i: nat, t: TaskId)
    requires IsHistory(ws, sts) && i < |sts| && t in ws[i].s.tasks && t in ws[i + 1].s.tasks
    ensures Enabled(BoxesOf(ws[i].s, t), MoveAt(ws, sts, i, t))
    ensures BoxesOf(ws[i + 1].s, t) == Act(BoxesOf(ws[i].s, t), MoveAt(ws, sts, i, t))
  {
    StateStep(ws, sts, i);
    StepRefinesBoxes(ws[i].s, sts[i], t);
  }

  /** A task is only ever removed while all of its boxes are unfilled. */
  lemma CancelRefinesBoxes(ws: seq<World>, sts: seq<Step>, i: nat)
    requires IsHistory(ws, sts) && i < |sts| && sts[i].CancelBeforeEnroll?
    ensures sts[i].task in ws[i].s.tasks
    ensures var task := ws[i].s.tasks[sts[i].task];
            BoxesOf(ws[i].s, sts[i].task) == Boxes(task.bounty, task.maxSlots, map[], true)
  {
    StateStep(ws, sts, i);
    CancelledTaskIsUnfilled(ws[i].s, sts[i]);
  }

  predicate CountersCount(task: Task, unfilled: nat, filled: nat, active: nat) {
    && unfilled + filled == task.maxSlots && filled == task.slotsEnrolled
    && active == task.slotsEnrolled - task.slotsApproved - task.slotsRefunded
  }

  /** In every reachable world the counters of a record count its boxes. */
  lemma CountersCountBoxes(ws: seq<World>, sts: seq<Step>, n: nat, t: TaskId)
    requires IsHistory(ws, sts) && n < |ws| && t in ws[n].s.tasks
    ensures var e := BoxesOf(ws[n].s, t);
            CountersCount(ws[n].s.tasks[t], e.unfilled, |e.filled|, |ActiveBoxes(e)|)
  {
    HistoryIsSound(ws, sts, n);
    CountersMatchBoxes(ws[n].s, t);
  }

  /**
   In every reachable world the vault of an open task holds what its boxes hold,
   plus the gifts, plus the bounties of slots that were settled in another mint.
   */
  lemma VaultHoldsBoxes(ws: seq<World>, sts: seq<Step>, n: nat, t: TaskId)
    requires IsHistory(ws, sts) && n < |ws| && t in ws[n].s.tasks && ws[n].s.tasks[t].status.Open?
    ensures t in ws[n].books
    ensures var k := ws[n].books[t];
            Bal(ws[n].s.ledger, Vault(t, k.mint)) ==
            Held(BoxesOf(ws[n].s, t)) + k.gifts + Stray(ws[n].s.tasks[t], k)
  {
    HistoryIsSound(ws, sts, n);
    VaultMatchesBoxes(ws[n], t);
  }

  /**
   The money follows the moves. In every run, whatever mint is pinned, a step
   takes out of a task's vaults exactly what its move releases from the boxes,
   all of it from the vault of the pinned mint. Emptying the boxes takes whatever
   that vault holds, which in the funding mint is what the unfilled boxes release
   plus the gifts and the stray bounties.
   */
  lemma PaymentsFollowBoxes(ws: seq<World>, sts: seq<Step>, i: nat, t: TaskId, mint: Key)
    requires IsHistory(ws, sts) && i < |sts| && t in ws[i].s.tasks && t in ws[i + 1].s.tasks
    ensures ws[i].s.config.Some? && t in ws[i].books
    ensures var task, e, move, k := ws[i].s.tasks[t], BoxesOf(ws[i].s, t), MoveAt(ws, sts, i, t), ws[i].books[t];
            var taken := Debit(PaymentAt(ws, sts, i), Vault(t, mint));
            && (mint != ws[i].s.config.value.mint ==> taken == 0)
            && (mint == ws[i].s.config.value.mint && !move.Empty? ==> taken == Released(e, move))
            && (mint == ws[i].s.config.value.mint && move.Empty? ==> taken == Bal(ws[i].s.ledger, Vault(t, mint)))
            && (mint == ws[i].s.config.value.mint == k.mint && move.Empty? ==>
                  taken == Released(e, move) + k.gifts + Stray(task, k))
  {
    hide Released, BoxesOf, BookBalances, ComputeFeeSplit;
    HistoryIsSound(ws, sts, i);
    assert Follows(ws, sts, i);
    assert TaskBalances(ws[i].s, ws[i].books, t);
    SplitAddsUp(ws[i].s, t);
    MoveIsPaid(ws[i].s, sts[i], t, mint);
    if MoveAt(ws, sts, i, t).Empty? && ws[i].s.config.value.mint == ws[i].books[t].mint {
      ClosingEmptiesUnfilledBoxes(ws, sts, i, t);
    }
  }

  lemma MoveIsPaid(s: State, st: Step, t: TaskId, mint: Key)
    requires s.config.Some? && Refuse(s, st).None? && t in s.tasks && t in NextTasks(s, st)
    requires var sp := ComputeFeeSplit(s.tasks[t].bounty, s.config.value.feeBps);
             sp.Ok? ==> sp.value.net + sp.value.fee == s.tasks[t].bounty
    ensures var taken := Debit(PaymentOf(s, st), Vault(t, mint));
            && (mint != s.config.value.mint ==> taken == 0)
            && (mint == s.config.value.mint && !MoveOf(s, st, t).Empty? ==>
                  taken == Released(BoxesOf(s, t), MoveOf(s, st, t)))
            && (mint == s.config.value.mint && MoveOf(s, st, t).Empty? ==> taken == Bal(s.ledger, Vault(t, mint)))
    ensures MoveOf(s, st, t).Empty? ==> Closes(st, t)
  {
    if TaskOf(st) != Some(t) {
      PaymentNamesTask(s, st);
    } else if ClaimOf(st).Some? {
      ClaimMoveIsPaid(s, st, t, mint);
    }
  }

  lemma ClaimMoveIsPaid(s: State, st: Step, t: TaskId, mint: Key)
    requires s.config.Some? && Refuse(s, st).None? && t in s.tasks && TaskOf(st) == Some(t) && ClaimOf(st).Some?
    requires var sp := ComputeFeeSplit(s.tasks[t].bounty, s.config.value.feeBps);
             sp.Ok? ==> sp.value.net + sp.value.fee == s.tasks[t].bounty
    ensures Debit(PaymentOf(s, st), Vault(t, mint)) ==
            if mint == s.config.value.mint then Released(BoxesOf(s, t), MoveOf(s, st, t)) else 0
  {
  }

  /**
   In every run, closing a task in its funding mint returns to the poster
   exactly the unfilled boxes, plus the gifts and the stray bounties.
   */
  lemma ClosingEmptiesUnfilledBoxes(ws: seq<World>, sts: seq<Step>, i: nat, t: TaskId)
    requires IsHistory(ws, sts) && i < |sts| && Closes(sts[i], t) && t in ws[i].books
    requires ws[i].s.config.Some? && ws[i].books[t].mint == ws[i].s.config.value.mint
    ensures t in ws[i].s.tasks
    ensures SweepsUnfilled(PaymentAt(ws, sts, i), t, BoxesOf(ws[i].s, t), ws[i].s.tasks[t], ws[i].books[t])
  {
    assert Follows(ws, sts, i);
    HistoryIsSound(ws, sts, i);
    ClosingStepEmptiesBoxes(ws[i], sts[i], t);
  }
}
