/**
 The slots of a task as sets of claims. A task record stores three counters and
 no list of claims; these sets are what the counters are meant to count.
 */
module Slots {
  import opened Accounts

  type Claims = map<ClaimId, Claim>

  /** A filled slot still holds its bounty, or paid it to the claimer, or returned it. */
  datatype Box = Active | Paid | Refunded

  function BoxOf(s: ClaimStatus): Box {
    match s
    case Enrolled => Active
    case Submitted => Active
    case Rejected => Active
    case Disputed => Active
    case Approved => Paid
    case ResolvedDeliverer => Paid
    case Cancelled => Refunded
    case ResolvedPoster => Refunded
  }

  ghost function Members(claims: Claims, t: TaskId): set<ClaimId> {
    set c | c in claims && claims[c].task == t
  }

  ghost function InBox(claims: Claims, t: TaskId, b: Box): set<ClaimId> {
    set c | c in claims && claims[c].task == t && BoxOf(claims[c].status) == b
  }

  ghost function PaidClaims(claims: Claims, t: TaskId): set<ClaimId> {
    set c | c in claims && claims[c].task == t
            && (claims[c].status.Approved? || claims[c].status.ResolvedDeliverer?)
  }

  ghost function RefundedClaims(claims: Claims, t: TaskId): set<ClaimId> {
    set c | c in claims && claims[c].task == t
            && (claims[c].status.Cancelled? || claims[c].status.ResolvedPoster?)
  }

  /** The boxes in terms of the claim statuses. */
  lemma BoxesByStatus(claims: Claims, t: TaskId)
    ensures InBox(claims, t, Paid) == PaidClaims(claims, t)
    ensures InBox(claims, t, Refunded) == RefundedClaims(claims, t)
  {
    assert forall c :: c in InBox(claims, t, Paid) <==> c in PaidClaims(claims, t);
    assert forall c :: c in InBox(claims, t, Refunded) <==> c in RefundedClaims(claims, t);
  }

  /** The claims of a task are its active, paid and refunded ones, and no claim is two of these. */
  lemma BoxesPartition(claims: Claims, t: TaskId)
    ensures Members(claims, t) == InBox(claims, t, Active) + InBox(claims, t, Paid) + InBox(claims, t, Refunded)
    ensures InBox(claims, t, Active) !! InBox(claims, t, Paid) !! InBox(claims, t, Refunded)
  {
  }

  lemma BoxSizesAddUp(claims: Claims, t: TaskId)
    ensures |Members(claims, t)| ==
            |InBox(claims, t, Active)| + |InBox(claims, t, Paid)| + |InBox(claims, t, Refunded)|
  {
    BoxesPartition(claims, t);
  }

  /** Writing one claim moves that claim between sets and touches no other. */
  lemma WriteClaim(claims: Claims, c: ClaimId, cl: Claim, t: TaskId, b: Box)
    requires c in claims ==> claims[c].task == cl.task
    ensures Members(claims[c := cl], t) ==
            if cl.task == t then Members(claims, t) + {c} else Members(claims, t)
    ensures InBox(claims[c := cl], t, b) ==
            if cl.task == t && BoxOf(cl.status) == b then InBox(claims, t, b) + {c} else InBox(claims, t, b) - {c}
  {
  }

  /** The counters of a task record are the sizes of its sets of claims. */
  ghost predicate Tallied(task: Task, t: TaskId, claims: Claims) {
    && task.slotsEnrolled == |Members(claims, t)|
    && task.slotsApproved == |InBox(claims, t, Paid)|
    && task.slotsRefunded == |InBox(claims, t, Refunded)|
  }

  /** Enrolling adds one member and leaves the settled sets alone. */
  lemma TallyEnroll(claims: Claims, c: ClaimId, cl: Claim, t: TaskId, task: Task)
    requires Tallied(task, t, claims) && c !in claims && cl.status.Enrolled?
    ensures cl.task != t ==> Tallied(task, t, claims[c := cl])
    ensures cl.task == t ==> Tallied(task.(slotsEnrolled := task.slotsEnrolled + 1), t, claims[c := cl])
  {
    WriteClaim(claims, c, cl, t, Paid);
    WriteClaim(claims, c, cl, t, Refunded);
    assert InBox(claims, t, Paid) - {c} == InBox(claims, t, Paid);
    assert InBox(claims, t, Refunded) - {c} == InBox(claims, t, Refunded);
  }

  /** Moving an active claim to a box adds one to that box's counter only. */
  lemma TallyMove(claims: Claims, c: ClaimId, cl: Claim, t: TaskId, task: Task)
    requires Tallied(task, t, claims) && c in claims && claims[c].task == cl.task
    requires BoxOf(claims[c].status) == Active
    ensures cl.task != t || BoxOf(cl.status).Active? ==> Tallied(task, t, claims[c := cl])
    ensures cl.task == t && BoxOf(cl.status).Paid? ==>
              Tallied(task.(slotsApproved := task.slotsApproved + 1), t, claims[c := cl])
    ensures cl.task == t && BoxOf(cl.status).Refunded? ==>
              Tallied(task.(slotsRefunded := task.slotsRefunded + 1), t, claims[c := cl])
  {
    BoxGains(claims, c, cl, t, Paid);
    BoxGains(claims, c, cl, t, Refunded);
    assert Members(claims[c := cl], t) == Members(claims, t);
  }

  lemma BoxGains(claims: Claims, c: ClaimId, cl: Claim, t: TaskId, b: Box)
    requires c in claims && claims[c].task == cl.task && BoxOf(claims[c].status) == Active && b != Active
    ensures |InBox(claims[c := cl], t, b)| ==
            |InBox(claims, t, b)| + if cl.task == t && BoxOf(cl.status) == b then 1 else 0
  {
    WriteClaim(claims, c, cl, t, b);
    assert InBox(claims, t, b) - {c} == InBox(claims, t, b);
  }
}
