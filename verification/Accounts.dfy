/**
 The program's accounts, the configuration, tasks and claims, and the fee split
 (programs/clustly-escrow/src/state.rs).
 */
module Accounts {
  import opened Prelude

  const FEE_BPS_CAP: nat := 500
  const BPS_DENOMINATOR: nat := 10_000
  const AUTO_APPROVE_WINDOW_SECS: int := 14 * 24 * 60 * 60
  const AUTO_DISPUTE_WINDOW_SECS: int := 14 * 24 * 60 * 60
  const MAX_REJECTIONS: nat := 3
  const MAX_SLOTS_LIMIT: nat := 100

  // Public keys and the 16-byte ids that seed the account addresses.
  type Key = nat
  type TaskId = nat
  type ClaimId = nat
  type Hash = nat

  datatype Error =
    | FeeTooHigh
    | Unauthorized
    | SelfEnrollment
    | SlotsFull
    | InvalidStateTransition
    | TaskClaimMismatch
    | InvalidMint
    | ZeroBounty
    | InvalidSlots
    | DeadlineNotReached
    | AutoActionTooEarly
    | ClaimsNotResolved
    | InsufficientFeeVault
    | TaskHasEnrollments
    | MathOverflow
    // Raised by the account framework, the token program or the clock:
    | AccountMissing
    | AlreadyInUse
    | WrongMint
    | InsufficientFunds
    | TokenOverflow
    | ClockRunsForward

  datatype Config = Config(admin: Key, mint: Key, feeBps: nat)

  datatype TaskStatus = Open | Closed

  datatype Task = Task(
    poster: Key,
    bounty: nat,
    maxSlots: nat,
    slotsEnrolled: nat,
    slotsApproved: nat,
    slotsRefunded: nat,
    status: TaskStatus,
    deadline: int,
    claimDeadlineSecs: nat)

  datatype ClaimStatus =
    | Enrolled | Submitted | Approved | Rejected
    | Cancelled | Disputed | ResolvedDeliverer | ResolvedPoster

  datatype Claim = Claim(
    task: TaskId,
    claimer: Key,
    status: ClaimStatus,
    enrolledAt: int,
    submittedAt: int,
    disputedAt: int,
    rejections: nat,
    hash: Hash)

  predicate IsTerminal(s: ClaimStatus) {
    s.Approved? || s.Cancelled? || s.ResolvedDeliverer? || s.ResolvedPoster?
  }

  // ----- fee split -----

  datatype Split = Split(net: nat, fee: nat)

  /**
   The fee split as the program computes it: a checked 128-bit product, a
   division, a truncating cast to 64 bits, and a checked subtraction.
   */
  function ComputeFeeSplit(bounty: nat, feeBps: nat): Result<Split, Error> {
    var product := bounty * feeBps;
    if product > U128_MAX then Err(MathOverflow)
    else
      var fee := (product / BPS_DENOMINATOR) % (U64_MAX + 1);
      if fee > bounty then Err(MathOverflow)
      else Ok(Split(bounty - fee, fee))
  }

  /**
   Under the fee cap the split never fails and never truncates: fee and net
   add up to the bounty, the fee is the floor of the exact fee and at most a
   twentieth of the bounty, and the claimer always gets something.
   */
  lemma FeeSplitIsExact(bounty: nat, feeBps: nat)
    requires bounty <= U64_MAX && feeBps <= 500
    ensures ComputeFeeSplit(bounty, feeBps).Ok?
    ensures var sp := ComputeFeeSplit(bounty, feeBps).value;
            && sp.net + sp.fee == bounty
            && sp.fee * 10_000 <= bounty * feeBps < (sp.fee + 1) * 10_000
            && 20 * sp.fee <= bounty
            && (0 < bounty ==> 0 < sp.net)
  {
    TimesMonotonic(bounty, feeBps, FEE_BPS_CAP);
    DividesDown(bounty * feeBps, bounty);
  }

  lemma DividesDown(product: nat, bounty: nat)
    requires product <= bounty * FEE_BPS_CAP && bounty <= U64_MAX
    ensures var fee := product / BPS_DENOMINATOR;
            && fee * BPS_DENOMINATOR <= product < (fee + 1) * BPS_DENOMINATOR
            && 20 * fee <= bounty && fee % (U64_MAX + 1) == fee
            && (0 < bounty ==> fee < bounty)
  {
  }

  /** The payout formula of docs/overview.md, which floors the net amount. */
  function DocumentedNet(bounty: nat, feeBps: nat): nat
    requires feeBps <= 500
  {
    bounty * (10_000 - feeBps) / 10_000
  }

  /**
   The program floors the fee, so it pays the documented amount or one unit
   more; the two agree exactly when the fee divides evenly.
   */
  lemma NetVersusDocumentation(bounty: nat, feeBps: nat)
    requires bounty <= U64_MAX && feeBps <= 500
    ensures ComputeFeeSplit(bounty, feeBps).Ok?
    ensures var net := ComputeFeeSplit(bounty, feeBps).value.net;
            var doc := DocumentedNet(bounty, feeBps);
            && doc <= net <= doc + 1
            && (net == doc <==> (bounty * feeBps) % 10_000 == 0)
  {
    FeeSplitIsExact(bounty, feeBps);
    var p := bounty * feeBps;
    var q, r := p / BPS_DENOMINATOR, p % BPS_DENOMINATOR;
    assert bounty * (BPS_DENOMINATOR - feeBps) == bounty * BPS_DENOMINATOR - p;
    assert bounty * BPS_DENOMINATOR - p == (bounty - q) * BPS_DENOMINATOR - r;
  }
}
