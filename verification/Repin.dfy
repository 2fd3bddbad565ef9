/**
 Three concrete runs in which `update_mint` re-pins the mint while a task is
 funded. In the world the first one reaches, an approval passes all of its
 opening checks and then fails between its two transfers, and no plan without
 the poster or the admin winds the task up: a pinned mint other than the funding
 mint can make both fail. What exactly decides is in RefusedIff, coverage by the
 vault of the pinned mint, and in ProgressIff, a pinned mint that is the funding
 mint. In the second run the task is closed while the other mint is pinned, and
 its whole deposit is out of reach for good. In the third it is cancelled instead,
 and its deposit ends with the next poster who uses its id.
 */
module Repin {
  import opened Prelude
  import opened Accounts
  import opened Tokens
  import opened Instructions
  import opened Invariant
  import opened Bookkeeping
  import opened Runs
  import opened Program
  import opened Progress

  const ADMIN: Key := 9
  const POSTER: Key := 1
  const CLAIMER: Key := 2
  const OTHER: Key := 66
  const TASK: TaskId := 7
  const CLAIM: ClaimId := 3
  const OLD_MINT: Key := 1
  const NEW_MINT: Key := 2

  const START: Ledger := map[
    Wallet(POSTER, OLD_MINT) := 100,
    Wallet(POSTER, NEW_MINT) := 96,
    Wallet(OTHER, NEW_MINT) := 1]

  function Funded(): State {
    State(Some(Config(ADMIN, OLD_MINT, 400)),
          map[TASK := Task(POSTER, 100, 1, 0, 0, 0, Open, 50, 0)], map[],
          START[FeeVault(OLD_MINT) := 0][Wallet(POSTER, OLD_MINT) := 0][Vault(TASK, OLD_MINT) := 100], 1)
  }

  function Delivered(): State {
    Funded().(tasks := map[TASK := Task(POSTER, 100, 1, 1, 0, 0, Open, 50, 0)],
              claims := map[CLAIM := Claim(TASK, CLAIMER, Submitted, 1, 1, 0, 0, 0)])
  }

  function Repinned(): State {
    Delivered().(config := Some(Config(ADMIN, NEW_MINT, 400)), ledger := Funded().ledger[FeeVault(NEW_MINT) := 0])
  }

  function Given(): State {
    Repinned().(ledger := Repinned().ledger[Wallet(POSTER, NEW_MINT) := 0][Vault(TASK, NEW_MINT) := 96])
  }

  const FUNDING: seq<Step> := [
    InitializeConfig(ADMIN, ADMIN, 400, OLD_MINT),
    InitializeTask(POSTER, TASK, 100, 1, 0, 50)]

  const DELIVERY: seq<Step> := [Enroll(CLAIMER, TASK, CLAIM), Submit(CLAIMER, TASK, CLAIM, 0)]

  const REPINNING: seq<Step> := [UpdateMint(ADMIN, NEW_MINT), OpenAccount(FeeVault(NEW_MINT))]

  const GIFT: seq<Step> := [
    OpenAccount(Vault(TASK, NEW_MINT)),
    GiveTokens(POSTER, NEW_MINT, Vault(TASK, NEW_MINT), 96)]

  const SWITCHING: seq<Step> := [UpdateMint(ADMIN, NEW_MINT), OpenAccount(Vault(TASK, NEW_MINT))]

  const CLOSING: seq<Step> := [Tick(50), CloseTask(5, TASK)]

  function Switched(): State {
    Funded().(config := Some(Config(ADMIN, NEW_MINT, 400)), ledger := Funded().ledger[Vault(TASK, NEW_MINT) := 0])
  }

  const CANCELLING: seq<Step> := [CancelBeforeEnroll(POSTER, TASK), InitializeTask(OTHER, TASK, 1, 1, 0, 0)]

  const SWITCHING_BACK: seq<Step> := [UpdateMint(ADMIN, OLD_MINT), CancelBeforeEnroll(OTHER, TASK)]

  function Cancelled(): Ledger {
    Switched().ledger - {Vault(TASK, NEW_MINT)}
  }

  function Reused(): State {
    Switched().(tasks := map[TASK := Task(OTHER, 1, 1, 0, 0, 0, Open, 0, 0)],
                ledger := Cancelled()[Vault(TASK, NEW_MINT) := 1][Wallet(OTHER, NEW_MINT) := 0])
  }

  const REUSED_BOOKS: Books := map[TASK := FreshBook(NEW_MINT, 1)]

  const BOOKS: Books := map[TASK := FreshBook(OLD_MINT, 100)]

  function Origin(): World {
    World(State(None, map[], map[], START, 1), map[])
  }

  lemma OriginIsGenesis()
    ensures Genesis(Origin().s)
  {
    forall mint: Key
      ensures Supply(START, mint) <= U64_MAX
    {
      var one := map[Wallet(POSTER, OLD_MINT) := 100];
      SupplyWrite(map[], Wallet(POSTER, OLD_MINT), 100, mint);
      SupplyWrite(one, Wallet(POSTER, NEW_MINT), 96, mint);
      SupplyWrite(one[Wallet(POSTER, NEW_MINT) := 96], Wallet(OTHER, NEW_MINT), 1, mint);
      assert START == one[Wallet(POSTER, NEW_MINT) := 96][Wallet(OTHER, NEW_MINT) := 1];
      assert InMint(map[], mint) == map[];
    }
  }

  lemma FundingRuns()
    ensures Exec(Origin(), FUNDING) == Some(World(Funded(), BOOKS))
  {
    var w := Next(Origin(), FUNDING[0]);
    assert w.s == State(Some(Config(ADMIN, OLD_MINT, 400)), map[], map[], START[FeeVault(OLD_MINT) := 0], 1);
    ExecOne(Origin(), FUNDING[0]);
    ExecOne(w, FUNDING[1]);
    ExecConcat(Origin(), [FUNDING[0]], [FUNDING[1]]);
    assert FUNDING == [FUNDING[0]] + [FUNDING[1]];
    assert Next(w, FUNDING[1]) == World(Funded(), BOOKS);
  }

  lemma DeliveryRuns()
    ensures Exec(World(Funded(), BOOKS), DELIVERY) == Some(World(Delivered(), BOOKS))
  {
    var w0 := World(Funded(), BOOKS);
    var w := Next(w0, DELIVERY[0]);
    ExecOne(w0, DELIVERY[0]);
    ExecOne(w, DELIVERY[1]);
    ExecConcat(w0, [DELIVERY[0]], [DELIVERY[1]]);
    assert DELIVERY == [DELIVERY[0]] + [DELIVERY[1]];
    assert Next(w, DELIVERY[1]) == World(Delivered(), BOOKS);
  }

  lemma RepinningRuns()
    ensures Exec(World(Delivered(), BOOKS), REPINNING) == Some(World(Repinned(), BOOKS))
  {
    var w0 := World(Delivered(), BOOKS);
    var w := Next(w0, REPINNING[0]);
    NoPaymentKeepsBooks(BOOKS);
    ExecOne(w0, REPINNING[0]);
    ExecOne(w, REPINNING[1]);
    ExecConcat(w0, [REPINNING[0]], [REPINNING[1]]);
    assert REPINNING == [REPINNING[0]] + [REPINNING[1]];
    assert Next(w, REPINNING[1]) == World(Repinned(), BOOKS);
  }

  function Opened(): State {
    Repinned().(ledger := Repinned().ledger[Vault(TASK, NEW_MINT) := 0])
  }

  lemma GiftRuns()
    ensures Exec(World(Repinned(), BOOKS), GIFT).Some?
    ensures var w := Exec(World(Repinned(), BOOKS), GIFT).value;
            w.s == Given() && TASK in w.books && w.books[TASK].mint == OLD_MINT
  {
    var w0 := World(Repinned(), BOOKS);
    var w := Next(w0, GIFT[0]);
    NoPaymentKeepsBooks(BOOKS);
    assert w == World(Opened(), BOOKS);
    GiftArrives();
    ExecOne(w0, GIFT[0]);
    ExecOne(w, GIFT[1]);
    ExecConcat(w0, [GIFT[0]], [GIFT[1]]);
    assert GIFT == [GIFT[0]] + [GIFT[1]];
  }

  lemma GiftArrives()
    ensures Refuse(Opened(), GIFT[1]).None?
    ensures var w := Next(World(Opened(), BOOKS), GIFT[1]);
            w.s == Given() && TASK in w.books && w.books[TASK].mint == OLD_MINT
  {
    assert Next(World(Opened(), BOOKS), GIFT[1]).s == Given();
  }

  /** The run exists, and in the world it reaches both conclusions fail. */
  lemma RepinningBreaksProgress() returns (ws: seq<World>, sts: seq<Step>, approval: Step)
    ensures IsHistory(ws, sts)
    ensures var w := ws[|sts|];
            && approval.ApproveClaim? && Constraints(w.s, approval).None?
            && Guards(w.s, approval) == Some(InsufficientFunds)
            && approval.task in w.s.tasks && approval.claim in w.s.claims && w.s.config.Some?
            && Halfway(w.s, approval.task, approval.claim) != w.s.ledger
            && approval.task in w.books
            && forall plan :: !WindsUp(w, plan, approval.task, w.books[approval.task].mint)
  {
    OriginIsGenesis();
    FundingRuns();
    DeliveryRuns();
    RepinningRuns();
    GiftRuns();
    sts := FUNDING + DELIVERY + REPINNING + GIFT;
    ExecConcat(Origin(), FUNDING, DELIVERY);
    ExecConcat(Origin(), FUNDING + DELIVERY, REPINNING);
    ExecConcat(Origin(), FUNDING + DELIVERY + REPINNING, GIFT);
    ws := ExecIsRun(Origin(), sts);
    approval := ApproveClaim(POSTER, TASK, CLAIM, NEW_MINT);
    ApprovalStopsHalfway();
    var w := ws[|sts|];
    HistoryIsSound(ws, sts, |sts|);
    ProgressIff(w, TASK);
  }

  lemma ApprovalStopsHalfway()
    ensures var s, approval := Given(), ApproveClaim(POSTER, TASK, CLAIM, NEW_MINT);
            && Constraints(s, approval).None? && Guards(s, approval) == Some(InsufficientFunds)
            && Halfway(s, TASK, CLAIM) != s.ledger
  {
    var s := Given();
    assert ComputeFeeSplit(100, 400) == Ok(Split(96, 4));
    assert Bal(s.ledger, Vault(TASK, NEW_MINT)) == 96;
    assert Bal(Halfway(s, TASK, CLAIM), Vault(TASK, NEW_MINT)) == 0;
  }

  // ----- a close while another mint is pinned -----

  lemma SwitchingRuns()
    ensures Exec(World(Funded(), BOOKS), SWITCHING) == Some(World(Switched(), BOOKS))
  {
    var w0 := World(Funded(), BOOKS);
    var w := Next(w0, SWITCHING[0]);
    NoPaymentKeepsBooks(BOOKS);
    ExecOne(w0, SWITCHING[0]);
    ExecOne(w, SWITCHING[1]);
    ExecConcat(w0, [SWITCHING[0]], [SWITCHING[1]]);
    assert SWITCHING == [SWITCHING[0]] + [SWITCHING[1]];
    assert Next(w, SWITCHING[1]) == World(Switched(), BOOKS);
  }

  lemma ClosingRuns()
    ensures Exec(World(Switched(), BOOKS), CLOSING).Some?
    ensures var w := Exec(World(Switched(), BOOKS), CLOSING).value;
            && TASK in w.s.tasks && w.s.tasks[TASK].status.Closed?
            && TASK in w.books && w.books[TASK].mint == OLD_MINT && w.books[TASK].deposit == 100
            && Bal(w.s.ledger, Vault(TASK, OLD_MINT)) == 100
  {
    var w0 := World(Switched(), BOOKS);
    var w := Next(w0, CLOSING[0]);
    NoPaymentKeepsBooks(BOOKS);
    assert w == World(Switched().(now := 50), BOOKS);
    ExecOne(w0, CLOSING[0]);
    ExecOne(w, CLOSING[1]);
    ExecConcat(w0, [CLOSING[0]], [CLOSING[1]]);
    assert CLOSING == [CLOSING[0]] + [CLOSING[1]];
  }

  /** The task is closed with its whole deposit in its funding vault, and no plan of anyone's lowers that. */
  ghost predicate DepositStranded(w: World) {
    && TASK in w.s.tasks && w.s.tasks[TASK].status.Closed?
    && TASK in w.books && w.books[TASK].mint == OLD_MINT && w.books[TASK].deposit == 100
    && forall plan :: Exec(w, plan).Some? ==> 100 <= Bal(Exec(w, plan).value.s.ledger, Vault(TASK, OLD_MINT))
  }

  lemma ClosedAndFull(w: World)
    requires Sound(w) && TASK in w.s.tasks && w.s.tasks[TASK].status.Closed?
    requires TASK in w.books && w.books[TASK].mint == OLD_MINT && w.books[TASK].deposit == 100
    requires Bal(w.s.ledger, Vault(TASK, OLD_MINT)) == 100
    ensures DepositStranded(w)
  {
    forall plan | Exec(w, plan).Some?
      ensures 100 <= Bal(Exec(w, plan).value.s.ledger, Vault(TASK, OLD_MINT))
    {
      NothingLeavesClosedTask(w, plan, TASK, OLD_MINT);
    }
  }

  /**
   A run after which a task is closed and its whole deposit is still in its
   funding vault, and no continuation, whoever signs what, takes any of it out.
   */
  lemma ClosingStrandsTheDeposit() returns (ws: seq<World>, sts: seq<Step>)
    ensures IsHistory(ws, sts)
    ensures sts == FUNDING + SWITCHING + CLOSING && DepositStranded(ws[|sts|])
  {
    OriginIsGenesis();
    FundingRuns();
    SwitchingRuns();
    ClosingRuns();
    sts := FUNDING + SWITCHING + CLOSING;
    ExecConcat(Origin(), FUNDING, SWITCHING);
    ExecConcat(Origin(), FUNDING + SWITCHING, CLOSING);
    ws := ExecIsRun(Origin(), sts);
    HistoryIsSound(ws, sts, |sts|);
    ClosedAndFull(ws[|sts|]);
  }

  // ----- a cancel while another mint is pinned -----

  lemma CancellingRuns()
    ensures Exec(World(Switched(), BOOKS), CANCELLING) == Some(World(Reused(), REUSED_BOOKS))
  {
    var w0 := World(Switched(), BOOKS);
    var w := Next(w0, CANCELLING[0]);
    assert w.s == Switched().(tasks := map[], ledger := Cancelled());
    assert w.books == BOOKS;
    ExecOne(w0, CANCELLING[0]);
    ReusingRuns();
    ExecOne(w, CANCELLING[1]);
    ExecConcat(w0, [CANCELLING[0]], [CANCELLING[1]]);
    assert CANCELLING == [CANCELLING[0]] + [CANCELLING[1]];
  }

  lemma ReusingRuns()
    ensures var w := World(Switched().(tasks := map[], ledger := Cancelled()), BOOKS);
            Refuse(w.s, CANCELLING[1]).None? && Next(w, CANCELLING[1]) == World(Reused(), REUSED_BOOKS)
  {
    var w := World(Switched().(tasks := map[], ledger := Cancelled()), BOOKS);
    assert Next(w, CANCELLING[1]).s == Reused();
    assert Next(w, CANCELLING[1]).books == REUSED_BOOKS;
  }

  lemma SwitchingBackRuns()
    ensures Exec(World(Reused(), REUSED_BOOKS), SWITCHING_BACK).Some?
    ensures var l := Exec(World(Reused(), REUSED_BOOKS), SWITCHING_BACK).value.s.ledger;
            Bal(l, Wallet(OTHER, OLD_MINT)) == 100 && Bal(l, Wallet(POSTER, OLD_MINT)) == 0
  {
    var w0 := World(Reused(), REUSED_BOOKS);
    var w := Next(w0, SWITCHING_BACK[0]);
    NoPaymentKeepsBooks(REUSED_BOOKS);
    assert w == World(Reused().(config := Some(Config(ADMIN, OLD_MINT, 400))), REUSED_BOOKS);
    ExecOne(w0, SWITCHING_BACK[0]);
    ExecOne(w, SWITCHING_BACK[1]);
    ExecConcat(w0, [SWITCHING_BACK[0]], [SWITCHING_BACK[1]]);
    assert SWITCHING_BACK == [SWITCHING_BACK[0]] + [SWITCHING_BACK[1]];
  }

  /**
   A run in which a task is cancelled while another mint is pinned. Its poster
   gets nothing back; the id is used for a new task of somebody else, and when
   the first mint is pinned again and that task is cancelled too, the first
   task's whole deposit goes to the second poster.
   */
  lemma CancellingMisdirectsTheDeposit() returns (ws: seq<World>, sts: seq<Step>)
    ensures IsHistory(ws, sts) && sts == FUNDING + SWITCHING + CANCELLING + SWITCHING_BACK
    ensures Bal(ws[0].s.ledger, Wallet(POSTER, OLD_MINT)) == 100
    ensures Bal(ws[0].s.ledger, Wallet(OTHER, OLD_MINT)) == 0
    ensures Bal(ws[|sts|].s.ledger, Wallet(POSTER, OLD_MINT)) == 0
    ensures Bal(ws[|sts|].s.ledger, Wallet(OTHER, OLD_MINT)) == 100
  {
    OriginIsGenesis();
    FundingRuns();
    SwitchingRuns();
    CancellingRuns();
    SwitchingBackRuns();
    hide Refuse, Switched, Reused;
    sts := FUNDING + SWITCHING + CANCELLING + SWITCHING_BACK;
    ExecConcat(Origin(), FUNDING, SWITCHING);
    ExecConcat(Origin(), FUNDING + SWITCHING, CANCELLING);
    ExecConcat(Origin(), FUNDING + SWITCHING + CANCELLING, SWITCHING_BACK);
    ws := ExecIsRun(Origin(), sts);
  }
}
