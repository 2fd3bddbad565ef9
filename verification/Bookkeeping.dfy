/**
 The books: a history of every payment, kept per task. The program stores no
 such record; each book is posted from the payments of a run, and the theorems
 below say what the program's counters and vaults must show given that history.

 A book follows the vault in the mint its task was funded in. `update_mint` may
 re-pin the mint while tasks are funded, after which slots of the task can be
 settled out of another vault; the stray fields record those slots and what was
 paid for them.
 */
module Bookkeeping {
  import opened Prelude
  import opened Accounts
  import opened Tokens
  import opened Slots
  import opened Instructions
  import opened Invariant

  datatype Book = Book(
    mint: Key,
    deposit: nat,
    gifts: nat,
    net: nat,
    fees: nat,
    refunds: nat,
    swept: nat,
    strayPaid: nat,
    strayNet: nat,
    strayFees: nat,
    strayRefunded: nat,
    strayRefunds: nat)

  type Books = map<TaskId, Book>

  /** The program's state together with the history of its payments. */
  datatype World = World(s: State, books: Books)

  // ----- posting -----

  /** Where a payment debits and credits, independently of how tokens are moved. */
  function Debit(p: Payment, a: Account): nat {
    match p
    case NoPayment => 0
    case Deposited(_, m, poster, n) => if a == Wallet(poster, m) then n else 0
    case PaidOut(t, _, m, _, net, fee) => if a == Vault(t, m) then net + fee else 0
    case Returned(t, _, m, _, n) => if a == Vault(t, m) then n else 0
    case Swept(t, m, _, n) => if a == Vault(t, m) then n else 0
    case Withdrawn(m, _, n) => if a == FeeVault(m) then n else 0
    case Given(m, owner, _, n) => if a == Wallet(owner, m) then n else 0
  }

  function Credit(p: Payment, a: Account): nat {
    match p
    case NoPayment => 0
    case Deposited(t, m, _, n) => if a == Vault(t, m) then n else 0
    case PaidOut(_, _, m, claimer, net, fee) =>
      if a == Wallet(claimer, m) then net else if a == FeeVault(m) then fee else 0
    case Returned(_, _, m, poster, n) => if a == Wallet(poster, m) then n else 0
    case Swept(_, m, poster, n) => if a == Wallet(poster, m) then n else 0
    case Withdrawn(_, dst, n) => if a == dst then n else 0
    case Given(_, _, dst, n) => if a == dst then n else 0
  }

  /** A task's book after a payment that does not fund it. */
  function PostTo(k: Book, t: TaskId, p: Payment): Book {
    match p
    case PaidOut(u, _, m, _, net, fee) =>
      if u != t then k
      else if m == k.mint then k.(net := k.net + net, fees := k.fees + fee)
      else k.(strayPaid := k.strayPaid + 1, strayNet := k.strayNet + net, strayFees := k.strayFees + fee)
    case Returned(u, _, m, _, n) =>
      if u != t then k
      else if m == k.mint then k.(refunds := k.refunds + n)
      else k.(strayRefunded := k.strayRefunded + 1, strayRefunds := k.strayRefunds + n)
    case Swept(u, m, _, n) => if u == t && m == k.mint then k.(swept := k.swept + n) else k
    case Withdrawn(_, dst, n) => if dst == Vault(t, k.mint) then k.(gifts := k.gifts + n) else k
    case Given(_, _, dst, n) => if dst == Vault(t, k.mint) then k.(gifts := k.gifts + n) else k
    case _ => k
  }

  /** The book of a task that was just funded. */
  function FreshBook(mint: Key, deposit: nat): Book {
    Book(mint, deposit, 0, 0, 0, 0, 0, 0, 0, 0, 0, 0)
  }

  function Post(books: Books, p: Payment): Books {
    var posted := map t | t in books :: PostTo(books[t], t, p);
    if p.Deposited? then posted[p.task := FreshBook(p.mint, p.amount)] else posted
  }

  function Next(w: World, st: Step): World
    requires Refuse(w.s, st).None?
  {
    World(Effect(w.s, st), Post(w.books, PaymentOf(w.s, st)))
  }

  // ----- every balance follows the payments -----

  lemma SettleFollowsPayment(l: Ledger, p: Payment, a: Account)
    requires Covered(l, p)
    ensures Bal(Settle(l, p), a) + Debit(p, a) == Bal(l, a) + Credit(p, a)
  {
  }

  /**
   The ledger law: a step changes each account's balance by exactly what its
   payment credits and debits, and creating or closing accounts moves nothing.
   */
  lemma LedgerLaw(s: State, st: Step, a: Account)
    requires Refuse(s, st).None?
    ensures var p := PaymentOf(s, st);
            Bal(Effect(s, st).ledger, a) + Debit(p, a) == Bal(s.ledger, a) + Credit(p, a)
  {
    match st
    case InitializeTask(_, t, _, _, _, _) =>
      SettleFollowsPayment(s.ledger[Vault(t, s.config.value.mint) := 0], PaymentOf(s, st), a);
    case CancelBeforeEnroll(_, t) => SweepFollowsPayment(s, t, a);
    case CloseTask(_, t) => SweepFollowsPayment(s, t, a);
    case AutoCancelTask(_, t) => SweepFollowsPayment(s, t, a);
    case InitializeConfig(_, _, _, _) =>
    case OpenAccount(_) =>
    case _ =>
      NextLedgerSettles(s, st);
      SettleFollowsPayment(s.ledger, PaymentOf(s, st), a);
  }

  lemma SweepFollowsPayment(s: State, t: TaskId, a: Account)
    requires s.config.Some? && t in s.tasks
    ensures var l := Settle(s.ledger, Sweep(s, t)) - {Vault(t, s.config.value.mint)};
            Bal(l, a) + Debit(Sweep(s, t), a) == Bal(s.ledger, a) + Credit(Sweep(s, t), a)
  {
    SettleFollowsPayment(s.ledger, Sweep(s, t), a);
  }

  /** A task's vault in any mint leaves the ledger only when that task is closed or cancelled. */
  lemma VaultStays(s: State, st: Step, t: TaskId, mint: Key)
    requires Refuse(s, st).None? && Vault(t, mint) in s.ledger
    requires !(PaymentOf(s, st).Swept? && PaymentOf(s, st).task == t && PaymentOf(s, st).mint == mint)
    ensures Vault(t, mint) in Effect(s, st).ledger
  {
  }

  // ----- the books balance -----

  /** Slots settled out of the funding vault, by outcome. */
  function PaidHere(task: Task, k: Book): int { task.slotsApproved - k.strayPaid }
  function RefundedHere(task: Task, k: Book): int { task.slotsRefunded - k.strayRefunded }

  /** Slots settled out of other vaults cost one bounty each, with fees within the cap. */
  predicate StrayBalances(bounty: nat, k: Book) {
    && k.strayNet + k.strayFees == bounty * k.strayPaid
    && k.strayFees * BPS_DENOMINATOR <= bounty * k.strayPaid * FEE_BPS_CAP
    && k.strayRefunds == bounty * k.strayRefunded
  }

  /** What went into the funding vault came out of it or is there. */
  predicate FundingVaultAccount(k: Book, vault: nat) {
    k.deposit + k.gifts == k.net + k.fees + k.refunds + k.swept + vault
  }

  /** No slot was settled, out of any vault. */
  predicate NothingSettled(k: Book) {
    && k.net == k.fees == k.refunds == 0
    && k.strayPaid == k.strayNet == k.strayFees == k.strayRefunded == k.strayRefunds == 0
  }

  /**
   What one book, one task record and the balance `vault` of the funding vault
   have to do with each other.
   */
  predicate BookBalances(task: Task, k: Book, vault: nat) {
    && k.strayPaid <= task.slotsApproved && k.strayRefunded <= task.slotsRefunded
    && k.deposit == task.bounty * task.maxSlots
    && k.net + k.fees == task.bounty * PaidHere(task, k)
    && k.fees * BPS_DENOMINATOR <= task.bounty * PaidHere(task, k) * FEE_BPS_CAP
    && k.refunds == task.bounty * RefundedHere(task, k)
    && StrayBalances(task.bounty, k)
    && FundingVaultAccount(k, vault)
    && (task.status.Open? ==> k.swept == 0)
  }

  predicate TaskBalances(s: State, books: Books, t: TaskId)
    requires t in s.tasks
  {
    && t in books
    && BookBalances(s.tasks[t], books[t], Bal(s.ledger, Vault(t, books[t].mint)))
    && (s.tasks[t].status.Open? ==> Vault(t, books[t].mint) in s.ledger)
  }

  predicate Balanced(w: World) {
    forall t :: t in w.s.tasks ==> TaskBalances(w.s, w.books, t)
  }

  ghost predicate Sound(w: World) {
    Inv(w.s) && Balanced(w)
  }

  /**
   The vault holds one bounty for every slot not settled out of it, plus every
   gift: never less than the unsettled slots are owed, and exactly that plus
   the gifts when no slot was settled in another mint.
   */
  predicate VaultIsExact(task: Task, k: Book, vault: nat) {
    var owed := task.bounty * (task.maxSlots - task.slotsApproved - task.slotsRefunded);
    && vault == task.bounty * (task.maxSlots - PaidHere(task, k) - RefundedHere(task, k)) + k.gifts
    && vault == owed + task.bounty * (k.strayPaid + k.strayRefunded) + k.gifts
    && owed <= vault
    && (k.strayPaid == k.strayRefunded == 0 ==> vault == owed + k.gifts)
  }

  /** Exact solvency of the funding vault while a task is open. */
  lemma ExactSolvency(w: World, t: TaskId)
    requires Sound(w) && t in w.s.tasks && w.s.tasks[t].status.Open?
    ensures t in w.books && Vault(t, w.books[t].mint) in w.s.ledger
    ensures VaultIsExact(w.s.tasks[t], w.books[t], Bal(w.s.ledger, Vault(t, w.books[t].mint)))
  {
    assert TaskBalances(w.s, w.books, t);
    BookSolvency(w.s.tasks[t], w.books[t], Bal(w.s.ledger, Vault(t, w.books[t].mint)));
  }

  lemma BookSolvency(task: Task, k: Book, vault: nat)
    requires BookBalances(task, k, vault) && task.status.Open?
    ensures VaultIsExact(task, k, vault)
  {
    var b := task.bounty;
    TimesDifference(b, task.maxSlots, PaidHere(task, k), RefundedHere(task, k));
    var open, stray := task.maxSlots - task.slotsApproved - task.slotsRefunded, k.strayPaid + k.strayRefunded;
    assert b * (open + stray) == b * open + b * stray;
    TimesMonotonic(b, 0, stray);
  }

  /**
   All that was paid for a task's slots, out of whichever vaults: one bounty per
   paid slot to claimers and fee vaults together, the fees within the cap on
   that, and one bounty per refunded slot to the poster.
   */
  predicate PaidInTotal(task: Task, k: Book) {
    && k.net + k.strayNet + k.fees + k.strayFees == task.bounty * task.slotsApproved
    && k.fees + k.strayFees <= task.bounty * task.slotsApproved * 500 / 10_000
    && k.refunds + k.strayRefunds == task.bounty * task.slotsRefunded
  }

  lemma TotalsOfBook(task: Task, k: Book, vault: nat)
    requires BookBalances(task, k, vault)
    ensures PaidInTotal(task, k)
  {
    var b := task.bounty;
    TimesSum(b, PaidHere(task, k), k.strayPaid);
    TimesSum(b, RefundedHere(task, k), k.strayRefunded);
    assert (k.fees + k.strayFees) * BPS_DENOMINATOR <= b * task.slotsApproved * FEE_BPS_CAP;
    FloorOf(k.fees + k.strayFees, b * task.slotsApproved * FEE_BPS_CAP);
  }

  lemma TimesSum(b: nat, m: int, n: int)
    ensures b * m + b * n == b * (m + n)
  {
  }

  lemma FloorOf(fees: nat, cap: nat)
    requires fees * BPS_DENOMINATOR <= cap
    ensures fees <= cap / BPS_DENOMINATOR
  {
  }

  /** The vault of a task with an active claim covers that claim's bounty. */
  lemma ActiveClaimIsCovered(w: World, c: ClaimId)
    requires Sound(w) && c in w.s.claims && BoxOf(w.s.claims[c].status).Active?
    ensures var t := w.s.claims[c].task;
            t in w.books && w.s.tasks[t].bounty <= Bal(w.s.ledger, Vault(t, w.books[t].mint))
  {
    var t := w.s.claims[c].task;
    ActiveClaimLeavesRoom(w.s, c);
    ExactSolvency(w, t);
    var task := w.s.tasks[t];
    assert TaskShape(task, t, w.s.claims);
    TimesMonotonic(task.bounty, 1, task.maxSlots - task.slotsApproved - task.slotsRefunded);
  }

  // ----- and keep balancing -----

  lemma FundedTaskBalances(w: World, st: Step)
    requires Sound(w) && Refuse(w.s, st).None? && st.InitializeTask?
    ensures TaskBalances(Next(w, st).s, Next(w, st).books, st.task)
  {
    var t := st.task;
    var v := Vault(t, w.s.config.value.mint);
    LedgerLaw(w.s, st, v);
    assert Bal(w.s.ledger, v) == 0;
    var k := Next(w, st).books[t];
    assert k == FreshBook(v.mint, st.bounty * st.maxSlots);
    assert st.bounty * 0 == 0;
  }

  /** One payment keeps one book balanced. */
  lemma PostingBalances(task: Task, task': Task, k: Book, t: TaskId, p: Payment, vault: nat, vault': nat)
    requires BookBalances(task, k, vault)
    requires SameTerms(task, task')
    requires vault' + Debit(p, Vault(t, k.mint)) == vault + Credit(p, Vault(t, k.mint))
    requires p.Deposited? ==> p.task != t
    requires p.PaidOut? && p.task == t ==>
      p.net + p.fee == task.bounty && p.fee * BPS_DENOMINATOR <= task.bounty * FEE_BPS_CAP
    requires p.Returned? && p.task == t ==> p.amount == task.bounty
    requires task'.slotsApproved == task.slotsApproved + if p.PaidOut? && p.task == t then 1 else 0
    requires task'.slotsRefunded == task.slotsRefunded + if p.Returned? && p.task == t then 1 else 0
    requires p.Swept? && p.task == t ==> task'.status.Closed?
    ensures BookBalances(task', PostTo(k, t, p), vault')
  {
    OneBountyMore(task.bounty, PaidHere(task, k));
    OneBountyMore(task.bounty, RefundedHere(task, k));
    OneBountyMore(task.bounty, k.strayPaid);
    OneBountyMore(task.bounty, k.strayRefunded);
  }

  lemma OneBountyMore(b: nat, n: int)
    ensures b * (n + 1) == b * n + b
    ensures b * (n + 1) * FEE_BPS_CAP == b * n * FEE_BPS_CAP + b * FEE_BPS_CAP
  {
  }

  /** How a payment and the counters of the tasks move together. */
  lemma PaymentMeetsCounters(s: State, st: Step, t: TaskId)
    requires Inv(s) && Refuse(s, st).None? && t in s.tasks && t in NextTasks(s, st)
    ensures var p, task, task' := PaymentOf(s, st), s.tasks[t], NextTasks(s, st)[t];
      && (p.Deposited? ==> p.task != t)
      && (p.PaidOut? && p.task == t ==>
            p.net + p.fee == task.bounty && p.fee * BPS_DENOMINATOR <= task.bounty * FEE_BPS_CAP)
      && (p.Returned? && p.task == t ==> p.amount == task.bounty)
      && task'.slotsApproved == task.slotsApproved + (if p.PaidOut? && p.task == t then 1 else 0)
      && task'.slotsRefunded == task.slotsRefunded + (if p.Returned? && p.task == t then 1 else 0)
      && (p.Swept? && p.task == t ==> task'.status.Closed?)
  {
    PaymentCases(s, st, t);
    if PaymentOf(s, st).PaidOut? && PaymentOf(s, st).task == t {
      SplitAddsUp(s, t);
      FeeIsCapped(s, t);
    }
  }

  /** The amounts of a task's payments, and the counters and status they go with. */
  lemma PaymentCases(s: State, st: Step, t: TaskId)
    requires Refuse(s, st).None? && t in s.tasks && t in NextTasks(s, st)
    ensures var p, task, task' := PaymentOf(s, st), s.tasks[t], NextTasks(s, st)[t];
      && (p.Deposited? ==> p.task != t)
      && (p.PaidOut? && p.task == t ==>
            s.config.Some? && ComputeFeeSplit(task.bounty, s.config.value.feeBps) == Ok(Split(p.net, p.fee)))
      && (p.Returned? && p.task == t ==> p.amount == task.bounty)
      && task'.slotsApproved == task.slotsApproved + (if p.PaidOut? && p.task == t then 1 else 0)
      && task'.slotsRefunded == task.slotsRefunded + (if p.Returned? && p.task == t then 1 else 0)
      && (p.Swept? && p.task == t ==> task'.status.Closed?)
  {
  }

  /** Every task's bounty can be split under the current fee, and the claimer always gets something. */
  lemma SplitAddsUp(s: State, t: TaskId)
    requires Inv(s) && s.config.Some? && t in s.tasks
    ensures ComputeFeeSplit(s.tasks[t].bounty, s.config.value.feeBps).Ok?
    ensures var sp := ComputeFeeSplit(s.tasks[t].bounty, s.config.value.feeBps).value;
            sp.net + sp.fee == s.tasks[t].bounty && 0 < sp.net
  {
    BountyFits(s, t);
    FeeSplitIsExact(s.tasks[t].bounty, s.config.value.feeBps);
  }

  lemma BountyFits(s: State, t: TaskId)
    requires Inv(s) && t in s.tasks
    ensures 0 < s.tasks[t].bounty <= U64_MAX
  {
    assert TaskShape(s.tasks[t], t, s.claims);
    TimesMonotonic(s.tasks[t].bounty, 1, s.tasks[t].maxSlots);
  }

  lemma FeeIsCapped(s: State, t: TaskId)
    requires Inv(s) && s.config.Some? && t in s.tasks
    requires ComputeFeeSplit(s.tasks[t].bounty, s.config.value.feeBps).Ok?
    ensures ComputeFeeSplit(s.tasks[t].bounty, s.config.value.feeBps).value.fee * BPS_DENOMINATOR
            <= s.tasks[t].bounty * FEE_BPS_CAP
  {
    BountyFits(s, t);
    FeeSplitIsExact(s.tasks[t].bounty, s.config.value.feeBps);
    TimesMonotonic(s.tasks[t].bounty, s.config.value.feeBps, FEE_BPS_CAP);
  }

  lemma TaskKeepsBalancing(w: World, st: Step, t: TaskId)
    requires Sound(w) && Refuse(w.s, st).None? && t in w.s.tasks && t in NextTasks(w.s, st)
    ensures TaskBalances(Next(w, st).s, Next(w, st).books, t)
  {
    var p := PaymentOf(w.s, st);
    assert TaskBalances(w.s, w.books, t);
    var k := w.books[t];
    var v := Vault(t, k.mint);
    LedgerLaw(w.s, st, v);
    TermsAreFrozen(w.s, st, t);
    PaymentMeetsCounters(w.s, st, t);
    PostingBalances(w.s.tasks[t], NextTasks(w.s, st)[t], k, t, p, Bal(w.s.ledger, v), Bal(Effect(w.s, st).ledger, v));
    BookAfter(w.books, p, t);
    if NextTasks(w.s, st)[t].status.Open? {
      OpenVaultStays(w.s, st, t, k.mint);
    }
  }

  lemma BookAfter(books: Books, p: Payment, t: TaskId)
    requires t in books && (p.Deposited? ==> p.task != t)
    ensures t in Post(books, p) && Post(books, p)[t] == PostTo(books[t], t, p)
    ensures Post(books, p)[t].mint == books[t].mint
  {
  }

  lemma OpenVaultStays(s: State, st: Step, t: TaskId, mint: Key)
    requires Refuse(s, st).None? && t in s.tasks && t in NextTasks(s, st) && NextTasks(s, st)[t].status.Open?
    requires Vault(t, mint) in s.ledger
    ensures Vault(t, mint) in Effect(s, st).ledger
  {
    var p := PaymentOf(s, st);
    if !(p.Swept? && p.task == t) {
      VaultStays(s, st, t, mint);
    }
  }

  lemma NewTaskIsInitialized(s: State, st: Step, t: TaskId)
    requires Refuse(s, st).None? && t !in s.tasks && t in NextTasks(s, st)
    ensures st.InitializeTask? && st.task == t
  {
  }

  /** Every step keeps the invariant and keeps the books balanced. */
  lemma SoundStep(w: World, st: Step)
    requires Sound(w) && Refuse(w.s, st).None?
    ensures Sound(Next(w, st))
  {
    InvStep(w.s, st);
    forall t | t in Next(w, st).s.tasks
      ensures TaskBalances(Next(w, st).s, Next(w, st).books, t)
    {
      if t in w.s.tasks {
        TaskKeepsBalancing(w, st, t);
      } else {
        NewTaskIsInitialized(w.s, st, t);
        FundedTaskBalances(w, st);
      }
    }
  }
}
