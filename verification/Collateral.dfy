/** Collateral and margin postings: deposits, withdrawals, transfers to margin, variation margin, and
    the initial margin formula. */
module Collateral {
  import opened Options
  import opened Sums
  import opened Ledger
  import opened Registry
  import opened Waterfall

  function CollateralOf(m: MemberId): Account {
    Account(m, AccountKind.Collateral, Available)
  }

  /** deposit_collateral. */
  function Deposit(b: Books, house: Option<MemberId>, m: MemberId, amount: real): Result<Books> {
    if amount <= 0.0 then Raised(ValidationError)
    else if CollateralOf(m) !in b.accounts || !Exists(b.accounts, Recovery(house)) then Raised(ValidationError)
    else
      Ok(Post(b, CollateralDeposit, OfMember(m),
              [Debit(CollateralOf(m), amount), Credit(Recovery(house).value, amount)]))
  }

  /** withdraw_collateral checks the balance before it looks for the CCP's account. */
  function Withdraw(b: Books, house: Option<MemberId>, m: MemberId, amount: real): Result<Books> {
    if amount <= 0.0 || CollateralOf(m) !in b.accounts then Raised(ValidationError)
    else if Balance(b, CollateralOf(m)) < amount then Raised(InsufficientMargin)
    else if !Exists(b.accounts, Recovery(house)) then Raised(ValidationError)
    else
      Ok(Post(b, CollateralWithdrawal, OfMember(m),
              [Credit(CollateralOf(m), amount), Debit(Recovery(house).value, amount)]))
  }

  /** transfer_to_margin. */
  function TransferToMargin(b: Books, m: MemberId, amount: real, kind: AccountKind): Result<Books> {
    var target := Account(m, kind, Available);
    if amount <= 0.0 || CollateralOf(m) !in b.accounts || target !in b.accounts then Raised(ValidationError)
    else if Balance(b, CollateralOf(m)) < amount then Raised(InsufficientMargin)
    else Ok(Post(b, CollateralDeposit, OfMember(m), [Credit(CollateralOf(m), amount), Debit(target, amount)]))
  }

  function VmAccount(m: MemberId, pool: Pool): Account {
    Account(m, MarginVm, pool)
  }

  /** _process_variation_margin: a gain moves the other way from a loss; without both accounts nothing
      is written; the entries table refuses a zero amount. */
  function VariationMarginPosting(b: Books, m: MemberId, instrument: nat, vm: real): Result<Books> {
    var open, locked := VmAccount(m, Available), VmAccount(m, Locked);
    if open !in b.accounts || locked !in b.accounts then Ok(b)
    else if vm == 0.0 then Raised(ConstraintViolation)
    else if vm > 0.0 then
      Ok(Post(b, VariationMargin, OfInstrument(instrument), [Debit(open, Abs(vm)), Credit(locked, Abs(vm))]))
    else
      Ok(Post(b, VariationMargin, OfInstrument(instrument), [Debit(locked, Abs(vm)), Credit(open, Abs(vm))]))
  }

  // ---------------------------------------------------------------- safety

  /** No member's free collateral or default fund contribution is overdrawn. */
  ghost predicate NeverNegative(b: Books) {
    forall m: MemberId :: Balance(b, CollateralOf(m)) >= 0.0 && FundBalance(b, m) >= 0.0
  }

  /** The postings of the clearing services keep these two together. */
  ghost predicate Safe(b: Books) {
    Sound(b) && NeverNegative(b)
  }

  /** A transfer from a source that can afford it (if it is a protected account) keeps the ledger safe. */
  lemma TransferKeepsSafe(b: Books, kind: JournalKind, reference: Reference, debited: Account, credited: Account,
                          amount: real)
    requires Safe(b) && amount > 0.0 && debited in b.accounts && credited in b.accounts
    requires credited.pool == Available && (credited.kind == AccountKind.Collateral || credited.kind == DefaultFund)
             ==> Balance(b, credited) >= amount
    ensures Safe(Post(b, kind, reference, [Debit(debited, amount), Credit(credited, amount)]))
    ensures Safe(Post(b, kind, reference, [Credit(credited, amount), Debit(debited, amount)]))
  {
    hide Sound, Balance, Post;
    TransferKeepsSound(b, kind, reference, debited, credited, amount);
    forall m: MemberId, a | a in {CollateralOf(m), FundOf(m)}
      ensures Balance(Post(b, kind, reference, [Debit(debited, amount), Credit(credited, amount)]), a) >= 0.0
      ensures Balance(Post(b, kind, reference, [Credit(credited, amount), Debit(debited, amount)]), a) >= 0.0
    {
      assert Balance(b, CollateralOf(m)) >= 0.0 && FundBalance(b, m) >= 0.0;
      PostMoves(b, kind, reference, [Debit(debited, amount), Credit(credited, amount)], a);
      PostMoves(b, kind, reference, [Credit(credited, amount), Debit(debited, amount)], a);
      TransferNet(debited, credited, amount, a);
    }
  }

  /** Every collateral and margin operation keeps the ledger safe, whatever its arguments. */
  lemma CollateralKeepsSafe(b: Books, house: Option<MemberId>, m: MemberId, amount: real, kind: AccountKind,
                            instrument: nat)
    requires Safe(b)
    ensures Deposit(b, house, m, amount).Ok? ==> Safe(Deposit(b, house, m, amount).value)
    ensures Withdraw(b, house, m, amount).Ok? ==> Safe(Withdraw(b, house, m, amount).value)
    ensures TransferToMargin(b, m, amount, kind).Ok? ==> Safe(TransferToMargin(b, m, amount, kind).value)
    ensures VariationMarginPosting(b, m, instrument, amount).Ok?
            ==> Safe(VariationMarginPosting(b, m, instrument, amount).value)
  {
    hide Safe, Balance, Post;
    if Deposit(b, house, m, amount).Ok? {
      TransferKeepsSafe(b, CollateralDeposit, OfMember(m), CollateralOf(m), Recovery(house).value, amount);
    }
    if Withdraw(b, house, m, amount).Ok? {
      TransferKeepsSafe(b, CollateralWithdrawal, OfMember(m), Recovery(house).value, CollateralOf(m), amount);
    }
    if TransferToMargin(b, m, amount, kind).Ok? {
      TransferKeepsSafe(b, CollateralDeposit, OfMember(m), Account(m, kind, Available), CollateralOf(m), amount);
    }
    var open, locked := VmAccount(m, Available), VmAccount(m, Locked);
    if open in b.accounts && locked in b.accounts && amount != 0.0 {
      TransferKeepsSafe(b, VariationMargin, OfInstrument(instrument), open, locked, Abs(amount));
      TransferKeepsSafe(b, VariationMargin, OfInstrument(instrument), locked, open, Abs(amount));
    }
  }

  /** A withdrawal undoes a deposit: it is always granted, and every balance is back where it was. */
  lemma WithdrawUndoesDeposit(b: Books, house: Option<MemberId>, m: MemberId, amount: real, a: Account)
    requires NeverNegative(b) && Deposit(b, house, m, amount).Ok?
    ensures var after := Deposit(b, house, m, amount).value;
            && Withdraw(after, house, m, amount).Ok?
            && Balance(Withdraw(after, house, m, amount).value, a) == Balance(b, a)
  {
    hide Balance, Post;
    var c, h := CollateralOf(m), Recovery(house).value;
    var ins, outs := [Debit(c, amount), Credit(h, amount)], [Credit(c, amount), Debit(h, amount)];
    var after := Deposit(b, house, m, amount).value;
    assert after.accounts == b.accounts by {
      PostAccounts(b, CollateralDeposit, OfMember(m), ins);
    }
    PostMoves(b, CollateralDeposit, OfMember(m), ins, c);
    TransferNet(c, h, amount, c);
    assert Balance(b, c) >= 0.0;
    PostMoves(b, CollateralDeposit, OfMember(m), ins, a);
    PostMoves(after, CollateralWithdrawal, OfMember(m), outs, a);
    TransferNet(c, h, amount, a);
    TransferNet(h, c, amount, a);
  }

  /** What each operation moves, on every account: a deposit brings the member what it takes from the CCP, a
      withdrawal the reverse, a margin transfer moves between two accounts of the member. A withdrawal or
      transfer beyond the balance is the only one that is refused for lack of margin. */
  lemma CollateralMoves(b: Books, house: MemberId, m: MemberId, amount: real, kind: AccountKind, a: Account)
    ensures Deposit(b, Some(house), m, amount).Ok? ==>
      Balance(Deposit(b, Some(house), m, amount).value, a)
      == Balance(b, a) + (if a == Account(m, AccountKind.Collateral, Available) then amount else 0.0)
                       - (if a == Account(house, AccountKind.Settlement, Available) then amount else 0.0)
    ensures Withdraw(b, Some(house), m, amount).Ok? ==>
      Balance(Withdraw(b, Some(house), m, amount).value, a)
      == Balance(b, a) - (if a == Account(m, AccountKind.Collateral, Available) then amount else 0.0)
                       + (if a == Account(house, AccountKind.Settlement, Available) then amount else 0.0)
    ensures TransferToMargin(b, m, amount, kind).Ok? ==>
      Balance(TransferToMargin(b, m, amount, kind).value, a)
      == Balance(b, a) - (if a == Account(m, AccountKind.Collateral, Available) then amount else 0.0)
                       + (if a == Account(m, kind, Available) then amount else 0.0)
    ensures Withdraw(b, Some(house), m, amount) == Raised(InsufficientMargin)
            <==> && amount > 0.0 && Account(m, AccountKind.Collateral, Available) in b.accounts
                 && Balance(b, Account(m, AccountKind.Collateral, Available)) < amount
    ensures TransferToMargin(b, m, amount, kind) == Raised(InsufficientMargin)
            <==> && amount > 0.0 && Account(m, AccountKind.Collateral, Available) in b.accounts
                 && Account(m, kind, Available) in b.accounts
                 && Balance(b, Account(m, AccountKind.Collateral, Available)) < amount
  {
    hide Balance, Post;
    var c, h, t := CollateralOf(m), Account(house, AccountKind.Settlement, Available), Account(m, kind, Available);
    PostMoves(b, CollateralDeposit, OfMember(m), [Debit(c, amount), Credit(h, amount)], a);
    PostMoves(b, CollateralWithdrawal, OfMember(m), [Credit(c, amount), Debit(h, amount)], a);
    PostMoves(b, CollateralDeposit, OfMember(m), [Credit(c, amount), Debit(t, amount)], a);
    TransferNet(c, h, amount, a);
    TransferNet(h, c, amount, a);
    TransferNet(t, c, amount, a);
  }

  /** When each operation is granted, and the journal that it then posts. A deposit needs a positive amount, the
      member's collateral account and the CCP's settlement account; a withdrawal needs the balance as well; a
      transfer needs the balance and the target account. */
  lemma GrantedExactly(b: Books, house: Option<MemberId>, m: MemberId, amount: real, kind: AccountKind)
    ensures var found := amount > 0.0 && Account(m, AccountKind.Collateral, Available) in b.accounts;
            var affordable := Balance(b, Account(m, AccountKind.Collateral, Available)) >= amount;
            var ccp := house.Some? && Account(house.value, AccountKind.Settlement, Available) in b.accounts;
            && (Deposit(b, house, m, amount).Ok? <==> found && ccp)
            && (Withdraw(b, house, m, amount).Ok? <==> found && ccp && affordable)
            && (TransferToMargin(b, m, amount, kind).Ok?
                <==> found && Account(m, kind, Available) in b.accounts && affordable)
    ensures forall c | c in {Deposit(b, house, m, amount), TransferToMargin(b, m, amount, kind)} && c.Ok? ::
              c.value.journals == b.journals + [Journal(CollateralDeposit, OfMember(m), JournalConfirmed)]
    ensures Withdraw(b, house, m, amount).Ok? ==>
              Withdraw(b, house, m, amount).value.journals
              == b.journals + [Journal(CollateralWithdrawal, OfMember(m), JournalConfirmed)]
  {
    hide Balance;
  }

  /** A variation margin of either sign raises the member's available VM balance by it, lowers the locked one by it
      and moves no other account, when both accounts exist; a zero one is then refused. Without both accounts
      nothing is posted. */
  lemma VariationMarginMoves(b: Books, m: MemberId, instrument: nat, vm: real, a: Account)
    ensures var open, locked := Account(m, MarginVm, Available), Account(m, MarginVm, Locked);
            var r := VariationMarginPosting(b, m, instrument, vm);
            if open !in b.accounts || locked !in b.accounts then r == Ok(b)
            else if vm == 0.0 then r.Raised?
            else
              && r.Ok?
              && r.value.journals == b.journals + [Journal(VariationMargin, OfInstrument(instrument), JournalConfirmed)]
              && Balance(r.value, a)
                 == Balance(b, a) + (if a == open then vm else 0.0) - (if a == locked then vm else 0.0)
  {
    hide Balance;
    var open, locked := Account(m, MarginVm, Available), Account(m, MarginVm, Locked);
    PostMoves(b, VariationMargin, OfInstrument(instrument), [Debit(open, Abs(vm)), Credit(locked, Abs(vm))], a);
    PostMoves(b, VariationMargin, OfInstrument(instrument), [Debit(locked, Abs(vm)), Credit(open, Abs(vm))], a);
    TransferNet(open, locked, Abs(vm), a);
    TransferNet(locked, open, Abs(vm), a);
  }

  lemma PostAccounts(b: Books, kind: JournalKind, reference: Reference, lines: seq<Line>)
    ensures Post(b, kind, reference, lines).accounts == b.accounts
  {
  }

  // ---------------------------------------------------------------- initial margin

  /** calculate_initial_margin. */
  function InitialMargin(netQuantity: real, price: real, rate: real): real {
    Abs(netQuantity) * price * rate
  }

  /** What a trade locks is the initial margin of either of its legs: a position of a leg's size, long or short,
      needs the leg's quantity times the price times the rate. */
  lemma MarginOfLeg(quantity: real, price: real, rate: real)
    requires quantity > 0.0
    ensures InitialMargin(quantity, price, rate) == InitialMargin(-quantity, price, rate) == quantity * price * rate
  {
  }

  function Itself(): real -> real {
    (q: real) => q
  }

  function MarginAlone(price: real, rate: real): real -> real {
    (q: real) => InitialMargin(q, price, rate)
  }

  /** Margin on the net of any number of signed quantities is at most the margin on each alone. */
  lemma {:induction false} NettingSavesMargin(quantities: seq<real>, price: real, rate: real)
    requires price >= 0.0 && rate >= 0.0
    ensures InitialMargin(Sum(quantities, Itself()), price, rate) <= Sum(quantities, MarginAlone(price, rate))
  {
    hide InitialMargin, Sum;
    var size := (q: real) => Abs(q);
    var c := price * rate;
    SumTriangle(quantities, Itself(), size);
    forall i | 0 <= i < |quantities| ensures MarginAlone(price, rate)(quantities[i]) == c * size(quantities[i]) {
      MarginIsLinear(quantities[i], price, rate);
    }
    SumScale(quantities, c, size, MarginAlone(price, rate));
    MarginIsLinear(Sum(quantities, Itself()), price, rate);
    ScaledOrder(Abs(Sum(quantities, Itself())), Sum(quantities, size), c);
  }

  lemma MarginIsLinear(q: real, price: real, rate: real)
    ensures InitialMargin(q, price, rate) == price * rate * Abs(q)
  {
  }

  lemma ScaledOrder(a: real, b: real, c: real)
    requires a <= b && c >= 0.0
    ensures c * a <= c * b
  {
  }
}
