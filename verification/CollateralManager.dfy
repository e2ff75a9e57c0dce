/** Collateral and variation margin as the services run them. Each operation either raises and leaves the
    database alone or posts one journal, whose id it returns. */
module CollateralManager {
  import opened Options
  import opened Sums
  import opened Ledger
  import opened Registry
  import opened Waterfall
  import opened Collateral
  import opened System
  import opened Store

  /** r and the books now are what x says, starting from these books. */
  ghost predicate Performed(x: Result<Books>, before: Books, r: Result<nat>, after: Books) {
    match x
    case Ok(books) => r == Ok(|before.journals|) && after == books
    case Raised(error) => r == Raised(error) && after == before
  }

  /** deposit_collateral. */
  method DepositCollateral(db: Database, member: MemberId, amount: real) returns (r: Result<nat>)
    modifies db`books
    ensures Performed(Deposit(old(db.books), db.house, member, amount), old(db.books), r, db.books)
    ensures db.Snapshot() == AfterPosting(old(db.Snapshot()), Deposit(old(db.books), db.house, member, amount))
  {
    if amount <= 0.0 {
      return Raised(ValidationError);
    }
    var memberAccount, ccp := CollateralOf(member), Recovery(db.house);
    if memberAccount !in db.books.accounts || !Exists(db.books.accounts, ccp) {
      return Raised(ValidationError);
    }
    r := Ok(|db.books.journals|);
    var _ :=
      db.InsertTransfer(CollateralDeposit, OfMember(member), Debit(memberAccount, amount), Credit(ccp.value, amount));
  }

  /** withdraw_collateral. */
  method WithdrawCollateral(db: Database, member: MemberId, amount: real) returns (r: Result<nat>)
    modifies db`books
    ensures Performed(Withdraw(old(db.books), db.house, member, amount), old(db.books), r, db.books)
    ensures db.Snapshot() == AfterPosting(old(db.Snapshot()), Withdraw(old(db.books), db.house, member, amount))
  {
    hide Balance;
    if amount <= 0.0 {
      return Raised(ValidationError);
    }
    var memberAccount := CollateralOf(member);
    if memberAccount !in db.books.accounts {
      return Raised(ValidationError);
    }
    var balance := Balance(db.books, memberAccount);
    if balance < amount {
      return Raised(InsufficientMargin);
    }
    var ccp := Recovery(db.house);
    if !Exists(db.books.accounts, ccp) {
      return Raised(ValidationError);
    }
    r := Ok(|db.books.journals|);
    var _ :=
      db.InsertTransfer(CollateralWithdrawal, OfMember(member), Credit(memberAccount, amount),
                        Debit(ccp.value, amount));
  }

  /** transfer_to_margin, without its update of margin_requirements. */
  method MoveToMargin(db: Database, member: MemberId, amount: real, kind: AccountKind) returns (r: Result<nat>)
    modifies db`books
    ensures Performed(TransferToMargin(old(db.books), member, amount, kind), old(db.books), r, db.books)
    ensures db.Snapshot() == AfterPosting(old(db.Snapshot()), TransferToMargin(old(db.books), member, amount, kind))
  {
    hide Balance;
    if amount <= 0.0 {
      return Raised(ValidationError);
    }
    var collateral, margin := CollateralOf(member), Account(member, kind, Available);
    if collateral !in db.books.accounts || margin !in db.books.accounts {
      return Raised(ValidationError);
    }
    var balance := Balance(db.books, collateral);
    if balance < amount {
      return Raised(InsufficientMargin);
    }
    r := Ok(|db.books.journals|);
    var _ := db.InsertTransfer(CollateralDeposit, OfMember(member), Credit(collateral, amount), Debit(margin, amount));
  }

  /** _process_variation_margin; a refused entry undoes the journal. Without VM accounts nothing is posted. */
  method ProcessVariationMargin(db: Database, member: MemberId, instrument: InstrumentId, vm: real)
    returns (r: Result<()>)
    modifies db`books
    ensures var x := VariationMarginPosting(old(db.books), member, instrument, vm);
            && db.Snapshot() == AfterPosting(old(db.Snapshot()), x)
            && r == if x.Ok? then Ok(()) else Raised(x.error)
  {
    var available, locked := VmAccount(member, Available), VmAccount(member, Locked);
    if available !in db.books.accounts || locked !in db.books.accounts {
      return Ok(());
    }
    var savepoint := db.books;
    var debited, credited := available, locked;
    if vm <= 0.0 {
      debited, credited := locked, available;
    }
    var amount := Abs(vm);
    var inserted :=
      db.InsertTransfer(VariationMargin, OfInstrument(instrument), Debit(debited, amount), Credit(credited, amount));
    if inserted {
      r := Ok(());
    } else {
      db.books := savepoint;
      r := Raised(ConstraintViolation);
    }
  }
}
