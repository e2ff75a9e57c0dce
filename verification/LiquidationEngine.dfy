/** The default waterfall as the service runs it: statement by statement, on the database. */
module LiquidationEngine {
  import opened Options
  import opened Sums
  import opened Ledger
  import opened Registry
  import opened ProRata
  import opened Waterfall
  import opened WaterfallTerms
  import opened System
  import opened Store

  /** _create_waterfall_journal: each entry is written only if its account is found. */
  method CreateWaterfallJournal(db: Database, event: nat, member: MemberId, amount: real, source: AccountKind)
    requires amount > 0.0
    modifies db`books
    ensures db.books == Pay(old(db.books), db.house, event, Payment(member, source, amount))
  {
    var p := Payment(member, source, amount);
    var ccp := Recovery(db.house);
    var found := Source(p) in db.books.accounts;
    var recoverable := Exists(db.books.accounts, ccp);
    var j := db.InsertJournal(WaterfallStep, OfDefault(event));
    if found {
      var _ := db.InsertEntry(j, Source(p), 0.0, amount);
    }
    if recoverable {
      var _ := db.InsertEntry(j, ccp.value, amount, 0.0);
    }
    ghost var credits := if found then [Credit(Source(p), amount)] else [];
    ghost var debits := if recoverable then [Debit(ccp.value, amount)] else [];
    assert Rows(j, credits + debits) == Rows(j, credits) + Rows(j, debits);
  }

  /** _record_step. */
  method RecordStep(db: Database, event: nat, row: StepRow)
    requires event < |db.defaults|
    modifies db`defaults
    ensures var rows := old(db.defaults);
            db.defaults == rows[event := rows[event].(steps := rows[event].steps + [row])]
  {
    db.defaults := db.defaults[event := db.defaults[event].(steps := db.defaults[event].steps + [row])];
  }

  /** What a stretch of the waterfall adds to books b and event rows: the journals and the rows of q, a
      progress that started with nothing posted. */
  ghost predicate StepDone(b: Books, rows: seq<DefaultEvent>, house: Option<MemberId>, event: nat, q: Progress,
                           after: Books, afterRows: seq<DefaultEvent>)
  {
    && event < |rows|
    && after == PayAll(b, house, event, q.payments)
    && afterRows == rows[event := rows[event].(steps := rows[event].steps + q.steps)]
  }

  /** _step_defaulter_margin: it measures every pool of both margin accounts and takes all from IM. */
  method StepDefaulterMargin(db: Database, event: nat, member: MemberId, remaining: real)
    returns (newRemaining: real)
    requires event < |db.defaults|
    modifies db`books, db`defaults
    ensures var q := SingleStep(Progress([], [], remaining), 1, DefaulterMargin, Some(member), MarginIm,
                                MarginPosted(old(db.books), member));
            && StepDone(old(db.books), old(db.defaults), db.house, event, q, db.books, db.defaults)
            && newRemaining == q.remaining
    ensures Distinct(old(db.books).accounts) ==>
      var margin := Sum(MarginAccounts(member), Positive(old(db.books)));
      db.defaults[event].steps == old(db.defaults)[event].steps +
                                  [Row(1, DefaulterMargin, margin, Min(margin, remaining), remaining)]
  {
    var available := MarginPosted(db.books, member);
    if Distinct(db.books.accounts) {
      MarginIsPosted(db.books, member);
    }
    var applied := Min(available, remaining);
    newRemaining := remaining - applied;
    if applied > 0.0 {
      CreateWaterfallJournal(db, event, member, applied, MarginIm);
      PayOne(old(db.books), db.house, event, Payment(member, MarginIm, applied));
    }
    var row := StepRow(1, DefaulterMargin, available, applied, newRemaining);
    RecordStep(db, event, row);
    assert [] + [row] == [row];
  }

  /** _step_defaulter_default_fund. */
  method StepDefaulterDefaultFund(db: Database, event: nat, member: MemberId, remaining: real)
    returns (newRemaining: real)
    requires event < |db.defaults|
    modifies db`books, db`defaults
    ensures var q := SingleStep(Progress([], [], remaining), 2, DefaulterFund, Some(member), DefaultFund,
                                FundBalance(old(db.books), member));
            && StepDone(old(db.books), old(db.defaults), db.house, event, q, db.books, db.defaults)
            && newRemaining == q.remaining
  {
    var available := FundBalance(db.books, member);
    var applied := Min(available, remaining);
    newRemaining := remaining - applied;
    if applied > 0.0 {
      CreateWaterfallJournal(db, event, member, applied, DefaultFund);
      PayOne(old(db.books), db.house, event, Payment(member, DefaultFund, applied));
    }
    var row := StepRow(2, DefaulterFund, available, applied, newRemaining);
    RecordStep(db, event, row);
    assert [] + [row] == [row];
  }

  /** _step_ccp_equity. */
  method StepCcpEquity(db: Database, event: nat, remaining: real) returns (newRemaining: real)
    requires event < |db.defaults|
    modifies db`books, db`defaults
    ensures var q := SingleStep(Progress([], [], remaining), 3, HouseEquity, db.house, CcpEquity,
                                EquityBalance(old(db.books), db.house));
            && StepDone(old(db.books), old(db.defaults), db.house, event, q, db.books, db.defaults)
            && newRemaining == q.remaining
  {
    var available := 0.0;
    if db.house.Some? {
      available := Balance(db.books, Account(db.house.value, CcpEquity, Available));
    }
    var applied := Min(available, remaining);
    newRemaining := remaining - applied;
    if applied > 0.0 && db.house.Some? {
      CreateWaterfallJournal(db, event, db.house.value, applied, CcpEquity);
      PayOne(old(db.books), db.house, event, Payment(db.house.value, CcpEquity, applied));
    }
    var row := StepRow(3, HouseEquity, available, applied, newRemaining);
    RecordStep(db, event, row);
    assert [] + [row] == [row];
  }

  lemma PayOne(b: Books, house: Option<MemberId>, event: nat, p: Payment)
    ensures PayAll(b, house, event, [p]) == Pay(b, house, event, p)
  {
    assert [p][..0] == [];
  }

  lemma PaySnoc(b: Books, house: Option<MemberId>, event: nat, ps: seq<Payment>, p: Payment)
    ensures PayAll(b, house, event, ps + [p]) == Pay(PayAll(b, house, event, ps), house, event, p)
  {
    assert (ps + [p])[..|ps|] == ps;
  }

  lemma ContributionsSnoc(shares: seq<Share>, s: Share, total: real, loss: real, rate: real, source: AccountKind)
    ensures var amount := Payout(s.base, total, loss, rate);
            && Sum(shares + [s], Allocation(total, loss, rate)) == Sum(shares, Allocation(total, loss, rate)) + amount
            && Contributions(shares + [s], total, loss, rate, source)
               == (if amount > 0.0
                   then Contributions(shares, total, loss, rate, source) + [Payment(s.member, source, amount)]
                   else Contributions(shares, total, loss, rate, source))
  {
    hide Payout;
    SumSnoc(shares, s, Allocation(total, loss, rate));
    assert (shares + [s])[..|shares|] == shares;
  }

  /** The loop that steps 4 and 5 share: every survivor in turn, its quota of the loss, capped at `rate`
      times its base; a survivor with nothing to give is skipped. */
  method AllocateProRata(db: Database, event: nat, survivors: seq<Share>, total: real, remaining: real, rate: real,
                         source: AccountKind)
    returns (totalApplied: real)
    modifies db`books
    ensures totalApplied == Sum(survivors, Allocation(total, remaining, rate))
    ensures db.books == PayAll(old(db.books), db.house, event, Contributions(survivors, total, remaining, rate, source))
  {
    hide PayAll, Pay, Sum, Contributions, Quota, Cap;
    totalApplied := 0.0;
    ghost var b := db.books;
    NothingPaid(b, db.house, event, survivors, total, remaining, rate, source);
    if total > 0.0 {
      for i := 0 to |survivors|
        invariant totalApplied == Sum(survivors[..i], Allocation(total, remaining, rate))
        invariant db.books == PayAll(b, db.house, event, Contributions(survivors[..i], total, remaining, rate, source))
      {
        var s := survivors[i];
        assert survivors[..i + 1] == survivors[..i] + [s];
        ContributionsSnoc(survivors[..i], s, total, remaining, rate, source);
        if s.base > 0.0 {
          var share := Quota(s.base, total, remaining);
          var cap := Cap(s.base, rate);
          var contribution := Min(share, cap);
          if contribution > 0.0 {
            ghost var before := Contributions(survivors[..i], total, remaining, rate, source);
            CreateWaterfallJournal(db, event, s.member, contribution, source);
            PaySnoc(b, db.house, event, before, Payment(s.member, source, contribution));
            totalApplied := totalApplied + contribution;
          }
        }
      }
      assert survivors[..|survivors|] == survivors;
    }
  }

  lemma NothingPaid(b: Books, house: Option<MemberId>, event: nat, shares: seq<Share>, total: real, loss: real,
                    rate: real, source: AccountKind)
    ensures PayAll(b, house, event, []) == b
    ensures Contributions([], total, loss, rate, source) == [] && Sum([], Allocation(total, loss, rate)) == 0.0
    ensures total <= 0.0 ==> Contributions(shares, total, loss, rate, source) == []
    ensures total <= 0.0 ==> Sum(shares, Allocation(total, loss, rate)) == 0.0
  {
    if total <= 0.0 {
      NoContributions(shares, total, loss, rate, source);
      SumZero(shares, Allocation(total, loss, rate));
    }
  }

  lemma {:induction false} NoContributions(shares: seq<Share>, total: real, loss: real, rate: real, source: AccountKind)
    requires total <= 0.0
    ensures Contributions(shares, total, loss, rate, source) == []
  {
    if shares != [] {
      NoContributions(shares[..|shares| - 1], total, loss, rate, source);
    }
  }

  /** _step_surviving_default_fund: the survivors with a positive balance, capped at that balance. */
  method StepSurvivingDefaultFund(db: Database, event: nat, defaulter: MemberId, remaining: real)
    returns (newRemaining: real)
    requires event < |db.defaults|
    modifies db`books, db`defaults
    ensures var q := SharedStep(Progress([], [], remaining), 4, SurvivingFund,
                                FundShares(old(db.books), db.members, defaulter), DefaultFund, 1.0);
            && StepDone(old(db.books), old(db.defaults), db.house, event, q, db.books, db.defaults)
            && newRemaining == q.remaining
  {
    hide PayAll, Contributions, FundShares, Allocation, Sum;
    var survivors := FundShares(db.books, db.members, defaulter);
    var total := Sum(survivors, Base());
    var totalApplied := AllocateProRata(db, event, survivors, total, remaining, 1.0, DefaultFund);
    ghost var posted := Contributions(survivors, total, remaining, 1.0, DefaultFund);
    assert [] + posted == posted;
    newRemaining := remaining - totalApplied;
    var row := StepRow(4, SurvivingFund, total, totalApplied, newRemaining);
    RecordStep(db, event, row);
    assert [] + [row] == [row];
  }

  /** _step_loss_allocation: every survivor, capped at a tenth of its credit limit. */
  method StepLossAllocation(db: Database, event: nat, defaulter: MemberId, remaining: real)
    returns (newRemaining: real)
    requires event < |db.defaults|
    modifies db`books, db`defaults
    ensures var q := SharedStep(Progress([], [], remaining), 5, LossAllocation,
                                LimitShares(db.members, defaulter), AccountKind.Settlement, ALLOCATION_CAP);
            && StepDone(old(db.books), old(db.defaults), db.house, event, q, db.books, db.defaults)
            && newRemaining == q.remaining
  {
    hide PayAll, Contributions, LimitShares, Allocation, Sum;
    var survivors := LimitShares(db.members, defaulter);
    var total := Sum(survivors, Base());
    var totalApplied := AllocateProRata(db, event, survivors, total, remaining, ALLOCATION_CAP, AccountKind.Settlement);
    ghost var posted := Contributions(survivors, total, remaining, ALLOCATION_CAP, AccountKind.Settlement);
    assert [] + posted == posted;
    newRemaining := remaining - totalApplied;
    var row := StepRow(5, LossAllocation, total, totalApplied, newRemaining);
    RecordStep(db, event, row);
    assert [] + [row] == [row];
  }

  // ---------------------------------------------------------------- the whole waterfall

  lemma {:induction false} PayConcat(b: Books, house: Option<MemberId>, event: nat, ps: seq<Payment>, qs: seq<Payment>)
    ensures PayAll(PayAll(b, house, event, ps), house, event, qs) == PayAll(b, house, event, ps + qs)
  {
    if qs == [] {
      assert ps + qs == ps;
    } else {
      PayConcat(b, house, event, ps, qs[..|qs| - 1]);
      assert (ps + qs)[..|ps + qs| - 1] == ps + qs[..|qs| - 1];
    }
  }

  /** p followed by q, where q started from the loss that p left. */
  function Then(p: Progress, q: Progress): Progress {
    Progress(p.payments + q.payments, p.steps + q.steps, q.remaining)
  }

  lemma SingleThen(p: Progress, order: nat, kind: StepKind, payer: Option<MemberId>, source: AccountKind,
                   available: real)
    ensures SingleStep(p, order, kind, payer, source, available)
            == Then(p, SingleStep(Progress([], [], p.remaining), order, kind, payer, source, available))
  {
  }

  lemma SharedThen(p: Progress, order: nat, kind: StepKind, shares: seq<Share>, source: AccountKind, rate: real)
    ensures SharedStep(p, order, kind, shares, source, rate)
            == Then(p, SharedStep(Progress([], [], p.remaining), order, kind, shares, source, rate))
  {
    hide Contributions, Absorbed;
  }

  /** Two stretches of a waterfall, one after the other, are the combined stretch. */
  lemma StepsCompose(b: Books, rows: seq<DefaultEvent>, house: Option<MemberId>, event: nat, p: Progress, b1: Books,
                     rows1: seq<DefaultEvent>, q: Progress, b2: Books, rows2: seq<DefaultEvent>)
    requires StepDone(b, rows, house, event, p, b1, rows1)
    requires StepDone(b1, rows1, house, event, q, b2, rows2)
    ensures StepDone(b, rows, house, event, Then(p, q), b2, rows2)
    ensures Then(p, q).remaining == q.remaining
  {
    PayConcat(b, house, event, p.payments, q.payments);
    assert rows[event].steps + p.steps + q.steps == rows[event].steps + (p.steps + q.steps);
    assert rows1[event := rows2[event]] == rows[event := rows2[event]];
  }

  lemma WholeWaterfall(before: seq<DefaultEvent>, row: DefaultEvent, b: Books, house: Option<MemberId>, p: Progress,
                       after: Books, afterRows: seq<DefaultEvent>)
    requires StepDone(b, before + [row], house, |before|, p, after, afterRows) && row.steps == []
    ensures after == PayAll(b, house, |before|, p.payments)
    ensures afterRows == before + [row.(steps := p.steps)]
  {
    assert [] + p.steps == p.steps;
  }

  /** execute_waterfall: declares the default, then runs step after step while a loss remains. */
  method ExecuteWaterfall(db: Database, member: MemberId, exposure: real)
    returns (status: DefaultStatus, remaining: real)
    modifies db`books, db`members, db`defaults
    ensures var s := old(db.Snapshot());
            var members := MarkDefaulted(s.members, member);
            var p := Execute(s.books, members, s.house, member, exposure, |s.defaults|);
            && status == StatusOf(p) && remaining == p.remaining
            && db.members == members
            && db.books == PayAll(s.books, s.house, |s.defaults|, p.payments)
            && db.defaults == s.defaults + [DefaultEvent(member, exposure, status, p.remaining, p.steps)]
  {
    hide PayAll, SingleStep, SharedStep, MarginPosted, FundBalance, EquityBalance, FundShares, LimitShares, StepDone,
      Then;
    var event := |db.defaults|;
    ghost var before, row := db.defaults, DefaultEvent(member, exposure, Detected, exposure, []);
    db.defaults := db.defaults + [DefaultEvent(member, exposure, Detected, exposure, [])];
    db.members := MarkDefaulted(db.members, member);
    ghost var b, rows, house, nothing := db.books, db.defaults, db.house, Progress([], [], exposure);
    remaining := StepDefaulterMargin(db, event, member, exposure);
    ghost var p := Step1(b, member, exposure);
    ghost var b1, rows1 := db.books, db.defaults;
    if remaining > 0.0 {
      remaining := StepDefaulterDefaultFund(db, event, member, remaining);
      SingleThen(p, 2, DefaulterFund, Some(member), DefaultFund, FundBalance(b1, member));
      StepsCompose(b, rows, house, event, p, b1, rows1,
                   SingleStep(Progress([], [], p.remaining), 2, DefaulterFund, Some(member), DefaultFund,
                              FundBalance(b1, member)), db.books, db.defaults);
      SeenNow(b, rows, house, event, p, b1, rows1);
    }
    p := Step2(b, house, member, event, p);
    b1, rows1 := db.books, db.defaults;
    if remaining > 0.0 {
      remaining := StepCcpEquity(db, event, remaining);
      SingleThen(p, 3, HouseEquity, house, CcpEquity, EquityBalance(b1, house));
      StepsCompose(b, rows, house, event, p, b1, rows1,
                   SingleStep(Progress([], [], p.remaining), 3, HouseEquity, house, CcpEquity,
                              EquityBalance(b1, house)),
                   db.books, db.defaults);
      SeenNow(b, rows, house, event, p, b1, rows1);
    }
    p := Step3(b, house, event, p);
    b1, rows1 := db.books, db.defaults;
    if remaining > 0.0 {
      remaining := StepSurvivingDefaultFund(db, event, member, remaining);
      ghost var shares := FundShares(b1, db.members, member);
      SharedThen(p, 4, SurvivingFund, shares, DefaultFund, 1.0);
      StepsCompose(b, rows, house, event, p, b1, rows1,
                   SharedStep(Progress([], [], p.remaining), 4, SurvivingFund, shares, DefaultFund, 1.0),
                   db.books, db.defaults);
      SeenNow(b, rows, house, event, p, b1, rows1);
    }
    p := Step4(b, db.members, house, member, event, p);
    b1, rows1 := db.books, db.defaults;
    if remaining > 0.0 {
      remaining := StepLossAllocation(db, event, member, remaining);
      ghost var shares := LimitShares(db.members, member);
      SharedThen(p, 5, LossAllocation, shares, AccountKind.Settlement, ALLOCATION_CAP);
      StepsCompose(b, rows, house, event, p, b1, rows1,
                   SharedStep(Progress([], [], p.remaining), 5, LossAllocation, shares, AccountKind.Settlement,
                              ALLOCATION_CAP), db.books, db.defaults);
    }
    p := Step5(db.members, member, p);
    WholeWaterfall(before, row, b, house, p, db.books, db.defaults);
    status := if remaining == 0.0 then Resolved else PartiallyResolved;
    db.defaults := db.defaults[event := db.defaults[event].(status := status, remaining := remaining)];
  }

  lemma SeenNow(b: Books, rows: seq<DefaultEvent>, house: Option<MemberId>, event: nat, p: Progress, after: Books,
                afterRows: seq<DefaultEvent>)
    requires StepDone(b, rows, house, event, p, after, afterRows)
    ensures after == Seen(b, house, event, p) && |afterRows| == |rows| && event < |afterRows|
  {
  }

  /** The transaction around execute_waterfall: a foreign key refuses an unknown member, and the trigger
      on the ledger refuses the commit if some journal does not balance. */
  method DeclareDefault(db: Database, member: MemberId, exposure: real) returns (committed: bool)
    modifies db`books, db`members, db`defaults
    ensures db.Snapshot() == AfterDefault(old(db.Snapshot()), member, exposure)
  {
    hide Execute, PayAll, TriggerAccepts, MarkDefaulted;
    committed := IsMember(db.members, member);
    if committed {
      var books, members, defaults := db.books, db.members, db.defaults;
      var _, _ := ExecuteWaterfall(db, member, exposure);
      committed := TriggerAccepts(db.books, |books.entries|);
      if !committed {
        db.books, db.members, db.defaults := books, members, defaults;
      }
    }
  }
}
