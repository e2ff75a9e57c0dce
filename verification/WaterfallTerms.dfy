/** The waterfall told without its own queries: which accounts and limits each step reads, how the loss runs
    down row by row, and what every account of the ledger pays. */
module WaterfallTerms {
  import opened Options
  import opened Sums
  import opened Ledger
  import opened Registry
  import opened ProRata
  import opened Waterfall

  /** What an account shows, if it exists and shows something positive. */
  function Shown(b: Books, a: Account): real {
    if a in b.accounts then Max(0.0, Balance(b, a)) else 0.0
  }

  function Positive(b: Books): Account -> real {
    (a: Account) => Shown(b, a)
  }

  /** The margin accounts of a member: both kinds, every pool. */
  function MarginAccounts(m: MemberId): seq<Account> {
    [Account(m, MarginIm, Available), Account(m, MarginIm, Reserved), Account(m, MarginIm, Locked),
     Account(m, MarginVm, Available), Account(m, MarginVm, Reserved), Account(m, MarginVm, Locked)]
  }

  /** What a member's default fund holds, if the member survives. */
  function SurvivorFund(b: Books, defaulter: MemberId): Member -> real {
    (m: Member) =>
      if m.status == Active && m.id != defaulter then Shown(b, Account(m.id, DefaultFund, Available)) else 0.0
  }

  /** The credit limit of a member, if the member survives. */
  function SurvivorLimit(defaulter: MemberId): Member -> real {
    (m: Member) => if m.status == Active && m.id != defaulter then m.creditLimit else 0.0
  }

  function SurvivorLiability(defaulter: MemberId): Member -> real {
    (m: Member) => if m.status == Active && m.id != defaulter then Max(0.0, m.creditLimit) else 0.0
  }

  // ---------------------------------------------------------------- margin

  function Among(b: Books, xs: seq<Account>): Account -> real {
    (a: Account) => if a in xs then Max(0.0, Balance(b, a)) else 0.0
  }

  lemma {:induction false} SumAmong(b: Books, xs: seq<Account>)
    requires Distinct(b.accounts) && Distinct(xs)
    ensures Sum(b.accounts, Among(b, xs)) == Sum(xs, Positive(b))
  {
    hide Balance;
    if xs == [] {
      SumZero(b.accounts, Among(b, []));
    } else {
      var rest, x := xs[..|xs| - 1], xs[|xs| - 1];
      SumAmong(b, rest);
      var here := (a: Account) => if a == x then Max(0.0, Balance(b, a)) else 0.0;
      assert forall a | a in xs :: a in rest || a == x;
      assert x in xs && x !in rest;
      SumAdd(b.accounts, Among(b, rest), here, Among(b, xs));
      SumSelect(b.accounts, x, here);
    }
  }

  /** Posted margin is what the six margin accounts show together, each as far as it is positive. */
  lemma MarginIsPosted(b: Books, m: MemberId)
    requires Distinct(b.accounts)
    ensures MarginPosted(b, m) == Sum(MarginAccounts(m), Positive(b))
  {
    hide Balance, Sum;
    SumAmong(b, MarginAccounts(m));
    forall a: Account
      ensures a in MarginAccounts(m) <==> a.member == m && (a.kind == MarginIm || a.kind == MarginVm)
    {
      if a.member == m && (a.kind == MarginIm || a.kind == MarginVm) {
        assert a.pool == Available || a.pool == Reserved || a.pool == Locked;
        assert a == MarginAccounts(m)[(if a.kind == MarginIm then 0 else 3) +
                                      (if a.pool == Available then 0 else if a.pool == Reserved then 1 else 2)];
      }
    }
    SumPointwise(b.accounts, PositiveMargin(b, m), Among(b, MarginAccounts(m)));
  }

  // ---------------------------------------------------------------- survivors

  function OfId(f: Member -> real, id: MemberId): Member -> real {
    (m: Member) => if m.id == id then f(m) else 0.0
  }

  function ShareOf(id: MemberId): Share -> real {
    (s: Share) => if s.member == id then Max(0.0, s.base) else 0.0
  }

  lemma {:induction false} FundTotals(b: Books, members: seq<Member>, defaulter: MemberId, id: MemberId)
    ensures Sum(FundShares(b, members, defaulter), Base()) == Sum(members, SurvivorFund(b, defaulter))
    ensures Sum(FundShares(b, members, defaulter), ShareOf(id)) == Sum(members, OfId(SurvivorFund(b, defaulter), id))
  {
    hide Balance;
    if members != [] {
      var rest, m := members[..|members| - 1], members[|members| - 1];
      FundTotals(b, rest, defaulter, id);
      var s := Share(m.id, FundBalance(b, m.id));
      assert SurvivorFund(b, defaulter)(m) == if Survives(m, defaulter) && FundOf(m.id) in b.accounts
                                             then Max(0.0, s.base) else 0.0;
      SumSnoc(FundShares(b, rest, defaulter), s, Base());
      SumSnoc(FundShares(b, rest, defaulter), s, ShareOf(id));
    }
  }

  lemma {:induction false} LimitTotals(members: seq<Member>, defaulter: MemberId, id: MemberId)
    ensures Sum(LimitShares(members, defaulter), Base()) == Sum(members, SurvivorLimit(defaulter))
    ensures Sum(LimitShares(members, defaulter), PositiveBase()) == Sum(members, SurvivorLiability(defaulter))
    ensures Sum(LimitShares(members, defaulter), ShareOf(id)) == Sum(members, OfId(SurvivorLiability(defaulter), id))
  {
    if members != [] {
      var rest, m := members[..|members| - 1], members[|members| - 1];
      LimitTotals(rest, defaulter, id);
      var s := Share(m.id, m.creditLimit);
      SumSnoc(LimitShares(rest, defaulter), s, Base());
      SumSnoc(LimitShares(rest, defaulter), s, PositiveBase());
      SumSnoc(LimitShares(rest, defaulter), s, ShareOf(id));
    }
  }

  /** What a pro-rata loop takes from one account. */
  lemma {:induction false} ContributionsFrom(shares: seq<Share>, total: real, loss: real, rate: real,
                                             source: AccountKind, a: Account)
    requires loss >= 0.0 && rate >= 0.0
    ensures Sum(Contributions(shares, total, loss, rate, source), PaidFrom(a))
            == if a.kind == source && a.pool == Available
               then Fraction(total, loss, rate) * Sum(shares, ShareOf(a.member)) else 0.0
  {
    hide Quota, Cap, Payout, Fraction, Sum;
    var f := Fraction(total, loss, rate);
    NothingFrom(a);
    FractionSplits(f, 0.0, 0.0);
    if shares == [] {
      assert Sum(shares, ShareOf(a.member)) == 0.0 by {
        SumZero(shares, ShareOf(a.member));
      }
    } else {
      var rest, s := shares[..|shares| - 1], shares[|shares| - 1];
      assert shares == rest + [s];
      ContributionsFrom(rest, total, loss, rate, source, a);
      OneContribution(rest, s, total, loss, rate, source, a);
      SumSnoc(rest, s, ShareOf(a.member));
      FractionSplits(f, Sum(rest, ShareOf(a.member)), ShareOf(a.member)(s));
    }
  }

  lemma OneContribution(rest: seq<Share>, s: Share, total: real, loss: real, rate: real, source: AccountKind,
                        a: Account)
    requires loss >= 0.0 && rate >= 0.0
    ensures Sum(Contributions(rest + [s], total, loss, rate, source), PaidFrom(a))
            == Sum(Contributions(rest, total, loss, rate, source), PaidFrom(a))
               + if a.kind == source && a.pool == Available
                 then Fraction(total, loss, rate) * ShareOf(a.member)(s) else 0.0
  {
    hide Payout, Fraction, Sum;
    PayoutIsFraction(s.base, total, loss, rate);
    PayoutNonNegative(s.base, total, loss, rate);
    FractionSplits(Fraction(total, loss, rate), 0.0, 0.0);
    assert (rest + [s])[..|rest|] == rest;
    SumSnoc(Contributions(rest, total, loss, rate, source),
            Payment(s.member, source, Payout(s.base, total, loss, rate)), PaidFrom(a));
  }

  lemma PayoutNonNegative(base: real, total: real, loss: real, rate: real)
    ensures Payout(base, total, loss, rate) >= 0.0
  {
    hide Quota, Cap;
  }

  lemma FractionSplits(f: real, x: real, y: real)
    ensures f * (x + y) == f * x + f * y
    ensures f * 0.0 == 0.0
  {
  }

  // ---------------------------------------------------------------- rows

  /** A row whose step took `applied` off the loss `before`. */
  function Row(order: nat, kind: StepKind, available: real, applied: real, before: real): StepRow {
    StepRow(order, kind, available, applied, before - applied)
  }

  /** A single payer's journal: there is one if something positive is applied and the payer exists. */
  function Single(payer: Option<MemberId>, source: AccountKind, applied: real): seq<Payment> {
    if applied > 0.0 && payer.Some? then [Payment(payer.value, source, applied)] else []
  }

  /** The rows and the journals of a waterfall, from the loss and what each layer shows. */
  ghost predicate RunsDown(p: Progress, exposure: real, house: Option<MemberId>, defaulter: MemberId, margin: real,
                           fund: real, equity: real, funds: seq<Share>, limits: seq<Share>)
  {
    var rows, n := p.steps, |p.steps|;
    && 1 <= n <= 5
    && rows[0] == Row(1, DefaulterMargin, margin, Min(margin, exposure), exposure)
    && (n > 1 ==> rows[1] == Row(2, DefaulterFund, fund, Min(fund, rows[0].remaining), rows[0].remaining))
    && (n > 2 ==> rows[2] == Row(3, HouseEquity, equity, Min(equity, rows[1].remaining), rows[1].remaining))
    && (n > 3 ==> rows[3] == Row(4, SurvivingFund, Sum(funds, Base()), Absorbed(funds, rows[2].remaining, 1.0),
                                 rows[2].remaining))
    && (n > 4 ==> rows[4] == Row(5, LossAllocation, Sum(limits, Base()), Absorbed(limits, rows[3].remaining, 0.1),
                                 rows[3].remaining))
    && (forall i | 0 <= i < n - 1 :: rows[i].remaining > 0.0)
    && (n == 5 || rows[n - 1].remaining <= 0.0)
    && p.remaining == rows[n - 1].remaining
    && p.payments ==
         Single(Some(defaulter), MarginIm, rows[0].applied)
         + (if n > 1 then Single(Some(defaulter), DefaultFund, rows[1].applied) else [])
         + (if n > 2 then Single(house, CcpEquity, rows[2].applied) else [])
         + (if n > 3 then Contributions(funds, Sum(funds, Base()), rows[2].remaining, 1.0, DefaultFund) else [])
         + (if n > 4 then Contributions(limits, Sum(limits, Base()), rows[3].remaining, 0.1, Settlement) else [])
  }

  lemma ThreeRunDown(b: Books, house: Option<MemberId>, defaulter: MemberId, exposure: real, event: nat)
    ensures var p := Step3(b, house, event, Step2(b, house, defaulter, event, Step1(b, defaulter, exposure)));
            var margin, fund, equity := MarginPosted(b, defaulter), FundBalance(b, defaulter), EquityBalance(b, house);
            var rows, n := p.steps, |p.steps|;
            && 1 <= n <= 3
            && rows[0] == Row(1, DefaulterMargin, margin, Min(margin, exposure), exposure)
            && (n > 1 ==> rows[1] == Row(2, DefaulterFund, fund, Min(fund, rows[0].remaining), rows[0].remaining))
            && (n > 2 ==> rows[2] == Row(3, HouseEquity, equity, Min(equity, rows[1].remaining), rows[1].remaining))
            && (forall i | 0 <= i < n - 1 :: rows[i].remaining > 0.0)
            && (n == 3 || rows[n - 1].remaining <= 0.0)
            && p.remaining == rows[n - 1].remaining
            && p.payments ==
                 Single(Some(defaulter), MarginIm, rows[0].applied)
                 + (if n > 1 then Single(Some(defaulter), DefaultFund, rows[1].applied) else [])
                 + (if n > 2 then Single(house, CcpEquity, rows[2].applied) else [])
  {
    hide Balance, MarginPosted, FundBalance, EquityBalance, PayAll, SinglePayers;
    ThreePayers(b, house, defaulter, exposure, event);
    var p1 := Step1(b, defaulter, exposure);
    DefaulterFundUnread(b, house, defaulter, event, p1.payments);
    var p2 := Step2(b, house, defaulter, event, p1);
    EquityUnread(b, house, defaulter, event, p2.payments);
  }

  lemma WaterfallRunsDown(b: Books, members: seq<Member>, house: Option<MemberId>, defaulter: MemberId, exposure: real,
                          event: nat)
    ensures RunsDown(Execute(b, members, house, defaulter, exposure, event), exposure, house, defaulter,
                     MarginPosted(b, defaulter), FundBalance(b, defaulter), EquityBalance(b, house),
                     FundShares(b, members, defaulter), LimitShares(members, defaulter))
  {
    hide Balance, MarginPosted, FundBalance, EquityBalance, PayAll, FundShares, LimitShares, Contributions, Absorbed,
      Sum, SinglePayers, Step1, Step2, Step3;
    ThreeRunDown(b, house, defaulter, exposure, event);
    ThreePayers(b, house, defaulter, exposure, event);
    var p3 := Step3(b, house, event, Step2(b, house, defaulter, event, Step1(b, defaulter, exposure)));
    SurvivorFundsUnread(b, members, house, defaulter, event, p3.payments);
  }

  /** One fraction of every positive limit, at most a tenth: the loss is measured against the signed limits. */
  function FifthTakes(loss: real, limits: real, liable: real): real {
    if limits > 0.0 then Min(loss / limits, 0.1) * liable else 0.0
  }

  /** The waterfall, row by row, read off the accounts and the members. The five rows measure the defaulter's
      six margin accounts, its default fund, the CCP's equity, the positive default funds of the active other
      members, and their credit limits. The first four take the smaller of what they measure and the loss before
      them; the fifth takes one fraction of every positive limit, at most a tenth. A step runs exactly when the
      one before it left a loss. */
  lemma RowsExactly(b: Books, members: seq<Member>, house: Option<MemberId>, defaulter: MemberId, exposure: real,
                    event: nat)
    requires Distinct(b.accounts)
    ensures var p := Execute(b, members, house, defaulter, exposure, event);
            var margin := Sum(MarginAccounts(defaulter), Positive(b));
            var fund := Balance(b, Account(defaulter, DefaultFund, Available));
            var equity := if house.Some? then Balance(b, Account(house.value, CcpEquity, Available)) else 0.0;
            var funds := Sum(members, SurvivorFund(b, defaulter));
            var limits := Sum(members, SurvivorLimit(defaulter));
            var liable := Sum(members, SurvivorLiability(defaulter));
            var rows, n := p.steps, |p.steps|;
            && 1 <= n <= 5
            && rows[0] == Row(1, DefaulterMargin, margin, Min(margin, exposure), exposure)
            && (n > 1 ==> rows[1] == Row(2, DefaulterFund, fund, Min(fund, rows[0].remaining), rows[0].remaining))
            && (n > 2 ==> rows[2] == Row(3, HouseEquity, equity, Min(equity, rows[1].remaining), rows[1].remaining))
            && (n > 3 ==> rows[3] == Row(4, SurvivingFund, funds, Min(funds, rows[2].remaining), rows[2].remaining))
            && (n > 4 ==>
                  rows[4] == Row(5, LossAllocation, limits, FifthTakes(rows[3].remaining, limits, liable),
                                 rows[3].remaining))
            && (forall i | 0 <= i < n - 1 :: rows[i].remaining > 0.0)
            && (n == 5 || rows[n - 1].remaining <= 0.0)
            && p.remaining == rows[n - 1].remaining
  {
    hide Balance, MarginPosted, FundShares, LimitShares, Contributions, Sum, Absorbed, Execute, FifthTakes;
    WaterfallRunsDown(b, members, house, defaulter, exposure, event);
    MarginIsPosted(b, defaulter);
    FundTotals(b, members, defaulter, 0);
    LimitTotals(members, defaulter, 0);
    var rows := Execute(b, members, house, defaulter, exposure, event).steps;
    FundSharesPositive(b, members, defaulter);
    if |rows| > 3 {
      ProRataIdentity(FundShares(b, members, defaulter), rows[2].remaining, 1.0);
    }
    if |rows| > 4 {
      FifthAbsorbs(LimitShares(members, defaulter), rows[3].remaining, Sum(members, SurvivorLimit(defaulter)),
                   Sum(members, SurvivorLiability(defaulter)));
    }
  }

  lemma FifthAbsorbs(shares: seq<Share>, loss: real, limits: real, liable: real)
    requires loss >= 0.0 && limits == Sum(shares, Base()) && liable == Sum(shares, PositiveBase())
    ensures Absorbed(shares, loss, 0.1) == FifthTakes(loss, limits, liable)
  {
    hide Sum, Allocation;
    AllocationTotal(shares, limits, loss, 0.1);
  }

  // ---------------------------------------------------------------- charges

  /** What the journals of a waterfall take from one account. */
  lemma ChargeParts(p: Progress, exposure: real, house: Option<MemberId>, defaulter: MemberId, margin: real, fund: real,
                    equity: real, funds: seq<Share>, limits: seq<Share>, a: Account)
    requires RunsDown(p, exposure, house, defaulter, margin, fund, equity, funds, limits)
    ensures Sum(p.payments, PaidFrom(a)) ==
              (if a == Account(defaulter, MarginIm, Available) then Max(0.0, p.steps[0].applied) else 0.0)
              + (if |p.steps| > 1 && a == Account(defaulter, DefaultFund, Available)
                 then Max(0.0, p.steps[1].applied) else 0.0)
              + (if |p.steps| > 2 && house.Some? && a == Account(house.value, CcpEquity, Available)
                 then Max(0.0, p.steps[2].applied) else 0.0)
              + (if |p.steps| > 3 && a.kind == DefaultFund && a.pool == Available
                 then Fraction(Sum(funds, Base()), p.steps[2].remaining, 1.0) * Sum(funds, ShareOf(a.member)) else 0.0)
              + (if |p.steps| > 4 && a.kind == Settlement && a.pool == Available
                 then Fraction(Sum(limits, Base()), p.steps[3].remaining, 0.1) * Sum(limits, ShareOf(a.member))
                 else 0.0)
  {
    hide Sum, Contributions, Fraction, Absorbed, PaidFrom;
    var rows, n := p.steps, |p.steps|;
    var one := Single(Some(defaulter), MarginIm, rows[0].applied);
    var two := if n > 1 then Single(Some(defaulter), DefaultFund, rows[1].applied) else [];
    var three := if n > 2 then Single(house, CcpEquity, rows[2].applied) else [];
    var four := if n > 3 then Contributions(funds, Sum(funds, Base()), rows[2].remaining, 1.0, DefaultFund) else [];
    var five := if n > 4 then Contributions(limits, Sum(limits, Base()), rows[3].remaining, 0.1, Settlement) else [];
    assert p.payments == one + two + three + four + five;
    SumConcat(one + two + three + four, five, PaidFrom(a));
    SumConcat(one + two + three, four, PaidFrom(a));
    SumConcat(one + two, three, PaidFrom(a));
    SumConcat(one, two, PaidFrom(a));
    NothingFrom(a);
    SingleFrom(Some(defaulter), MarginIm, rows[0].applied, a);
    if n > 1 {
      SingleFrom(Some(defaulter), DefaultFund, rows[1].applied, a);
    }
    if n > 2 {
      SingleFrom(house, CcpEquity, rows[2].applied, a);
    }
    if n > 3 {
      ContributionsFrom(funds, Sum(funds, Base()), rows[2].remaining, 1.0, DefaultFund, a);
    }
    if n > 4 {
      ContributionsFrom(limits, Sum(limits, Base()), rows[3].remaining, 0.1, Settlement, a);
    }
  }

  lemma NothingFrom(a: Account)
    ensures Sum([], PaidFrom(a)) == 0.0
  {
  }

  lemma SingleFrom(payer: Option<MemberId>, source: AccountKind, applied: real, a: Account)
    ensures Sum(Single(payer, source, applied), PaidFrom(a))
            == if payer.Some? && a == Account(payer.value, source, Available) then Max(0.0, applied) else 0.0
  {
    hide Sum;
    NothingFrom(a);
    if applied > 0.0 && payer.Some? {
      SingleSum(Payment(payer.value, source, applied), PaidFrom(a));
    }
  }

  /** m is an active member other than the defaulter. */
  predicate Remains(m: Member, defaulter: MemberId) {
    m.status == Active && m.id != defaulter
  }

  /** What one survivor pays, if its accounts are found: from its default fund the fraction of the loss before
      step 4 to all survivors' funds (at most all of it), and from its settlement account the fraction of the loss
      before step 5 to all survivors' limits (at most a tenth) of its limit. (The CCP's own
      settlement account also receives.) */
  lemma SurvivorPays(b: Books, members: seq<Member>, house: Option<MemberId>, defaulter: MemberId, exposure: real,
                     event: nat, m: Member)
    requires UniqueIds(members) && m in members && Remains(m, defaulter)
    ensures var p := Execute(b, members, house, defaulter, exposure, event);
            var c := PayAll(b, house, event, p.payments);
            var fund, settlement := Account(m.id, DefaultFund, Available), Account(m.id, Settlement, Available);
            var funds, limits := Sum(members, SurvivorFund(b, defaulter)), Sum(members, SurvivorLimit(defaulter));
            && (fund in b.accounts ==>
                  Balance(c, fund) == Balance(b, fund)
                                      - (if |p.steps| > 3 && funds > 0.0
                                         then Min(p.steps[2].remaining / funds, 1.0) * Max(0.0, Balance(b, fund))
                                         else 0.0))
            && (settlement in b.accounts && house != Some(m.id) ==>
                  Balance(c, settlement) == Balance(b, settlement)
                                            - (if |p.steps| > 4 && limits > 0.0
                                               then Min(p.steps[3].remaining / limits, 0.1) * Max(0.0, m.creditLimit)
                                               else 0.0))
  {
    hide Balance, MarginPosted, FundShares, LimitShares, Sum, Execute, PayAll, PaidFrom, RunsDown, Fraction;
    var p := Execute(b, members, house, defaulter, exposure, event);
    var margin, fund, equity := MarginPosted(b, defaulter), FundBalance(b, defaulter), EquityBalance(b, house);
    var funds, limits := FundShares(b, members, defaulter), LimitShares(members, defaulter);
    WaterfallRunsDown(b, members, house, defaulter, exposure, event);
    FundTotals(b, members, defaulter, m.id);
    LimitTotals(members, defaulter, m.id);
    OneOfId(members, SurvivorFund(b, defaulter), m);
    OneOfId(members, SurvivorLiability(defaulter), m);
    forall a | a in {Account(m.id, DefaultFund, Available), Account(m.id, Settlement, Available)}
      ensures a in b.accounts && (a.kind == Settlement ==> house != Some(m.id)) ==>
        Balance(PayAll(b, house, event, p.payments), a) == Balance(b, a) - Sum(p.payments, PaidFrom(a))
    {
      PayAllMoves(b, house, event, p.payments, a);
    }
    ChargeParts(p, exposure, house, defaulter, margin, fund, equity, funds, limits,
                Account(m.id, DefaultFund, Available));
    ChargeParts(p, exposure, house, defaulter, margin, fund, equity, funds, limits,
                Account(m.id, Settlement, Available));
    FractionIs(Sum(funds, Base()), if |p.steps| > 3 then p.steps[2].remaining else 0.0, 1.0,
               SurvivorFund(b, defaulter)(m));
    FractionIs(Sum(limits, Base()), if |p.steps| > 4 then p.steps[3].remaining else 0.0, 0.1,
               SurvivorLiability(defaulter)(m));
    assert Account(m.id, DefaultFund, Available) in b.accounts ==>
      SurvivorFund(b, defaulter)(m) == Max(0.0, Balance(b, Account(m.id, DefaultFund, Available)));
    assert SurvivorLiability(defaulter)(m) == Max(0.0, m.creditLimit);
    RunsDownShort(p, exposure, house, defaulter, margin, fund, equity, funds, limits);
  }

  lemma RunsDownShort(p: Progress, exposure: real, house: Option<MemberId>, defaulter: MemberId, margin: real,
                      fund: real, equity: real, funds: seq<Share>, limits: seq<Share>)
    requires RunsDown(p, exposure, house, defaulter, margin, fund, equity, funds, limits)
    ensures 1 <= |p.steps| <= 5
  {
  }

  lemma FractionIs(total: real, loss: real, rate: real, x: real)
    ensures Fraction(total, loss, rate) * x == if total > 0.0 then Min(loss / total, rate) * x else 0.0
  {
  }

  lemma OneOfId(members: seq<Member>, f: Member -> real, m: Member)
    requires UniqueIds(members) && m in members
    ensures Sum(members, OfId(f, m.id)) == f(m)
  {
    forall y | y in members && y != m ensures OfId(f, m.id)(y) == 0.0 {
      var i :| 0 <= i < |members| && members[i] == m;
      var j :| 0 <= j < |members| && members[j] == y;
      assert i < j || j < i;
    }
    SumSelect(members, m, OfId(f, m.id));
  }

  lemma {:induction false} NoneOfId(members: seq<Member>, f: Member -> real, id: MemberId)
    requires forall m | m in members && m.id == id :: f(m) == 0.0
    ensures Sum(members, OfId(f, id)) == 0.0
  {
    forall i | 0 <= i < |members| ensures OfId(f, id)(members[i]) == 0.0 {
      assert members[i] in members;
    }
    SumZero(members, OfId(f, id));
  }

  /** What everybody else pays: the defaulter's AVAILABLE initial margin and default fund accounts and the CCP's
      equity account pay what their steps applied, if it is positive; every account that is neither of these, nor a
      survivor's, nor the one that recoveries are paid into, keeps its balance. */
  lemma OthersPay(b: Books, members: seq<Member>, house: Option<MemberId>, defaulter: MemberId, exposure: real,
                  event: nat, a: Account)
    requires a in b.accounts && (house.Some? ==> a != Account(house.value, Settlement, Available))
    requires a.pool == Available && a.kind in {DefaultFund, Settlement} ==>
               forall m | m in members && m.id == a.member :: !Remains(m, defaulter)
    ensures var p := Execute(b, members, house, defaulter, exposure, event);
            var c := PayAll(b, house, event, p.payments);
            Balance(c, a) == Balance(b, a)
                             - (if a == Account(defaulter, MarginIm, Available) then Max(0.0, p.steps[0].applied)
                                else if a == Account(defaulter, DefaultFund, Available) && |p.steps| > 1
                                then Max(0.0, p.steps[1].applied)
                                else if house.Some? && a == Account(house.value, CcpEquity, Available) && |p.steps| > 2
                                then Max(0.0, p.steps[2].applied) else 0.0)
  {
    hide Balance, MarginPosted, FundShares, LimitShares, Sum, Execute, PayAll, PaidFrom, Fraction, Contributions,
      Absorbed;
    var p := Execute(b, members, house, defaulter, exposure, event);
    var funds, limits := FundShares(b, members, defaulter), LimitShares(members, defaulter);
    WaterfallRunsDown(b, members, house, defaulter, exposure, event);
    PayAllMoves(b, house, event, p.payments, a);
    ChargeParts(p, exposure, house, defaulter, MarginPosted(b, defaulter), FundBalance(b, defaulter),
                EquityBalance(b, house), funds, limits, a);
    if a.pool == Available && a.kind in {DefaultFund, Settlement} {
      FundTotals(b, members, defaulter, a.member);
      LimitTotals(members, defaulter, a.member);
      NoneOfId(members, SurvivorFund(b, defaulter), a.member);
      NoneOfId(members, SurvivorLiability(defaulter), a.member);
    }
  }
}
