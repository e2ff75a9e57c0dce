/** The default waterfall: what each of its five steps takes, from whom, and what the ledger records. */
module Waterfall {
  import opened Options
  import opened Sums
  import opened Ledger
  import opened Registry
  import opened ProRata

  datatype StepKind =
    | DefaulterMargin
    | DefaulterFund
    | HouseEquity
    | SurvivingFund
    | LossAllocation

  /** A row of waterfall_steps. */
  datatype StepRow = StepRow(order: nat, kind: StepKind, available: real, applied: real, remaining: real)

  /** One recovery journal: `amount` taken from an AVAILABLE account of `member`. */
  datatype Payment = Payment(member: MemberId, kind: AccountKind, amount: real)

  /** The working variables of execute_waterfall, and the journals it has posted so far. */
  datatype Progress = Progress(payments: seq<Payment>, steps: seq<StepRow>, remaining: real)

  datatype DefaultStatus = Detected | Resolved | PartiallyResolved

  /** Loss allocation stops at a tenth of the credit limit. */
  const ALLOCATION_CAP := 0.1

  function Source(p: Payment): Account {
    Account(p.member, p.kind, Available)
  }

  function Recovery(house: Option<MemberId>): Option<Account> {
    HouseAccount(house, Settlement)
  }

  // ---------------------------------------------------------------- journals

  /** The entries of one recovery journal. Each side is written only if its account is found. */
  function PaymentLines(accounts: seq<Account>, house: Option<MemberId>, p: Payment): seq<Line> {
    (if Source(p) in accounts then [Credit(Source(p), p.amount)] else []) +
    (if Exists(accounts, Recovery(house)) then [Debit(Recovery(house).value, p.amount)] else [])
  }

  function Pay(b: Books, house: Option<MemberId>, event: nat, p: Payment): Books {
    Post(b, WaterfallStep, OfDefault(event), PaymentLines(b.accounts, house, p))
  }

  function PayAll(b: Books, house: Option<MemberId>, event: nat, ps: seq<Payment>): (after: Books)
    ensures after.accounts == b.accounts
  {
    if ps == [] then b else Pay(PayAll(b, house, event, ps[..|ps| - 1]), house, event, ps[|ps| - 1])
  }

  // ---------------------------------------------------------------- queries

  /** Posted margin: the positive IM and VM balances of every pool. */
  function PositiveMargin(b: Books, m: MemberId): Account -> real {
    (a: Account) =>
      if a.member == m && (a.kind == MarginIm || a.kind == MarginVm) && Balance(b, a) > 0.0
      then Balance(b, a) else 0.0
  }

  function MarginPosted(b: Books, m: MemberId): real {
    Sum(b.accounts, PositiveMargin(b, m))
  }

  function FundOf(m: MemberId): Account {
    Account(m, DefaultFund, Available)
  }

  function FundBalance(b: Books, m: MemberId): real {
    Balance(b, FundOf(m))
  }

  function EquityBalance(b: Books, house: Option<MemberId>): real {
    if house.Some? then Balance(b, Account(house.value, CcpEquity, Available)) else 0.0
  }

  predicate Survives(m: Member, defaulter: MemberId) {
    m.status == Active && m.id != defaulter
  }

  /** Step 4 reads the survivors that hold a positive default fund balance. */
  function FundShares(b: Books, members: seq<Member>, defaulter: MemberId): seq<Share> {
    if members == [] then []
    else
      var rest := FundShares(b, members[..|members| - 1], defaulter);
      var m := members[|members| - 1];
      if Survives(m, defaulter) && FundOf(m.id) in b.accounts && FundBalance(b, m.id) > 0.0
      then rest + [Share(m.id, FundBalance(b, m.id))] else rest
  }

  /** Step 5 reads every survivor with its credit limit, whatever its sign. */
  function LimitShares(members: seq<Member>, defaulter: MemberId): seq<Share> {
    if members == [] then []
    else
      var rest := LimitShares(members[..|members| - 1], defaulter);
      var m := members[|members| - 1];
      if Survives(m, defaulter) then rest + [Share(m.id, m.creditLimit)] else rest
  }

  // ---------------------------------------------------------------- steps

  /** Steps 1 to 3: one payer absorbs what it can. */
  function SingleStep(p: Progress, order: nat, kind: StepKind, payer: Option<MemberId>, source: AccountKind,
                      available: real): Progress
  {
    var applied := Min(available, p.remaining);
    Progress(
      if applied > 0.0 && payer.Some? then p.payments + [Payment(payer.value, source, applied)] else p.payments,
      p.steps + [StepRow(order, kind, available, applied, p.remaining - applied)],
      p.remaining - applied)
  }

  /** The journals of a pro-rata loop: one for every survivor with a positive contribution. */
  function Contributions(shares: seq<Share>, total: real, loss: real, rate: real, source: AccountKind): seq<Payment> {
    if shares == [] then []
    else
      var rest := Contributions(shares[..|shares| - 1], total, loss, rate, source);
      var s := shares[|shares| - 1];
      var amount := Allocation(total, loss, rate)(s);
      if amount > 0.0 then rest + [Payment(s.member, source, amount)] else rest
  }

  /** Steps 4 and 5: the survivors absorb the loss pro rata. */
  function SharedStep(p: Progress, order: nat, kind: StepKind, shares: seq<Share>, source: AccountKind,
                      rate: real): Progress
  {
    var total := Sum(shares, Base());
    var applied := Absorbed(shares, p.remaining, rate);
    Progress(
      p.payments + Contributions(shares, total, p.remaining, rate, source),
      p.steps + [StepRow(order, kind, total, applied, p.remaining - applied)],
      p.remaining - applied)
  }

  /** The books as the running transaction sees them. */
  function Seen(b: Books, house: Option<MemberId>, event: nat, p: Progress): Books {
    PayAll(b, house, event, p.payments)
  }

  function Step1(b: Books, defaulter: MemberId, exposure: real): Progress {
    SingleStep(Progress([], [], exposure), 1, DefaulterMargin, Some(defaulter), MarginIm, MarginPosted(b, defaulter))
  }

  function Step2(b: Books, house: Option<MemberId>, defaulter: MemberId, event: nat, p: Progress): Progress {
    if p.remaining > 0.0 then
      SingleStep(p, 2, DefaulterFund, Some(defaulter), DefaultFund, FundBalance(Seen(b, house, event, p), defaulter))
    else p
  }

  function Step3(b: Books, house: Option<MemberId>, event: nat, p: Progress): Progress {
    if p.remaining > 0.0 then
      SingleStep(p, 3, HouseEquity, house, CcpEquity, EquityBalance(Seen(b, house, event, p), house))
    else p
  }

  function Step4(b: Books, members: seq<Member>, house: Option<MemberId>, defaulter: MemberId, event: nat,
                 p: Progress): Progress
  {
    if p.remaining > 0.0 then
      SharedStep(p, 4, SurvivingFund, FundShares(Seen(b, house, event, p), members, defaulter), DefaultFund, 1.0)
    else p
  }

  function Step5(members: seq<Member>, defaulter: MemberId, p: Progress): Progress {
    if p.remaining > 0.0 then
      SharedStep(p, 5, LossAllocation, LimitShares(members, defaulter), Settlement, ALLOCATION_CAP)
    else p
  }

  /** execute_waterfall, from the books and members it finds to the journals and rows it writes. */
  function Execute(b: Books, members: seq<Member>, house: Option<MemberId>, defaulter: MemberId, exposure: real,
                   event: nat): Progress
  {
    var p1 := Step1(b, defaulter, exposure);
    var p2 := Step2(b, house, defaulter, event, p1);
    var p3 := Step3(b, house, event, p2);
    var p4 := Step4(b, members, house, defaulter, event, p3);
    Step5(members, defaulter, p4)
  }

  function StatusOf(p: Progress): DefaultStatus {
    if p.remaining == 0.0 then Resolved else PartiallyResolved
  }

  // ---------------------------------------------------------------- ledger effect

  function PaidFrom(a: Account): Payment -> real {
    (p: Payment) => if Source(p) == a then p.amount else 0.0
  }

  function Amount(): Payment -> real {
    (p: Payment) => p.amount
  }

  /** What a list of recovery journals does to every balance: each found source falls by what was
      taken from it, and the CCP's settlement account, if found, rises by everything. */
  lemma {:induction false} PayAllMoves(b: Books, house: Option<MemberId>, event: nat, ps: seq<Payment>, a: Account)
    ensures Balance(PayAll(b, house, event, ps), a)
            == Balance(b, a)
               - (if a in b.accounts then Sum(ps, PaidFrom(a)) else 0.0)
               + (if Exists(b.accounts, Recovery(house)) && Recovery(house).value == a then Sum(ps, Amount()) else 0.0)
  {
    if ps != [] {
      var ps0, p := ps[..|ps| - 1], ps[|ps| - 1];
      PayAllMoves(b, house, event, ps0, a);
      PostMoves(PayAll(b, house, event, ps0), WaterfallStep, OfDefault(event), PaymentLines(b.accounts, house, p), a);
      PaymentNet(b.accounts, house, p, a);
    }
  }

  lemma PaymentNet(accounts: seq<Account>, house: Option<MemberId>, p: Payment, a: Account)
    ensures Sum(PaymentLines(accounts, house, p), LineNet(a))
            == (if Exists(accounts, Recovery(house)) && Recovery(house).value == a then p.amount else 0.0)
               - (if a in accounts then PaidFrom(a)(p) else 0.0)
  {
    var credits := if Source(p) in accounts then [Credit(Source(p), p.amount)] else [];
    var debits := if Exists(accounts, Recovery(house)) then [Debit(Recovery(house).value, p.amount)] else [];
    SumConcat(credits, debits, LineNet(a));
    SingleSum(Credit(Source(p), p.amount), LineNet(a));
    if Exists(accounts, Recovery(house)) {
      SingleSum(Debit(Recovery(house).value, p.amount), LineNet(a));
    }
  }

  /** No journal of ps takes from a, and a is not the kind of account that recoveries are paid into. */
  ghost predicate Untouched(ps: seq<Payment>, a: Account) {
    a.kind != Settlement && forall p | p in ps :: Source(p) != a
  }

  lemma UntouchedBalance(b: Books, house: Option<MemberId>, event: nat, ps: seq<Payment>, a: Account)
    requires Untouched(ps, a)
    ensures Balance(PayAll(b, house, event, ps), a) == Balance(b, a)
  {
    PayAllMoves(b, house, event, ps, a);
    forall i | 0 <= i < |ps| ensures PaidFrom(a)(ps[i]) == 0.0 {
      assert ps[i] in ps;
    }
    SumZero(ps, PaidFrom(a));
  }

  lemma {:induction false} FundSharesFrame(b: Books, c: Books, members: seq<Member>, defaulter: MemberId)
    requires b.accounts == c.accounts
    requires forall m: MemberId | m != defaulter :: FundBalance(b, m) == FundBalance(c, m)
    ensures FundShares(b, members, defaulter) == FundShares(c, members, defaulter)
  {
    if members != [] {
      FundSharesFrame(b, c, members[..|members| - 1], defaulter);
    }
  }

  lemma {:induction false} FundSharesPositive(b: Books, members: seq<Member>, defaulter: MemberId)
    ensures NonNegative(FundShares(b, members, defaulter))
  {
    if members != [] {
      FundSharesPositive(b, members[..|members| - 1], defaulter);
    }
  }

  /** The journals of the first k single-payer steps. */
  ghost predicate SinglePayers(ps: seq<Payment>, house: Option<MemberId>, defaulter: MemberId, k: nat) {
    forall p | p in ps ::
      || (k >= 1 && p.member == defaulter && p.kind == MarginIm)
      || (k >= 2 && p.member == defaulter && p.kind == DefaultFund)
      || (k >= 3 && house.Some? && p.member == house.value && p.kind == CcpEquity)
  }

  lemma DefaulterFundUnread(b: Books, house: Option<MemberId>, defaulter: MemberId, event: nat, ps: seq<Payment>)
    requires SinglePayers(ps, house, defaulter, 1)
    ensures FundBalance(PayAll(b, house, event, ps), defaulter) == FundBalance(b, defaulter)
  {
    UntouchedBalance(b, house, event, ps, FundOf(defaulter));
  }

  lemma EquityUnread(b: Books, house: Option<MemberId>, defaulter: MemberId, event: nat, ps: seq<Payment>)
    requires SinglePayers(ps, house, defaulter, 2)
    ensures EquityBalance(PayAll(b, house, event, ps), house) == EquityBalance(b, house)
  {
    if house.Some? {
      UntouchedBalance(b, house, event, ps, Account(house.value, CcpEquity, Available));
    }
  }

  lemma SurvivorFundsUnread(b: Books, members: seq<Member>, house: Option<MemberId>, defaulter: MemberId, event: nat,
                            ps: seq<Payment>)
    requires SinglePayers(ps, house, defaulter, 3)
    ensures FundShares(PayAll(b, house, event, ps), members, defaulter) == FundShares(b, members, defaulter)
  {
    var c := PayAll(b, house, event, ps);
    forall m: MemberId | m != defaulter ensures FundBalance(b, m) == FundBalance(c, m) {
      UntouchedBalance(b, house, event, ps, FundOf(m));
    }
    FundSharesFrame(b, c, members, defaulter);
  }

  // ---------------------------------------------------------------- closed form

  /** What the first 1, 2, ... 5 layers of the waterfall can absorb, from the books before the default. */
  function Covers(b: Books, members: seq<Member>, house: Option<MemberId>, defaulter: MemberId): seq<real> {
    var margin := MarginPosted(b, defaulter);
    var fund := margin + FundBalance(b, defaulter);
    var equity := fund + EquityBalance(b, house);
    var survivors := equity + Sum(FundShares(b, members, defaulter), Base());
    var all := survivors + Capacity(LimitShares(members, defaulter), ALLOCATION_CAP);
    [margin, fund, equity, survivors, all]
  }

  /** After step k the loss left is what the first k layers do not cover; the steps executed are the
      shortest prefix of the n layers that covers the exposure, or all n of them. */
  ghost predicate Follows(p: Progress, exposure: real, covers: seq<real>, n: nat)
    requires n <= |covers|
  {
    && 1 <= |p.steps| <= n
    && (forall i | 0 <= i < |p.steps| ::
          p.steps[i].order == i + 1 && p.steps[i].remaining == Max(0.0, exposure - covers[i]))
    && (forall i | 0 <= i < |p.steps| - 1 :: exposure > covers[i])
    && (|p.steps| == n || exposure <= covers[|p.steps| - 1])
    && p.remaining == p.steps[|p.steps| - 1].remaining
  }

  /** One more layer of a non-negative amount. */
  lemma NextLayer(p: Progress, q: Progress, exposure: real, covers: seq<real>, n: nat)
    requires n + 1 <= |covers| && Follows(p, exposure, covers, n)
    requires p.remaining <= 0.0 ==> q == p
    requires p.remaining > 0.0 ==>
      && |q.steps| == |p.steps| + 1 && q.steps[..|p.steps|] == p.steps
      && q.steps[|p.steps|].order == |p.steps| + 1
      && q.remaining == q.steps[|p.steps|].remaining == Max(0.0, p.remaining - (covers[n] - covers[n - 1]))
    ensures Follows(q, exposure, covers, n + 1)
  {
    if p.remaining > 0.0 {
      forall i | 0 <= i < |q.steps|
        ensures q.steps[i].order == i + 1 && q.steps[i].remaining == Max(0.0, exposure - covers[i])
      {
        if i < |p.steps| {
          assert q.steps[i] == q.steps[..|p.steps|][i];
        }
      }
    }
  }

  lemma MarginNonNegative(b: Books, m: MemberId)
    ensures MarginPosted(b, m) >= 0.0
  {
    SumNonNegative(b.accounts, PositiveMargin(b, m));
  }

  lemma SharedLayer(p: Progress, order: nat, kind: StepKind, shares: seq<Share>, source: AccountKind, rate: real,
                    layer: real)
    requires NonNegative(shares) && rate > 0.0 && p.remaining > 0.0
    requires layer == rate * Sum(shares, Base())
    ensures var q := SharedStep(p, order, kind, shares, source, rate);
            && q.remaining == Max(0.0, p.remaining - layer)
            && |q.steps| == |p.steps| + 1 && q.steps[..|p.steps|] == p.steps
            && q.steps[|p.steps|].order == order && q.steps[|p.steps|].remaining == q.remaining
  {
    hide Absorbed, Sum;
    ProRataIdentity(shares, p.remaining, rate);
    assert Absorbed(shares, p.remaining, rate) == Min(p.remaining, layer);
  }

  lemma ThreePayers(b: Books, house: Option<MemberId>, defaulter: MemberId, exposure: real, event: nat)
    ensures var p1 := Step1(b, defaulter, exposure);
            var p2 := Step2(b, house, defaulter, event, p1);
            var p3 := Step3(b, house, event, p2);
            && SinglePayers(p1.payments, house, defaulter, 1)
            && SinglePayers(p2.payments, house, defaulter, 2)
            && SinglePayers(p3.payments, house, defaulter, 3)
  {
    hide Balance, MarginPosted, FundBalance, EquityBalance, Seen;
  }

  lemma FirstLayer(b: Books, members: seq<Member>, house: Option<MemberId>, defaulter: MemberId, exposure: real)
    ensures Follows(Step1(b, defaulter, exposure), exposure, Covers(b, members, house, defaulter), 1)
  {
    hide Balance, MarginPosted, FundBalance, EquityBalance, FundShares, LimitShares, Sum;
  }

  lemma AfterThreeSteps(b: Books, members: seq<Member>, house: Option<MemberId>, defaulter: MemberId, exposure: real,
                        event: nat)
    ensures var p1 := Step1(b, defaulter, exposure);
            var p2 := Step2(b, house, defaulter, event, p1);
            var p3 := Step3(b, house, event, p2);
            Follows(p3, exposure, Covers(b, members, house, defaulter), 3)
  {
    hide Balance, MarginPosted, FundBalance, EquityBalance, FundShares, LimitShares, Sum, PayAll, Follows, SinglePayers;
    var covers := Covers(b, members, house, defaulter);
    ThreePayers(b, house, defaulter, exposure, event);
    FirstLayer(b, members, house, defaulter, exposure);
    var p1 := Step1(b, defaulter, exposure);
    DefaulterFundUnread(b, house, defaulter, event, p1.payments);
    var p2 := Step2(b, house, defaulter, event, p1);
    NextLayer(p1, p2, exposure, covers, 1);
    EquityUnread(b, house, defaulter, event, p2.payments);
    NextLayer(p2, Step3(b, house, event, p2), exposure, covers, 2);
  }

  lemma AfterFourSteps(b: Books, members: seq<Member>, house: Option<MemberId>, defaulter: MemberId, exposure: real,
                       event: nat)
    ensures var p3 := Step3(b, house, event, Step2(b, house, defaulter, event, Step1(b, defaulter, exposure)));
            Follows(Step4(b, members, house, defaulter, event, p3), exposure, Covers(b, members, house, defaulter), 4)
  {
    hide Balance, MarginPosted, FundShares, LimitShares, Sum, PayAll, SharedStep, Follows, Capacity;
    var covers := Covers(b, members, house, defaulter);
    AfterThreeSteps(b, members, house, defaulter, exposure, event);
    ThreePayers(b, house, defaulter, exposure, event);
    var p3 := Step3(b, house, event, Step2(b, house, defaulter, event, Step1(b, defaulter, exposure)));
    SurvivorFundsUnread(b, members, house, defaulter, event, p3.payments);
    FundSharesPositive(b, members, defaulter);
    if p3.remaining > 0.0 {
      SharedLayer(p3, 4, SurvivingFund, FundShares(b, members, defaulter), DefaultFund, 1.0, covers[3] - covers[2]);
    }
    NextLayer(p3, Step4(b, members, house, defaulter, event, p3), exposure, covers, 3);
  }

  lemma AllStepsTaken(p: Progress, exposure: real, covers: seq<real>, n: nat)
    requires n <= |covers| && Follows(p, exposure, covers, n)
    ensures p.remaining > 0.0 ==> |p.steps| == n
  {
    assert p.steps[|p.steps| - 1].remaining == Max(0.0, exposure - covers[|p.steps| - 1]);
  }

  /** The waterfall step by step, for fund and equity balances of any sign: the losses recorded follow
      the layers as the books held them before the default. */
  lemma StepsFollowLayers(b: Books, members: seq<Member>, house: Option<MemberId>, defaulter: MemberId, exposure: real,
                          event: nat)
    requires NonNegative(LimitShares(members, defaulter))
    ensures Follows(Execute(b, members, house, defaulter, exposure, event), exposure,
                    Covers(b, members, house, defaulter), 5)
  {
    hide Balance, MarginPosted, FundShares, LimitShares, Sum, PayAll, SharedStep, Follows, Step1, Step2, Step3, Step4;
    var covers := Covers(b, members, house, defaulter);
    var limits := LimitShares(members, defaulter);
    AfterFourSteps(b, members, house, defaulter, exposure, event);
    var p3 := Step3(b, house, event, Step2(b, house, defaulter, event, Step1(b, defaulter, exposure)));
    var p4 := Step4(b, members, house, defaulter, event, p3);
    SumPointwise(limits, Base(), PositiveBase());
    AllStepsTaken(p4, exposure, covers, 4);
    if p4.remaining > 0.0 {
      SharedLayer(p4, 5, LossAllocation, limits, Settlement, ALLOCATION_CAP, covers[4] - covers[3]);
    }
    NextLayer(p4, Step5(members, defaulter, p4), exposure, covers, 4);
  }

  /** The survivors' layers are never negative. */
  lemma SurvivorLayers(b: Books, members: seq<Member>, house: Option<MemberId>, defaulter: MemberId)
    ensures var covers := Covers(b, members, house, defaulter);
            && |covers| == 5 && covers[2] <= covers[3] <= covers[4]
            && covers[4] == covers[3] + Capacity(LimitShares(members, defaulter), ALLOCATION_CAP)
  {
    hide FundShares, LimitShares, Balance, MarginPosted;
    FundSharesPositive(b, members, defaulter);
    SumNonNegative(FundShares(b, members, defaulter), Base());
    SumNonNegative(LimitShares(members, defaulter), PositiveBase());
  }

  /** The loss left is the part of the exposure that the five layers together do not cover. */
  ghost predicate InClosedForm(b: Books, members: seq<Member>, house: Option<MemberId>, defaulter: MemberId,
                               exposure: real, event: nat)
  {
    Execute(b, members, house, defaulter, exposure, event).remaining
    == Max(0.0, exposure - Covers(b, members, house, defaulter)[4])
  }

  /** The highest of the first four layers: an exposure above it reaches step 5. */
  function Threshold(covers: seq<real>): real
    requires |covers| >= 4
  {
    Max(Max(covers[0], covers[1]), Max(covers[2], covers[3]))
  }

  /** When one exposure meets the closed form, in terms of the layers and credit limits before the default. */
  predicate LayersDecide(covers: seq<real>, limits: seq<Share>, exposure: real)
    requires |covers| == 5
  {
    if exposure <= Threshold(covers) then exposure <= covers[4]
    else
      || Sum(limits, Base()) == Sum(limits, PositiveBase())
      || Sum(limits, PositiveBase()) == 0.0
      || (Sum(limits, Base()) > 0.0 && exposure >= covers[4])
  }

  lemma FifthStepDecides(b: Books, members: seq<Member>, house: Option<MemberId>, defaulter: MemberId, exposure: real,
                         event: nat)
    ensures var covers := Covers(b, members, house, defaulter);
            var limits := LimitShares(members, defaulter);
            var loss := exposure - covers[3];
            && |covers| == 5
            && (InClosedForm(b, members, house, defaulter, exposure, event)
                <==> if exposure <= Threshold(covers) then exposure <= covers[4]
                     else Absorbed(limits, loss, ALLOCATION_CAP) == Min(loss, Capacity(limits, ALLOCATION_CAP)))
  {
    hide Balance, MarginPosted, FundShares, LimitShares, Sum, PayAll, Step1, Step2, Step3, Step4, Absorbed, Capacity,
      Covers, Contributions;
    var covers := Covers(b, members, house, defaulter);
    AfterFourSteps(b, members, house, defaulter, exposure, event);
    SurvivorLayers(b, members, house, defaulter);
    var p3 := Step3(b, house, event, Step2(b, house, defaulter, event, Step1(b, defaulter, exposure)));
    var p4 := Step4(b, members, house, defaulter, event, p3);
    var n := |p4.steps|;
    assert p4.steps[n - 1].remaining == Max(0.0, exposure - covers[n - 1]);
    assert exposure <= covers[0] ==> n == 1;
    assert exposure <= covers[1] ==> n <= 2;
    assert exposure <= covers[2] ==> n <= 3;
  }

  /** One exposure at a time, decided by what can be read before the default. Up to the highest of the first four
      layers the loss is gone by step 4, which is right if all five layers together cover it. Above it, step 5
      is right unless negative credit limits distort it: it is if there are none, if nobody can pay, or if the
      limits still add up to something positive and the exposure exhausts every cap. */
  lemma ClosedFormAt(b: Books, members: seq<Member>, house: Option<MemberId>, defaulter: MemberId, exposure: real,
                     event: nat)
    ensures |Covers(b, members, house, defaulter)| == 5
    ensures InClosedForm(b, members, house, defaulter, exposure, event)
            <==> LayersDecide(Covers(b, members, house, defaulter), LimitShares(members, defaulter), exposure)
  {
    hide InClosedForm, Covers, Absorbed, LimitShares, Sum, Capacity;
    var covers, limits := Covers(b, members, house, defaulter), LimitShares(members, defaulter);
    FifthStepDecides(b, members, house, defaulter, exposure, event);
    SurvivorLayers(b, members, house, defaulter);
    if exposure > Threshold(covers) {
      ProRataExact(limits, exposure - covers[3], ALLOCATION_CAP);
    }
  }

  /** The closed form holds for every exposure exactly when neither the margin alone nor the margin with the
      defaulter's fund exceeds all five layers together (a negative equity balance must not outweigh what the
      survivors contribute), and no negative credit limit distorts the fifth: the limits add up to the
      positive ones, or nobody can pay, or an exposure that reaches step 5 exhausts every cap. */
  lemma ClosedFormExact(b: Books, members: seq<Member>, house: Option<MemberId>, defaulter: MemberId, event: nat)
    ensures (forall exposure :: InClosedForm(b, members, house, defaulter, exposure, event))
            <==> (var covers := Covers(b, members, house, defaulter);
                  var limits := LimitShares(members, defaulter);
                  && covers[0] <= covers[4] && covers[1] <= covers[4]
                  && (|| Sum(limits, Base()) == Sum(limits, PositiveBase())
                      || Sum(limits, PositiveBase()) == 0.0
                      || (Sum(limits, Base()) > 0.0 && covers[4] == Max(covers[0], covers[1]))))
  {
    hide InClosedForm, Covers, Absorbed, LimitShares, Sum;
    var covers, limits := Covers(b, members, house, defaulter), LimitShares(members, defaulter);
    SurvivorLayers(b, members, house, defaulter);
    SumNonNegative(limits, PositiveBase());
    forall exposure
      ensures InClosedForm(b, members, house, defaulter, exposure, event) <==> LayersDecide(covers, limits, exposure)
    {
      ClosedFormAt(b, members, house, defaulter, exposure, event);
    }
    // Three exposures tell the cases apart.
    var top := Threshold(covers);
    var at, above, between := InClosedForm(b, members, house, defaulter, top, event),
      InClosedForm(b, members, house, defaulter, top + 1.0, event),
      InClosedForm(b, members, house, defaulter, (top + covers[4]) / 2.0, event);
  }

  lemma LastStepDecides(covers: seq<real>, exposure: real, p: Progress)
    requires |covers| == 5 && covers[0] <= covers[4] && covers[1] <= covers[4] && covers[2] <= covers[3] <= covers[4]
    requires Follows(p, exposure, covers, 5)
    ensures p.remaining == Max(0.0, exposure - covers[4])
  {
    var n := |p.steps|;
    assert p.steps[n - 1].remaining == Max(0.0, exposure - covers[n - 1]);
    assert covers[n - 1] <= covers[4];
  }

  /** With no negative layer: the closed form, its status, and a loss that never grows. */
  lemma ClosedForm(b: Books, members: seq<Member>, house: Option<MemberId>, defaulter: MemberId, exposure: real,
                   event: nat)
    requires FundBalance(b, defaulter) >= 0.0 && EquityBalance(b, house) >= 0.0
    requires NonNegative(LimitShares(members, defaulter))
    ensures var p := Execute(b, members, house, defaulter, exposure, event);
            var covers := Covers(b, members, house, defaulter);
            && Follows(p, exposure, covers, 5)
            && p.remaining == Max(0.0, exposure - covers[4])
            && (StatusOf(p) == Resolved <==> exposure <= covers[4])
            && forall i :: 0 < i < |p.steps| ==> p.steps[i].remaining <= p.steps[i - 1].remaining
  {
    hide Execute;
    var covers := Covers(b, members, house, defaulter);
    StepsFollowLayers(b, members, house, defaulter, exposure, event);
    SurvivorLayers(b, members, house, defaulter);
    LastStepDecides(covers, exposure, Execute(b, members, house, defaulter, exposure, event));
  }

  // ---------------------------------------------------------------- conservation

  function Applied(): StepRow -> real {
    (r: StepRow) => r.applied
  }

  function PositiveApplied(): StepRow -> real {
    (r: StepRow) => Max(0.0, r.applied)
  }

  /** Row i takes what it applied off the loss that the row before it left. */
  predicate RowContinues(steps: seq<StepRow>, exposure: real, i: nat)
    requires i < |steps|
  {
    steps[i].remaining == (if i == 0 then exposure else steps[i - 1].remaining) - steps[i].applied
  }

  ghost predicate Telescopes(p: Progress, exposure: real) {
    && (forall i | 0 <= i < |p.steps| :: RowContinues(p.steps, exposure, i))
    && p.remaining == if p.steps == [] then exposure else p.steps[|p.steps| - 1].remaining
  }

  /** The rows account for the whole exposure and the journals for everything the rows applied. */
  ghost predicate Accounted(p: Progress, exposure: real) {
    && Telescopes(p, exposure)
    && Sum(p.steps, Applied()) + p.remaining == exposure
    && Sum(p.payments, Amount()) == Sum(p.steps, PositiveApplied())
    && forall x | x in p.payments :: x.amount > 0.0
  }

  lemma NextRow(p: Progress, q: Progress, row: StepRow, exposure: real)
    requires Telescopes(p, exposure) && q.steps == p.steps + [row]
    requires q.remaining == row.remaining == p.remaining - row.applied
    ensures Telescopes(q, exposure)
  {
    forall i | 0 <= i < |q.steps| ensures RowContinues(q.steps, exposure, i) {
      assert i < |p.steps| ==> q.steps[i] == p.steps[i] && RowContinues(p.steps, exposure, i);
      assert i > 0 ==> q.steps[i - 1] == p.steps[i - 1];
    }
  }

  lemma SingleAccounted(p: Progress, order: nat, kind: StepKind, payer: Option<MemberId>, source: AccountKind,
                        available: real, exposure: real)
    requires Accounted(p, exposure)
    requires payer.None? ==> available <= 0.0
    ensures Accounted(SingleStep(p, order, kind, payer, source, available), exposure)
  {
    hide Telescopes, Sum;
    var q := SingleStep(p, order, kind, payer, source, available);
    NextRow(p, q, q.steps[|p.steps|], exposure);
    SumSnoc(p.steps, q.steps[|p.steps|], Applied());
    SumSnoc(p.steps, q.steps[|p.steps|], PositiveApplied());
    if payer.Some? {
      SumSnoc(p.payments, Payment(payer.value, source, Min(available, p.remaining)), Amount());
    }
  }

  lemma {:induction false} ContributionsTotal(shares: seq<Share>, total: real, loss: real, rate: real,
                                              source: AccountKind)
    ensures Sum(Contributions(shares, total, loss, rate, source), Amount())
            == Sum(shares, Allocation(total, loss, rate))
    ensures forall x | x in Contributions(shares, total, loss, rate, source) :: x.amount > 0.0 && x.kind == source
    ensures Sum(shares, Allocation(total, loss, rate)) >= 0.0
  {
    hide Quota, Cap;
    if shares != [] {
      ContributionsTotal(shares[..|shares| - 1], total, loss, rate, source);
      var rest := Contributions(shares[..|shares| - 1], total, loss, rate, source);
      var s := shares[|shares| - 1];
      SumSnoc(rest, Payment(s.member, source, Allocation(total, loss, rate)(s)), Amount());
    }
  }

  lemma SharedAccounted(p: Progress, order: nat, kind: StepKind, shares: seq<Share>, source: AccountKind, rate: real,
                        exposure: real)
    requires Accounted(p, exposure)
    ensures Accounted(SharedStep(p, order, kind, shares, source, rate), exposure)
  {
    hide Allocation, Telescopes, Sum;
    var total := Sum(shares, Base());
    var q := SharedStep(p, order, kind, shares, source, rate);
    NextRow(p, q, q.steps[|p.steps|], exposure);
    ContributionsTotal(shares, total, p.remaining, rate, source);
    SumSnoc(p.steps, q.steps[|p.steps|], Applied());
    SumSnoc(p.steps, q.steps[|p.steps|], PositiveApplied());
    SumConcat(p.payments, Contributions(shares, total, p.remaining, rate, source), Amount());
  }

  lemma NothingAccounted(exposure: real)
    ensures Accounted(Progress([], [], exposure), exposure)
  {
  }

  /** Conservation, with no precondition: exposure = sum of applied + remaining, and the journals
      posted add up to what the steps applied. */
  lemma WaterfallConserves(b: Books, members: seq<Member>, house: Option<MemberId>, defaulter: MemberId, exposure: real,
                           event: nat)
    ensures Accounted(Execute(b, members, house, defaulter, exposure, event), exposure)
  {
    hide MarginPosted, FundShares, LimitShares, FundBalance, Balance, PayAll, SharedStep, SingleStep, Accounted, Sum;
    NothingAccounted(exposure);
    SingleAccounted(Progress([], [], exposure), 1, DefaulterMargin, Some(defaulter), MarginIm,
                    MarginPosted(b, defaulter), exposure);
    var p1 := Step1(b, defaulter, exposure);
    SingleAccounted(p1, 2, DefaulterFund, Some(defaulter), DefaultFund,
                    FundBalance(Seen(b, house, event, p1), defaulter), exposure);
    var p2 := Step2(b, house, defaulter, event, p1);
    SingleAccounted(p2, 3, HouseEquity, house, CcpEquity, EquityBalance(Seen(b, house, event, p2), house), exposure);
    var p3 := Step3(b, house, event, p2);
    SharedAccounted(p3, 4, SurvivingFund, FundShares(Seen(b, house, event, p3), members, defaulter), DefaultFund, 1.0,
                    exposure);
    var p4 := Step4(b, members, house, defaulter, event, p3);
    SharedAccounted(p4, 5, LossAllocation, LimitShares(members, defaulter), Settlement, ALLOCATION_CAP, exposure);
  }

  // ---------------------------------------------------------------- commit

  /** The source account of p is found exactly when the CCP's recovery account is. */
  predicate TwoSided(accounts: seq<Account>, house: Option<MemberId>, p: Payment) {
    Source(p) in accounts <==> Exists(accounts, Recovery(house))
  }

  lemma PaymentLinesBalance(accounts: seq<Account>, house: Option<MemberId>, p: Payment)
    requires p.amount > 0.0
    ensures var lines := PaymentLines(accounts, house, p);
            && (Sum(lines, LineDebit()) == Sum(lines, LineCredit()) <==> TwoSided(accounts, house, p))
            && forall l | l in lines :: l.account in accounts && OneSided(l.debit, l.credit)
  {
    var credits := if Source(p) in accounts then [Credit(Source(p), p.amount)] else [];
    var debits := if Exists(accounts, Recovery(house)) then [Debit(Recovery(house).value, p.amount)] else [];
    SumConcat(credits, debits, LineDebit());
    SumConcat(credits, debits, LineCredit());
    SingleSum(Credit(Source(p), p.amount), LineDebit());
    SingleSum(Credit(Source(p), p.amount), LineCredit());
    if Exists(accounts, Recovery(house)) {
      SingleSum(Debit(Recovery(house).value, p.amount), LineDebit());
      SingleSum(Debit(Recovery(house).value, p.amount), LineCredit());
    }
  }

  lemma {:induction false} PayAllBalances(b: Books, house: Option<MemberId>, event: nat, ps: seq<Payment>)
    requires Sound(b)
    requires forall p | p in ps :: p.amount > 0.0
    ensures var c := PayAll(b, house, event, ps);
            && WellFormed(c) && AllConfirmed(c) && Extends(b, c)
            && (Balanced(c) <==> forall p | p in ps :: TwoSided(b.accounts, house, p))
  {
    hide Post, Sum, Balanced, WellFormed, AllConfirmed, PaymentLines, Extends;
    if ps == [] {
      ExtendsReflexive(b);
    } else {
      var ps0, p := ps[..|ps| - 1], ps[|ps| - 1];
      assert ps == ps0 + [p];
      PayAllBalances(b, house, event, ps0);
      var c := PayAll(b, house, event, ps0);
      PaymentLinesBalance(b.accounts, house, p);
      PostBalances(c, WaterfallStep, OfDefault(event), PaymentLines(b.accounts, house, p));
      PostExtends(c, WaterfallStep, OfDefault(event), PaymentLines(b.accounts, house, p));
      ExtendsTransitive(b, c, PayAll(b, house, event, ps));
    }
  }

  /** The commit trigger's verdict on a waterfall: it aborts, changing nothing, exactly when some
      journal found only one of its two accounts. */
  lemma WaterfallCommit(b: Books, house: Option<MemberId>, event: nat, ps: seq<Payment>)
    requires Sound(b)
    requires forall p | p in ps :: p.amount > 0.0
    ensures Sound(Commit(b, PayAll(b, house, event, ps)))
    ensures if forall p | p in ps :: TwoSided(b.accounts, house, p)
            then Commit(b, PayAll(b, house, event, ps)) == PayAll(b, house, event, ps)
            else Commit(b, PayAll(b, house, event, ps)) == b
  {
    var c := PayAll(b, house, event, ps);
    PayAllBalances(b, house, event, ps);
    TriggerExact(b, c);
  }

  /** When every account is found, the CCP's settlement balance rises by exactly the total recovered
      (unless the CCP itself is charged there) and every source falls by what was taken from it. */
  lemma RecoveryReachesHouse(b: Books, house: MemberId, event: nat, ps: seq<Payment>, a: Account)
    requires Account(house, Settlement, Available) in b.accounts
    requires forall p | p in ps :: Source(p) in b.accounts
    ensures var c := PayAll(b, Some(house), event, ps);
            var recovery := Account(house, Settlement, Available);
            && Balance(c, recovery) == Balance(b, recovery) + Sum(ps, Amount()) - Sum(ps, PaidFrom(recovery))
            && (a != recovery ==> Balance(c, a) == Balance(b, a) - Sum(ps, PaidFrom(a)))
  {
    PayAllMoves(b, Some(house), event, ps, Account(house, Settlement, Available));
    PayAllMoves(b, Some(house), event, ps, a);
    if a !in b.accounts {
      forall i | 0 <= i < |ps| ensures PaidFrom(a)(ps[i]) == 0.0 {
        assert ps[i] in ps;
      }
      SumZero(ps, PaidFrom(a));
    }
  }

  /** Where each journal of a waterfall takes its amount from. */
  ghost predicate Payers(ps: seq<Payment>, members: seq<Member>, house: Option<MemberId>, defaulter: MemberId,
                         accounts: seq<Account>)
  {
    forall p | p in ps ::
      || (p.member == defaulter && p.kind in {MarginIm, DefaultFund})
      || (house.Some? && p.member == house.value && p.kind == CcpEquity)
      || (p.kind == DefaultFund && IsSurvivor(members, defaulter, p.member) && Source(p) in accounts)
      || (p.kind == Settlement && IsLiable(members, defaulter, p.member))
  }

  predicate IsSurvivor(members: seq<Member>, defaulter: MemberId, id: MemberId) {
    exists m :: m in members && m.id == id && Survives(m, defaulter)
  }

  /** A survivor with a credit limit to measure its share by. */
  predicate IsLiable(members: seq<Member>, defaulter: MemberId, id: MemberId) {
    exists m :: m in members && m.id == id && Survives(m, defaulter) && m.creditLimit > 0.0
  }

  lemma {:induction false} ShareHolders(b: Books, members: seq<Member>, defaulter: MemberId)
    ensures forall s | s in FundShares(b, members, defaulter) ::
              IsSurvivor(members, defaulter, s.member) && FundOf(s.member) in b.accounts
    ensures forall s | s in LimitShares(members, defaulter) && s.base > 0.0 :: IsLiable(members, defaulter, s.member)
  {
    hide FundBalance;
    if members != [] {
      var rest, m := members[..|members| - 1], members[|members| - 1];
      ShareHolders(b, rest, defaulter);
      assert m in members && forall x | x in rest :: x in members;
      assert forall id | IsSurvivor(rest, defaulter, id) :: IsSurvivor(members, defaulter, id);
      assert forall id | IsLiable(rest, defaulter, id) :: IsLiable(members, defaulter, id);
      assert Survives(m, defaulter) ==> IsSurvivor(members, defaulter, m.id);
      assert Survives(m, defaulter) && m.creditLimit > 0.0 ==> IsLiable(members, defaulter, m.id);
    }
  }

  lemma {:induction false} Contributors(shares: seq<Share>, total: real, loss: real, rate: real, source: AccountKind)
    ensures forall x | x in Contributions(shares, total, loss, rate, source) ::
              x.kind == source && exists s :: s in shares && s.member == x.member && s.base > 0.0
  {
    hide Quota, Cap;
    if shares != [] {
      var rest, s := shares[..|shares| - 1], shares[|shares| - 1];
      Contributors(rest, total, loss, rate, source);
      assert s in shares && forall x | x in rest :: x in shares;
    }
  }

  lemma ExecutePayers(b: Books, members: seq<Member>, house: Option<MemberId>, defaulter: MemberId, exposure: real,
                      event: nat)
    ensures Payers(Execute(b, members, house, defaulter, exposure, event).payments, members, house, defaulter,
                   b.accounts)
  {
    hide MarginPosted, EquityBalance, FundBalance, FundShares, LimitShares, PayAll, Absorbed, Contributions, Sum,
      Step1, Step2, Step3, IsSurvivor, IsLiable;
    var p3 := Step3(b, house, event, Step2(b, house, defaulter, event, Step1(b, defaulter, exposure)));
    var p4 := Step4(b, members, house, defaulter, event, p3);
    ThreePayers(b, house, defaulter, exposure, event);
    var funds, limits := FundShares(Seen(b, house, event, p3), members, defaulter), LimitShares(members, defaulter);
    ShareHolders(Seen(b, house, event, p3), members, defaulter);
    Contributors(funds, Sum(funds, Base()), p3.remaining, 1.0, DefaultFund);
    Contributors(limits, Sum(limits, Base()), p4.remaining, ALLOCATION_CAP, Settlement);
  }

  /** The accounts that onboarding opens, as far as a default needs them: the CCP has a settlement and an
      equity account, the defaulter a margin and a default fund account, every survivor that has to pay a
      settlement account. */
  ghost predicate Onboarded(accounts: seq<Account>, members: seq<Member>, house: MemberId, defaulter: MemberId) {
    && Account(house, Settlement, Available) in accounts
    && Account(house, CcpEquity, Available) in accounts
    && Account(defaulter, MarginIm, Available) in accounts
    && FundOf(defaulter) in accounts
    && forall m: MemberId | IsLiable(members, defaulter, m) :: Account(m, Settlement, Available) in accounts
  }

  /** What the journals collect beyond the loss that the first n rows absorb: a layer with a negative balance
      is "applied" by raising the loss, and nothing is posted for it. */
  function Overcollected(b: Books, house: Option<MemberId>, defaulter: MemberId, exposure: real, n: nat): real {
    Max(0.0, -exposure)
    + (if n >= 2 then Max(0.0, -FundBalance(b, defaulter)) else 0.0)
    + (if n >= 3 then Max(0.0, -EquityBalance(b, house)) else 0.0)
  }

  ghost predicate Collected(p: Progress, exposure: real, extra: real) {
    Sum(p.payments, Amount()) == exposure - p.remaining + extra
  }

  lemma SingleCollected(p: Progress, order: nat, kind: StepKind, payer: Option<MemberId>, source: AccountKind,
                        available: real, exposure: real, extra: real)
    requires Collected(p, exposure, extra)
    requires payer.None? ==> available == 0.0
    requires available >= 0.0 || p.remaining > 0.0
    ensures Collected(SingleStep(p, order, kind, payer, source, available), exposure,
                      extra + if available < 0.0 then -available else Max(0.0, -p.remaining))
  {
    hide Sum;
    if payer.Some? {
      SumSnoc(p.payments, Payment(payer.value, source, Min(available, p.remaining)), Amount());
    }
  }

  lemma SharedCollected(p: Progress, order: nat, kind: StepKind, shares: seq<Share>, source: AccountKind, rate: real,
                        exposure: real, extra: real)
    requires Collected(p, exposure, extra)
    ensures Collected(SharedStep(p, order, kind, shares, source, rate), exposure, extra)
  {
    hide Sum, Contributions, Allocation;
    var total := Sum(shares, Base());
    ContributionsTotal(shares, total, p.remaining, rate, source);
    SumConcat(p.payments, Contributions(shares, total, p.remaining, rate, source), Amount());
  }

  /** What the first three steps read, record and collect, in terms of the books before the default. */
  lemma ThreeStepsCollect(b: Books, house: Option<MemberId>, defaulter: MemberId, exposure: real, event: nat)
    ensures var p3 := Step3(b, house, event, Step2(b, house, defaulter, event, Step1(b, defaulter, exposure)));
            && |p3.steps| <= 3
            && (p3.remaining > 0.0 ==> |p3.steps| == 3)
            && Collected(p3, exposure, Overcollected(b, house, defaulter, exposure, |p3.steps|))
            && (|p3.steps| == 3 ==>
                  var applied := Min(EquityBalance(b, house), p3.steps[1].remaining);
                  p3.steps[2] == StepRow(3, HouseEquity, EquityBalance(b, house), applied,
                                         p3.steps[1].remaining - applied))
  {
    hide Balance, MarginPosted, FundBalance, EquityBalance, PayAll, Sum, SinglePayers;
    ThreePayers(b, house, defaulter, exposure, event);
    MarginNonNegative(b, defaulter);
    NoHouseNoEquity(b, house);
    var p0, margin, fund, equity := Progress([], [], exposure), MarginPosted(b, defaulter), FundBalance(b, defaulter),
      EquityBalance(b, house);
    NothingCollected(exposure);
    SingleCollected(p0, 1, DefaulterMargin, Some(defaulter), MarginIm, margin, exposure, 0.0);
    var p1 := Step1(b, defaulter, exposure);
    DefaulterFundUnread(b, house, defaulter, event, p1.payments);
    if p1.remaining > 0.0 {
      SingleCollected(p1, 2, DefaulterFund, Some(defaulter), DefaultFund, fund, exposure, Max(0.0, -exposure));
    }
    var p2 := Step2(b, house, defaulter, event, p1);
    EquityUnread(b, house, defaulter, event, p2.payments);
    if p2.remaining > 0.0 {
      SingleCollected(p2, 3, HouseEquity, house, CcpEquity, equity, exposure,
                      Overcollected(b, house, defaulter, exposure, 2));
    }
  }

  lemma NothingCollected(exposure: real)
    ensures Collected(Progress([], [], exposure), exposure, 0.0)
  {
  }

  lemma NoHouseNoEquity(b: Books, house: Option<MemberId>)
    ensures house.None? ==> EquityBalance(b, house) == 0.0
  {
  }

  /** Step 3 runs exactly when neither the margin nor the margin with the defaulter's fund covers the exposure. */
  lemma StepThreeRuns(b: Books, members: seq<Member>, house: Option<MemberId>, defaulter: MemberId, exposure: real,
                      event: nat)
    ensures var covers := Covers(b, members, house, defaulter);
            |Execute(b, members, house, defaulter, exposure, event).steps| >= 3
            <==> exposure > covers[0] && exposure > covers[1]
  {
    hide Balance, MarginPosted, FundBalance, EquityBalance, PayAll, Sum, FundShares, LimitShares, Step1, Step2, Step3,
      Contributions, Absorbed;
    AfterThreeSteps(b, members, house, defaulter, exposure, event);
    ThreeStepsCollect(b, house, defaulter, exposure, event);
    var covers := Covers(b, members, house, defaulter);
    var p3 := Step3(b, house, event, Step2(b, house, defaulter, event, Step1(b, defaulter, exposure)));
    AllStepsTaken(p3, exposure, covers, 3);
    assert |p3.steps| == 3 ==> exposure > covers[0] && exposure > covers[1];
  }

  /** With no precondition: what the journals of a waterfall collect is the loss absorbed and the
      overcollection; the row of step 3, if it ran, shows the equity balance of the books before the default. */
  lemma WaterfallCollects(b: Books, members: seq<Member>, house: Option<MemberId>, defaulter: MemberId, exposure: real,
                          event: nat)
    ensures var p := Execute(b, members, house, defaulter, exposure, event);
            && Sum(p.payments, Amount())
               == exposure - p.remaining + Overcollected(b, house, defaulter, exposure, |p.steps|)
            && (|p.steps| >= 3 ==>
                  var applied := Min(EquityBalance(b, house), p.steps[1].remaining);
                  p.steps[2] == StepRow(3, HouseEquity, EquityBalance(b, house), applied,
                                        p.steps[1].remaining - applied))
  {
    hide Balance, MarginPosted, FundBalance, EquityBalance, PayAll, Sum, FundShares, LimitShares, Step1, Step2, Step3,
      Contributions, Absorbed;
    ThreeStepsCollect(b, house, defaulter, exposure, event);
    var p3 := Step3(b, house, event, Step2(b, house, defaulter, event, Step1(b, defaulter, exposure)));
    var extra := Overcollected(b, house, defaulter, exposure, |p3.steps|);
    SharedCollected(p3, 4, SurvivingFund, FundShares(Seen(b, house, event, p3), members, defaulter), DefaultFund, 1.0,
                    exposure, extra);
    var p4 := Step4(b, members, house, defaulter, event, p3);
    SharedCollected(p4, 5, LossAllocation, LimitShares(members, defaulter), Settlement, ALLOCATION_CAP, exposure,
                    extra);
  }

  /** Conservation into the ledger, end to end, for balances and limits of any sign. On an onboarded system the
      waterfall commits. The CCP's settlement balance rises by the loss absorbed and the overcollection, less
      what the CCP was itself charged there, which is nothing unless it survives with a credit limit. Every
      other balance falls by what was drawn from it. So, for a CCP that is not liable and a default fund that
      is not overdrawn, the rise is exactly the loss absorbed if and only if the exposure was not negative and
      step 3 did not run or found no negative equity balance. */
  lemma RecoveryExact(b: Books, members: seq<Member>, house: MemberId, defaulter: MemberId, exposure: real, event: nat,
                      a: Account)
    requires Sound(b) && Onboarded(b.accounts, members, house, defaulter)
    ensures var p := Execute(b, members, Some(house), defaulter, exposure, event);
            var c := PayAll(b, Some(house), event, p.payments);
            var recovery := Account(house, Settlement, Available);
            var charged := Sum(p.payments, PaidFrom(recovery));
            var rise := Balance(c, recovery) - Balance(b, recovery);
            && Commit(b, c) == c && Sound(c)
            && rise == exposure - p.remaining + Overcollected(b, Some(house), defaulter, exposure, |p.steps|) - charged
            && charged >= 0.0
            && (!IsLiable(members, defaulter, house) ==> charged == 0.0)
            && (!IsLiable(members, defaulter, house) && FundBalance(b, defaulter) >= 0.0 ==>
                  (rise == exposure - p.remaining
                   <==> exposure >= 0.0 && (|p.steps| < 3 || EquityBalance(b, Some(house)) >= 0.0)))
            && (a != recovery ==> Balance(c, a) == Balance(b, a) - Sum(p.payments, PaidFrom(a)) <= Balance(b, a))
  {
    hide Execute, Balance, EquityBalance, FundBalance, Sum, PayAll, Sound, TriggerAccepts, IsSurvivor, IsLiable;
    var p := Execute(b, members, Some(house), defaulter, exposure, event);
    var recovery := Account(house, Settlement, Available);
    WaterfallCollects(b, members, Some(house), defaulter, exposure, event);
    WaterfallConserves(b, members, Some(house), defaulter, exposure, event);
    ExecutePayers(b, members, Some(house), defaulter, exposure, event);
    forall x | x in p.payments ensures Source(x) in b.accounts {
    }
    RecoveryReachesHouse(b, house, event, p.payments, a);
    if !IsLiable(members, defaulter, house) {
      NothingPaidFrom(p.payments, recovery);
    }
    WaterfallCommit(b, Some(house), event, p.payments);
    PaidNonNegative(p.payments, a);
    PaidNonNegative(p.payments, recovery);
  }

  lemma PaidNonNegative(ps: seq<Payment>, a: Account)
    requires forall p | p in ps :: p.amount > 0.0
    ensures Sum(ps, PaidFrom(a)) >= 0.0
  {
    forall i | 0 <= i < |ps| ensures PaidFrom(a)(ps[i]) >= 0.0 {
      assert ps[i] in ps;
    }
    SumNonNegative(ps, PaidFrom(a));
  }

  /** When no account at all is found, the trigger sees no entry and the waterfall commits journals
      without entries: the loss is recorded as absorbed, and no balance moves. */
  lemma {:induction false} PhantomRecovery(b: Books, house: Option<MemberId>, event: nat, ps: seq<Payment>)
    requires !Exists(b.accounts, Recovery(house))
    requires forall p | p in ps :: Source(p) !in b.accounts
    ensures PayAll(b, house, event, ps).entries == b.entries
    ensures |PayAll(b, house, event, ps).journals| == |b.journals| + |ps|
    ensures Commit(b, PayAll(b, house, event, ps)) == PayAll(b, house, event, ps)
  {
    if ps != [] {
      PhantomRecovery(b, house, event, ps[..|ps| - 1]);
    }
  }

  // ---------------------------------------------------------------- default funds

  lemma PayoutWithinBase(base: real, total: real, loss: real)
    ensures 0.0 <= Payout(base, total, loss, 1.0) <= Max(0.0, base)
  {
    hide Quota;
  }

  /** Step 4 takes at most its balance from each default fund, and nothing from the defaulter's. */
  lemma {:induction false} FundDraw(b: Books, members: seq<Member>, defaulter: MemberId, total: real, loss: real,
                                    m: MemberId)
    requires UniqueIds(members)
    ensures var drawn := Sum(Contributions(FundShares(b, members, defaulter), total, loss, 1.0, DefaultFund),
                             PaidFrom(FundOf(m)));
            && drawn <= Max(0.0, FundBalance(b, m))
            && ((m == defaulter || forall x | x in members :: x.id != m) ==> drawn == 0.0)
  {
    hide Payout, Balance, Sum;
    var a := FundOf(m);
    if members == [] {
      NothingPaidFrom([], a);
    } else {
      var rest, x := members[..|members| - 1], members[|members| - 1];
      assert x in members && forall y | y in members :: y in rest || y == x;
      FundDraw(b, rest, defaulter, total, loss, m);
      var shares := FundShares(b, rest, defaulter);
      var s := Share(x.id, FundBalance(b, x.id));
      assert (shares + [s])[..|shares|] == shares;
      PayoutWithinBase(s.base, total, loss);
      SumSnoc(Contributions(shares, total, loss, 1.0, DefaultFund),
              Payment(x.id, DefaultFund, Allocation(total, loss, 1.0)(s)), PaidFrom(a));
    }
  }

  lemma NothingPaidFrom(ps: seq<Payment>, a: Account)
    requires forall p | p in ps :: Source(p) != a
    ensures Sum(ps, PaidFrom(a)) == 0.0
  {
    forall i | 0 <= i < |ps| ensures PaidFrom(a)(ps[i]) == 0.0 {
      assert ps[i] in ps;
    }
    SumZero(ps, PaidFrom(a));
  }

  /** Steps 1 to 3 take from the default fund of m only when m defaults, and then at most its balance. */
  lemma SinglePayersDraw(b: Books, house: Option<MemberId>, defaulter: MemberId, exposure: real, event: nat,
                         m: MemberId)
    ensures var p2 := Step2(b, house, defaulter, event, Step1(b, defaulter, exposure));
            Sum(Step3(b, house, event, p2).payments, PaidFrom(FundOf(m)))
            <= if m == defaulter then Max(0.0, FundBalance(b, m)) else 0.0
  {
    hide Balance, MarginPosted, FundBalance, EquityBalance, PayAll, Sum, SingleStep;
    var a := FundOf(m);
    var p1 := Step1(b, defaulter, exposure);
    var p2 := Step2(b, house, defaulter, event, p1);
    ThreePayers(b, house, defaulter, exposure, event);
    NothingPaidFrom(p1.payments, a);
    DefaulterFundUnread(b, house, defaulter, event, p1.payments);
    SingleDraw(p1, 2, DefaulterFund, Some(defaulter), DefaultFund, FundBalance(b, defaulter), a);
    SingleDraw(p2, 3, HouseEquity, house, CcpEquity, EquityBalance(Seen(b, house, event, p2), house), a);
  }

  lemma SingleDraw(p: Progress, order: nat, kind: StepKind, payer: Option<MemberId>, source: AccountKind,
                   available: real, a: Account)
    ensures var q := SingleStep(p, order, kind, payer, source, available);
            Sum(q.payments, PaidFrom(a))
            <= Sum(p.payments, PaidFrom(a))
               + (if payer.Some? && Account(payer.value, source, Available) == a then Max(0.0, available) else 0.0)
  {
    hide Sum;
    if payer.Some? {
      SumSnoc(p.payments, Payment(payer.value, source, Min(available, p.remaining)), PaidFrom(a));
    }
  }

  /** A waterfall never overdraws a default fund. */
  lemma FundsStayNonNegative(b: Books, members: seq<Member>, house: Option<MemberId>, defaulter: MemberId,
                             exposure: real, event: nat, m: MemberId)
    requires UniqueIds(members) && FundBalance(b, m) >= 0.0
    ensures var p := Execute(b, members, house, defaulter, exposure, event);
            FundBalance(PayAll(b, house, event, p.payments), m) >= 0.0
  {
    hide Balance, MarginPosted, EquityBalance, PayAll, Payout, Absorbed;
    var a := FundOf(m);
    var p3 := Step3(b, house, event, Step2(b, house, defaulter, event, Step1(b, defaulter, exposure)));
    var p4 := Step4(b, members, house, defaulter, event, p3);
    var p5 := Step5(members, defaulter, p4);
    SinglePayersDraw(b, house, defaulter, exposure, event, m);
    ThreePayers(b, house, defaulter, exposure, event);
    SurvivorFundsUnread(b, members, house, defaulter, event, p3.payments);
    var funds, limits := FundShares(b, members, defaulter), LimitShares(members, defaulter);
    var fourth := Contributions(funds, Sum(funds, Base()), p3.remaining, 1.0, DefaultFund);
    FundDraw(b, members, defaulter, Sum(funds, Base()), p3.remaining, m);
    SumConcat(p3.payments, fourth, PaidFrom(a));
    var fifth := Contributions(limits, Sum(limits, Base()), p4.remaining, ALLOCATION_CAP, Settlement);
    ContributionsTotal(limits, Sum(limits, Base()), p4.remaining, ALLOCATION_CAP, Settlement);
    NothingPaidFrom(fifth, a);
    SumConcat(p4.payments, fifth, PaidFrom(a));
    PayAllMoves(b, house, event, p5.payments, a);
  }

  /** Collateral is not part of the waterfall. */
  lemma CollateralUntouched(b: Books, members: seq<Member>, house: Option<MemberId>, defaulter: MemberId,
                            exposure: real, event: nat, a: Account)
    requires a.kind == Collateral
    ensures Balance(PayAll(b, house, event, Execute(b, members, house, defaulter, exposure, event).payments), a)
            == Balance(b, a)
  {
    hide Balance, MarginPosted, EquityBalance, FundBalance, PayAll, Payout, Absorbed;
    var p3 := Step3(b, house, event, Step2(b, house, defaulter, event, Step1(b, defaulter, exposure)));
    var p4 := Step4(b, members, house, defaulter, event, p3);
    ThreePayers(b, house, defaulter, exposure, event);
    var funds, limits := FundShares(Seen(b, house, event, p3), members, defaulter), LimitShares(members, defaulter);
    ContributionsTotal(funds, Sum(funds, Base()), p3.remaining, 1.0, DefaultFund);
    ContributionsTotal(limits, Sum(limits, Base()), p4.remaining, ALLOCATION_CAP, Settlement);
    UntouchedBalance(b, house, event, Step5(members, defaulter, p4).payments, a);
  }
}
