/** Defaults of the seeded system: what the seed script's negative equity does to every waterfall. */
module Defaults {
  import opened Options
  import opened Sums
  import opened Ledger
  import opened Registry
  import opened ProRata
  import opened Waterfall
  import opened Collateral
  import opened Outbox
  import opened NettingCycle
  import opened Trading
  import opened Settlement
  import opened System
  import opened Preservation
  import opened Theorems

  function EquityOf(house: MemberId): Account {
    Account(house, CcpEquity, Available)
  }

  // ---------------------------------------------------------------- the seed

  /** A contribution takes effect only if the contributor's account is found. */
  function Contributed(accounts: seq<Account>): Contribution -> real {
    (c: Contribution) => if FundOf(c.member) in accounts then c.amount else 0.0
  }

  function ContributedBy(accounts: seq<Account>, m: MemberId): Contribution -> real {
    (c: Contribution) => if c.member == m then Contributed(accounts)(c) else 0.0
  }

  function TotalContributed(accounts: seq<Account>, cs: seq<Contribution>): real {
    Sum(cs, Contributed(accounts))
  }

  /** The seed script debits each contributor's fund and credits CCP_EQUITY, and the view shows debits less
      credits: a freshly seeded CCP has minus all contributions as its equity balance. */
  lemma {:induction false} SeededEquityIsNegative(accounts: seq<Account>, house: MemberId, cs: seq<Contribution>,
                                                  m: MemberId)
    requires EquityOf(house) in accounts
    ensures Balance(Seed(accounts, Some(house), cs), EquityOf(house)) == -TotalContributed(accounts, cs)
    ensures FundBalance(Seed(accounts, Some(house), cs), m) == Sum(cs, ContributedBy(accounts, m))
  {
    hide Post;
    if cs != [] {
      var cs0, c := cs[..|cs| - 1], cs[|cs| - 1];
      var b := Seed(accounts, Some(house), cs0);
      var fund, equity := FundOf(c.member), EquityOf(house);
      SeededEquityIsNegative(accounts, house, cs0, m);
      PostMoves(b, FundContribution, OfSeed, [Debit(fund, c.amount), Credit(equity, c.amount)], equity);
      PostMoves(b, FundContribution, OfSeed, [Debit(fund, c.amount), Credit(equity, c.amount)], FundOf(m));
      TransferNet(fund, equity, c.amount, equity);
      TransferNet(fund, equity, c.amount, FundOf(m));
    }
  }

  // ---------------------------------------------------------------- equity and funds over runs

  /** No margin transfer of the step targets accounts of this kind. (The service's only caller targets margin.) */
  predicate SparesKind(step: Step, kind: AccountKind) {
    step.MoveToMargin? ==> step.kind != kind
  }

  lemma IngestSpares(s: State, offset: nat, now: int, a: Account)
    requires Invariant(s) && a.kind in {DefaultFund, CcpEquity}
    ensures Balance(AfterIngest(s, offset, now).books, a) == Balance(s.books, a)
  {
    hide Process, Balance, Sound;
    SoundParts(s);
    if offset < |s.bus.log| && s.bus.log[offset].payload.TradeSubmitted? {
      var m := s.bus.log[offset];
      NovationLedger(BlotterOf(s), s.members, s.instruments, m.payload.trade, m.payload.data, now, 0, a);
    }
  }

  lemma SettlementSpares(s: State, offset: nat, i: nat, run: RunStep, a: Account)
    requires a.kind in {DefaultFund, CcpEquity}
    ensures Balance(AfterSettle(s, offset).books, a) == Balance(s.books, a)
    ensures Balance(NextRun(DeskOf(s), i, run).books, a) == Balance(s.books, a)
  {
    hide Settle, NextRun, Balance;
    if offset < |s.bus.log| && s.bus.log[offset].payload.InstructionCreated? {
      SettleOnly(DeskOf(s), s.bus.log[offset].payload.instruction, s.adapters);
    }
    RunOnly(DeskOf(s), i, run);
  }

  lemma CollateralSpares(s: State, m: MemberId, amount: real, kind: AccountKind, x: InstrumentId, a: Account)
    requires a.kind in {DefaultFund, CcpEquity} && a.kind != kind
    ensures Balance(AfterPosting(s, Deposit(s.books, s.house, m, amount)).books, a) == Balance(s.books, a)
    ensures Balance(AfterPosting(s, Withdraw(s.books, s.house, m, amount)).books, a) == Balance(s.books, a)
    ensures Balance(AfterPosting(s, TransferToMargin(s.books, m, amount, kind)).books, a) == Balance(s.books, a)
    ensures Balance(AfterPosting(s, VariationMarginPosting(s.books, m, x, amount)).books, a) == Balance(s.books, a)
  {
    hide Balance, Post;
    if s.house.Some? {
      CollateralMoves(s.books, s.house.value, m, amount, kind, a);
    } else {
      CollateralMoves(s.books, 0, m, amount, kind, a);
    }
    var open, locked := VmAccount(m, Available), VmAccount(m, Locked);
    PostMoves(s.books, VariationMargin, OfInstrument(x), [Debit(open, Abs(amount)), Credit(locked, Abs(amount))], a);
    PostMoves(s.books, VariationMargin, OfInstrument(x), [Debit(locked, Abs(amount)), Credit(open, Abs(amount))], a);
    TransferNet(open, locked, Abs(amount), a);
    TransferNet(locked, open, Abs(amount), a);
  }

  lemma DefaultNeverRaises(s: State, m: MemberId, exposure: real, a: Account)
    requires a.kind in {DefaultFund, CcpEquity}
    ensures Balance(AfterDefault(s, m, exposure).books, a) <= Balance(s.books, a)
  {
    hide Balance, Execute, PayAll, TriggerAccepts, Sum;
    var members := MarkDefaulted(s.members, m);
    var ps := Execute(s.books, members, s.house, m, exposure, |s.defaults|).payments;
    WaterfallConserves(s.books, members, s.house, m, exposure, |s.defaults|);
    PayAllMoves(s.books, s.house, |s.defaults|, ps, a);
    PaidNonNegative(ps, a);
  }

  /** Nothing but a margin transfer into it ever raises an equity or default fund balance, and nothing but
      that and a default ever changes one. */
  lemma NextSpares(s: State, step: Step, a: Account)
    requires Invariant(s) && a.kind in {DefaultFund, CcpEquity} && SparesKind(step, a.kind)
    ensures Balance(Next(s, step).books, a) <= Balance(s.books, a)
    ensures !step.DeclareDefault? ==>
      Balance(Next(s, step).books, a) == Balance(s.books, a) && Next(s, step).members == s.members
    ensures Next(s, step).house == s.house
  {
    hide Balance, Invariant, Process, Settle, NextRun, AfterDefault, Deposit, Withdraw, TransferToMargin,
      VariationMarginPosting, CycleObligations, NextBus;
    match step
    case IngestTrade(offset, now) => IngestSpares(s, offset, now, a);
    case SettleMessage(offset) => SettlementSpares(s, offset, 0, WorkerCrash, a);
    case OnChain(i, run) => SettlementSpares(s, 0, i, run, a);
    case DepositCollateral(m, amount) => CollateralSpares(s, m, amount, MarginIm, 0, a);
    case WithdrawCollateral(m, amount) => CollateralSpares(s, m, amount, MarginIm, 0, a);
    case MoveToMargin(m, amount, kind) => CollateralSpares(s, m, amount, kind, 0, a);
    case PostVariationMargin(m, x, vm) => CollateralSpares(s, m, vm, MarginIm, x, a);
    case DeclareDefault(m, exposure) =>
      DefaultNeverRaises(s, m, exposure, a);
      DefaultHouse(s, m, exposure);
    case _ =>
  }

  lemma DefaultHouse(s: State, m: MemberId, exposure: real)
    ensures AfterDefault(s, m, exposure).house == s.house
  {
    hide Execute, PayAll, TriggerAccepts;
  }

  lemma {:induction false} RunSpares(s: State, steps: seq<Step>, a: Account)
    requires Invariant(s) && a.kind in {DefaultFund, CcpEquity}
    requires forall st | st in steps :: SparesKind(st, a.kind)
    ensures Balance(Run(s, steps).books, a) <= Balance(s.books, a)
    ensures (forall st | st in steps :: !st.DeclareDefault?) ==>
      Balance(Run(s, steps).books, a) == Balance(s.books, a) && Run(s, steps).members == s.members
    ensures Run(s, steps).house == s.house
  {
    hide Balance, Invariant, Next;
    if steps != [] {
      var n := |steps| - 1;
      RunSpares(s, steps[..n], a);
      RunKeeps(s, steps[..n]);
      NextSpares(Run(s, steps[..n]), steps[n], a);
    }
  }

  lemma InitialBooks(s0: State, cs: seq<Contribution>, steps: seq<Step>)
    requires Initial(s0, cs)
    ensures Invariant(s0) && s0.books == Seed(s0.books.accounts, s0.house, cs)
    ensures Run(s0, steps).books.accounts == s0.books.accounts
    ensures Reachable(Run(s0, steps))
  {
    hide Invariant, Run;
    InitialInvariant(s0, cs);
    RunGrows(s0, steps);
  }

  /** In every state of every run of a seeded system, the equity balance is at most minus the contributions. */
  lemma EquityStaysNegative(s0: State, cs: seq<Contribution>, steps: seq<Step>, house: MemberId)
    requires Initial(s0, cs) && s0.house == Some(house) && EquityOf(house) in s0.books.accounts
    requires forall st | st in steps :: SparesKind(st, CcpEquity)
    ensures var s := Run(s0, steps);
            s.house == Some(house) && EquityBalance(s.books, Some(house)) <= -TotalContributed(s0.books.accounts, cs)
  {
    hide Balance, Invariant, Run, Initial, TotalContributed;
    InitialBooks(s0, cs, steps);
    SeededEquityIsNegative(s0.books.accounts, house, cs, 0);
    RunSpares(s0, steps, EquityOf(house));
  }

  // ---------------------------------------------------------------- every default

  /** In any reachable state, with equity and limits of any sign, a default on an onboarded system commits. Its
      event records what the layers leave, which is the closed form exactly when the condition of
      LayersDecide holds. The CCP's settlement balance rises by the loss absorbed, and by as much more as the
      equity balance is negative if step 3 ran, less what the CCP itself was charged as a liable survivor.
      For a CCP that is not liable the rise is the loss absorbed if and only if the exposure was not negative
      and step 3 did not run or found no negative equity balance. */
  lemma DefaultRecovers(s: State, house: MemberId, defaulter: MemberId, exposure: real)
    requires Reachable(s) && s.house == Some(house) && IsMember(s.members, defaulter)
    requires Onboarded(s.books.accounts, MarkDefaulted(s.members, defaulter), house, defaulter)
    ensures var t := Next(s, DeclareDefault(defaulter, exposure));
            var marked := MarkDefaulted(s.members, defaulter);
            var covers := Covers(s.books, marked, s.house, defaulter);
            var recovery := Account(house, AccountKind.Settlement, Available);
            var rise := Balance(t.books, recovery) - Balance(s.books, recovery);
            var equity := EquityBalance(s.books, s.house);
            && |t.defaults| == |s.defaults| + 1
            && var d := t.defaults[|s.defaults|];
               && (d.status == Resolved <==> d.remaining == 0.0)
               && (d.remaining == Max(0.0, exposure - covers[4])
                   <==> LayersDecide(covers, LimitShares(marked, defaulter), exposure))
               && (|d.steps| >= 3 <==> exposure > covers[0] && exposure > covers[1])
               && var extra := Max(0.0, -exposure) + (if |d.steps| >= 3 then Max(0.0, -equity) else 0.0);
                  && rise <= exposure - d.remaining + extra
                  && (!IsLiable(marked, defaulter, house) ==>
                        && rise == exposure - d.remaining + extra
                        && (rise == exposure - d.remaining
                            <==> exposure >= 0.0 && (|d.steps| < 3 || equity >= 0.0)))
  {
    hide Invariant, Reachable, Execute, Balance, EquityBalance, Sum, PayAll, Sound, Onboarded, TriggerAccepts,
      FundBalance, Covers, IsLiable, LayersDecide, LimitShares;
    ReachableInvariant(s);
    SoundParts(s);
    var marked := MarkDefaulted(s.members, defaulter);
    var p := Execute(s.books, marked, s.house, defaulter, exposure, |s.defaults|);
    assert FundBalance(s.books, defaulter) >= 0.0;
    RecoveryExact(s.books, marked, house, defaulter, exposure, |s.defaults|, EquityOf(house));
    CommitAccepts(s.books, PayAll(s.books, s.house, |s.defaults|, p.payments));
    ClosedFormAt(s.books, marked, s.house, defaulter, exposure, |s.defaults|);
    StepThreeRuns(s.books, marked, s.house, defaulter, exposure, |s.defaults|);
  }

  lemma CommitAccepts(before: Books, after: Books)
    requires Commit(before, after) == after
    ensures TriggerAccepts(after, |before.entries|)
  {
  }

  /** The system that the seed script creates, after any run whose margin transfers spare CCP_EQUITY, with at
      least one effective contribution: whenever a default reaches step 3, the row of that step applies the
      negative equity balance, which raises the loss by at least all contributions together, and the CCP
      collects that much more than the loss absorbed. */
  lemma NegativeEquityRaisesLoss(s0: State, cs: seq<Contribution>, steps: seq<Step>, house: MemberId,
                                 defaulter: MemberId, exposure: real)
    requires Initial(s0, cs) && s0.house == Some(house) && TotalContributed(s0.books.accounts, cs) > 0.0
    requires forall st | st in steps :: SparesKind(st, CcpEquity)
    requires var s := Run(s0, steps);
             var marked := MarkDefaulted(s.members, defaulter);
             && IsMember(s.members, defaulter)
             && Onboarded(s.books.accounts, marked, house, defaulter)
             && !IsLiable(marked, defaulter, house)
    ensures var s := Run(s0, steps);
            var t := Next(s, DeclareDefault(defaulter, exposure));
            var recovery := Account(house, AccountKind.Settlement, Available);
            var rise := Balance(t.books, recovery) - Balance(s.books, recovery);
            && |t.defaults| == |s.defaults| + 1
            && var d := t.defaults[|s.defaults|];
               && (rise == exposure - d.remaining <==> exposure >= 0.0 && |d.steps| < 3)
               && (|d.steps| >= 3 ==>
                     && d.steps[2].applied == EquityBalance(s.books, s.house)
                     && d.steps[2].remaining == d.steps[1].remaining - d.steps[2].applied
                     && d.steps[2].applied <= -TotalContributed(s0.books.accounts, cs) < 0.0
                     && rise == exposure - d.remaining - d.steps[2].applied)
  {
    hide Invariant, Execute, Balance, EquityBalance, Sum, PayAll, Sound, TriggerAccepts, FundBalance, Covers,
      IsLiable, Run, Initial, TotalContributed, Absorbed, Capacity, LimitShares, Threshold, Reachable;
    var s := Run(s0, steps);
    InitialBooks(s0, cs, steps);
    EquityStaysNegative(s0, cs, steps, house);
    DefaultRecovers(s, house, defaulter, exposure);
    DefaultRows(s, defaulter, exposure);
    MarginLayer(s.books, MarkDefaulted(s.members, defaulter), s.house, defaulter);
  }

  lemma MarginLayer(b: Books, members: seq<Member>, house: Option<MemberId>, defaulter: MemberId)
    ensures Covers(b, members, house, defaulter)[0] >= 0.0
  {
    MarginNonNegative(b, defaulter);
  }

  /** The rows of a committed default are those of the waterfall; a loss is left before step 3 runs. */
  lemma DefaultRows(s: State, defaulter: MemberId, exposure: real)
    ensures var t := AfterDefault(s, defaulter, exposure);
            |t.defaults| == |s.defaults| + 1 ==>
              var d := t.defaults[|s.defaults|];
              |d.steps| >= 3 ==>
                var equity := EquityBalance(s.books, s.house);
                && d.steps[1].remaining > 0.0
                && d.steps[2].applied == Min(equity, d.steps[1].remaining)
                && d.steps[2].remaining == d.steps[1].remaining - d.steps[2].applied
  {
    hide Execute, PayAll, TriggerAccepts, EquityBalance, Covers, Sum, Balance;
    var marked := MarkDefaulted(s.members, defaulter);
    WaterfallCollects(s.books, marked, s.house, defaulter, exposure, |s.defaults|);
    SecondLossPositive(s.books, marked, s.house, defaulter, exposure, |s.defaults|);
  }

  lemma SecondLossPositive(b: Books, members: seq<Member>, house: Option<MemberId>, defaulter: MemberId, exposure: real,
                           event: nat)
    ensures var p := Execute(b, members, house, defaulter, exposure, event);
            |p.steps| >= 3 ==> p.steps[1].remaining > 0.0
  {
    hide Balance, MarginPosted, FundBalance, EquityBalance, PayAll, FundShares, LimitShares, Sum, Absorbed,
      Contributions;
  }

  // ---------------------------------------------------------------- the first default

  function Surviving(accounts: seq<Account>, members: seq<Member>, defaulter: MemberId): Contribution -> real {
    (c: Contribution) => if IsSurvivor(members, defaulter, c.member) then Contributed(accounts)(c) else 0.0
  }

  lemma AbsentOrPositive(accounts: seq<Account>, cs: seq<Contribution>, m: MemberId)
    requires forall c | c in cs :: c.amount > 0.0
    ensures Sum(cs, ContributedBy(accounts, m)) >= 0.0
    ensures FundOf(m) !in accounts ==> Sum(cs, ContributedBy(accounts, m)) == 0.0
  {
    forall i | 0 <= i < |cs|
      ensures ContributedBy(accounts, m)(cs[i]) >= 0.0
      ensures FundOf(m) !in accounts ==> ContributedBy(accounts, m)(cs[i]) == 0.0
    {
      assert cs[i] in cs && Contributed(accounts)(cs[i]) >= 0.0;
      assert cs[i].member == m && FundOf(m) !in accounts ==> Contributed(accounts)(cs[i]) == 0.0;
    }
    SumNonNegative(cs, ContributedBy(accounts, m));
    if FundOf(m) !in accounts {
      SumZero(cs, ContributedBy(accounts, m));
    }
  }

  /** While the funds hold what was contributed, the survivors' layer is what the survivors contributed. */
  lemma {:induction false} SurvivorFunds(b: Books, members: seq<Member>, defaulter: MemberId, cs: seq<Contribution>)
    requires UniqueIds(members) && forall c | c in cs :: c.amount > 0.0
    requires forall m: MemberId :: FundBalance(b, m) == Sum(cs, ContributedBy(b.accounts, m))
    ensures Sum(FundShares(b, members, defaulter), Base()) == Sum(cs, Surviving(b.accounts, members, defaulter))
  {
    hide Sum, FundBalance, Contributed;
    if members == [] {
      NoSurvivors(b, cs, defaulter);
    } else {
      var rest, x := members[..|members| - 1], members[|members| - 1];
      assert members == rest + [x];
      SurvivorFunds(b, rest, defaulter, cs);
      AbsentOrPositive(b.accounts, cs, x.id);
      var here := (c: Contribution) => if Survives(x, defaulter) then ContributedBy(b.accounts, x.id)(c) else 0.0;
      forall c: Contribution
        ensures Surviving(b.accounts, members, defaulter)(c) == Surviving(b.accounts, rest, defaulter)(c) + here(c)
      {
        SurvivorSnoc(rest, x, defaulter, c.member);
      }
      SumAdd(cs, Surviving(b.accounts, rest, defaulter), here, Surviving(b.accounts, members, defaulter));
      SumPointwiseOrZero(cs, ContributedBy(b.accounts, x.id), here, Survives(x, defaulter));
      SumSnoc(FundShares(b, rest, defaulter), Share(x.id, FundBalance(b, x.id)), Base());
    }
  }

  lemma NoSurvivors(b: Books, cs: seq<Contribution>, defaulter: MemberId)
    ensures Sum(FundShares(b, [], defaulter), Base()) == 0.0
    ensures Sum(cs, Surviving(b.accounts, [], defaulter)) == 0.0
  {
    forall i | 0 <= i < |cs| ensures Surviving(b.accounts, [], defaulter)(cs[i]) == 0.0 {
      assert !IsSurvivor([], defaulter, cs[i].member);
    }
    SumZero(cs, Surviving(b.accounts, [], defaulter));
  }

  lemma SumPointwiseOrZero<T>(s: seq<T>, f: T -> real, g: T -> real, same: bool)
    requires forall x :: x in s ==> g(x) == if same then f(x) else 0.0
    ensures Sum(s, g) == if same then Sum(s, f) else 0.0
  {
    if same {
      SumPointwise(s, f, g);
    } else {
      SumZero(s, g);
    }
  }

  lemma SurvivorSnoc(rest: seq<Member>, x: Member, defaulter: MemberId, id: MemberId)
    requires UniqueIds(rest + [x])
    ensures IsSurvivor(rest + [x], defaulter, id)
            <==> IsSurvivor(rest, defaulter, id) || (x.id == id && Survives(x, defaulter))
    ensures !(IsSurvivor(rest, defaulter, id) && x.id == id)
  {
    var all := rest + [x];
    assert all[|rest|] == x;
    assert forall i | 0 <= i < |rest| :: all[i] == rest[i];
    if m :| m in rest && m.id == id && Survives(m, defaulter) {
      assert m in all;
    }
    assert x in all;
  }

  /** Before any default, with the seed's contributors all active: the negative equity cancels the seeded funds,
      the defaulter's and the survivors' alike. Beyond the margin, the five layers together cover only what
      the credit limits allow; and if step 3 runs, it raises the loss by exactly the contributions. */
  lemma FirstDefault(s0: State, cs: seq<Contribution>, steps: seq<Step>, house: MemberId, defaulter: MemberId,
                     exposure: real)
    requires Initial(s0, cs) && s0.house == Some(house) && EquityOf(house) in s0.books.accounts
    requires forall st | st in steps ::
               !st.DeclareDefault? && SparesKind(st, CcpEquity) && SparesKind(st, DefaultFund)
    requires forall c | c in cs && FundOf(c.member) in s0.books.accounts ::
               c.member == defaulter || IsSurvivor(MarkDefaulted(s0.members, defaulter), defaulter, c.member)
    ensures var s := Run(s0, steps);
            var marked := MarkDefaulted(s.members, defaulter);
            var covers := Covers(s.books, marked, s.house, defaulter);
            var p := Execute(s.books, marked, s.house, defaulter, exposure, |s.defaults|);
            && covers[4] == MarginPosted(s.books, defaulter)
                            + Capacity(LimitShares(marked, defaulter), ALLOCATION_CAP)
            && (|p.steps| >= 3 <==> exposure > covers[0] && exposure > covers[1])
            && (|p.steps| >= 3 ==> p.steps[2].applied == -TotalContributed(s0.books.accounts, cs))
  {
    hide Invariant, Run, Initial, Balance, FundBalance, MarginPosted, Sum, Capacity, LimitShares, Execute, Contributed,
      IsSurvivor, FundShares;
    var s := Run(s0, steps);
    InitialBooks(s0, cs, steps);
    InitialMembers(s0, cs);
    SeededEquityIsNegative(s0.books.accounts, house, cs, defaulter);
    RunSpares(s0, steps, EquityOf(house));
    var marked := MarkDefaulted(s.members, defaulter);
    forall m: MemberId ensures FundBalance(s.books, m) == Sum(cs, ContributedBy(s.books.accounts, m)) {
      SeededEquityIsNegative(s0.books.accounts, house, cs, m);
      RunSpares(s0, steps, FundOf(m));
      SameFund(s.books, s0.books, m);
    }
    SurvivorFunds(s.books, marked, defaulter, cs);
    forall i | 0 <= i < |cs|
      ensures Contributed(s.books.accounts)(cs[i])
              == ContributedBy(s.books.accounts, defaulter)(cs[i])
                 + Surviving(s.books.accounts, marked, defaulter)(cs[i])
    {
      assert cs[i] in cs;
      DefaulterDiesOut(s.books.accounts, marked, defaulter, cs[i]);
    }
    SumAdd(cs, ContributedBy(s.books.accounts, defaulter), Surviving(s.books.accounts, marked, defaulter),
           Contributed(s.books.accounts));
    StepThreeRuns(s.books, marked, s.house, defaulter, exposure, |s.defaults|);
    WaterfallCollects(s.books, marked, s.house, defaulter, exposure, |s.defaults|);
    SecondLossPositive(s.books, marked, s.house, defaulter, exposure, |s.defaults|);
    TotalNonNegative(s0.books.accounts, cs);
  }

  lemma SameFund(b: Books, c: Books, m: MemberId)
    requires Balance(b, FundOf(m)) == Balance(c, FundOf(m))
    ensures FundBalance(b, m) == FundBalance(c, m)
  {
  }

  lemma InitialMembers(s0: State, cs: seq<Contribution>)
    requires Initial(s0, cs)
    ensures UniqueIds(s0.members) && forall c | c in cs :: c.amount > 0.0
  {
  }

  /** A contribution without an account counts for nothing; the defaulter is no survivor. */
  lemma DefaulterDiesOut(accounts: seq<Account>, members: seq<Member>, defaulter: MemberId, c: Contribution)
    ensures FundOf(c.member) !in accounts ==> Contributed(accounts)(c) == 0.0
    ensures !IsSurvivor(members, defaulter, defaulter)
  {
  }

  lemma TotalNonNegative(accounts: seq<Account>, cs: seq<Contribution>)
    requires forall c | c in cs :: c.amount > 0.0
    ensures TotalContributed(accounts, cs) >= 0.0
  {
    forall i | 0 <= i < |cs| ensures Contributed(accounts)(cs[i]) >= 0.0 {
      assert cs[i] in cs;
    }
    SumNonNegative(cs, Contributed(accounts));
  }
}
