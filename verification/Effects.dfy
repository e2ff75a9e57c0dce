/** What the steps of the clearing house do to its tables, read off the tables alone. */
module Effects {
  import opened Options
  import opened Sums
  import opened Ledger
  import opened Registry
  import opened Model
  import opened Outbox
  import opened Trading
  import opened NettingCycle
  import opened CycleTerms
  import opened Collateral
  import opened Waterfall
  import opened Settlement
  import opened System
  import opened Theorems

  // ---------------------------------------------------------------- frames

  /** Which tables each step may change. The house, the instruments and the chain adapters are fixed. */
  ghost predicate Touches(s: State, t: State, step: Step) {
    && t.house == s.house && t.instruments == s.instruments && t.adapters == s.adapters
    && (!step.QuotePrice? ==> t.prices == s.prices)
    && (!step.DeclareDefault? ==> t.members == s.members && t.defaults == s.defaults)
    && (!step.SubmitTrade? && !step.IngestTrade? ==> t.trades == s.trades)
    && (!step.IngestTrade? && !step.RunNetting? ==> t.legs == s.legs)
    && (!step.RunNetting? ==> t.cycles == s.cycles)
    && (!step.RunNetting? && !step.SettleMessage? && !step.OnChain? && !step.RouteToChain? ==>
          t.instructions == s.instructions)
    && (!step.SettleMessage? && !step.OnChain? ==> t.transitions == s.transitions && t.runs == s.runs)
    && (!step.IngestTrade? && !step.SettleMessage? ==> t.processed == s.processed && t.effects == s.effects)
    && (!step.SubmitTrade? && !step.RunNetting? && !step.Publish? ==> t.bus == s.bus)
    && (step.SubmitTrade? || step.Publish? || step.RunNetting? || step.RouteToChain? || step.QuotePrice? ==>
          t.books == s.books)
  }

  lemma DefaultTouches(s: State, m: MemberId, exposure: real)
    ensures Touches(s, AfterDefault(s, m, exposure), DeclareDefault(m, exposure))
  {
    hide Execute, PayAll, TriggerAccepts;
  }

  lemma IngestTouches(s: State, o: nat, now: int)
    ensures Touches(s, AfterIngest(s, o, now), IngestTrade(o, now))
  {
    hide Process;
  }

  lemma SettleTouches(s: State, o: nat)
    ensures Touches(s, AfterSettle(s, o), SettleMessage(o))
  {
    hide Settle;
  }

  lemma NextTouches(s: State, step: Step)
    ensures Touches(s, Next(s, step), step)
  {
    hide Deposit, Withdraw, TransferToMargin, VariationMarginPosting, NextBus, NextRun, AfterDefault, AfterIngest,
      AfterSettle, CycleObligations, EmitInstructions;
    match step
    case DeclareDefault(m, exposure) => DefaultTouches(s, m, exposure);
    case IngestTrade(o, now) => IngestTouches(s, o, now);
    case SettleMessage(o) => SettleTouches(s, o);
    case _ =>
  }

  // ---------------------------------------------------------------- submission

  /** A submission is accepted exactly when both parties are members and the instrument is listed. It then adds the
      trade as it was submitted, and one unpublished event that carries the same data; otherwise nothing changes. */
  lemma SubmissionExactly(s: State, data: TradeData)
    ensures var t := Next(s, SubmitTrade(data));
            var accepted := && (exists m :: m in s.members && m.id == data.buyer)
                            && (exists m :: m in s.members && m.id == data.seller)
                            && data.instrument in s.instruments;
            t == if accepted then
                   s.(trades := s.trades + [Trade(data, Submitted)],
                      bus := s.bus.(rows := s.bus.rows + [Row(TradeSubmitted(|s.trades|, data), false)]))
                 else s
  {
  }

  lemma IngestKeepsTerms(s: State, o: nat, now: int)
    ensures |s.trades| == |AfterIngest(s, o, now).trades|
    ensures forall n | 0 <= n < |s.trades| :: AfterIngest(s, o, now).trades[n].data == s.trades[n].data
  {
    hide LockMargin, Valid, MarginOf;
  }

  /** No run ever changes the terms of a trade. */
  lemma {:induction false} TermsStay(s: State, steps: seq<Step>)
    ensures |s.trades| <= |Run(s, steps).trades|
    ensures forall n | 0 <= n < |s.trades| :: Run(s, steps).trades[n].data == s.trades[n].data
  {
    hide Next, AfterIngest;
    if steps != [] {
      var before, step := Run(s, steps[..|steps| - 1]), steps[|steps| - 1];
      TermsStay(s, steps[..|steps| - 1]);
      NextTouches(before, step);
      match step
      case SubmitTrade(data) => SubmissionExactly(before, data);
      case IngestTrade(o, now) =>
        IngestKeepsTerms(before, o, now);
        IngestIsNext(before, o, now);
      case _ =>
    }
  }

  /** From submission to the legs, across any run: an accepted submission keeps its row number and its terms. If it
      has been novated by then, the buyer that was submitted holds its one BUY leg and the seller its one SELL leg,
      in the instrument, quantity and price that were submitted; if not, there is no leg of it. */
  lemma SubmissionReachesLegs(s: State, data: TradeData, steps: seq<Step>)
    requires Reachable(s) && Next(s, SubmitTrade(data)) != s
    ensures var t, n := Run(Next(s, SubmitTrade(data)), steps), |s.trades|;
            && n < |t.trades| && t.trades[n].data == data
            && (t.trades[n].status != Novated ==> forall l | l in t.legs :: l.trade != n)
            && (t.trades[n].status == Novated ==>
                  exists i, j ::
                    && 0 <= i < |t.legs| && 0 <= j < |t.legs|
                    && t.legs[i] == Leg(n, data.buyer, data.instrument, Buy, data.quantity, data.price,
                                        t.legs[i].status, t.legs[i].novatedAt)
                    && t.legs[j] == Leg(n, data.seller, data.instrument, Sell, data.quantity, data.price,
                                        t.legs[i].status, t.legs[i].novatedAt)
                    && forall l | 0 <= l < |t.legs| && t.legs[l].trade == n :: l == i || l == j)
  {
    hide Reachable, Next, Run;
    var s1 := Next(s, SubmitTrade(data));
    var t := Run(s1, steps);
    SubmissionExactly(s, data);
    TermsStay(s1, steps);
    ReachableNext(s, SubmitTrade(data));
    ReachableRun(s1, steps);
    assert t.trades[|s.trades|].data == data;
    TradeLegs(t, |s.trades|);
  }

  // ---------------------------------------------------------------- ingestion

  /** What decides a submitted trade: the parties differ and are active members, its amounts are positive, its
      instrument is listed, active and has a positive margin rate, and both parties have both margin accounts. */
  ghost predicate IsNovatable(s: State, data: TradeData) {
    && data.buyer != data.seller && data.quantity > 0.0 && data.price > 0.0
    && (exists m :: m in s.members && m.id == data.buyer && m.status == Active)
    && (exists m :: m in s.members && m.id == data.seller && m.status == Active)
    && data.instrument in s.instruments && s.instruments[data.instrument].active
    && s.instruments[data.instrument].imRate > 0.0
    && Account(data.buyer, MarginIm, Available) in s.books.accounts
    && Account(data.buyer, MarginIm, Locked) in s.books.accounts
    && Account(data.seller, MarginIm, Available) in s.books.accounts
    && Account(data.seller, MarginIm, Locked) in s.books.accounts
  }

  lemma NovatableRows(s: State, data: TradeData)
    ensures IsNovatable(s, data) <==>
      && data.buyer != data.seller && data.quantity > 0.0 && data.price > 0.0
      && (exists i :: 0 <= i < |s.members| && s.members[i].id == data.buyer && s.members[i].status == Active)
      && (exists i :: 0 <= i < |s.members| && s.members[i].id == data.seller && s.members[i].status == Active)
      && data.instrument in s.instruments && s.instruments[data.instrument].active
      && s.instruments[data.instrument].imRate > 0.0
      && (forall m, pool | m in {data.buyer, data.seller} && pool in {Available, Locked} ::
            Account(m, MarginIm, pool) in s.books.accounts)
  {
    FourAccounts(s.books.accounts, data.buyer, data.seller);
  }

  lemma IngestedTrade(s: State, o: nat)
    requires Invariant(s) && o < |s.bus.log| && s.bus.log[o].payload.TradeSubmitted?
    requires Mark(TradeIngestion, s.bus.log[o].event) !in s.processed
    ensures var m := s.bus.log[o]; m.payload.trade < |s.trades|
    ensures var m := s.bus.log[o]; s.trades[m.payload.trade] == Trade(m.payload.data, Submitted)
  {
    hide Safe, Consistent, InstructionInvariant, CycleInvariant, FlatInvariant, DeskInvariant, TypedInvariant;
    MessagePart(s, o);
    var e := s.bus.log[o].event;
    assert Payloads(s.bus.rows)[e] == s.bus.rows[e].payload;
  }

  /** The first delivery of a submitted trade, completely: the trade is novated or rejected as IsNovatable says; a
      novated one gets its two legs, and margin of quantity times price times rate moves between the LOCKED and
      AVAILABLE accounts of the two parties, under one journal for each leg; the event is marked; nothing else
      changes. */
  lemma IngestionExactly(s: State, o: nat, now: int, a: Account)
    requires Reachable(s) && o < |s.bus.log| && s.bus.log[o].payload.TradeSubmitted?
    requires Mark(TradeIngestion, s.bus.log[o].event) !in s.processed
    ensures var m := s.bus.log[o];
            var n, data, mark := m.payload.trade, m.payload.data, Mark(TradeIngestion, m.event);
            var t := Next(s, IngestTrade(o, now));
            && n < |s.trades| && s.trades[n] == Trade(data, Submitted)
            && t == s.(books := t.books,
                       trades := s.trades[n := Trade(data, if IsNovatable(s, data) then Novated else Rejected)],
                       legs := if IsNovatable(s, data) then
                                 s.legs +
                                 [Leg(n, data.buyer, data.instrument, Buy, data.quantity, data.price, Open, now),
                                  Leg(n, data.seller, data.instrument, Sell, data.quantity, data.price, Open, now)]
                               else s.legs,
                       processed := s.processed + {mark},
                       effects := s.effects + [mark])
            && (!IsNovatable(s, data) ==> t.books == s.books)
            && (IsNovatable(s, data) ==>
                  && t.books.accounts == s.books.accounts
                  && t.books.journals ==
                       s.books.journals + [Journal(MarginLock, OfLeg(|s.legs|), JournalConfirmed),
                                           Journal(MarginLock, OfLeg(|s.legs| + 1), JournalConfirmed)]
                  && var amount := data.quantity * data.price * s.instruments[data.instrument].imRate;
                     Balance(t.books, a)
                     == Balance(s.books, a)
                        + (if a.kind != MarginIm || a.member !in {data.buyer, data.seller} then 0.0
                           else if a.pool == Available then amount
                           else if a.pool == Locked then -amount else 0.0))
  {
    hide Process, Reachable, Invariant, Balance, IsNovatable;
    ReachableInvariant(s);
    IngestedTrade(s, o);
    var m := s.bus.log[o];
    var n, data := m.payload.trade, m.payload.data;
    IngestTouches(s, o, now);
    NovatableRows(s, data);
    NovatedExactly(BlotterOf(s), s.members, s.instruments, n, data, now);
    NovationPosts(BlotterOf(s), s.members, s.instruments, n, data, now, a);
    ProcessedTrades(BlotterOf(s), s.members, s.instruments, n, data, now);
  }

  lemma ProcessedTrades(bl: Blotter, members: seq<Member>, instruments: map<InstrumentId, Instrument>, n: nat,
                        data: TradeData, now: int)
    requires n < |bl.trades|
    ensures var after := Process(bl, members, instruments, n, data, now);
            after.trades == bl.trades[n := bl.trades[n].(status := after.trades[n].status)]
  {
    hide LockMargin, Valid, MarginOf;
  }

  // ---------------------------------------------------------------- netting

  /** A netting cycle, completely. Without a CCP house it changes nothing. Otherwise it adds a cycle with its
      obligations (ObligationsExactly says which); one pending instruction for each of them, by which a member
      that owes pays the CCP and is paid by it otherwise, over the absolute amount and quantity; and one
      unpublished event for each instruction. It turns exactly the open legs up to the cut-off to netted. */
  lemma CycleExactly(s: State, cutoff: int)
    ensures var t := Next(s, RunNetting(cutoff));
            var os := CycleObligations(s.legs, s.instruments, s.prices, cutoff);
            var n := |s.instructions|;
            if s.house.None? then t == s
            else
              && t == s.(legs := t.legs, instructions := t.instructions, bus := t.bus, cycles := t.cycles)
              && t.cycles == s.cycles + [Cycle(cutoff, os, set i | 0 <= i < |s.legs| && s.legs[i].status == Open
                                                                   && s.legs[i].novatedAt <= cutoff)]
              && |t.legs| == |s.legs|
              && (forall i | 0 <= i < |s.legs| ::
                    t.legs[i] == if s.legs[i].status == Open && s.legs[i].novatedAt <= cutoff
                                 then s.legs[i].(status := Netted) else s.legs[i])
              && |t.instructions| == n + |os| && t.instructions[..n] == s.instructions
              && (forall j | 0 <= j < |os| ::
                    var o, h := os[j], s.house.value;
                    t.instructions[n + j]
                    == Instruction(|s.cycles|, if o.netAmount > 0.0 then o.member else h,
                                   if o.netAmount > 0.0 then h else o.member, o.instrument,
                                   if o.netQuantity >= 0.0 then o.netQuantity else -o.netQuantity,
                                   if o.netAmount >= 0.0 then o.netAmount else -o.netAmount, o.settlement, None,
                                   Pending))
              && t.bus == s.bus.(rows := s.bus.rows + seq(|os|, j requires 0 <= j < |os| =>
                                                        Row(InstructionCreated(n + j), false)))
  {
    hide CycleObligations, EmitInstructions;
    if s.house.Some? {
      var os := CycleObligations(s.legs, s.instruments, s.prices, cutoff);
      Emitted(s.bus, |s.instructions|, |os|);
      assert IncludedRows(s.legs, cutoff) == set i | 0 <= i < |s.legs| && s.legs[i].status == Open
                                                     && s.legs[i].novatedAt <= cutoff;
      forall j | 0 <= j < |os| ensures os[j].settlementAmount == Abs(os[j].netAmount) {
        ObligationsExactly(s.legs, s.instruments, s.prices, cutoff, os[j]);
      }
    }
  }

  lemma {:induction false} Emitted(bus: Bus, first: nat, n: nat)
    ensures var after := EmitInstructions(bus, first, n);
            after == bus.(rows := bus.rows + seq(n, j requires 0 <= j < n =>
                                                Row(InstructionCreated(first + j), false)))
  {
    if n > 0 {
      Emitted(bus, first, n - 1);
    } else {
      assert bus.rows + [] == bus.rows;
    }
  }

  // ---------------------------------------------------------------- defaults

  /** A declared default, as far as its tables go: all of it is lost if the member is unknown or the commit trigger
      refuses the waterfall's journals. Otherwise the member is marked as defaulted, and nobody else; the event
      records the exposure, the waterfall's rows and the loss left, resolved exactly if none is; the journals are
      confirmed waterfall journals about the event; and nothing else changes. */
  lemma DefaultExactly(s: State, m: MemberId, exposure: real)
    requires Reachable(s)
    ensures var t, n := Next(s, DeclareDefault(m, exposure)), |s.defaults|;
            var marked := seq(|s.members|, i requires 0 <= i < |s.members| =>
                                if s.members[i].id == m then s.members[i].(status := Defaulted) else s.members[i]);
            var p := Execute(s.books, marked, s.house, m, exposure, n);
            var row := DefaultEvent(m, exposure, if p.remaining == 0.0 then Resolved else PartiallyResolved,
                                    p.remaining, p.steps);
            if (exists x :: x in s.members && x.id == m) && Balanced(PayAll(s.books, s.house, n, p.payments)) then
              && t == s.(books := t.books, members := marked, defaults := s.defaults + [row])
              && t.books.accounts == s.books.accounts
              && t.books.journals == s.books.journals +
                   seq(|p.payments|, i requires 0 <= i < |p.payments| =>
                     Journal(WaterfallStep, OfDefault(n), JournalConfirmed))
              && t.books == PayAll(s.books, s.house, n, p.payments)
            else t == s
  {
    hide Reachable, Invariant, Execute, PayAll, TriggerAccepts, Sound, Balanced;
    ReachableInvariant(s);
    SoundParts(s);
    var n := |s.defaults|;
    var marked := seq(|s.members|, i requires 0 <= i < |s.members| =>
                        if s.members[i].id == m then s.members[i].(status := Defaulted) else s.members[i]);
    assert marked == MarkDefaulted(s.members, m);
    var p := Execute(s.books, marked, s.house, m, exposure, n);
    WaterfallConserves(s.books, marked, s.house, m, exposure, n);
    PayAllBalances(s.books, s.house, n, p.payments);
    WellFormedEntries(PayAll(s.books, s.house, n, p.payments));
    TriggerExact(s.books, PayAll(s.books, s.house, n, p.payments));
    PayAllJournals(s.books, s.house, n, p.payments);
  }

  lemma WellFormedEntries(b: Books)
    requires WellFormed(b)
    ensures forall e | e in b.entries :: 0 <= e.journal < |b.journals|
  {
  }

  lemma {:induction false} PayAllJournals(b: Books, house: Option<MemberId>, event: nat, ps: seq<Payment>)
    ensures PayAll(b, house, event, ps).accounts == b.accounts
    ensures PayAll(b, house, event, ps).journals
            == b.journals + seq(|ps|, i requires 0 <= i < |ps| =>
                                  Journal(WaterfallStep, OfDefault(event), JournalConfirmed))
  {
    if ps != [] {
      PayAllJournals(b, house, event, ps[..|ps| - 1]);
    }
  }

  // ---------------------------------------------------------------- collateral and margin

  /** A journal that takes `amount` from one account to another, and does nothing else. */
  ghost predicate Transfers(s: State, t: State, kind: JournalKind, reference: Reference, from: Account, to: Account,
                            amount: real, a: Account)
  {
    && t == s.(books := t.books)
    && t.books.accounts == s.books.accounts
    && t.books.journals == s.books.journals + [Journal(kind, reference, JournalConfirmed)]
    && Balance(t.books, a)
       == Balance(s.books, a) + (if a == to then amount else 0.0) - (if a == from then amount else 0.0)
  }

  /** A deposit of a positive amount, when the member's collateral account and the CCP's settlement account exist,
      takes it from the latter to the former; otherwise nothing happens. */
  lemma DepositExactly(s: State, m: MemberId, amount: real, a: Account)
    ensures var t := Next(s, DepositCollateral(m, amount));
            var collateral := Account(m, AccountKind.Collateral, Available);
            if amount > 0.0 && collateral in s.books.accounts && s.house.Some?
               && Account(s.house.value, AccountKind.Settlement, Available) in s.books.accounts
            then Transfers(s, t, CollateralDeposit, OfMember(m),
                           Account(s.house.value, AccountKind.Settlement, Available), collateral, amount, a)
            else t == s
  {
    hide Balance;
    GrantedExactly(s.books, s.house, m, amount, MarginIm);
    if s.house.Some? {
      CollateralMoves(s.books, s.house.value, m, amount, MarginIm, a);
    }
  }

  /** A withdrawal takes it back, if the member's collateral balance allows it. */
  lemma WithdrawalExactly(s: State, m: MemberId, amount: real, a: Account)
    ensures var t := Next(s, WithdrawCollateral(m, amount));
            var collateral := Account(m, AccountKind.Collateral, Available);
            if amount > 0.0 && collateral in s.books.accounts && Balance(s.books, collateral) >= amount
               && s.house.Some? && Account(s.house.value, AccountKind.Settlement, Available) in s.books.accounts
            then Transfers(s, t, CollateralWithdrawal, OfMember(m), collateral,
                           Account(s.house.value, AccountKind.Settlement, Available), amount, a)
            else t == s
  {
    hide Balance;
    GrantedExactly(s.books, s.house, m, amount, MarginIm);
    if s.house.Some? {
      CollateralMoves(s.books, s.house.value, m, amount, MarginIm, a);
    }
  }

  /** A margin transfer takes it from the member's collateral to the named AVAILABLE account of the same member. */
  lemma MoveExactly(s: State, m: MemberId, amount: real, kind: AccountKind, a: Account)
    ensures var t := Next(s, MoveToMargin(m, amount, kind));
            var collateral, target := Account(m, AccountKind.Collateral, Available), Account(m, kind, Available);
            if amount > 0.0 && collateral in s.books.accounts && Balance(s.books, collateral) >= amount
               && target in s.books.accounts
            then Transfers(s, t, CollateralDeposit, OfMember(m), collateral, target, amount, a)
            else t == s
  {
    hide Balance;
    GrantedExactly(s.books, s.house, m, amount, kind);
    CollateralMoves(s.books, 0, m, amount, kind, a);
  }

  /** A variation margin of either sign goes from the member's LOCKED to its AVAILABLE VM account. */
  lemma VariationExactly(s: State, m: MemberId, x: InstrumentId, vm: real, a: Account)
    ensures var t := Next(s, PostVariationMargin(m, x, vm));
            var open, locked := Account(m, MarginVm, Available), Account(m, MarginVm, Locked);
            if vm != 0.0 && open in s.books.accounts && locked in s.books.accounts
            then Transfers(s, t, VariationMargin, OfInstrument(x), locked, open, vm, a)
            else t == s
  {
    hide Balance;
    VariationMarginMoves(s.books, m, x, vm, a);
  }

  // ---------------------------------------------------------------- quotes and routing

  /** The last quote of an instrument in a run, or the price before it. */
  function LastQuote(before: Option<real>, steps: seq<Step>, x: InstrumentId): Option<real> {
    if steps == [] then before
    else
      var last := steps[|steps| - 1];
      if last.QuotePrice? && last.instrument == x then Some(last.price)
      else LastQuote(before, steps[..|steps| - 1], x)
  }

  /** Whatever else happens, the price that a cycle finds is the last one quoted. */
  lemma {:induction false} PriceIsLastQuote(s: State, steps: seq<Step>, x: InstrumentId)
    ensures var t := Run(s, steps);
            (if x in t.prices then Some(t.prices[x]) else None)
            == LastQuote(if x in s.prices then Some(s.prices[x]) else None, steps, x)
  {
    hide Next;
    if steps != [] {
      PriceIsLastQuote(s, steps[..|steps| - 1], x);
      NextTouches(Run(s, steps[..|steps| - 1]), steps[|steps| - 1]);
      QuoteExactly(Run(s, steps[..|steps| - 1]), steps[|steps| - 1]);
    }
  }

  lemma QuoteExactly(s: State, step: Step)
    ensures step.QuotePrice? ==> Next(s, step) == s.(prices := s.prices[step.instrument := step.price])
  {
  }

  /** Routing gives a pending instruction its chain, and changes nothing else. */
  lemma RoutingExactly(s: State, i: nat, chain: nat)
    ensures Next(s, RouteToChain(i, chain))
            == if i < |s.instructions| && s.instructions[i].status == Pending
               then s.(instructions := s.instructions[i := s.instructions[i].(chain := Some(chain))]) else s
  {
  }
}
