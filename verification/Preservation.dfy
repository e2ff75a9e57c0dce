/** Every step of the clearing house keeps its invariant. */
module Preservation {
  import opened Options
  import opened Sums
  import opened Ledger
  import opened Registry
  import opened Model
  import opened Outbox
  import opened Trading
  import opened Netting
  import opened NettingCycle
  import opened Settlement
  import opened Waterfall
  import opened Collateral
  import opened System

  // ---------------------------------------------------------------- frames

  /** c differs from b by journals that are not settlement transfers. */
  ghost predicate SameSettlement(b: Books, c: Books) {
    && b.accounts == c.accounts
    && (forall r: Reference ::
          CountJournals(b.journals, SettlementTransfer, r) == CountJournals(c.journals, SettlementTransfer, r))
    && (forall a: Account :: KindBalance(b, SettlementTransfer, a) == KindBalance(c, SettlementTransfer, a))
  }

  lemma OtherJournal(b: Books, kind: JournalKind, reference: Reference, lines: seq<Line>)
    requires WellFormed(b) && kind != SettlementTransfer
    ensures SameSettlement(b, Post(b, kind, reference, lines))
  {
    hide KindBalance;
    forall r: Reference
      ensures CountJournals(b.journals, SettlementTransfer, r)
              == CountJournals(Post(b, kind, reference, lines).journals, SettlementTransfer, r)
    {
      CountSnoc(b.journals, Journal(kind, reference, JournalConfirmed), SettlementTransfer, r);
    }
    forall a: Account
      ensures KindBalance(b, SettlementTransfer, a)
              == KindBalance(Post(b, kind, reference, lines), SettlementTransfer, a)
    {
      PostMovesKind(b, kind, reference, lines, SettlementTransfer, a);
    }
  }

  /** Books that agree on settlement transfers serve the same desk. */
  lemma DeskFrame(d: Desk, c: Books)
    requires DeskInvariant(d) && Sound(c) && SameSettlement(d.books, c)
    ensures DeskInvariant(d.(books := c))
    ensures c.accounts == d.books.accounts
  {
    hide Sound, CountJournals, KindBalance, HistoryInvariant, RunsInvariant;
  }

  /** a and b agree on everything that decides flows. */
  ghost predicate SameFlows(a: seq<Instruction>, b: seq<Instruction>) {
    && |a| == |b|
    && forall i | 0 <= i < |a| ::
         && a[i].from == b[i].from && a[i].to == b[i].to && a[i].amount == b[i].amount
         && a[i].instrument == b[i].instrument && a[i].settlement == b[i].settlement
  }

  lemma {:induction false} SameFlowsSum(a: seq<Instruction>, b: seq<Instruction>, x: InstrumentId,
                                        kind: SettlementType, m: MemberId)
    requires SameFlows(a, b)
    ensures Sum(a, FlowIn(x, m)) == Sum(b, FlowIn(x, m))
    ensures Sum(a, FlowOf(kind, m)) == Sum(b, FlowOf(kind, m))
  {
    if a != [] {
      var n := |a| - 1;
      SameFlowsSum(a[..n], b[..n], x, kind, m);
      assert FlowTo(m)(a[n]) == FlowTo(m)(b[n]);
      assert FlowIn(x, m)(a[n]) == FlowIn(x, m)(b[n]);
      assert FlowOf(kind, m)(a[n]) == FlowOf(kind, m)(b[n]);
    }
  }

  lemma FlatFrame(trades: seq<Trade>, house: Option<MemberId>, cycles: seq<Cycle>, a: seq<Instruction>,
                  b: seq<Instruction>)
    requires FlatInvariant(trades, house, cycles, a) && SameFlows(a, b)
    ensures FlatInvariant(trades, house, cycles, b)
  {
    hide Sum;
    if house.Some? && HouseNotParty(trades, house.value) {
      forall x: InstrumentId ensures Sum(b, FlowIn(x, house.value)) == 0.0 {
        SameFlowsSum(a, b, x, Cash, house.value);
      }
      forall kind: SettlementType, m: MemberId | m != house.value
        ensures Sum(b, FlowOf(kind, m)) == -Sum(cycles, CycleAmountOf(kind, m))
      {
        SameFlowsSum(a, b, 0, kind, m);
      }
    }
  }

  // ---------------------------------------------------------------- trades

  lemma SubmitConsistent(trades: seq<Trade>, legs: seq<Leg>, t: Trade)
    requires Consistent(trades, legs) && t.status == Submitted
    ensures Consistent(trades + [t], legs)
  {
    var after := trades + [t];
    forall k | 0 <= k < |legs| / 2 ensures PairAt(after, legs, k) && PairAt(trades, legs, k) {
      assert PairAt(trades, legs, k);
      PairsFrame(trades, legs, after, legs, k);
    }
    forall i | 0 <= i < |after| && after[i].status == Novated ensures HasPair(after, legs, i) {
      assert HasPair(trades, legs, i);
    }
  }

  lemma SubmitEvents(trades: seq<Trade>, events: seq<Payload>, processed: set<Mark>, data: TradeData)
    requires EventInvariant(trades, events, processed)
    ensures EventInvariant(trades + [Trade(data, Submitted)], events + [TradeSubmitted(|trades|, data)], processed)
  {
  }

  lemma OtherEvent(instructions: seq<Instruction>, events: seq<Payload>, processed: set<Mark>, p: Payload)
    requires InstructionInvariant(instructions, events, processed) && !p.InstructionCreated?
    ensures InstructionInvariant(instructions, events + [p], processed)
  {
    forall i | 0 <= i < |instructions| ensures IsAnnounced(events + [p], i) {
      assert IsAnnounced(events, i);
      var e :| 0 <= e < |events| && events[e] == InstructionCreated(i);
      assert (events + [p])[e] == InstructionCreated(i);
    }
  }

  lemma OtherMark(instructions: seq<Instruction>, events: seq<Payload>, processed: set<Mark>, m: Mark)
    requires InstructionInvariant(instructions, events, processed) && m.service != SettlementEngine
    ensures InstructionInvariant(instructions, events, processed + {m})
  {
  }

  /** Only whether an instruction is pending matters. */
  lemma SamePending(a: seq<Instruction>, b: seq<Instruction>, events: seq<Payload>, processed: set<Mark>)
    requires InstructionInvariant(a, events, processed) && |a| == |b|
    requires forall i | 0 <= i < |a| :: a[i].status == Pending <==> b[i].status == Pending
    ensures InstructionInvariant(b, events, processed)
  {
  }

  lemma AnnouncedInstructions(a: seq<Instruction>, events: seq<Payload>, processed: set<Mark>, added: seq<Instruction>)
    requires InstructionInvariant(a, events, processed)
    requires forall i | 0 <= i < |added| :: added[i].status == Pending
    requires forall m | m in processed :: m.event < |events|
    ensures var more := seq(|added|, i requires 0 <= i < |added| => InstructionCreated(|a| + i));
            InstructionInvariant(a + added, events + more, processed)
  {
    var more := seq(|added|, i requires 0 <= i < |added| => InstructionCreated(|a| + i));
    forall i | 0 <= i < |a + added| ensures IsAnnounced(events + more, i) {
      if i < |a| {
        assert IsAnnounced(events, i);
        var e :| 0 <= e < |events| && events[e] == InstructionCreated(i);
        assert (events + more)[e] == InstructionCreated(i);
      } else {
        assert (events + more)[|events| + (i - |a|)] == InstructionCreated(i);
      }
    }
  }

  lemma SettledEvent(d: Desk, after: Desk, events: seq<Payload>, processed: set<Mark>, e: nat)
    requires InstructionInvariant(d.instructions, events, processed)
    requires e < |events| && events[e].InstructionCreated?
    requires OnlyAt(d, after, events[e].instruction)
    requires after.instructions[events[e].instruction].status != Pending
    ensures InstructionInvariant(after.instructions, events, processed + {Mark(SettlementEngine, e)})
  {
  }

  lemma SubmitKeeps(s: State, data: TradeData)
    requires Invariant(s)
    ensures Invariant(AfterSubmit(s, data))
  {
    hide Safe, BusInvariant, DeskInvariant, Consistent, EventInvariant, InstructionInvariant, CycleInvariant, FlatFor;
    var s' := AfterSubmit(s, data);
    if s' != s {
      EmitKeeps(s.bus, TradeSubmitted(|s.trades|, data));
      SubmitConsistent(s.trades, s.legs, Trade(data, Submitted));
      SubmitEvents(s.trades, Payloads(s.bus.rows), s.processed, data);
      assert Payloads(s'.bus.rows) == Payloads(s.bus.rows) + [TradeSubmitted(|s.trades|, data)];
      OtherEvent(s.instructions, Payloads(s.bus.rows), s.processed, TradeSubmitted(|s.trades|, data));
      FewerTrades(s.trades, [Trade(data, Submitted)], s.house, s.cycles, s.instructions);
    }
  }

  lemma FewerTrades(trades: seq<Trade>, more: seq<Trade>, house: Option<MemberId>, cycles: seq<Cycle>,
                    instructions: seq<Instruction>)
    requires FlatInvariant(trades, house, cycles, instructions)
    ensures FlatInvariant(trades + more, house, cycles, instructions)
  {
    assert forall t | t in trades :: t in trades + more;
  }

  lemma PayloadsStable(bus: Bus, step: BusStep)
    ensures Payloads(NextBus(bus, step).rows) == Payloads(bus.rows)
  {
  }

  lemma PublishKeeps(s: State, step: BusStep)
    requires Invariant(s)
    ensures Invariant(s.(bus := NextBus(s.bus, step)))
  {
    hide Safe, BusInvariant, DeskInvariant, Consistent, EventInvariant, InstructionInvariant, CycleInvariant,
      FlatInvariant, NextBus;
    NextBusKeeps(s.bus, step);
    PayloadsStable(s.bus, step);
  }

  /** The processed event's trade leaves `submitted`; no other trade changes. */
  lemma IngestEvents(trades: seq<Trade>, events: seq<Payload>, processed: set<Mark>, e: nat, status: TradeStatus)
    requires EventInvariant(trades, events, processed)
    requires e < |events| && events[e].TradeSubmitted? && status != Submitted
    ensures var t := events[e].trade;
            && t < |trades|
            && EventInvariant(trades[t := trades[t].(status := status)], events, processed + {Mark(TradeIngestion, e)})
  {
  }

  lemma ProcessShape(bl: Blotter, members: seq<Member>, instruments: map<InstrumentId, Instrument>, trade: nat,
                     data: TradeData, now: int)
    requires trade < |bl.trades|
    ensures var after := Process(bl, members, instruments, trade, data, now);
            && after.trades == bl.trades[trade := bl.trades[trade].(status := after.trades[trade].status)]
            && after.trades[trade].status != Submitted
            && (after.legs == bl.legs
                || after.legs == bl.legs + [LegOf(trade, data, Buy, Open, now), LegOf(trade, data, Sell, Open, now)])
  {
  }

  lemma NewLegsConserve(cycles: seq<Cycle>, legs: seq<Leg>, buy: Leg, sell: Leg)
    requires CycleInvariant(cycles, legs) && buy.status == Open && sell.status == Open
    ensures CycleInvariant(cycles, legs + [buy, sell])
  {
    hide Sum, FlatCycle;
    var after := legs + [buy, sell];
    assert after == legs + [buy] + [sell];
    forall k ensures Conserved(cycles, after, k) {
      assert Conserved(cycles, legs, k);
      SumSnoc(legs, buy, OpenOn(k));
      SumSnoc(legs, buy, EverOn(k));
      SumSnoc(legs + [buy], sell, OpenOn(k));
      SumSnoc(legs + [buy], sell, EverOn(k));
    }
  }

  lemma SameParties(trades: seq<Trade>, t: nat, status: TradeStatus, house: Option<MemberId>, cycles: seq<Cycle>,
                    instructions: seq<Instruction>)
    requires t < |trades| && FlatInvariant(trades, house, cycles, instructions)
    ensures FlatInvariant(trades[t := trades[t].(status := status)], house, cycles, instructions)
  {
    hide FlatFor;
    var after := trades[t := trades[t].(status := status)];
    if house.Some? && HouseNotParty(after, house.value) {
      forall x | x in trades ensures x.data.buyer != house.value && x.data.seller != house.value {
        var i :| 0 <= i < |trades| && trades[i] == x;
        assert after[i] in after;
      }
    }
  }

  lemma NovationBooks(bl: Blotter, members: seq<Member>, instruments: map<InstrumentId, Instrument>, trade: nat,
                      data: TradeData, now: int)
    requires Safe(bl.books)
    ensures var after := Process(bl, members, instruments, trade, data, now);
            Safe(after.books) && SameSettlement(bl.books, after.books)
  {
    hide Sound, Balance, Novate, KindBalance;
    var after := Process(bl, members, instruments, trade, data, now);
    NovationLedger(bl, members, instruments, trade, data, now, 0, CollateralOf(0));
    forall m: MemberId
      ensures Balance(after.books, CollateralOf(m)) >= 0.0 && FundBalance(after.books, m) >= 0.0
    {
      assert Balance(bl.books, CollateralOf(m)) >= 0.0 && FundBalance(bl.books, m) >= 0.0;
      NovationLedger(bl, members, instruments, trade, data, now, m, CollateralOf(m));
      NovationLedger(bl, members, instruments, trade, data, now, m, FundOf(m));
    }
    if Valid(members, instruments, data) {
      NovateSettlement(bl, instruments, trade, data, now);
    }
  }

  lemma NovateSettlement(bl: Blotter, instruments: map<InstrumentId, Instrument>, trade: nat, data: TradeData, now: int)
    requires Sound(bl.books) && data.instrument in instruments
    ensures Novate(bl, instruments, trade, data, now).Ok? ==>
      SameSettlement(bl.books, Novate(bl, instruments, trade, data, now).value.books)
  {
    hide Balance, KindBalance, MarginOf, Post;
    if Novate(bl, instruments, trade, data, now).Ok? {
      var amount := MarginOf(data, instruments[data.instrument].imRate);
      var first := LockMargin(bl.books, data.buyer, |bl.legs|, amount).value;
      LockKeepsSound(bl.books, data.buyer, |bl.legs|, amount);
      OtherJournal(bl.books, MarginLock, OfLeg(|bl.legs|),
                   [Debit(ImAccount(data.buyer, Available), amount), Credit(ImAccount(data.buyer, Locked), amount)]);
      OtherJournal(first, MarginLock, OfLeg(|bl.legs| + 1),
                   [Debit(ImAccount(data.seller, Available), amount), Credit(ImAccount(data.seller, Locked), amount)]);
    }
  }

  lemma IngestKeeps(s: State, offset: nat, now: int)
    requires Invariant(s)
    ensures Invariant(AfterIngest(s, offset, now))
  {
    hide Safe, DeskInvariant, Consistent, InstructionInvariant, CycleInvariant, FlatInvariant, TypedInvariant,
      SameSettlement, Process, LocksDisjoint, BatchesValid, CopiesBounded, InFlightLogged;
    var s' := AfterIngest(s, offset, now);
    if s' != s {
      var m := s.bus.log[offset];
      assert m in s.bus.log;
      var events := Payloads(s.bus.rows);
      assert events[m.event] == m.payload;
      var t := m.payload.trade;
      var bl := BlotterOf(s);
      var after := Process(bl, s.members, s.instruments, t, m.payload.data, now);
      ProcessShape(bl, s.members, s.instruments, t, m.payload.data, now);
      ProcessConsistent(bl, s.members, s.instruments, t, now);
      NovationBooks(bl, s.members, s.instruments, t, m.payload.data, now);
      SafeIsSound(after.books);
      DeskFrame(DeskOf(s), after.books);
      IngestEvents(s.trades, events, s.processed, m.event, after.trades[t].status);
      OtherMark(s.instructions, events, s.processed, Mark(TradeIngestion, m.event));
      SameParties(s.trades, t, after.trades[t].status, s.house, s.cycles, s.instructions);
      if after.legs != s.legs {
        NewLegsConserve(s.cycles, s.legs, LegOf(t, m.payload.data, Buy, Open, now),
                        LegOf(t, m.payload.data, Sell, Open, now));
      }
    }
  }

  lemma SafeIsSound(b: Books)
    requires Safe(b)
    ensures Sound(b)
  {
  }

  // ---------------------------------------------------------------- netting

  lemma {:induction false} EmitInstructionsKeeps(bus: Bus, first: nat, n: nat)
    requires BusInvariant(bus)
    ensures BusInvariant(EmitInstructions(bus, first, n))
    ensures |EmitInstructions(bus, first, n).rows| == |bus.rows| + n
    ensures Payloads(EmitInstructions(bus, first, n).rows)
            == Payloads(bus.rows) + seq(n, i requires 0 <= i < n => InstructionCreated(first + i))
  {
    hide BusInvariant;
    if n > 0 {
      EmitInstructionsKeeps(bus, first, n - 1);
      var before := EmitInstructions(bus, first, n - 1);
      EmitKeeps(before, InstructionCreated(first + n - 1));
      assert Payloads(Emit(before, InstructionCreated(first + n - 1)).rows)
          == Payloads(before.rows) + [InstructionCreated(first + n - 1)];
      assert seq(n, i requires 0 <= i < n => InstructionCreated(first + i))
          == seq(n - 1, i requires 0 <= i < n - 1 => InstructionCreated(first + i))
             + [InstructionCreated(first + n - 1)];
    }
  }

  lemma MoreEvents(trades: seq<Trade>, events: seq<Payload>, processed: set<Mark>, more: seq<Payload>)
    requires EventInvariant(trades, events, processed)
    requires forall p | p in more :: p.InstructionCreated?
    ensures EventInvariant(trades, events + more, processed)
  {
    assert forall i | |events| <= i < |events + more| :: (events + more)[i] in more;
  }

  lemma NettingConserves(s: State, cutoff: int)
    requires CycleInvariant(s.cycles, s.legs) && Consistent(s.trades, s.legs) && s.house.Some?
    ensures CycleInvariant(AfterNetting(s, cutoff).cycles, AfterNetting(s, cutoff).legs)
  {
    hide Sum, Consistent, CycleObligations;
    var s' := AfterNetting(s, cutoff);
    var c := s'.cycles[|s.cycles|];
    forall k ensures Conserved(s'.cycles, s'.legs, k) {
      assert Conserved(s.cycles, s.legs, k);
      SumSnoc(s.cycles, c, CycleNetOn(k));
      CycleObligationsNet(s, cutoff, k);
      MarkConserves(s.legs, cutoff, k);
    }
    forall x: InstrumentId ensures Sum(c.obligations, AmountIn(x)) == 0.0 {
      CycleFlat(s.trades, s.legs, s.instruments, s.prices, cutoff, x);
    }
    assert FlatCycle(c);
    forall d, i | NettedBy(s'.cycles, d, i)
      ensures 0 <= i < |s'.legs| && s'.legs[i].status == Netted
      ensures d < |s.cycles| ==> NettedBy(s.cycles, d, i) && s.legs[i].status == Netted
      ensures d == |s.cycles| ==> s.legs[i].status == Open
    {
      if d < |s.cycles| {
        assert NettedBy(s.cycles, d, i);
      }
    }
    forall i | 0 <= i < |s'.legs| && s'.legs[i].status == Netted ensures exists d :: NettedBy(s'.cycles, d, i) {
      if s.legs[i].status == Netted {
        var d :| NettedBy(s.cycles, d, i);
        assert NettedBy(s'.cycles, d, i);
      } else {
        assert NettedBy(s'.cycles, |s.cycles|, i);
      }
    }
  }

  lemma CycleObligationsNet(s: State, cutoff: int, k: Key)
    ensures Sum(CycleObligations(s.legs, s.instruments, s.prices, cutoff), QuantityOn(k))
            == Sum(s.legs, IncludedOn(cutoff, k))
  {
    CycleNet(s.legs, s.instruments, s.prices, cutoff, k);
  }

  lemma LegMembersAreParties(trades: seq<Trade>, legs: seq<Leg>, l: Leg, house: MemberId)
    requires Consistent(trades, legs) && HouseNotParty(trades, house) && l in legs
    ensures l.member != house
  {
    var i :| 0 <= i < |legs| && legs[i] == l;
    assert PairAt(trades, legs, i / 2);
    assert i == 2 * (i / 2) || i == 2 * (i / 2) + 1;
    assert trades[l.trade] in trades;
  }

  lemma NettingFlat(s: State, cutoff: int)
    requires Consistent(s.trades, s.legs) && FlatInvariant(s.trades, s.house, s.cycles, s.instructions)
    requires s.house.Some?
    ensures FlatInvariant(s.trades, s.house, AfterNetting(s, cutoff).cycles, AfterNetting(s, cutoff).instructions)
  {
    hide Sum, Consistent, CycleObligations, HouseNotParty;
    if HouseNotParty(s.trades, s.house.value) {
      var h := s.house.value;
      var s' := AfterNetting(s, cutoff);
      var os := CycleObligations(s.legs, s.instruments, s.prices, cutoff);
      var added := InstructionsOf(os, h, |s.cycles|);
      forall o | o in os ensures o.member != h && o.settlementAmount == Abs(o.netAmount) {
        ObligationShape(s.legs, s.instruments, s.prices, cutoff, o);
        var l :| l in s.legs && l.member == o.member;
        LegMembersAreParties(s.trades, s.legs, l, h);
      }
      forall x: InstrumentId ensures Sum(s'.instructions, FlowIn(x, h)) == 0.0 {
        SumConcat(s.instructions, added, FlowIn(x, h));
        InstructionFlows(os, h, |s.cycles|, x, Cash, h + 1);
        CycleFlat(s.trades, s.legs, s.instruments, s.prices, cutoff, x);
      }
      forall kind: SettlementType, m: MemberId | m != h
        ensures Sum(s'.instructions, FlowOf(kind, m)) == -Sum(s'.cycles, CycleAmountOf(kind, m))
      {
        SumConcat(s.instructions, added, FlowOf(kind, m));
        InstructionFlows(os, h, |s.cycles|, 0, kind, m);
        SumSnoc(s.cycles, s'.cycles[|s.cycles|], CycleAmountOf(kind, m));
      }
    }
  }

  /** Fresh pending instructions change no history, no journal count and no flow. */
  lemma NewInstructions(d: Desk, added: seq<Instruction>)
    requires DeskInvariant(d)
    requires forall i | i in added :: i.status == Pending
    ensures DeskInvariant(d.(instructions := d.instructions + added))
  {
    hide Sound, CountJournals, KindBalance, Sum;
    var all := d.instructions + added;
    forall i | |d.instructions| <= i < |all|
      ensures all[i].status == Pending && History(d.transitions, i) == []
    {
      assert all[i] in added;
      NoHistory(d.transitions, i);
    }
    forall m: MemberId
      ensures KindBalance(d.books, SettlementTransfer, SettlementAccount(m))
              == Sum(all, SettledFlow(d.books.accounts, m))
    {
      SumConcat(d.instructions, added, SettledFlow(d.books.accounts, m));
      forall i | 0 <= i < |added| ensures SettledFlow(d.books.accounts, m)(added[i]) == 0.0 {
        assert added[i] in added && !Settled(d.books.accounts, added[i]);
      }
      SumZero(added, SettledFlow(d.books.accounts, m));
    }
  }

  lemma {:induction false} NoHistory(log: seq<Transition>, i: nat)
    requires forall t | t in log :: t.instruction != i
    ensures History(log, i) == []
  {
    if log != [] {
      NoHistory(log[..|log| - 1], i);
    }
  }

  lemma NettingTyped(s: State, cutoff: int)
    requires TypedInvariant(s.instruments, s.books.accounts, s.instructions, s.runs)
    requires RunsInvariant(s.instructions, s.runs)
    ensures TypedInvariant(s.instruments, s.books.accounts, AfterNetting(s, cutoff).instructions, s.runs)
  {
    hide CycleObligations;
    if s.house.Some? {
      var os := CycleObligations(s.legs, s.instruments, s.prices, cutoff);
      forall o | o in os
        ensures o.settlement == TypeOf(s.instruments)(o.instrument) && o.settlementAmount == Abs(o.netAmount)
      {
        ObligationShape(s.legs, s.instruments, s.prices, cutoff, o);
      }
    }
  }

  lemma MarksAreOld(s: State)
    requires EventInvariant(s.trades, Payloads(s.bus.rows), s.processed)
    ensures forall m | m in s.processed :: m.event < |Payloads(s.bus.rows)|
  {
  }

  lemma NettingKeeps(s: State, cutoff: int)
    requires Invariant(s)
    ensures Invariant(AfterNetting(s, cutoff))
  {
    hide Safe, BusInvariant, Consistent, EventInvariant, InstructionInvariant, CycleInvariant, FlatInvariant,
      Payloads, TypedInvariant, CycleObligations, EmitInstructions, HistoryInvariant, RunsInvariant, JournalInvariant,
      FlowInvariant;
    var s' := AfterNetting(s, cutoff);
    if s' != s {
      var os := CycleObligations(s.legs, s.instruments, s.prices, cutoff);
      var payloads := seq(|os|, i requires 0 <= i < |os| => InstructionCreated(|s.instructions| + i));
      NettingConserves(s, cutoff);
      NettingFlat(s, cutoff);
      NettingTyped(s, cutoff);
      MarkKeepsConsistent(s.trades, s.legs, cutoff);
      EmitInstructionsKeeps(s.bus, |s.instructions|, |os|);
      MoreEvents(s.trades, Payloads(s.bus.rows), s.processed, payloads);
      MarksAreOld(s);
      AnnouncedInstructions(s.instructions, Payloads(s.bus.rows), s.processed,
                            InstructionsOf(os, s.house.value, |s.cycles|));
      NewInstructions(DeskOf(s), InstructionsOf(os, s.house.value, |s.cycles|));
      assert DeskOf(s') == DeskOf(s).(instructions := s'.instructions);
    }
  }

  // ---------------------------------------------------------------- settlement

  /** Settlement touches settlement accounts only, and of an instruction only its status. */
  ghost predicate SettlementOnly(d: Desk, e: Desk) {
    && e.books.accounts == d.books.accounts
    && (forall a: Account | a.kind != AccountKind.Settlement :: Balance(e.books, a) == Balance(d.books, a))
    && SameFlows(d.instructions, e.instructions)
  }

  lemma BookMoves(d: Desk, i: nat)
    requires i < |d.instructions|
    ensures forall a: Account | a.kind != AccountKind.Settlement :: Balance(Book(d, i).books, a) == Balance(d.books, a)
    ensures Book(d, i).books.accounts == d.books.accounts
  {
    hide Balance;
    var x := d.instructions[i];
    forall a: Account | a.kind != AccountKind.Settlement ensures Balance(Book(d, i).books, a) == Balance(d.books, a) {
      PostMoves(d.books, SettlementTransfer, OfInstruction(i), TransferLines(x), a);
      TransferNet(SettlementAccount(x.to), SettlementAccount(x.from), x.amount, a);
    }
  }

  lemma SettleOnly(d: Desk, i: nat, adapters: set<nat>)
    ensures Settle(d, i, adapters).Ok? ==> SettlementOnly(d, Settle(d, i, adapters).value)
  {
    hide Balance, Post;
    if i < |d.instructions| {
      BookMoves(Advance(Advance(Advance(d, i, Pending, Approved), i, Approved, Signed), i, Signed, Broadcasted), i);
    }
  }

  lemma RunOnly(d: Desk, i: nat, step: RunStep)
    ensures SettlementOnly(d, NextRun(d, i, step))
  {
    hide Balance, Post;
    if i < |d.instructions| {
      BookMoves(EndRun(d, i), i);
    }
  }

  lemma SettleTyped(instruments: map<InstrumentId, Instrument>, d: Desk, i: nat, adapters: set<nat>)
    requires TypedInvariant(instruments, d.books.accounts, d.instructions, d.runs)
    ensures Settle(d, i, adapters).Ok? ==>
      TypedInvariant(instruments, d.books.accounts, Settle(d, i, adapters).value.instructions,
                     Settle(d, i, adapters).value.runs)
  {
    hide Settle;
    SettleShape(d, i, adapters);
  }

  lemma RunTyped(instruments: map<InstrumentId, Instrument>, d: Desk, i: nat, step: RunStep)
    requires TypedInvariant(instruments, d.books.accounts, d.instructions, d.runs)
    ensures TypedInvariant(instruments, d.books.accounts, NextRun(d, i, step).instructions, NextRun(d, i, step).runs)
  {
    hide NextRun;
    RunShape(d, i, step);
  }

  lemma SettlementSafe(d: Desk, e: Desk)
    requires Safe(d.books) && DeskInvariant(e) && SettlementOnly(d, e)
    ensures Safe(e.books)
  {
    hide Balance, Sound;
    forall m: MemberId ensures Balance(e.books, CollateralOf(m)) >= 0.0 && FundBalance(e.books, m) >= 0.0 {
      assert Balance(d.books, CollateralOf(m)) >= 0.0 && FundBalance(d.books, m) >= 0.0;
    }
  }

  lemma SettleMessageKeeps(s: State, offset: nat)
    requires Invariant(s)
    ensures Invariant(AfterSettle(s, offset))
  {
    hide Safe, DeskInvariant, Consistent, InstructionInvariant, CycleInvariant, FlatInvariant, TypedInvariant, Settle,
      LocksDisjoint, BatchesValid, CopiesBounded, InFlightLogged, SettlementOnly;
    var s' := AfterSettle(s, offset);
    if s' != s {
      var m := s.bus.log[offset];
      assert m in s.bus.log;
      assert Payloads(s.bus.rows)[m.event] == m.payload;
      var i := m.payload.instruction;
      SettleKeeps(DeskOf(s), i, s.adapters);
      SettleOnly(DeskOf(s), i, s.adapters);
      SettleTyped(s.instruments, DeskOf(s), i, s.adapters);
      AfterSettlementOnly(s, DeskOf(s'));
      SettleEvents(s.trades, Payloads(s.bus.rows), s.processed, m.event);
      SettleShape(DeskOf(s), i, s.adapters);
      InstructionExists(s.instructions, Payloads(s.bus.rows), s.processed, m.event);
      SettledEvent(DeskOf(s), DeskOf(s'), Payloads(s.bus.rows), s.processed, m.event);
    }
  }

  lemma InstructionExists(instructions: seq<Instruction>, events: seq<Payload>, processed: set<Mark>, e: nat)
    requires InstructionInvariant(instructions, events, processed)
    requires e < |events| && events[e].InstructionCreated?
    ensures events[e].instruction < |instructions|
  {
  }

  lemma SettleEvents(trades: seq<Trade>, events: seq<Payload>, processed: set<Mark>, e: nat)
    requires EventInvariant(trades, events, processed)
    requires e < |events| && events[e].InstructionCreated?
    ensures EventInvariant(trades, events, processed + {Mark(SettlementEngine, e)})
  {
  }

  lemma AfterSettlementOnly(s: State, e: Desk)
    requires Invariant(s) && DeskInvariant(e) && SettlementOnly(DeskOf(s), e)
    ensures Safe(e.books) && e.books.accounts == s.books.accounts
    ensures FlatInvariant(s.trades, s.house, s.cycles, e.instructions)
  {
    SettlementSafe(DeskOf(s), e);
    FlatFrame(s.trades, s.house, s.cycles, s.instructions, e.instructions);
  }

  lemma RunPending(d: Desk, i: nat, step: RunStep)
    requires DeskInvariant(d)
    ensures var e := NextRun(d, i, step);
            && |e.instructions| == |d.instructions|
            && forall j | 0 <= j < |d.instructions| ::
                 d.instructions[j].status == Pending <==> e.instructions[j].status == Pending
  {
    hide NextRun, HistoryInvariant, JournalInvariant, FlowInvariant, Sound;
    RunShape(d, i, step);
  }

  lemma OnChainKeeps(s: State, i: nat, step: RunStep)
    requires Invariant(s)
    ensures Invariant(WithDesk(s, NextRun(DeskOf(s), i, step)))
  {
    hide Safe, DeskInvariant, Consistent, InstructionInvariant, CycleInvariant, FlatInvariant, TypedInvariant,
      NextRun, BusInvariant, EventInvariant, SettlementOnly;
    NextRunKeeps(DeskOf(s), i, step);
    RunOnly(DeskOf(s), i, step);
    RunTyped(s.instruments, DeskOf(s), i, step);
    AfterSettlementOnly(s, NextRun(DeskOf(s), i, step));
    RunPending(DeskOf(s), i, step);
    SamePending(s.instructions, NextRun(DeskOf(s), i, step).instructions, Payloads(s.bus.rows), s.processed);
  }

  lemma RoutingDesk(d: Desk, i: nat, chain: nat)
    requires DeskInvariant(d) && i < |d.instructions| && d.instructions[i].status == Pending
    ensures DeskInvariant(d.(instructions := d.instructions[i := d.instructions[i].(chain := Some(chain))]))
  {
    hide Sound, CountJournals, KindBalance, Sum;
    var x := d.instructions[i].(chain := Some(chain));
    assert !Settled(d.books.accounts, x) && !Settled(d.books.accounts, d.instructions[i]);
    forall m: MemberId
      ensures KindBalance(d.books, SettlementTransfer, SettlementAccount(m))
              == Sum(d.instructions[i := x], SettledFlow(d.books.accounts, m))
    {
      SumUpdate(d.instructions, i, x, SettledFlow(d.books.accounts, m));
    }
  }

  lemma RoutingKeeps(s: State, i: nat, chain: nat)
    requires Invariant(s)
    ensures Invariant(AfterRouting(s, i, chain))
  {
    hide Safe, DeskInvariant, Consistent, InstructionInvariant, CycleInvariant, FlatInvariant, BusInvariant,
      EventInvariant;
    var s' := AfterRouting(s, i, chain);
    if s' != s {
      RoutingDesk(DeskOf(s), i, chain);
      SamePending(s.instructions, s'.instructions, Payloads(s.bus.rows), s.processed);
      FlatFrame(s.trades, s.house, s.cycles, s.instructions, s'.instructions);
    }
  }

  // ---------------------------------------------------------------- collateral, margin, default

  lemma PostingKeeps(s: State, books: Books)
    requires Invariant(s) && Safe(books) && SameSettlement(s.books, books)
    ensures Invariant(s.(books := books))
  {
    hide DeskInvariant, Consistent, InstructionInvariant, CycleInvariant, FlatInvariant, TypedInvariant, BusInvariant,
      EventInvariant, SameSettlement, NeverNegative, Sound;
    DeskFrame(DeskOf(s), books);
  }

  lemma CollateralStepKeeps(s: State, m: MemberId, amount: real, kind: AccountKind, x: InstrumentId)
    requires Invariant(s)
    ensures Invariant(AfterPosting(s, Deposit(s.books, s.house, m, amount)))
    ensures Invariant(AfterPosting(s, Withdraw(s.books, s.house, m, amount)))
    ensures Invariant(AfterPosting(s, TransferToMargin(s.books, m, amount, kind)))
    ensures Invariant(AfterPosting(s, VariationMarginPosting(s.books, m, x, amount)))
  {
    hide Invariant, Balance, Post, SameSettlement;
    InvariantParts(s);
    CollateralKeepsSafe(s.books, s.house, m, amount, kind, x);
    var c, h, t := CollateralOf(m), Recovery(s.house), Account(m, kind, Available);
    var open, locked := VmAccount(m, Available), VmAccount(m, Locked);
    if Deposit(s.books, s.house, m, amount).Ok? {
      OtherJournal(s.books, CollateralDeposit, OfMember(m), [Debit(c, amount), Credit(h.value, amount)]);
      PostingKeeps(s, Deposit(s.books, s.house, m, amount).value);
    }
    if Withdraw(s.books, s.house, m, amount).Ok? {
      OtherJournal(s.books, CollateralWithdrawal, OfMember(m), [Credit(c, amount), Debit(h.value, amount)]);
      PostingKeeps(s, Withdraw(s.books, s.house, m, amount).value);
    }
    if TransferToMargin(s.books, m, amount, kind).Ok? {
      OtherJournal(s.books, CollateralDeposit, OfMember(m), [Credit(c, amount), Debit(t, amount)]);
      PostingKeeps(s, TransferToMargin(s.books, m, amount, kind).value);
    }
    if VariationMarginPosting(s.books, m, x, amount).Ok? {
      OtherJournal(s.books, VariationMargin, OfInstrument(x), [Debit(open, Abs(amount)), Credit(locked, Abs(amount))]);
      OtherJournal(s.books, VariationMargin, OfInstrument(x), [Debit(locked, Abs(amount)), Credit(open, Abs(amount))]);
      SameBooks(s.books);
      PostingKeeps(s, VariationMarginPosting(s.books, m, x, amount).value);
    }
  }

  lemma SameBooks(b: Books)
    ensures SameSettlement(b, b)
  {
  }

  lemma InvariantParts(s: State)
    requires Invariant(s)
    ensures Safe(s.books) && WellFormed(s.books) && UniqueIds(s.members)
  {
  }

  lemma {:induction false} WaterfallSettlement(b: Books, house: Option<MemberId>, event: nat, ps: seq<Payment>)
    requires Sound(b) && forall p | p in ps :: p.amount > 0.0
    ensures SameSettlement(b, PayAll(b, house, event, ps))
  {
    hide Sound, KindBalance, CountJournals, Post;
    if ps == [] {
      SameBooks(b);
    } else {
      var ps0, p := ps[..|ps| - 1], ps[|ps| - 1];
      assert forall x | x in ps0 :: x in ps;
      WaterfallSettlement(b, house, event, ps0);
      PayAllBalances(b, house, event, ps0);
      OtherJournal(PayAll(b, house, event, ps0), WaterfallStep, OfDefault(event), PaymentLines(b.accounts, house, p));
    }
  }

  /** A committed waterfall keeps the ledger safe. */
  lemma WaterfallSafe(b: Books, members: seq<Member>, house: Option<MemberId>, m: MemberId, exposure: real, event: nat)
    requires Safe(b) && UniqueIds(members)
    ensures var c := PayAll(b, house, event, Execute(b, members, house, m, exposure, event).payments);
            && SameSettlement(b, c)
            && (TriggerAccepts(c, |b.entries|) ==> Safe(c))
  {
    hide Sound, Balance, Execute, SameSettlement, PayAll, TriggerAccepts;
    var ps := Execute(b, members, house, m, exposure, event).payments;
    var c := PayAll(b, house, event, ps);
    WaterfallConserves(b, members, house, m, exposure, event);
    WaterfallSettlement(b, house, event, ps);
    WaterfallCommit(b, house, event, ps);
    forall x: MemberId ensures Balance(c, CollateralOf(x)) >= 0.0 && FundBalance(c, x) >= 0.0 {
      assert Balance(b, CollateralOf(x)) >= 0.0 && FundBalance(b, x) >= 0.0;
      FundsStayNonNegative(b, members, house, m, exposure, event, x);
      CollateralUntouched(b, members, house, m, exposure, event, CollateralOf(x));
    }
  }

  lemma DefaultKeeps(s: State, m: MemberId, exposure: real)
    requires Invariant(s)
    ensures Invariant(AfterDefault(s, m, exposure))
  {
    hide Safe, DeskInvariant, Consistent, InstructionInvariant, CycleInvariant, FlatInvariant, TypedInvariant,
      BusInvariant, EventInvariant, SameSettlement, Execute, PayAll, TriggerAccepts;
    var s' := AfterDefault(s, m, exposure);
    if s' != s {
      WaterfallSafe(s.books, s'.members, s.house, m, exposure, |s.defaults|);
      SafeIsSound(s'.books);
      DeskFrame(DeskOf(s), s'.books);
    }
  }

  /** Every step keeps the invariant. */
  lemma NextKeeps(s: State, step: Step)
    requires Invariant(s)
    ensures Invariant(Next(s, step))
  {
    hide Invariant;
    match step
    case SubmitTrade(data) => SubmitKeeps(s, data);
    case Publish(bus) => PublishKeeps(s, bus);
    case IngestTrade(offset, now) => IngestKeeps(s, offset, now);
    case RunNetting(cutoff) => NettingKeeps(s, cutoff);
    case SettleMessage(offset) => SettleMessageKeeps(s, offset);
    case OnChain(i, run) => OnChainKeeps(s, i, run);
    case RouteToChain(i, chain) => RoutingKeeps(s, i, chain);
    case DepositCollateral(m, amount) => CollateralStepKeeps(s, m, amount, MarginIm, 0);
    case WithdrawCollateral(m, amount) => CollateralStepKeeps(s, m, amount, MarginIm, 0);
    case MoveToMargin(m, amount, kind) => CollateralStepKeeps(s, m, amount, kind, 0);
    case PostVariationMargin(m, x, vm) => CollateralStepKeeps(s, m, vm, MarginIm, x);
    case DeclareDefault(m, exposure) => DefaultKeeps(s, m, exposure);
    case QuotePrice(x, price) => PriceKeeps(s, x, price);
  }

  lemma PriceKeeps(s: State, x: InstrumentId, price: real)
    requires Invariant(s)
    ensures Invariant(s.(prices := s.prices[x := price]))
  {
    hide Safe, DeskInvariant, Consistent, InstructionInvariant, CycleInvariant, FlatInvariant, BusInvariant,
      EventInvariant;
  }

  // ---------------------------------------------------------------- initial states

  lemma {:induction false} SeedSafe(accounts: seq<Account>, house: Option<MemberId>, cs: seq<Contribution>)
    requires Distinct(accounts) && forall c | c in cs :: c.amount > 0.0
    ensures Safe(Seed(accounts, house, cs))
    ensures SameSettlement(Books(accounts, [], []), Seed(accounts, house, cs))
  {
    hide Post, KindBalance, CountJournals;
    if cs == [] {
      SameBooks(Books(accounts, [], []));
    } else {
      var b, c := Seed(accounts, house, cs[..|cs| - 1]), cs[|cs| - 1];
      SeedSafe(accounts, house, cs[..|cs| - 1]);
      var equity := HouseAccount(house, CcpEquity);
      if FundOf(c.member) in accounts && Exists(accounts, equity) {
        TransferKeepsSafe(b, FundContribution, OfSeed, FundOf(c.member), equity.value, c.amount);
        OtherJournal(b, FundContribution, OfSeed, [Debit(FundOf(c.member), c.amount), Credit(equity.value, c.amount)]);
      }
    }
  }

  lemma InitialInvariant(s: State, contributions: seq<Contribution>)
    requires Initial(s, contributions)
    ensures Invariant(s)
  {
    hide Safe;
    var empty := Books(s.books.accounts, [], []);
    SeedSafe(s.books.accounts, s.house, contributions);
    SafeIsSound(s.books);
    SeedSafe(s.books.accounts, s.house, []);
    SafeIsSound(empty);
    DeskFrame(Desk(empty, [], [], map[]), s.books);
  }

  lemma {:induction false} RunKeeps(s: State, steps: seq<Step>)
    requires Invariant(s)
    ensures Invariant(Run(s, steps))
  {
    hide Invariant, Next;
    if steps != [] {
      RunKeeps(s, steps[..|steps| - 1]);
      NextKeeps(Run(s, steps[..|steps| - 1]), steps[|steps| - 1]);
    }
  }
}
