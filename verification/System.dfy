/** The clearing house as one state machine: every step is one committed transaction, one action of an
    outbox publisher, one external event of an on-chain run, or a crash. */
module System {
  import opened Options
  import opened Sums
  import opened Ledger
  import opened Registry
  import opened Model
  import opened Outbox
  import opened Trading
  import opened Netting
  import opened NettingCycle
  import opened Settlement
  import opened Waterfall
  import opened Collateral

  /** A row of default_events with its waterfall_steps. */
  datatype DefaultEvent = DefaultEvent(member: MemberId, exposure: real, status: DefaultStatus, remaining: real,
                                       steps: seq<StepRow>)

  /** The tables of the database, the message log, and the workers' volatile memory. `effects` records,
      in order of commit, which (service, event) had its effect committed. */
  datatype State = State(
    books: Books,
    members: seq<Member>,
    house: Option<MemberId>,
    instruments: map<InstrumentId, Instrument>,
    adapters: set<nat>,
    prices: map<InstrumentId, real>,
    trades: seq<Trade>,
    legs: seq<Leg>,
    cycles: seq<Cycle>,
    instructions: seq<Instruction>,
    transitions: seq<Transition>,
    runs: map<nat, RunPoint>,
    defaults: seq<DefaultEvent>,
    processed: set<Mark>,
    effects: seq<Mark>,
    bus: Bus)

  datatype Step =
    | SubmitTrade(data: TradeData)
    | Publish(bus: BusStep)
    | IngestTrade(offset: nat, now: int)
    | RunNetting(cutoff: int)
    | SettleMessage(offset: nat)
    | OnChain(instruction: nat, run: RunStep)
    | RouteToChain(instruction: nat, chain: nat)
    | DepositCollateral(member: MemberId, amount: real)
    | WithdrawCollateral(member: MemberId, amount: real)
    | MoveToMargin(member: MemberId, amount: real, kind: AccountKind)
    | PostVariationMargin(member: MemberId, instrument: InstrumentId, vm: real)
    | DeclareDefault(member: MemberId, exposure: real)
    | QuotePrice(instrument: InstrumentId, price: real)

  predicate IsMember(members: seq<Member>, m: MemberId) {
    exists x :: x in members && x.id == m
  }

  /** submit_trade: the trade and its only event in one commit; foreign keys refuse unknown parties. */
  function AfterSubmit(s: State, data: TradeData): State {
    if IsMember(s.members, data.buyer) && IsMember(s.members, data.seller) && data.instrument in s.instruments then
      s.(trades := s.trades + [Trade(data, Submitted)], bus := Emit(s.bus, TradeSubmitted(|s.trades|, data)))
    else s
  }

  /** A consumer marks the event and applies its effect in one transaction; a marked event is skipped. */
  function WithMark(s: State, mark: Mark): State {
    s.(processed := s.processed + {mark}, effects := s.effects + [mark])
  }

  function BlotterOf(s: State): Blotter {
    Blotter(s.books, s.trades, s.legs)
  }

  function WithBlotter(s: State, bl: Blotter): State {
    s.(books := bl.books, trades := bl.trades, legs := bl.legs)
  }

  /** handle_message of trade-ingestion, for the message at some offset of the log: any message, in any
      order, any number of times. */
  function AfterIngest(s: State, offset: nat, now: int): State {
    if offset >= |s.bus.log| || !s.bus.log[offset].payload.TradeSubmitted? then s
    else
      var m := s.bus.log[offset];
      var mark := Mark(TradeIngestion, m.event);
      if mark in s.processed then s
      else
        WithMark(WithBlotter(s, Process(BlotterOf(s), s.members, s.instruments, m.payload.trade, m.payload.data, now)),
                 mark)
  }

  function EmitInstructions(bus: Bus, first: nat, n: nat): Bus {
    if n == 0 then bus else Emit(EmitInstructions(bus, first, n - 1), InstructionCreated(first + n - 1))
  }

  /** run_netting_cycle: one transaction, which raises when the CCP house is missing. */
  function AfterNetting(s: State, cutoff: int): State {
    if s.house.None? then s
    else
      var os := CycleObligations(s.legs, s.instruments, s.prices, cutoff);
      s.(cycles := s.cycles + [Cycle(cutoff, os, IncludedRows(s.legs, cutoff))],
         instructions := s.instructions + InstructionsOf(os, s.house.value, |s.cycles|),
         legs := MarkNetted(s.legs, cutoff),
         bus := EmitInstructions(s.bus, |s.instructions|, |os|))
  }

  function DeskOf(s: State): Desk {
    Desk(s.books, s.instructions, s.transitions, s.runs)
  }

  function WithDesk(s: State, d: Desk): State {
    s.(books := d.books, instructions := d.instructions, transitions := d.transitions, runs := d.runs)
  }

  /** The settlement consumer up to its first commit. An exception rolls everything back, the mark too. */
  function AfterSettle(s: State, offset: nat): State {
    if offset >= |s.bus.log| || !s.bus.log[offset].payload.InstructionCreated? then s
    else
      var m := s.bus.log[offset];
      var mark := Mark(SettlementEngine, m.event);
      if mark in s.processed then s
      else match Settle(DeskOf(s), m.payload.instruction, s.adapters)
        case Ok(d) => WithMark(WithDesk(s, d), mark)
        case Raised(_) => s
  }

  /** The chain of an instruction is set by hand: no service writes it. */
  function AfterRouting(s: State, i: nat, chain: nat): State {
    if i < |s.instructions| && s.instructions[i].status == Pending then
      s.(instructions := s.instructions[i := s.instructions[i].(chain := Some(chain))])
    else s
  }

  function AfterPosting(s: State, r: Result<Books>): State {
    match r
    case Ok(books) => s.(books := books)
    case Raised(_) => s
  }

  /** The waterfall's transaction: what execute_waterfall writes, if the commit trigger accepts it. */
  function AfterDefault(s: State, m: MemberId, exposure: real): State {
    if !IsMember(s.members, m) then s
    else
      var members := MarkDefaulted(s.members, m);
      var p := Execute(s.books, members, s.house, m, exposure, |s.defaults|);
      var books := PayAll(s.books, s.house, |s.defaults|, p.payments);
      if TriggerAccepts(books, |s.books.entries|) then
        s.(books := books, members := members,
           defaults := s.defaults + [DefaultEvent(m, exposure, StatusOf(p), p.remaining, p.steps)])
      else s
  }

  /** Every step is total: one that is not enabled, or whose transaction aborts, changes nothing. */
  function Next(s: State, step: Step): State {
    match step
    case SubmitTrade(data) => AfterSubmit(s, data)
    case Publish(bus) => s.(bus := NextBus(s.bus, bus))
    case IngestTrade(offset, now) => AfterIngest(s, offset, now)
    case RunNetting(cutoff) => AfterNetting(s, cutoff)
    case SettleMessage(offset) => AfterSettle(s, offset)
    case OnChain(i, run) => WithDesk(s, NextRun(DeskOf(s), i, run))
    case RouteToChain(i, chain) => AfterRouting(s, i, chain)
    case DepositCollateral(m, amount) => AfterPosting(s, Deposit(s.books, s.house, m, amount))
    case WithdrawCollateral(m, amount) => AfterPosting(s, Withdraw(s.books, s.house, m, amount))
    case MoveToMargin(m, amount, kind) => AfterPosting(s, TransferToMargin(s.books, m, amount, kind))
    case PostVariationMargin(m, x, vm) => AfterPosting(s, VariationMarginPosting(s.books, m, x, vm))
    case DeclareDefault(m, exposure) => AfterDefault(s, m, exposure)
    case QuotePrice(x, price) => s.(prices := s.prices[x := price])
  }

  /** A run: any finite sequence of steps. */
  function Run(s: State, steps: seq<Step>): State {
    if steps == [] then s else Next(Run(s, steps[..|steps| - 1]), steps[|steps| - 1])
  }

  // ---------------------------------------------------------------- initial states

  /** A default fund contribution of the seed script. */
  datatype Contribution = Contribution(member: MemberId, amount: real)

  /** seed_default_fund: contributions whose accounts are not found are skipped. */
  function Seed(accounts: seq<Account>, house: Option<MemberId>, cs: seq<Contribution>): (b: Books)
    ensures b.accounts == accounts
  {
    if cs == [] then Books(accounts, [], [])
    else
      var b := Seed(accounts, house, cs[..|cs| - 1]);
      var c := cs[|cs| - 1];
      var equity := HouseAccount(house, CcpEquity);
      if FundOf(c.member) in accounts && Exists(accounts, equity) then
        Post(b, FundContribution, OfSeed, [Debit(FundOf(c.member), c.amount), Credit(equity.value, c.amount)])
      else b
  }

  /** Freshly migrated and seeded: reference data and contributions only. */
  ghost predicate Initial(s: State, contributions: seq<Contribution>) {
    && Distinct(s.books.accounts)
    && UniqueIds(s.members)
    && (forall c | c in contributions :: c.amount > 0.0)
    && s.books == Seed(s.books.accounts, s.house, contributions)
    && s.trades == [] && s.legs == [] && s.cycles == [] && s.instructions == [] && s.transitions == []
    && s.runs == map[] && s.defaults == [] && s.processed == {} && s.effects == []
    && s.bus == Bus([], [], map[], [])
  }

  // ---------------------------------------------------------------- invariant

  function Payloads(rows: seq<Row>): seq<Payload> {
    seq(|rows|, i requires 0 <= i < |rows| => rows[i].payload)
  }

  /** Every submitted-trade event belongs to one trade and carries its data; the trade is still submitted
      exactly as long as its event has not been processed. */
  ghost predicate EventInvariant(trades: seq<Trade>, events: seq<Payload>, processed: set<Mark>) {
    && (forall e | 0 <= e < |events| && events[e].TradeSubmitted? ::
          && events[e].trade < |trades|
          && events[e].data == trades[events[e].trade].data
          && (trades[events[e].trade].status == Submitted <==> Mark(TradeIngestion, e) !in processed))
    && (forall e, f | 0 <= e < f < |events| && events[e].TradeSubmitted? && events[f].TradeSubmitted? ::
          events[e].trade != events[f].trade)
    && (forall m | m in processed :: m.event < |events| && Topic(events[m.event]) == m.service)
  }

  /** Every instruction has exactly one event, and is pending exactly as long as that event is not processed. */
  ghost predicate InstructionInvariant(instructions: seq<Instruction>, events: seq<Payload>, processed: set<Mark>) {
    && (forall e | 0 <= e < |events| && events[e].InstructionCreated? ::
          && events[e].instruction < |instructions|
          && (instructions[events[e].instruction].status == Pending <==> Mark(SettlementEngine, e) !in processed))
    && (forall e, f | 0 <= e < f < |events| && events[e].InstructionCreated? && events[f].InstructionCreated? ::
          events[e].instruction != events[f].instruction)
    && (forall i :: 0 <= i < |instructions| ==> IsAnnounced(events, i))
  }

  ghost predicate IsAnnounced(events: seq<Payload>, i: nat) {
    exists e :: 0 <= e < |events| && events[e] == InstructionCreated(i)
  }

  /** Effects are committed at most once per (service, event). */
  ghost predicate EffectsInvariant(effects: seq<Mark>, processed: set<Mark>) {
    Distinct(effects) && forall m :: m in effects <==> m in processed
  }

  function CycleNetOn(k: Key): Cycle -> real {
    (c: Cycle) => Sum(c.obligations, QuantityOn(k))
  }

  function CycleAmountOf(kind: SettlementType, m: MemberId): Cycle -> real {
    (c: Cycle) => Sum(c.obligations, AmountOf(kind, m))
  }

  ghost predicate Conserved(cycles: seq<Cycle>, legs: seq<Leg>, k: Key) {
    Sum(cycles, CycleNetOn(k)) + Sum(legs, OpenOn(k)) == Sum(legs, EverOn(k))
  }

  /** Leg i has been flipped by cycle c. */
  predicate NettedBy(cycles: seq<Cycle>, c: int, i: int) {
    0 <= c < |cycles| && i in cycles[c].netted
  }

  ghost predicate FlatCycle(c: Cycle) {
    forall x: InstrumentId :: Sum(c.obligations, AmountIn(x)) == 0.0
  }

  /** Netting loses nothing and nets no leg twice; every cycle is flat. */
  ghost predicate CycleInvariant(cycles: seq<Cycle>, legs: seq<Leg>) {
    && (forall k :: Conserved(cycles, legs, k))
    && (forall c, d, i | NettedBy(cycles, c, i) && NettedBy(cycles, d, i) :: c == d)
    && (forall c, i | NettedBy(cycles, c, i) :: 0 <= i < |legs| && legs[i].status == Netted)
    && (forall i | 0 <= i < |legs| && legs[i].status == Netted :: exists c :: NettedBy(cycles, c, i))
    && (forall c | c in cycles :: FlatCycle(c))
  }

  /** The CCP house is not itself a party to a trade. */
  ghost predicate HouseNotParty(trades: seq<Trade>, house: MemberId) {
    forall t | t in trades :: t.data.buyer != house && t.data.seller != house
  }

  /** Instructions are flat per instrument for the CCP, and to every other member they bring exactly
      minus its net amounts. */
  ghost predicate FlatFor(house: MemberId, cycles: seq<Cycle>, instructions: seq<Instruction>) {
    && (forall x: InstrumentId :: Sum(instructions, FlowIn(x, house)) == 0.0)
    && (forall kind: SettlementType, m: MemberId | m != house ::
          Sum(instructions, FlowOf(kind, m)) == -Sum(cycles, CycleAmountOf(kind, m)))
  }

  ghost predicate FlatInvariant(trades: seq<Trade>, house: Option<MemberId>, cycles: seq<Cycle>,
                                instructions: seq<Instruction>)
  {
    house.Some? && HouseNotParty(trades, house.value) ==> FlatFor(house.value, cycles, instructions)
  }

  /** Instructions settle the way their instrument does, for an amount that is not negative. A cash
      instruction is pending, or confirmed if both accounts exist and failed otherwise. Only an instruction
      with a chain is ever run on chain; one that needs a chain and has none stays pending or fails. */
  predicate WellTyped(instruments: map<InstrumentId, Instrument>, accounts: seq<Account>, x: Instruction, running: bool)
  {
    && x.settlement == TypeOf(instruments)(x.instrument)
    && x.amount >= 0.0
    && (x.settlement == Cash ==>
          x.status == Pending || x.status == if BothFound(accounts, x) then Confirmed else Failed)
    && (running ==> x.settlement != Cash && x.chain.Some?)
    && (Chainless(x) ==> x.status in {Pending, Failed})
  }

  ghost predicate TypedInvariant(instruments: map<InstrumentId, Instrument>, accounts: seq<Account>,
                                 instructions: seq<Instruction>, runs: map<nat, RunPoint>)
  {
    forall i :: 0 <= i < |instructions| ==> WellTyped(instruments, accounts, instructions[i], i in runs)
  }

  ghost predicate Invariant(s: State) {
    && Safe(s.books)
    && UniqueIds(s.members)
    && BusInvariant(s.bus)
    && DeskInvariant(DeskOf(s))
    && Consistent(s.trades, s.legs)
    && EventInvariant(s.trades, Payloads(s.bus.rows), s.processed)
    && InstructionInvariant(s.instructions, Payloads(s.bus.rows), s.processed)
    && EffectsInvariant(s.effects, s.processed)
    && CycleInvariant(s.cycles, s.legs)
    && FlatInvariant(s.trades, s.house, s.cycles, s.instructions)
    && TypedInvariant(s.instruments, s.books.accounts, s.instructions, s.runs)
  }
}
