/** Rows of the trading, netting and settlement tables. The id of a row is its row number. */
module Model {
  import opened Options
  import opened Ledger
  import opened Registry

  // ---------------------------------------------------------------- trades

  datatype TradeData = TradeData(instrument: InstrumentId, buyer: MemberId, seller: MemberId, quantity: real,
                                 price: real)

  datatype TradeStatus = Submitted | Novated | Rejected

  datatype Trade = Trade(data: TradeData, status: TradeStatus)

  datatype Side = Buy | Sell

  datatype LegStatus = Open | Netted

  /** A row of novated_trades: one CCP-facing leg of a trade. */
  datatype Leg = Leg(trade: nat, member: MemberId, instrument: InstrumentId, side: Side, quantity: real, price: real,
                     status: LegStatus, novatedAt: int)

  // ---------------------------------------------------------------- netting

  datatype Key = Key(member: MemberId, instrument: InstrumentId)

  datatype Obligation = Obligation(member: MemberId, instrument: InstrumentId, netQuantity: real, netAmount: real,
                                   settlementAmount: real, settlement: SettlementType)

  /** A netting cycle with its obligations. `netted` records which legs the cycle flipped to netted:
      the source stores only their number. */
  datatype Cycle = Cycle(cutoff: int, obligations: seq<Obligation>, netted: set<nat>)

  // ---------------------------------------------------------------- settlement

  datatype InstructionStatus = Pending | Approved | Signed | Broadcasted | Confirmed | Failed | Cancelled

  datatype Instruction = Instruction(cycle: nat, from: MemberId, to: MemberId, instrument: InstrumentId,
                                     quantity: real, amount: real, settlement: SettlementType, chain: Option<nat>,
                                     status: InstructionStatus)

  /** A row of state_transitions about a settlement instruction. */
  datatype Transition = Transition(instruction: nat, from: InstructionStatus, to: InstructionStatus)

  /** Where a settlement worker stands, between two of its commits, in the on-chain run of an instruction. */
  datatype RunPoint = AfterApproval | AfterSigning | AfterBroadcast

  // ---------------------------------------------------------------- events

  datatype Service = TradeIngestion | SettlementEngine

  /** The events that drive a consumer. The payload of a submitted trade is a copy of its data. */
  datatype Payload =
    | TradeSubmitted(trade: nat, data: TradeData)
    | InstructionCreated(instruction: nat)

  /** A row of processed_events. */
  datatype Mark = Mark(service: Service, event: nat)

  function Topic(p: Payload): Service {
    match p
    case TradeSubmitted(_, _) => TradeIngestion
    case InstructionCreated(_) => SettlementEngine
  }
}
