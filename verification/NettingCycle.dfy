/** One netting cycle over the leg table: what it nets, what it marks, and what it instructs. */
module NettingCycle {
  import opened Options
  import opened Sums
  import opened Ledger
  import opened Registry
  import opened Model
  import opened Trading
  import opened Netting

  // ---------------------------------------------------------------- legs

  /** _mark_trades_closed: UPDATE novated_trades SET status = 'netted' WHERE status = 'open' AND novated_at <= ... */
  function MarkNetted(legs: seq<Leg>, cutoff: int): (marked: seq<Leg>)
    ensures |marked| == |legs|
  {
    seq(|legs|, i requires 0 <= i < |legs| =>
      if Included(legs[i], cutoff) then legs[i].(status := Netted) else legs[i])
  }

  function IncludedRows(legs: seq<Leg>, cutoff: int): set<nat> {
    set i | 0 <= i < |legs| && Included(legs[i], cutoff)
  }

  /** The net_quantity of the member_positions view: open legs only. */
  function OpenOn(k: Key): Leg -> real {
    (l: Leg) => if l.status == Open && LegKey(l) == k then Directed(l.side, l.quantity) else 0.0
  }

  function EverOn(k: Key): Leg -> real {
    (l: Leg) => if LegKey(l) == k then Directed(l.side, l.quantity) else 0.0
  }

  /** Marking moves exactly the included legs out of the open position and forgets none. */
  lemma {:induction false} MarkConserves(legs: seq<Leg>, cutoff: int, k: Key)
    ensures Sum(legs, OpenOn(k)) == Sum(MarkNetted(legs, cutoff), OpenOn(k)) + Sum(legs, IncludedOn(cutoff, k))
    ensures Sum(MarkNetted(legs, cutoff), EverOn(k)) == Sum(legs, EverOn(k))
  {
    if legs != [] {
      var legs0 := legs[..|legs| - 1];
      MarkConserves(legs0, cutoff, k);
      assert MarkNetted(legs, cutoff)[..|legs| - 1] == MarkNetted(legs0, cutoff);
    }
  }

  /** Both legs of a trade carry one time and one status, so a cycle takes both or neither. */
  lemma MarkKeepsConsistent(trades: seq<Trade>, legs: seq<Leg>, cutoff: int)
    requires Consistent(trades, legs)
    ensures Consistent(trades, MarkNetted(legs, cutoff))
  {
    var marked := MarkNetted(legs, cutoff);
    forall k | 0 <= k < |marked| / 2
      ensures PairAt(trades, marked, k) && PairAt(trades, legs, k) && marked[2 * k].trade == legs[2 * k].trade
    {
      assert PairAt(trades, legs, k);
    }
    forall t | 0 <= t < |trades| && trades[t].status == Novated ensures HasPair(trades, marked, t) {
      assert HasPair(trades, legs, t);
      var k :| 0 <= k < |legs| / 2 && PairAt(trades, legs, k) && legs[2 * k].trade == t;
      assert PairAt(trades, marked, k);
    }
  }

  /** Whatever the cut-off, the included legs of an instrument net to zero over all members. */
  lemma IncludedNetToZero(trades: seq<Trade>, legs: seq<Leg>, cutoff: int, x: InstrumentId)
    requires Consistent(trades, legs)
    ensures Sum(legs, IncludedIn(cutoff, x)) == 0.0
  {
    forall k | 0 <= k < |legs| / 2 ensures CancelAt(legs, IncludedIn(cutoff, x), k) {
      assert PairAt(trades, legs, k);
    }
    PairsCancel(legs, IncludedIn(cutoff, x), |legs| / 2);
  }

  // ---------------------------------------------------------------- obligations

  /** The obligations of a cycle that runs over these legs at these prices. */
  function CycleObligations(legs: seq<Leg>, instruments: map<InstrumentId, Instrument>,
                            prices: map<InstrumentId, real>, cutoff: int): seq<Obligation>
  {
    Obligations(CyclePositions(legs, instruments, prices, cutoff))
  }

  /** Multilateral netting is flat: per instrument the net amounts of all members add up to zero. */
  lemma CycleFlat(trades: seq<Trade>, legs: seq<Leg>, instruments: map<InstrumentId, Instrument>,
                  prices: map<InstrumentId, real>, cutoff: int, x: InstrumentId)
    requires Consistent(trades, legs)
    ensures Sum(CycleObligations(legs, instruments, prices, cutoff), AmountIn(x)) == 0.0
  {
    CycleAmount(legs, instruments, prices, cutoff, x);
    IncludedNetToZero(trades, legs, cutoff, x);
  }

  lemma ObligationShape(legs: seq<Leg>, instruments: map<InstrumentId, Instrument>, prices: map<InstrumentId, real>,
                        cutoff: int, o: Obligation)
    requires o in CycleObligations(legs, instruments, prices, cutoff)
    ensures o.settlementAmount == Abs(o.netAmount)
    ensures o.settlement == TypeOf(instruments)(o.instrument)
    ensures exists l :: l in legs && l.member == o.member
  {
    var fetched := FetchOpen(legs, cutoff);
    var ps := CyclePositions(legs, instruments, prices, cutoff);
    var k := ObligationKey(o);
    ObligationsAre(ps, Keys(ps));
    EnrichUniform(fetched, instruments, prices);
    UniformPrice(ps, PriceOf(instruments, prices), TypeOf(instruments), k);
    var i :| 0 <= i < |ps| && KeyOf(ps[i]) == k;
    FetchedMember(legs, cutoff, fetched[i]);
  }

  lemma {:induction false} AddLegMember(ps: seq<Position>, l: Leg, p: Position)
    requires p in AddLeg(ps, l)
    ensures p.member == l.member || exists q :: q in ps && q.member == p.member
  {
    if ps != [] {
      var ps0, last := ps[..|ps| - 1], ps[|ps| - 1];
      assert last in ps && forall q | q in ps0 :: q in ps;
      if p in AddLeg(ps0, l) {
        AddLegMember(ps0, l, p);
      }
    }
  }

  lemma {:induction false} FetchedMember(legs: seq<Leg>, cutoff: int, p: Position)
    requires p in FetchOpen(legs, cutoff)
    ensures exists l :: l in legs && l.member == p.member
  {
    var legs0, last := legs[..|legs| - 1], legs[|legs| - 1];
    assert last in legs && forall l | l in legs0 :: l in legs;
    if p in FetchOpen(legs0, cutoff) {
      FetchedMember(legs0, cutoff, p);
    } else {
      AddLegMember(FetchOpen(legs0, cutoff), last, p);
      if p.member != last.member {
        var q :| q in FetchOpen(legs0, cutoff) && q.member == p.member;
        FetchedMember(legs0, cutoff, q);
      }
    }
  }

  // ---------------------------------------------------------------- instructions

  /** A member that owes pays the CCP; otherwise the CCP pays the member. No chain is ever recorded. */
  function InstructionOf(o: Obligation, house: MemberId, cycle: nat): Instruction {
    Instruction(cycle, if o.netAmount > 0.0 then o.member else house, if o.netAmount > 0.0 then house else o.member,
                o.instrument, Abs(o.netQuantity), o.settlementAmount, o.settlement, None, Pending)
  }

  function InstructionsOf(os: seq<Obligation>, house: MemberId, cycle: nat): seq<Instruction> {
    seq(|os|, i requires 0 <= i < |os| => InstructionOf(os[i], house, cycle))
  }

  /** What an instruction brings to a member's settlement account. */
  function FlowTo(m: MemberId): Instruction -> real {
    (i: Instruction) => (if i.to == m then i.amount else 0.0) - (if i.from == m then i.amount else 0.0)
  }

  function FlowIn(x: InstrumentId, m: MemberId): Instruction -> real {
    (i: Instruction) => if i.instrument == x then FlowTo(m)(i) else 0.0
  }

  /** The flows of one settlement type. */
  function FlowOf(kind: SettlementType, m: MemberId): Instruction -> real {
    (i: Instruction) => if i.settlement == kind then FlowTo(m)(i) else 0.0
  }

  /** The signed net amount of one member's obligations of one settlement type. */
  function AmountOf(kind: SettlementType, m: MemberId): Obligation -> real {
    (o: Obligation) => if o.settlement == kind && o.member == m then o.netAmount else 0.0
  }

  lemma OneFlow(o: Obligation, house: MemberId, cycle: nat, x: InstrumentId, kind: SettlementType, m: MemberId)
    requires o.member != house && o.settlementAmount == Abs(o.netAmount) && m != house
    ensures FlowIn(x, house)(InstructionOf(o, house, cycle)) == AmountIn(x)(o)
    ensures FlowOf(kind, m)(InstructionOf(o, house, cycle)) == -AmountOf(kind, m)(o)
  {
    assert FlowTo(house)(InstructionOf(o, house, cycle)) == o.netAmount;
    assert FlowTo(m)(InstructionOf(o, house, cycle)) == if o.member == m then -o.netAmount else 0.0;
  }

  /** For the CCP an instruction carries its obligation's net amount; for the member, minus that amount. */
  lemma {:induction false} InstructionFlows(os: seq<Obligation>, house: MemberId, cycle: nat, x: InstrumentId,
                                            kind: SettlementType, m: MemberId)
    requires forall o | o in os :: o.member != house && o.settlementAmount == Abs(o.netAmount)
    requires m != house
    ensures Sum(InstructionsOf(os, house, cycle), FlowIn(x, house)) == Sum(os, AmountIn(x))
    ensures Sum(InstructionsOf(os, house, cycle), FlowOf(kind, m)) == -Sum(os, AmountOf(kind, m))
  {
    if os != [] {
      var os0, o := os[..|os| - 1], os[|os| - 1];
      assert o in os && forall q | q in os0 :: q in os;
      InstructionFlows(os0, house, cycle, x, kind, m);
      OneFlow(o, house, cycle, x, kind, m);
      assert InstructionsOf(os, house, cycle)[..|os| - 1] == InstructionsOf(os0, house, cycle);
    }
  }

  // ---------------------------------------------------------------- compression

  /** Gross value of an included leg at the cycle's price. */
  function GrossValue(price: InstrumentId -> real, cutoff: int): Leg -> real {
    (l: Leg) => if Included(l, cutoff) then l.quantity * price(l.instrument) else 0.0
  }

  function GrossMeasure(price: InstrumentId -> real): Measure {
    (k: Key, side: Side, q: real) => q * price(k.instrument)
  }

  function Gross(price: InstrumentId -> real): Position -> real {
    (p: Position) => p.totalQuantity * price(p.instrument)
  }

  function UnsignedOn(k: Key): Position -> real {
    (p: Position) => if KeyOf(p) == k then p.totalQuantity else 0.0
  }

  lemma KeyCompression(ps: seq<Position>, price: InstrumentId -> real, kind: InstrumentId -> SettlementType, k: Key)
    requires Uniform(ps, price, kind) && k in Keys(ps)
    requires price(k.instrument) >= 0.0 && forall p | p in ps :: p.totalQuantity >= 0.0
    ensures ViaKeys(ps, SettlementAmount())(k) <= KeyTotal(ps, Gross(price))(k)
  {
    hide Sum, Keys, LastPrice, FirstType;
    UniformPrice(ps, price, kind, k);
    SumTriangle(ps, SignedOn(k), UnsignedOn(k));
    var c := price(k.instrument);
    forall i | 0 <= i < |ps| ensures OnKey(Gross(price), k)(ps[i]) == c * UnsignedOn(k)(ps[i]) {
      KeyValue(ps[i], price, k);
    }
    SumScale(ps, c, UnsignedOn(k), OnKey(Gross(price), k));
    ScaledAbs(NetQuantity(ps, k), c, Sum(ps, UnsignedOn(k)));
    assert ObligationOf(ps, k).settlementAmount == Abs(NetQuantity(ps, k) * c);
  }

  lemma KeyValue(p: Position, price: InstrumentId -> real, k: Key)
    ensures OnKey(Gross(price), k)(p) == price(k.instrument) * UnsignedOn(k)(p)
  {
    if KeyOf(p) == k {
      assert p.instrument == k.instrument;
    } else {
      var c := price(k.instrument);
      assert c * 0.0 == 0.0;
    }
  }

  lemma ScaledAbs(net: real, c: real, total: real)
    requires c >= 0.0 && Abs(net) <= total
    ensures Abs(net * c) <= c * total
  {
    assert Abs(net * c) == c * Abs(net);
    assert c * (total - Abs(net)) >= 0.0;
  }

  lemma GrossAdditive(price: InstrumentId -> real)
    ensures Additive(GrossMeasure(price))
  {
    forall k, side, a, b
      ensures GrossMeasure(price)(k, side, a) + GrossMeasure(price)(k, side, b) == GrossMeasure(price)(k, side, a + b)
    {
      var c := price(k.instrument);
      assert (a + b) * c == a * c + b * c;
    }
  }

  /** Netting compresses: what a cycle settles is at most the gross value of the legs it nets. */
  lemma Compression(legs: seq<Leg>, instruments: map<InstrumentId, Instrument>, prices: map<InstrumentId, real>,
                    cutoff: int)
    requires forall l | l in legs :: l.quantity >= 0.0
    requires forall x | x in prices :: prices[x] >= 0.0
    ensures Sum(CycleObligations(legs, instruments, prices, cutoff), SettlementAmount())
            <= Sum(legs, GrossValue(PriceOf(instruments, prices), cutoff))
  {
    hide Sum, Keys, FetchOpen, ObligationOf, NetQuantity, KeyTotal;
    var price := PriceOf(instruments, prices);
    var fetched := FetchOpen(legs, cutoff);
    var ps := CyclePositions(legs, instruments, prices, cutoff);
    var ks := Keys(ps);
    FetchNonNegative(legs, cutoff);
    EnrichUniform(fetched, instruments, prices);
    forall k | k in ks && NetQuantity(ps, k) == 0.0 ensures SettlementAmount()(ObligationOf(ps, k)) == 0.0 {
      ZeroNetSettlesZero(ps, k);
    }
    SumViaKeys(ps, ks, SettlementAmount());
    forall i | 0 <= i < |ks| ensures ViaKeys(ps, SettlementAmount())(ks[i]) <= KeyTotal(ps, Gross(price))(ks[i]) {
      KeyCompression(ps, price, TypeOf(instruments), ks[i]);
    }
    SumMonotone(ks, ViaKeys(ps, SettlementAmount()), KeyTotal(ps, Gross(price)));
    KeysCover(ps);
    KeysPartition(ps, ks, Gross(price));
    GrossOfLegs(legs, instruments, prices, cutoff);
  }

  lemma ZeroNetSettlesZero(ps: seq<Position>, k: Key)
    requires NetQuantity(ps, k) == 0.0
    ensures ObligationOf(ps, k).settlementAmount == 0.0
  {
    hide NetQuantity, LastPrice;
  }

  lemma GrossOfLegs(legs: seq<Leg>, instruments: map<InstrumentId, Instrument>, prices: map<InstrumentId, real>,
                    cutoff: int)
    ensures Sum(CyclePositions(legs, instruments, prices, cutoff), Gross(PriceOf(instruments, prices)))
            == Sum(legs, GrossValue(PriceOf(instruments, prices), cutoff))
  {
    hide Sum, FetchOpen;
    var price := PriceOf(instruments, prices);
    var fetched := FetchOpen(legs, cutoff);
    EnrichSum(fetched, instruments, prices, Gross(price));
    GrossAdditive(price);
    forall p: Position ensures Gross(price)(p) == OfPosition(GrossMeasure(price))(p) {
      assert KeyOf(p).instrument == p.instrument;
    }
    SumPointwise(fetched, Gross(price), OfPosition(GrossMeasure(price)));
    FetchSum(legs, cutoff, GrossMeasure(price));
    forall l: Leg ensures OfIncluded(GrossMeasure(price), cutoff)(l) == GrossValue(price, cutoff)(l) {
      assert LegKey(l).instrument == l.instrument;
    }
    SumPointwise(legs, OfIncluded(GrossMeasure(price), cutoff), GrossValue(price, cutoff));
  }
}
