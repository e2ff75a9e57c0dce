/** A netting cycle told without its own queries: what every obligation and instruction says, read off the leg
    table, the instruments and the price feed. */
module CycleTerms {
  import opened Sums
  import opened Ledger
  import opened Registry
  import opened Model
  import opened Netting
  import opened NettingCycle

  /** What a leg adds to a member's net quantity in an instrument, if it is open and not after the cut-off. */
  function Adds(cutoff: int, member: MemberId, x: InstrumentId): Leg -> real {
    (l: Leg) =>
      if l.status == Open && l.novatedAt <= cutoff && l.member == member && l.instrument == x then
        (if l.side == Buy then l.quantity else -l.quantity)
      else 0.0
  }

  lemma AddsIsIncluded(legs: seq<Leg>, cutoff: int, k: Key)
    ensures Sum(legs, IncludedOn(cutoff, k)) == Sum(legs, Adds(cutoff, k.member, k.instrument))
  {
    SumPointwise(legs, IncludedOn(cutoff, k), Adds(cutoff, k.member, k.instrument));
  }

  lemma NetIsIncluded(legs: seq<Leg>, instruments: map<InstrumentId, Instrument>, prices: map<InstrumentId, real>,
                      cutoff: int, k: Key)
    ensures NetQuantity(CyclePositions(legs, instruments, prices, cutoff), k)
            == Sum(legs, Adds(cutoff, k.member, k.instrument))
  {
    hide Obligations, Adds, IncludedOn, Sum, CyclePositions;
    ObligationsCarryNet(CyclePositions(legs, instruments, prices, cutoff), k);
    CycleNet(legs, instruments, prices, cutoff, k);
    AddsIsIncluded(legs, cutoff, k);
  }

  /** The obligations of a cycle, one by one. A member has one in an instrument exactly if its open legs up to the
      cut-off do not cancel; it says what they net to, the price of that at the instrument's latest quote (nothing
      for an instrument that is not listed or has no quote), and the instrument's settlement type (cash if it is
      not listed). */
  lemma ObligationsExactly(legs: seq<Leg>, instruments: map<InstrumentId, Instrument>, prices: map<InstrumentId, real>,
                           cutoff: int, o: Obligation)
    ensures o in CycleObligations(legs, instruments, prices, cutoff)
            <==> (&& o.netQuantity == Sum(legs, Adds(cutoff, o.member, o.instrument)) != 0.0
                  && o.netAmount == o.netQuantity * (if o.instrument in instruments && o.instrument in prices
                                                     then prices[o.instrument] else 0.0)
                  && o.settlementAmount == (if o.netAmount >= 0.0 then o.netAmount else -o.netAmount)
                  && o.settlement == if o.instrument in instruments then instruments[o.instrument].settlement else Cash)
  {
    hide NetQuantity, Sum, Keys, FetchOpen, LastPrice, FirstType;
    var ps := CyclePositions(legs, instruments, prices, cutoff);
    var k := Key(o.member, o.instrument);
    NetIsIncluded(legs, instruments, prices, cutoff, k);
    ObligationsAre(ps, Keys(ps));
    if k in Keys(ps) {
      EnrichUniform(FetchOpen(legs, cutoff), instruments, prices);
      UniformPrice(ps, PriceOf(instruments, prices), TypeOf(instruments), k);
    } else {
      AbsentNet(ps, k);
    }
  }

  /** No member has two obligations in one instrument. */
  lemma OneObligationEach(legs: seq<Leg>, instruments: map<InstrumentId, Instrument>, prices: map<InstrumentId, real>,
                          cutoff: int)
    ensures var os := CycleObligations(legs, instruments, prices, cutoff);
            forall i, j | 0 <= i < j < |os| ::
              os[i].member != os[j].member || os[i].instrument != os[j].instrument
  {
    hide NetQuantity, Keys, CyclePositions;
    var ps := CyclePositions(legs, instruments, prices, cutoff);
    ObligationsAre(ps, Keys(ps));
    var os := CycleObligations(legs, instruments, prices, cutoff);
    forall i, j | 0 <= i < j < |os| ensures os[i].member != os[j].member || os[i].instrument != os[j].instrument {
      assert ObligationKey(os[i]) != ObligationKey(os[j]);
    }
  }
}
