/** Multilateral netting: open legs are grouped into positions, positions into net obligations, and
    every obligation becomes one settlement instruction between its member and the CCP. */
module Netting {
  import opened Options
  import opened Sums
  import opened Ledger
  import opened Registry
  import opened Model

  /** An aggregated position. The price and settlement type are absent until the position is enriched. */
  datatype Position = Position(member: MemberId, instrument: InstrumentId, side: Side, totalQuantity: real,
                               latestPrice: Option<real>, settlement: Option<SettlementType>)

  /** The accumulator that the netting loop keeps for one (member, instrument). */
  datatype Group = Group(buyQuantity: real, sellQuantity: real, latestPrice: real, settlement: SettlementType)

  // ---------------------------------------------------------------- specification of netting

  function KeyOf(p: Position): Key {
    Key(p.member, p.instrument)
  }

  function Directed(side: Side, quantity: real): real {
    if side == Buy then quantity else -quantity
  }

  function SignedOn(k: Key): Position -> real {
    (p: Position) => if KeyOf(p) == k then Directed(p.side, p.totalQuantity) else 0.0
  }

  function BoughtOn(k: Key): Position -> real {
    (p: Position) => if KeyOf(p) == k && p.side == Buy then p.totalQuantity else 0.0
  }

  function SoldOn(k: Key): Position -> real {
    (p: Position) => if KeyOf(p) == k && p.side == Sell then p.totalQuantity else 0.0
  }

  /** Net quantity of a key: everything bought less everything sold. */
  function NetQuantity(ps: seq<Position>, k: Key): real {
    Sum(ps, SignedOn(k))
  }

  /** The keys in order of first appearance: the order of the dictionary. */
  function Keys(ps: seq<Position>): (ks: seq<Key>)
    ensures Distinct(ks)
    ensures forall k :: k in ks <==> exists i :: 0 <= i < |ps| && KeyOf(ps[i]) == k
  {
    if ps == [] then []
    else
      var p := ps[|ps| - 1];
      var ks := Keys(ps[..|ps| - 1]);
      assert forall i | 0 <= i < |ps| - 1 :: ps[i] == ps[..|ps| - 1][i];
      if KeyOf(p) in ks then ks else ks + [KeyOf(p)]
  }

  /** The last price given for a key; 0 when none is given. */
  function LastPrice(ps: seq<Position>, k: Key): real {
    if ps == [] then 0.0
    else
      var p := ps[|ps| - 1];
      if KeyOf(p) == k && p.latestPrice.Some? then p.latestPrice.value else LastPrice(ps[..|ps| - 1], k)
  }

  /** The settlement type of the first position of a key; cash when it gives none. */
  function FirstType(ps: seq<Position>, k: Key): SettlementType {
    if ps == [] then Cash
    else if k in Keys(ps[..|ps| - 1]) then FirstType(ps[..|ps| - 1], k)
    else
      var p := ps[|ps| - 1];
      if KeyOf(p) == k && p.settlement.Some? then p.settlement.value else Cash
  }

  function ObligationOf(ps: seq<Position>, k: Key): Obligation {
    var net := NetQuantity(ps, k);
    var amount := net * LastPrice(ps, k);
    Obligation(k.member, k.instrument, net, amount, Abs(amount), FirstType(ps, k))
  }

  function ObligationsFor(ps: seq<Position>, ks: seq<Key>): seq<Obligation> {
    if ks == [] then []
    else
      var rest := ObligationsFor(ps, ks[..|ks| - 1]);
      var k := ks[|ks| - 1];
      if NetQuantity(ps, k) == 0.0 then rest else rest + [ObligationOf(ps, k)]
  }

  function Obligations(ps: seq<Position>): seq<Obligation> {
    ObligationsFor(ps, Keys(ps))
  }

  // ---------------------------------------------------------------- the dictionary loop

  function GroupOf(ps: seq<Position>, k: Key): Group {
    Group(Sum(ps, BoughtOn(k)), Sum(ps, SoldOn(k)), LastPrice(ps, k), FirstType(ps, k))
  }

  lemma {:induction false} NetIsBoughtLessSold(ps: seq<Position>, k: Key)
    ensures NetQuantity(ps, k) == Sum(ps, BoughtOn(k)) - Sum(ps, SoldOn(k))
  {
    SumAdd(ps, SignedOn(k), SoldOn(k), BoughtOn(k));
  }

  /** The group of a key that the dictionary does not hold yet, from its first position. */
  function FreshGroup(p: Position): Group {
    Group(0.0, 0.0,
          if p.latestPrice.Some? then p.latestPrice.value else 0.0,
          if p.settlement.Some? then p.settlement.value else Cash)
  }

  /** A group after one more position of its key. */
  function Accumulate(g: Group, p: Position): Group {
    Group(if p.side == Buy then g.buyQuantity + p.totalQuantity else g.buyQuantity,
          if p.side == Buy then g.sellQuantity else g.sellQuantity + p.totalQuantity,
          if p.latestPrice.Some? then p.latestPrice.value else g.latestPrice,
          g.settlement)
  }

  lemma {:induction false} AbsentKey(ps: seq<Position>, k: Key)
    requires k !in Keys(ps)
    ensures Sum(ps, BoughtOn(k)) == 0.0 && Sum(ps, SoldOn(k)) == 0.0 && LastPrice(ps, k) == 0.0
  {
    if ps != [] {
      assert KeyOf(ps[|ps| - 1]) != k;
      AbsentKey(ps[..|ps| - 1], k);
    }
  }

  lemma KeysStep(ps: seq<Position>, p: Position)
    ensures Keys(ps + [p]) == if KeyOf(p) in Keys(ps) then Keys(ps) else Keys(ps) + [KeyOf(p)]
  {
    assert (ps + [p])[..|ps|] == ps;
  }

  lemma GroupStep(ps: seq<Position>, p: Position, k: Key)
    ensures KeyOf(p) != k && k in Keys(ps) ==> GroupOf(ps + [p], k) == GroupOf(ps, k)
    ensures KeyOf(p) == k ==>
      GroupOf(ps + [p], k) == Accumulate(if k in Keys(ps) then GroupOf(ps, k) else FreshGroup(p), p)
  {
    assert (ps + [p])[..|ps|] == ps;
    SumSnoc(ps, p, BoughtOn(k));
    SumSnoc(ps, p, SoldOn(k));
    if k !in Keys(ps) {
      AbsentKey(ps, k);
    }
  }

  /** The first loop of calculate_net_obligations: a dictionary in insertion order. */
  method GroupPositions(positions: seq<Position>) returns (grouped: map<Key, Group>, order: seq<Key>)
    ensures order == Keys(positions)
    ensures grouped.Keys == set k | k in order
    ensures forall k | k in grouped :: grouped[k] == GroupOf(positions, k)
  {
    hide Keys, GroupOf, FreshGroup;
    grouped, order := map[], [];
    assert positions[..0] == [] && Keys([]) == [] by {
      KeysEmpty();
    }
    for i := 0 to |positions|
      invariant order == Keys(positions[..i])
      invariant grouped.Keys == set k | k in order
      invariant forall k | k in grouped :: grouped[k] == GroupOf(positions[..i], k)
    {
      var pos := positions[i];
      var key := KeyOf(pos);
      assert positions[..i + 1] == positions[..i] + [pos];
      KeysStep(positions[..i], pos);
      GroupStep(positions[..i], pos, key);
      forall k | k in grouped && k != key ensures GroupOf(positions[..i + 1], k) == grouped[k] {
        GroupStep(positions[..i], pos, k);
      }
      if key !in grouped {
        grouped := grouped[key := FreshGroup(pos)];
        order := order + [key];
      }
      var g := grouped[key];
      if pos.side == Buy {
        g := g.(buyQuantity := g.buyQuantity + pos.totalQuantity);
      } else {
        g := g.(sellQuantity := g.sellQuantity + pos.totalQuantity);
      }
      if pos.latestPrice.Some? {
        g := g.(latestPrice := pos.latestPrice.value);
      }
      grouped := grouped[key := g];
    }
    assert positions[..|positions|] == positions;
  }

  lemma KeysEmpty()
    ensures Keys([]) == []
  {
  }

  /** calculate_net_obligations: the groups whose bought and sold quantities differ, priced. */
  method CalculateNetObligations(positions: seq<Position>) returns (obligations: seq<Obligation>)
    ensures obligations == Obligations(positions)
  {
    hide Keys, NetQuantity, LastPrice, FirstType;
    var grouped, order := GroupPositions(positions);
    obligations := [];
    for i := 0 to |order|
      invariant obligations == ObligationsFor(positions, order[..i])
    {
      var key := order[i];
      var data := grouped[key];
      assert order[..i + 1][..i] == order[..i];
      NetIsBoughtLessSold(positions, key);
      var net := data.buyQuantity - data.sellQuantity;
      if net != 0.0 {
        var amount := net * data.latestPrice;
        obligations := obligations +
          [Obligation(key.member, key.instrument, net, amount, Abs(amount), data.settlement)];
      }
    }
    assert order[..|order|] == order;
  }

  // ---------------------------------------------------------------- properties of obligations

  function ObligationKey(o: Obligation): Key {
    Key(o.member, o.instrument)
  }

  /** The list of obligations, characterised without reference to any order: one for every key with a
      non-zero net, and at most one per key. */
  lemma {:induction false} ObligationsAre(ps: seq<Position>, ks: seq<Key>)
    requires Distinct(ks)
    ensures forall o :: o in ObligationsFor(ps, ks) <==>
      ObligationKey(o) in ks && NetQuantity(ps, ObligationKey(o)) != 0.0 && o == ObligationOf(ps, ObligationKey(o))
    ensures forall i, j | 0 <= i < j < |ObligationsFor(ps, ks)| ::
      ObligationKey(ObligationsFor(ps, ks)[i]) != ObligationKey(ObligationsFor(ps, ks)[j])
  {
    hide NetQuantity, LastPrice, FirstType;
    if ks != [] {
      var ks0, k := ks[..|ks| - 1], ks[|ks| - 1];
      ObligationsAre(ps, ks0);
      assert forall x | x in ks :: x in ks0 || x == k;
      assert k !in ks0;
      assert forall o | o in ObligationsFor(ps, ks0) :: ObligationKey(o) != k;
    }
  }

  function QuantityOn(k: Key): Obligation -> real {
    (o: Obligation) => if ObligationKey(o) == k then o.netQuantity else 0.0
  }

  function AmountIn(x: InstrumentId): Obligation -> real {
    (o: Obligation) => if o.instrument == x then o.netAmount else 0.0
  }

  function SettlementAmount(): Obligation -> real {
    (o: Obligation) => o.settlementAmount
  }

  /** The value of h on the obligation of each key. */
  function ViaKeys(ps: seq<Position>, h: Obligation -> real): Key -> real {
    (k: Key) => h(ObligationOf(ps, k))
  }

  /** A total over the obligations is a total over the keys, if dropped keys contribute nothing. */
  lemma {:induction false} SumViaKeys(ps: seq<Position>, ks: seq<Key>, h: Obligation -> real)
    requires forall k | k in ks && NetQuantity(ps, k) == 0.0 :: h(ObligationOf(ps, k)) == 0.0
    ensures Sum(ObligationsFor(ps, ks), h) == Sum(ks, ViaKeys(ps, h))
  {
    hide NetQuantity, ObligationOf;
    if ks != [] {
      var ks0, k := ks[..|ks| - 1], ks[|ks| - 1];
      SumViaKeys(ps, ks0, h);
      SumSnoc(ObligationsFor(ps, ks0), ObligationOf(ps, k), h);
    }
  }

  /** Dropping the zeros loses nothing: per key the obligations carry exactly the net quantity. */
  lemma ObligationsCarryNet(ps: seq<Position>, k: Key)
    ensures Sum(Obligations(ps), QuantityOn(k)) == NetQuantity(ps, k)
  {
    hide NetQuantity, ObligationOf, Keys, Sum;
    forall j ensures ViaKeys(ps, QuantityOn(k))(j) == QuantityOn(k)(ObligationOf(ps, j))
                                                   == if j == k then NetQuantity(ps, k) else 0.0
    {
      ObligationFields(ps, j);
    }
    SumViaKeys(ps, Keys(ps), QuantityOn(k));
    SumSelect(Keys(ps), k, ViaKeys(ps, QuantityOn(k)));
    if k !in Keys(ps) {
      AbsentNet(ps, k);
    }
  }

  lemma ObligationFields(ps: seq<Position>, k: Key)
    ensures ObligationKey(ObligationOf(ps, k)) == k
    ensures ObligationOf(ps, k).netQuantity == NetQuantity(ps, k)
  {
  }

  lemma AbsentNet(ps: seq<Position>, k: Key)
    requires k !in Keys(ps)
    ensures NetQuantity(ps, k) == 0.0
  {
    SumZero(ps, SignedOn(k));
  }

  /** Positions of one instrument agree on its price and settlement type. */
  ghost predicate Uniform(ps: seq<Position>, price: InstrumentId -> real, kind: InstrumentId -> SettlementType) {
    forall p | p in ps :: p.latestPrice == Some(price(p.instrument)) && p.settlement == Some(kind(p.instrument))
  }

  lemma {:induction false} UniformPrice(ps: seq<Position>, price: InstrumentId -> real,
                                        kind: InstrumentId -> SettlementType, k: Key)
    requires Uniform(ps, price, kind) && k in Keys(ps)
    ensures LastPrice(ps, k) == price(k.instrument)
    ensures FirstType(ps, k) == kind(k.instrument)
  {
    var ps0, p := ps[..|ps| - 1], ps[|ps| - 1];
    assert p in ps;
    if k in Keys(ps0) {
      UniformPrice(ps0, price, kind, k);
    }
  }

  /** With one price and one settlement type per instrument, the order of the positions does not
      matter: the same obligations come out, each once. */
  lemma OrderIrrelevant(ps: seq<Position>, qs: seq<Position>, price: InstrumentId -> real,
                        kind: InstrumentId -> SettlementType)
    requires multiset(ps) == multiset(qs)
    requires Uniform(ps, price, kind)
    ensures multiset(Obligations(ps)) == multiset(Obligations(qs))
  {
    hide NetQuantity, Keys;
    assert forall p :: p in qs ==> p in multiset(qs);
    assert forall p :: p in multiset(ps) ==> p in ps;
    ObligationsAre(ps, Keys(ps));
    ObligationsAre(qs, Keys(qs));
    forall o ensures o in Obligations(ps) <==> o in Obligations(qs) {
      SameObligation(ps, qs, price, kind, ObligationKey(o));
    }
    DistinctMultiset(Obligations(ps), Obligations(qs));
  }

  lemma SameObligation(ps: seq<Position>, qs: seq<Position>, price: InstrumentId -> real,
                       kind: InstrumentId -> SettlementType, k: Key)
    requires multiset(ps) == multiset(qs)
    requires Uniform(ps, price, kind) && Uniform(qs, price, kind)
    ensures k in Keys(ps) <==> k in Keys(qs)
    ensures NetQuantity(ps, k) == NetQuantity(qs, k)
    ensures k in Keys(ps) ==> ObligationOf(ps, k) == ObligationOf(qs, k)
  {
    hide Sum, Keys, LastPrice, FirstType;
    SumPermutation(ps, qs, SignedOn(k));
    SameKeys(ps, qs, k);
    if k in Keys(ps) {
      UniformPrice(ps, price, kind, k);
      UniformPrice(qs, price, kind, k);
    }
  }

  lemma SameKeys(ps: seq<Position>, qs: seq<Position>, k: Key)
    requires multiset(ps) == multiset(qs)
    ensures k in Keys(ps) <==> k in Keys(qs)
  {
    if i :| 0 <= i < |ps| && KeyOf(ps[i]) == k {
      assert ps[i] in multiset(qs);
    }
    if i :| 0 <= i < |qs| && KeyOf(qs[i]) == k {
      assert qs[i] in multiset(ps);
    }
  }

  lemma {:induction false} DistinctCounts<T(!new)>(s: seq<T>, x: T)
    requires forall i, j | 0 <= i < j < |s| :: s[i] != s[j]
    ensures multiset(s)[x] == if x in s then 1 else 0
  {
    if s != [] {
      var s0, y := s[..|s| - 1], s[|s| - 1];
      DistinctCounts(s0, x);
      assert s == s0 + [y];
      assert y !in s0;
    }
  }

  lemma DistinctMultiset(s: seq<Obligation>, t: seq<Obligation>)
    requires forall i, j | 0 <= i < j < |s| :: s[i] != s[j]
    requires forall i, j | 0 <= i < j < |t| :: t[i] != t[j]
    requires forall o :: o in s <==> o in t
    ensures multiset(s) == multiset(t)
  {
    forall o: Obligation ensures multiset(s)[o] == multiset(t)[o] {
      DistinctCounts(s, o);
      DistinctCounts(t, o);
    }
  }

  // ---------------------------------------------------------------- regrouping by key

  function OnKey(g: Position -> real, k: Key): Position -> real {
    (p: Position) => if KeyOf(p) == k then g(p) else 0.0
  }

  function KeyTotal(ps: seq<Position>, g: Position -> real): Key -> real {
    (k: Key) => Sum(ps, OnKey(g, k))
  }

  /** Summing key by key is summing position by position. */
  lemma {:induction false} KeysPartition(ps: seq<Position>, ks: seq<Key>, g: Position -> real)
    requires Distinct(ks)
    requires forall p | p in ps :: KeyOf(p) in ks
    ensures Sum(ks, KeyTotal(ps, g)) == Sum(ps, g)
  {
    if ps == [] {
      SumZero(ks, KeyTotal(ps, g));
    } else {
      var ps0, p := ps[..|ps| - 1], ps[|ps| - 1];
      KeysPartition(ps0, ks, g);
      var share := (k: Key) => OnKey(g, k)(p);
      assert ps == ps0 + [p];
      forall i | 0 <= i < |ks| ensures KeyTotal(ps, g)(ks[i]) == KeyTotal(ps0, g)(ks[i]) + share(ks[i]) {
        SumSnoc(ps0, p, OnKey(g, ks[i]));
      }
      SumAdd(ks, KeyTotal(ps0, g), share, KeyTotal(ps, g));
      assert p in ps;
      SumSelect(ks, KeyOf(p), share);
    }
  }

  lemma KeysCover(ps: seq<Position>)
    ensures forall p | p in ps :: KeyOf(p) in Keys(ps)
  {
  }

  function SignedIn(x: InstrumentId): Position -> real {
    (p: Position) => if p.instrument == x then Directed(p.side, p.totalQuantity) else 0.0
  }

  lemma KeyNet(ps: seq<Position>, x: InstrumentId, k: Key)
    ensures KeyTotal(ps, SignedIn(x))(k) == if k.instrument == x then NetQuantity(ps, k) else 0.0
  {
    if k.instrument == x {
      SumPointwise(ps, OnKey(SignedIn(x), k), SignedOn(k));
    } else {
      SumZero(ps, OnKey(SignedIn(x), k));
    }
  }

  lemma KeyAmount(ps: seq<Position>, x: InstrumentId, price: real, k: Key)
    requires k.instrument == x ==> LastPrice(ps, k) == price
    ensures ViaKeys(ps, AmountIn(x))(k) == price * KeyTotal(ps, SignedIn(x))(k)
    ensures NetQuantity(ps, k) == 0.0 ==> AmountIn(x)(ObligationOf(ps, k)) == 0.0
  {
    hide NetQuantity, LastPrice, FirstType, KeyTotal;
    KeyNet(ps, x, k);
    var net := NetQuantity(ps, k);
    if k.instrument == x {
      assert ObligationOf(ps, k).netAmount == net * price == price * net;
    } else {
      assert ObligationOf(ps, k).instrument == k.instrument;
      var total := KeyTotal(ps, SignedIn(x))(k);
      assert total == 0.0 && price * total == 0.0;
    }
  }

  /** Per instrument, the net amounts add up to its price times the signed quantity of its positions. */
  lemma InstrumentAmount(ps: seq<Position>, x: InstrumentId, price: InstrumentId -> real,
                         kind: InstrumentId -> SettlementType)
    requires Uniform(ps, price, kind)
    ensures Sum(Obligations(ps), AmountIn(x)) == price(x) * Sum(ps, SignedIn(x))
  {
    hide NetQuantity, LastPrice, FirstType, KeyTotal, ObligationOf, ViaKeys, Sum, Keys;
    var ks := Keys(ps);
    forall k | k in ks
      ensures ViaKeys(ps, AmountIn(x))(k) == price(x) * KeyTotal(ps, SignedIn(x))(k)
      ensures NetQuantity(ps, k) == 0.0 ==> AmountIn(x)(ObligationOf(ps, k)) == 0.0
    {
      UniformPrice(ps, price, kind, k);
      KeyAmount(ps, x, price(x), k);
    }
    SumViaKeys(ps, ks, AmountIn(x));
    SumScale(ks, price(x), KeyTotal(ps, SignedIn(x)), ViaKeys(ps, AmountIn(x)));
    KeysCover(ps);
    KeysPartition(ps, ks, SignedIn(x));
  }

  // ---------------------------------------------------------------- queries

  predicate Included(l: Leg, cutoff: int) {
    l.status == Open && l.novatedAt <= cutoff
  }

  function LegKey(l: Leg): Key {
    Key(l.member, l.instrument)
  }

  /** One more leg in the result of GROUP BY member, instrument, side. */
  function AddLeg(ps: seq<Position>, l: Leg): seq<Position> {
    if ps == [] then [Position(l.member, l.instrument, l.side, l.quantity, None, None)]
    else
      var p := ps[|ps| - 1];
      if p.member == l.member && p.instrument == l.instrument && p.side == l.side
      then ps[..|ps| - 1] + [p.(totalQuantity := p.totalQuantity + l.quantity)]
      else AddLeg(ps[..|ps| - 1], l) + [p]
  }

  /** _fetch_open_positions: the open legs novated at or before the cut-off, grouped. */
  function FetchOpen(legs: seq<Leg>, cutoff: int): seq<Position> {
    if legs == [] then []
    else
      var rest := FetchOpen(legs[..|legs| - 1], cutoff);
      var l := legs[|legs| - 1];
      if Included(l, cutoff) then AddLeg(rest, l) else rest
  }

  /** A measure of quantities that may depend on key and side. */
  type Measure = (Key, Side, real) -> real

  ghost predicate Additive(f: Measure) {
    forall k, side, a, b :: f(k, side, a) + f(k, side, b) == f(k, side, a + b)
  }

  function OfPosition(f: Measure): Position -> real {
    (p: Position) => f(KeyOf(p), p.side, p.totalQuantity)
  }

  function OfIncluded(f: Measure, cutoff: int): Leg -> real {
    (l: Leg) => if Included(l, cutoff) then f(LegKey(l), l.side, l.quantity) else 0.0
  }

  lemma {:induction false} AddLegSum(ps: seq<Position>, l: Leg, f: Measure)
    requires Additive(f)
    ensures Sum(AddLeg(ps, l), OfPosition(f)) == Sum(ps, OfPosition(f)) + f(LegKey(l), l.side, l.quantity)
  {
    if ps == [] {
      var p := Position(l.member, l.instrument, l.side, l.quantity, None, None);
      assert KeyOf(p) == LegKey(l);
      SingleSum(p, OfPosition(f));
    } else {
      var ps0, p := ps[..|ps| - 1], ps[|ps| - 1];
      if p.member == l.member && p.instrument == l.instrument && p.side == l.side {
        var q := p.(totalQuantity := p.totalQuantity + l.quantity);
        assert KeyOf(q) == KeyOf(p) == LegKey(l);
        assert f(LegKey(l), l.side, p.totalQuantity) + f(LegKey(l), l.side, l.quantity)
               == f(LegKey(l), l.side, p.totalQuantity + l.quantity);
        SumSnoc(ps0, q, OfPosition(f));
      } else {
        AddLegSum(ps0, l, f);
        SumSnoc(AddLeg(ps0, l), p, OfPosition(f));
      }
    }
  }

  /** Grouping preserves every additive measure. */
  lemma {:induction false} FetchSum(legs: seq<Leg>, cutoff: int, f: Measure)
    requires Additive(f)
    ensures Sum(FetchOpen(legs, cutoff), OfPosition(f)) == Sum(legs, OfIncluded(f, cutoff))
  {
    if legs != [] {
      FetchSum(legs[..|legs| - 1], cutoff, f);
      AddLegSum(FetchOpen(legs[..|legs| - 1], cutoff), legs[|legs| - 1], f);
    }
  }

  lemma {:induction false} AddLegNonNegative(ps: seq<Position>, l: Leg)
    requires l.quantity >= 0.0 && forall p | p in ps :: p.totalQuantity >= 0.0
    ensures forall p | p in AddLeg(ps, l) :: p.totalQuantity >= 0.0
  {
    if ps != [] {
      AddLegNonNegative(ps[..|ps| - 1], l);
    }
  }

  lemma {:induction false} FetchNonNegative(legs: seq<Leg>, cutoff: int)
    requires forall l | l in legs :: l.quantity >= 0.0
    ensures forall p | p in FetchOpen(legs, cutoff) :: p.totalQuantity >= 0.0
  {
    if legs != [] {
      FetchNonNegative(legs[..|legs| - 1], cutoff);
      AddLegNonNegative(FetchOpen(legs[..|legs| - 1], cutoff), legs[|legs| - 1]);
    }
  }

  function PriceOf(instruments: map<InstrumentId, Instrument>, prices: map<InstrumentId, real>): InstrumentId -> real {
    (x: InstrumentId) => if x in instruments && x in prices then prices[x] else 0.0
  }

  function TypeOf(instruments: map<InstrumentId, Instrument>): InstrumentId -> SettlementType {
    (x: InstrumentId) => if x in instruments then instruments[x].settlement else Cash
  }

  function Priced(p: Position, instruments: map<InstrumentId, Instrument>, prices: map<InstrumentId, real>): Position {
    p.(latestPrice := Some(PriceOf(instruments, prices)(p.instrument)),
       settlement := Some(TypeOf(instruments)(p.instrument)))
  }

  function Enrich(ps: seq<Position>, instruments: map<InstrumentId, Instrument>,
                  prices: map<InstrumentId, real>): seq<Position>
  {
    seq(|ps|, i requires 0 <= i < |ps| => Priced(ps[i], instruments, prices))
  }

  /** _enrich_with_prices: every position in turn gets its instrument's price and settlement type; an
      unknown instrument is cash at price 0. */
  method EnrichWithPrices(positions: seq<Position>, instruments: map<InstrumentId, Instrument>,
                          prices: map<InstrumentId, real>) returns (enriched: seq<Position>)
    ensures |enriched| == |positions|
    ensures forall i | 0 <= i < |positions| ::
              var x := positions[i].instrument;
              enriched[i] == positions[i].(
                latestPrice := Some(if x in instruments && x in prices then prices[x] else 0.0),
                settlement := Some(if x in instruments then instruments[x].settlement else Cash))
    ensures enriched == Enrich(positions, instruments, prices)
  {
    enriched := positions;
    for i := 0 to |positions|
      invariant |enriched| == |positions|
      invariant forall j | 0 <= j < i :: enriched[j] == Priced(positions[j], instruments, prices)
      invariant forall j | i <= j < |positions| :: enriched[j] == positions[j]
    {
      var x := enriched[i].instrument;
      if x in instruments {
        var price := if x in prices then prices[x] else 0.0;
        var kind := instruments[x].settlement;
        enriched := enriched[i := enriched[i].(latestPrice := Some(price), settlement := Some(kind))];
      } else {
        enriched := enriched[i := enriched[i].(latestPrice := Some(0.0), settlement := Some(Cash))];
      }
    }
  }

  lemma EnrichUniform(ps: seq<Position>, instruments: map<InstrumentId, Instrument>, prices: map<InstrumentId, real>)
    ensures Uniform(Enrich(ps, instruments, prices), PriceOf(instruments, prices), TypeOf(instruments))
  {
  }

  lemma {:induction false} EnrichSum(ps: seq<Position>, instruments: map<InstrumentId, Instrument>,
                                     prices: map<InstrumentId, real>, f: Position -> real)
    requires forall i | 0 <= i < |ps| :: f(Priced(ps[i], instruments, prices)) == f(ps[i])
    ensures Sum(Enrich(ps, instruments, prices), f) == Sum(ps, f)
  {
    if ps != [] {
      var ps0 := ps[..|ps| - 1];
      EnrichSum(ps0, instruments, prices, f);
      assert Enrich(ps, instruments, prices)[..|ps| - 1] == Enrich(ps0, instruments, prices);
    }
  }

  /** The positions that a cycle nets. */
  function CyclePositions(legs: seq<Leg>, instruments: map<InstrumentId, Instrument>, prices: map<InstrumentId, real>,
                          cutoff: int): seq<Position>
  {
    Enrich(FetchOpen(legs, cutoff), instruments, prices)
  }

  function NetOnKey(k: Key): Measure {
    (j: Key, side: Side, q: real) => if j == k then Directed(side, q) else 0.0
  }

  function NetInInstrument(x: InstrumentId): Measure {
    (j: Key, side: Side, q: real) => if j.instrument == x then Directed(side, q) else 0.0
  }

  lemma NetMeasuresAdditive(k: Key, x: InstrumentId)
    ensures Additive(NetOnKey(k)) && Additive(NetInInstrument(x))
  {
    forall j, side, a, b
      ensures NetOnKey(k)(j, side, a) + NetOnKey(k)(j, side, b) == NetOnKey(k)(j, side, a + b)
      ensures NetInInstrument(x)(j, side, a) + NetInInstrument(x)(j, side, b) == NetInInstrument(x)(j, side, a + b)
    {
    }
  }

  /** The signed quantity that a leg contributes to key k when the cycle includes it. */
  function IncludedOn(cutoff: int, k: Key): Leg -> real {
    (l: Leg) => if Included(l, cutoff) && LegKey(l) == k then Directed(l.side, l.quantity) else 0.0
  }

  function IncludedIn(cutoff: int, x: InstrumentId): Leg -> real {
    (l: Leg) => if Included(l, cutoff) && l.instrument == x then Directed(l.side, l.quantity) else 0.0
  }

  /** Per key, the cycle nets exactly the included legs. */
  lemma CycleNet(legs: seq<Leg>, instruments: map<InstrumentId, Instrument>, prices: map<InstrumentId, real>,
                 cutoff: int, k: Key)
    ensures Sum(Obligations(CyclePositions(legs, instruments, prices, cutoff)), QuantityOn(k))
            == Sum(legs, IncludedOn(cutoff, k))
  {
    var fetched := FetchOpen(legs, cutoff);
    ObligationsCarryNet(CyclePositions(legs, instruments, prices, cutoff), k);
    EnrichSum(fetched, instruments, prices, SignedOn(k));
    SumPointwise(fetched, SignedOn(k), OfPosition(NetOnKey(k)));
    NetMeasuresAdditive(k, k.instrument);
    FetchSum(legs, cutoff, NetOnKey(k));
    SumPointwise(legs, OfIncluded(NetOnKey(k), cutoff), IncludedOn(cutoff, k));
  }

  /** Per instrument, the net amounts of a cycle add up to its price times the net of its included legs. */
  lemma CycleAmount(legs: seq<Leg>, instruments: map<InstrumentId, Instrument>, prices: map<InstrumentId, real>,
                    cutoff: int, x: InstrumentId)
    ensures Sum(Obligations(CyclePositions(legs, instruments, prices, cutoff)), AmountIn(x))
            == PriceOf(instruments, prices)(x) * Sum(legs, IncludedIn(cutoff, x))
  {
    hide Sum, Obligations, FetchOpen, Uniform;
    var fetched := FetchOpen(legs, cutoff);
    EnrichUniform(fetched, instruments, prices);
    InstrumentAmount(CyclePositions(legs, instruments, prices, cutoff), x, PriceOf(instruments, prices),
                     TypeOf(instruments));
    EnrichSum(fetched, instruments, prices, SignedIn(x));
    forall p: Position ensures SignedIn(x)(p) == OfPosition(NetInInstrument(x))(p) {
      assert KeyOf(p).instrument == p.instrument;
    }
    SumPointwise(fetched, SignedIn(x), OfPosition(NetInInstrument(x)));
    NetMeasuresAdditive(Key(0, x), x);
    FetchSum(legs, cutoff, NetInInstrument(x));
    forall l: Leg ensures OfIncluded(NetInInstrument(x), cutoff)(l) == IncludedIn(cutoff, x)(l) {
      assert LegKey(l).instrument == l.instrument;
    }
    SumPointwise(legs, OfIncluded(NetInInstrument(x), cutoff), IncludedIn(cutoff, x));
  }
}
