/** Runs of the whole system that end badly: one with a false log row, where an on-chain instruction that fails after
    it was broadcast is logged as failing from `approved`; and one that loses the event of an instruction. */
module Witnesses {
  import opened Options
  import opened Sums
  import opened Ledger
  import opened Registry
  import opened Model
  import opened Outbox
  import opened Trading
  import opened Netting
  import opened NettingCycle
  import opened Settlement
  import opened System
  import opened Theorems
  import opened SettlementConsumer
  import opened Liveness

  /** Member 1 buys one unit of instrument 0, which settles on chain, from member 2; member 0 is the CCP. */
  const DATA := TradeData(0, 1, 2, 1.0, 1.0)

  function ImAccounts(): seq<Account> {
    [ImAccount(1, Available), ImAccount(1, Locked), ImAccount(2, Available), ImAccount(2, Locked)]
  }

  function Members(): seq<Member> {
    [Member(0, Active, 0.0), Member(1, Active, 0.0), Member(2, Active, 0.0)]
  }

  function Genesis(): State {
    State(Books(ImAccounts(), [], []), Members(), Some(0), map[0 := Instrument(Dvp, true, 1.0)], {7}, map[], [], [], [],
          [], [], map[], [], {}, [], Bus([], [], map[], []))
  }

  /** s is reached from the seed by the services without a pass of the settlement consumer. */
  ghost predicate BeforeSettlement(s: State) {
    exists s0, contributions, es ::
      Initial(s0, contributions) && Services(es) && AfterEvents(Session(s0, 0), es) == Session(s, 0)
  }

  lemma NoEvents(x: Session)
    ensures AfterEvents(x, []) == x && Services([])
  {
  }

  lemma GenesisReachable()
    ensures Reachable(Genesis()) && BeforeSettlement(Genesis())
  {
    assert Initial(Genesis(), []);
    assert Run(Genesis(), []) == Genesis();
    NoEvents(Session(Genesis(), 0));
  }

  lemma ServicesConcat(first: seq<Event>, second: seq<Event>)
    requires Services(first) && Services(second)
    ensures Services(first + second)
  {
  }

  lemma BeforeNext(s: State, step: Step)
    requires BeforeSettlement(s) && IsService(Elsewhere(step))
    ensures BeforeSettlement(Next(s, step))
  {
    hide Initial, Next, Services;
    var s0, contributions, es :|
      Initial(s0, contributions) && Services(es) && AfterEvents(Session(s0, 0), es) == Session(s, 0);
    assert Services([Elsewhere(step)]) by {
      OneService(step);
    }
    ServicesConcat(es, [Elsewhere(step)]);
    assert (es + [Elsewhere(step)])[..|es|] == es;
    assert AfterEvents(Session(s0, 0), es + [Elsewhere(step)]) == Session(Next(s, step), 0);
  }

  lemma OneService(step: Step)
    requires IsService(Elsewhere(step))
    ensures Services([Elsewhere(step)])
  {
  }

  lemma BeforePublishing(s: State, steps: seq<Step>, limit: nat)
    requires BeforeSettlement(s) && OnlyPublishes(steps, limit)
    ensures BeforeSettlement(Run(s, steps))
  {
    hide Initial, Run, Services, OnlyPublishes, AfterEvents;
    var s0, contributions, es :|
      Initial(s0, contributions) && Services(es) && AfterEvents(Session(s0, 0), es) == Session(s, 0);
    OutsideRun(Session(s, 0), steps);
    EventsConcat(Session(s0, 0), es, Outside(steps));
    OwnEvents(steps, 0, limit);
    assert Handlings(0) == [] && Outside(steps) + [] == Outside(steps);
    ServicesConcat(es, Outside(steps));
  }

  /** What the stages below leave as it was. */
  ghost predicate SameWorld(s: State) {
    && Reachable(s)
    && s.members == Members() && s.house == Some(0) && s.adapters == {7}
    && s.instruments == map[0 := Instrument(Dvp, true, 1.0)]
  }

  /** Every row is published and in the log. */
  ghost predicate AllLogged(bus: Bus) {
    forall e :: 0 <= e < |bus.rows| ==> IsLogged(bus, e)
  }

  ghost predicate IsLogged(bus: Bus, e: nat) {
    && e < |bus.rows| && bus.rows[e].published
    && exists o :: 0 <= o < |bus.log| && bus.log[o] == Message(e, bus.rows[e].payload)
  }

  lemma PublishedIsLogged(before: Bus, after: Bus)
    requires BusInvariant(after) && Published(before, after)
    ensures AllLogged(after)
  {
    forall e | 0 <= e < |after.rows| ensures IsLogged(after, e) {
      assert NewlyLogged(before, after, e);
      assert Copies(after.log, e) >= 1;
      CopyExists(after.log, e);
      var o :| 0 <= o < |after.log| && after.log[o].event == e;
      assert after.log[o] in after.log;
    }
  }

  lemma {:induction false} CopyExists(log: seq<Message>, e: nat)
    requires Copies(log, e) >= 1
    ensures exists o :: 0 <= o < |log| && log[o].event == e
  {
    var n := |log| - 1;
    if log[n].event != e {
      CopyExists(log[..n], e);
      var o :| 0 <= o < n && log[..n][o].event == e;
      assert log[o].event == e;
    }
  }

  lemma PublishedState(s: State)
    requires SameWorld(s)
    ensures exists t :: SameWorld(t) && AllLogged(t.bus) && Payloads(t.bus.rows) == Payloads(s.bus.rows)
                        && t == s.(bus := t.bus) && (BeforeSettlement(s) ==> BeforeSettlement(t))
  {
    hide Reachable, Run, AllLogged, Payloads, OnlyPublishes, Published, Invariant, BusInvariant, BeforeSettlement;
    ReachableInvariant(s);
    BusPart(s);
    CanPublishAll(s, 1);
    var steps :| OnlyPublishes(steps, 1) && Published(s.bus, Run(s, steps).bus);
    PublisherRun(s, steps, 1);
    PublishedIsLogged(s.bus, Run(s, steps).bus);
    ReachableRun(s, steps);
    if BeforeSettlement(s) {
      BeforePublishing(s, steps, 1);
    }
    assert SameWorld(Run(s, steps));
  }

  /** The trade is submitted. */
  lemma SubmittedState()
    ensures exists s ::
              SameWorld(s) && BeforeSettlement(s) && Fresh(s) && Payloads(s.bus.rows) == [TradeSubmitted(0, DATA)]
  {
    hide Reachable, BeforeSettlement;
    GenesisReachable();
    ReachableNext(Genesis(), SubmitTrade(DATA));
    BeforeNext(Genesis(), SubmitTrade(DATA));
    var s := Next(Genesis(), SubmitTrade(DATA));
    assert Members()[1] in Members() && Members()[2] in Members();
    assert SameWorld(s) && Fresh(s) && Payloads(s.bus.rows) == [TradeSubmitted(0, DATA)];
  }

  ghost predicate Fresh(s: State) {
    && s.books.accounts == ImAccounts() && s.trades == [Trade(DATA, Submitted)] && s.legs == []
    && s.cycles == [] && s.instructions == [] && s.processed == {}
  }

  ghost predicate TwoLegs(s: State) {
    && s.cycles == [] && s.instructions == []
    && s.legs == [LegOf(0, DATA, Buy, Open, 0), LegOf(0, DATA, Sell, Open, 0)]
  }

  /** It is published and novated. */
  lemma NovatedState()
    ensures exists s :: SameWorld(s) && BeforeSettlement(s) && TwoLegs(s)
  {
    hide Reachable, AllLogged, Process, Payloads, ImAccounts, Members, BeforeSettlement;
    SubmittedState();
    var s :| SameWorld(s) && BeforeSettlement(s) && Fresh(s) && Payloads(s.bus.rows) == [TradeSubmitted(0, DATA)];
    PublishedState(s);
    var t :| SameWorld(t) && AllLogged(t.bus) && Payloads(t.bus.rows) == Payloads(s.bus.rows)
             && t == s.(bus := t.bus) && (BeforeSettlement(s) ==> BeforeSettlement(t));
    RowCount(t.bus);
    LoggedAt(t.bus, 0);
    var o :| 0 <= o < |t.bus.log| && t.bus.log[o] == Message(0, TradeSubmitted(0, DATA));
    ReachableNext(t, IngestTrade(o, 0));
    BeforeNext(t, IngestTrade(o, 0));
    NovatesDirectly(BlotterOf(t));
    assert SameWorld(Next(t, IngestTrade(o, 0))) && TwoLegs(Next(t, IngestTrade(o, 0)));
  }

  lemma RowCount(bus: Bus)
    ensures |Payloads(bus.rows)| == |bus.rows|
  {
  }

  lemma LoggedAt(bus: Bus, e: nat)
    requires AllLogged(bus) && e < |bus.rows|
    ensures exists o :: 0 <= o < |bus.log| && bus.log[o] == Message(e, Payloads(bus.rows)[e])
  {
    assert IsLogged(bus, e);
  }

  lemma NovatesDirectly(bl: Blotter)
    requires bl.books.accounts == ImAccounts() && bl.trades == [Trade(DATA, Submitted)] && bl.legs == []
    ensures Process(bl, Members(), map[0 := Instrument(Dvp, true, 1.0)], 0, DATA, 0).legs
            == [LegOf(0, DATA, Buy, Open, 0), LegOf(0, DATA, Sell, Open, 0)]
  {
    hide Process;
    assert Members()[1].id == 1 && Members()[2].id == 2;
    assert ImAccounts()[0] == ImAccount(1, Available) && ImAccounts()[1] == ImAccount(1, Locked);
    assert ImAccounts()[2] == ImAccount(2, Available) && ImAccounts()[3] == ImAccount(2, Locked);
    NovatedExactly(bl, Members(), map[0 := Instrument(Dvp, true, 1.0)], 0, DATA, 0);
  }

  predicate IsPendingDvp(s: State, i: nat) {
    i < |s.instructions| && s.instructions[i].status == Pending && s.instructions[i].settlement == Dvp
  }

  /** The pair of legs is netted: there is a pending on-chain instruction. */
  lemma NettedState()
    ensures exists s, i :: SameWorld(s) && BeforeSettlement(s) && IsPendingDvp(s, i)
  {
    hide Reachable, CycleObligations, EmitInstructions, BeforeSettlement;
    NovatedState();
    var s :| SameWorld(s) && BeforeSettlement(s) && TwoLegs(s);
    var t := Next(s, RunNetting(0));
    ReachableNext(s, RunNetting(0));
    BeforeNext(s, RunNetting(0));
    var os := CycleObligations(s.legs, s.instruments, s.prices, 0);
    OneObligation(s.legs, s.instruments, s.prices);
    var i :| 0 <= i < |os| && os[i].instrument == 0;
    ObligationShape(s.legs, s.instruments, s.prices, 0, os[i]);
    assert t.instructions[i] == InstructionOf(os[i], 0, 0);
    assert SameWorld(t) && IsPendingDvp(t, i);
  }

  lemma OneObligation(legs: seq<Leg>, instruments: map<InstrumentId, Instrument>, prices: map<InstrumentId, real>)
    requires legs == [LegOf(0, DATA, Buy, Open, 0), LegOf(0, DATA, Sell, Open, 0)]
    ensures exists i :: 0 <= i < |CycleObligations(legs, instruments, prices, 0)|
                        && CycleObligations(legs, instruments, prices, 0)[i].instrument == 0
  {
    hide CycleObligations;
    var k, os := Key(1, 0), CycleObligations(legs, instruments, prices, 0);
    NetOfBuyer(legs, instruments, prices);
    if forall i | 0 <= i < |os| :: QuantityOn(k)(os[i]) == 0.0 {
      SumZero(os, QuantityOn(k));
    }
    var i :| 0 <= i < |os| && QuantityOn(k)(os[i]) != 0.0;
    assert ObligationKey(os[i]) == k;
  }

  lemma NetOfBuyer(legs: seq<Leg>, instruments: map<InstrumentId, Instrument>, prices: map<InstrumentId, real>)
    requires legs == [LegOf(0, DATA, Buy, Open, 0), LegOf(0, DATA, Sell, Open, 0)]
    ensures Sum(CycleObligations(legs, instruments, prices, 0), QuantityOn(Key(1, 0))) == 1.0
  {
    hide CyclePositions, Obligations;
    var k := Key(1, 0);
    CycleNet(legs, instruments, prices, 0, k);
    assert legs == [legs[0]] + [legs[1]];
    SumConcat([legs[0]], [legs[1]], IncludedOn(0, k));
    SingleSum(legs[0], IncludedOn(0, k));
    SingleSum(legs[1], IncludedOn(0, k));
    assert LegKey(legs[0]) == k && LegKey(legs[1]) == Key(2, 0);
  }

  /** A chain is set by hand, the event is published and delivered, signing and submission succeed. */
  lemma BroadcastState()
    ensures exists s, i :: Reachable(s) && i in s.runs && s.runs[i] == AfterBroadcast
  {
    hide Reachable, AllLogged, Payloads, SameWorld, BeforeSettlement;
    NettedState();
    var s, i :| SameWorld(s) && BeforeSettlement(s) && IsPendingDvp(s, i);
    RoutedWorld(s, i);
    var r := Next(s, RouteToChain(i, 7));
    PublishedState(r);
    var t :| SameWorld(t) && AllLogged(t.bus) && Payloads(t.bus.rows) == Payloads(r.bus.rows)
             && t == r.(bus := t.bus) && (BeforeSettlement(r) ==> BeforeSettlement(t));
    World(t);
    OneEventPerInstruction(t, i);
    var e :| 0 <= e < |t.bus.rows| && t.bus.rows[e].payload == InstructionCreated(i);
    UnspentEvent(t, i, e);
    var o :| 0 <= o < |t.bus.log| && t.bus.log[o] == Message(e, InstructionCreated(i));
    ThreeMore(t, i, o);
  }

  lemma World(s: State)
    requires SameWorld(s)
    ensures Reachable(s) && s.adapters == {7}
  {
  }

  lemma RoutedWorld(s: State, i: nat)
    requires SameWorld(s) && i < |s.instructions| && s.instructions[i].status == Pending
    ensures var r := Next(s, RouteToChain(i, 7));
            SameWorld(r) && i < |r.instructions| && r.instructions[i] == s.instructions[i].(chain := Some(7))
  {
    hide Reachable;
    ReachableNext(s, RouteToChain(i, 7));
  }

  lemma UnspentEvent(t: State, i: nat, e: nat)
    requires Reachable(t) && AllLogged(t.bus) && i < |t.instructions| && t.instructions[i].status == Pending
    requires e < |t.bus.rows| && t.bus.rows[e].payload == InstructionCreated(i)
    ensures Mark(SettlementEngine, e) !in t.processed && t.bus.rows[e].published
    ensures exists o :: 0 <= o < |t.bus.log| && t.bus.log[o] == Message(e, InstructionCreated(i))
  {
    hide Reachable, Invariant;
    ReachableInvariant(t);
    EventPart(t, e);
    assert IsLogged(t.bus, e);
  }

  lemma ThreeMore(t: State, i: nat, o: nat)
    requires Reachable(t) && i < |t.instructions| && t.instructions[i].status == Pending
    requires t.instructions[i].settlement == Dvp && t.instructions[i].chain == Some(7) && t.adapters == {7}
    requires o < |t.bus.log| && t.bus.log[o].payload == InstructionCreated(i)
    requires Mark(SettlementEngine, t.bus.log[o].event) !in t.processed
    ensures exists s, j :: Reachable(s) && j in s.runs && s.runs[j] == AfterBroadcast
  {
    hide Reachable;
    var t1 := Next(t, SettleMessage(o));
    var t2 := Next(t1, OnChain(i, SignReturned));
    var t3 := Next(t2, OnChain(i, SubmitReturned));
    ReachableNext(t, SettleMessage(o));
    ReachableNext(t1, OnChain(i, SignReturned));
    ReachableNext(t2, OnChain(i, SubmitReturned));
    assert i in t3.runs && t3.runs[i] == AfterBroadcast;
  }

  /** The failure happens: in a state that the system can reach, the next row says `approved` for an
      instruction whose stored status is `broadcasted`. */
  lemma HandlerMisreports()
    ensures exists s, i :: Misreports(s, i)
  {
    hide Reachable, Invariant, NextRun;
    BroadcastState();
    var s, i :| Reachable(s) && i in s.runs && s.runs[i] == AfterBroadcast;
    ReachableInvariant(s);
    DeskPart(s);
    RunsPart(s);
    LoggedFromExactly(DeskOf(s), i, ExternalFailure);
    assert Misreports(s, i);
  }

  lemma DeskPart(s: State)
    requires Invariant(s)
    ensures DeskInvariant(DeskOf(s))
  {
  }

  ghost predicate Misreports(s: State, i: nat) {
    && Reachable(s) && i < |s.instructions| && s.instructions[i].status == Broadcasted
    && Next(s, OnChain(i, ExternalFailure)).transitions == s.transitions + [Transition(i, Approved, Failed)]
  }

  // ---------------------------------------------------------------- a lost event

  function Raisings(n: nat): seq<Event> {
    seq(n, i requires 0 <= i < n => Consumes(Raises))
  }

  lemma {:induction false} RaisingsSkip(x: Session, n: nat)
    requires x.position + n <= |x.s.bus.log|
    ensures AfterEvents(x, Raisings(n)) == x.(position := x.position + n)
  {
    hide AfterSettle, Next;
    if n > 0 {
      RaisingsSkip(x, n - 1);
      assert Raisings(n)[..n - 1] == Raisings(n - 1);
    }
  }

  /** The session loses event e, whose instruction is pending. */
  ghost predicate Loses(s0: State, contributions: seq<Contribution>, es: seq<Event>, e: nat) {
    && Initial(s0, contributions) && Services(es)
    && var x := AfterEvents(Session(s0, 0), es);
       && Lost(x, e) && x.s.bus.rows[e].payload.InstructionCreated?
       && var i := x.s.bus.rows[e].payload.instruction;
          i < |x.s.instructions| && x.s.instructions[i].status == Pending
  }

  /** The loss happens: after submission, novation and netting, with every row published, the connection fails
      while the consumer handles each message; the loop logs the exceptions and commits the offsets. */
  lemma EventIsLost()
    ensures exists s0, contributions, es, e :: Loses(s0, contributions, es, e)
  {
    hide Reachable, AllLogged, Payloads, SameWorld, Initial, Services, AfterEvents;
    NettedState();
    var s, i :| SameWorld(s) && BeforeSettlement(s) && IsPendingDvp(s, i);
    PublishedState(s);
    var t :| SameWorld(t) && AllLogged(t.bus) && Payloads(t.bus.rows) == Payloads(s.bus.rows)
             && t == s.(bus := t.bus) && (BeforeSettlement(s) ==> BeforeSettlement(t));
    World(t);
    OneEventPerInstruction(t, i);
    var e :| 0 <= e < |t.bus.rows| && t.bus.rows[e].payload == InstructionCreated(i);
    UnspentEvent(t, i, e);
    var s0, contributions, es :|
      Initial(s0, contributions) && Services(es) && AfterEvents(Session(s0, 0), es) == Session(t, 0);
    var n := |t.bus.log|;
    RaisingsSkip(Session(t, 0), n);
    EventsConcat(Session(s0, 0), es, Raisings(n));
    RaisingsServe(n);
    ServicesConcat(es, Raisings(n));
    assert Loses(s0, contributions, es + Raisings(n), e);
  }

  lemma RaisingsServe(n: nat)
    ensures Services(Raisings(n))
  {
  }
}
