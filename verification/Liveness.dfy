/** What can still happen: from every state the publishers can put every event into the log, and the settlement
    engine can process exactly those events that its consumer has not lost. */
module Liveness {
  import opened Options
  import opened Sums
  import opened Ledger
  import opened Registry
  import opened Model
  import opened Outbox
  import opened Settlement
  import opened System
  import opened Preservation
  import opened Theorems
  import opened OutboxPublisher
  import opened SettlementConsumer

  // ---------------------------------------------------------------- publishing

  /** Publisher steps, with this batch size. */
  ghost predicate OnlyPublishes(steps: seq<Step>, limit: nat) {
    forall st | st in steps :: st.Publish? && (st.bus.Fetch? ==> st.bus.limit == limit)
  }

  /** after holds every row of before published. A row that was not published before has a copy in the part of
      the log that is new. */
  ghost predicate Published(before: Bus, after: Bus) {
    && before.log <= after.log
    && |after.rows| == |before.rows|
    && forall e :: 0 <= e < |before.rows| ==> NewlyLogged(before, after, e)
  }

  ghost predicate NewlyLogged(before: Bus, after: Bus, e: nat)
    requires e < |before.rows| && e < |after.rows|
  {
    && after.rows[e].payload == before.rows[e].payload
    && after.rows[e].published
    && (!before.rows[e].published ==>
          exists o :: |before.log| <= o < |after.log| && after.log[o] == Message(e, before.rows[e].payload))
  }

  /** The same for the rows that have become published, whether or not all have. */
  ghost predicate Progress(before: Bus, after: Bus) {
    && before.log <= after.log
    && |after.rows| == |before.rows|
    && forall e :: 0 <= e < |before.rows| ==>
         && after.rows[e].payload == before.rows[e].payload
         && (before.rows[e].published ==> after.rows[e].published)
         && (after.rows[e].published ==> NewlyLogged(before, after, e))
  }

  /** A run of publisher steps changes the bus alone, and of the outbox only what is published. */
  lemma {:induction false} PublisherRun(s: State, steps: seq<Step>, limit: nat)
    requires OnlyPublishes(steps, limit)
    ensures var t := Run(s, steps);
            t == s.(bus := t.bus) && Payloads(t.bus.rows) == Payloads(s.bus.rows)
    ensures BusInvariant(s.bus) ==> BusInvariant(Run(s, steps).bus)
  {
    hide NextBus, BusInvariant, Payloads;
    if steps != [] {
      var n := |steps| - 1;
      PublisherRun(s, steps[..n], limit);
      assert steps[n] in steps;
      var step := steps[n].bus;
      PayloadsStable(Run(s, steps[..n]).bus, step);
      if BusInvariant(s.bus) {
        NextBusKeeps(Run(s, steps[..n]).bus, step);
      }
    }
  }

  lemma RunPublish(s: State, step: BusStep, limit: nat)
    requires step.Fetch? ==> step.limit == limit
    ensures Run(s, [Publish(step)]) == s.(bus := NextBus(s.bus, step))
    ensures OnlyPublishes([Publish(step)], limit)
  {
    hide NextBus;
    assert [Publish(step)][..0] == [];
  }

  lemma RunNothing(s: State, limit: nat)
    ensures Run(s, []) == s && OnlyPublishes([], limit)
  {
  }

  lemma BothPublish(first: seq<Step>, second: seq<Step>, limit: nat)
    requires OnlyPublishes(first, limit) && OnlyPublishes(second, limit)
    ensures OnlyPublishes(first + second, limit)
  {
  }

  /** These steps release all locks and leave log and rows alone. */
  ghost predicate Releases(s: State, steps: seq<Step>) {
    var t := Run(s, steps);
    t.bus.batches == map[] && t.bus.log == s.bus.log && t.bus.rows == s.bus.rows
  }

  /** Publishers that die release their rows. */
  lemma {:induction false} CanReleaseAll(s: State, limit: nat)
    ensures exists steps :: OnlyPublishes(steps, limit) && Releases(s, steps)
    decreases |s.bus.batches|
  {
    hide Run, OnlyPublishes;
    RunNothing(s, limit);
    if s.bus.batches == map[] {
      assert Releases(s, []);
    } else {
      var p :| p in s.bus.batches;
      var first := [Publish(AbortBatch(p))];
      var t := s.(bus := NextBus(s.bus, AbortBatch(p)));
      RunPublish(s, AbortBatch(p), limit);
      assert t.bus.batches.Keys == s.bus.batches.Keys - {p};
      CanReleaseAll(t, limit);
      var rest :| OnlyPublishes(rest, limit) && Releases(t, rest);
      RunConcat(s, first, rest);
      BothPublish(first, rest, limit);
      assert Releases(s, first + rest);
    }
  }

  function Repeat(step: Step, n: nat): seq<Step> {
    seq(n, i requires 0 <= i < n => step)
  }

  lemma {:induction false} RunProduces(s: State, p: PublisherId, n: nat)
    ensures Run(s, Repeat(Publish(Produce(p)), n)) == s.(bus := ProduceSome(s.bus, p, n))
  {
    hide NextBus;
    if n > 0 {
      RunProduces(s, p, n - 1);
      assert Repeat(Publish(Produce(p)), n)[..n - 1] == Repeat(Publish(Produce(p)), n - 1);
    }
  }

  lemma RepeatPublishes(p: PublisherId, n: nat, limit: nat)
    ensures OnlyPublishes(Repeat(Publish(Produce(p)), n), limit)
  {
  }

  /** An undisturbed batch as a run. */
  lemma RunBatch(s: State, p: PublisherId, limit: nat)
    ensures exists steps ::
              OnlyPublishes(steps, limit) && Run(s, steps) == s.(bus := AfterBatch(s.bus, p, limit, None))
  {
    hide NextBus, Candidates, Run, OnlyPublishes, ProduceSome;
    var n := |Candidates(s.bus, |s.bus.rows|, limit)|;
    RunNothing(s, limit);
    if n > 0 {
      var fetch, produce := [Publish(Fetch(p, limit))], Repeat(Publish(Produce(p)), n);
      var s1 := s.(bus := NextBus(s.bus, Fetch(p, limit)));
      var s2 := s1.(bus := ProduceSome(s1.bus, p, n));
      RunPublish(s, Fetch(p, limit), limit);
      RunProduces(s1, p, n);
      RepeatPublishes(p, n, limit);
      RunPublish(s2, CommitBatch(p), limit);
      RunConcat(s, fetch, produce);
      RunConcat(s, fetch + produce, [Publish(CommitBatch(p))]);
      BothPublish(fetch, produce, limit);
      BothPublish(fetch + produce, [Publish(CommitBatch(p))], limit);
    }
  }

  /** An undisturbed batch logs what it publishes. */
  lemma BatchProgress(bus: Bus, p: PublisherId, limit: nat)
    requires BusInvariant(bus) && bus.batches == map[]
    ensures Progress(bus, AfterBatch(bus, p, limit, None))
  {
    hide CopiesBounded, LogFaithful, InFlightLogged, LocksDisjoint, Candidates, ProduceSome;
    var rows := Candidates(bus, |bus.rows|, limit);
    var after := AfterBatch(bus, p, limit, None);
    if rows != [] {
      var fetched := NextBus(bus, Fetch(p, limit));
      FetchKeeps(bus, p, limit);
      FetchedIsFresh(fetched, p);
      ProduceSomeLogs(fetched, p, |rows|);
      assert rows[..|rows|] == rows;
      assert after.log == bus.log + MessagesOf(bus.rows, rows);
      forall e | 0 <= e < |bus.rows| && after.rows[e].published ensures NewlyLogged(bus, after, e) {
        if !bus.rows[e].published {
          var i :| 0 <= i < |rows| && rows[i] == e;
          assert after.log[|bus.log| + i] == Message(e, bus.rows[e].payload);
        }
      }
    }
  }

  lemma ProgressTransitive(a: Bus, b: Bus, c: Bus)
    requires Progress(a, b) && Progress(b, c)
    ensures Progress(a, c)
  {
    forall e | 0 <= e < |a.rows| && c.rows[e].published ensures NewlyLogged(a, c, e) {
      assert NewlyLogged(b, c, e);
      if b.rows[e].published {
        assert NewlyLogged(a, b, e);
      }
    }
  }

  lemma ProgressReflexive(a: Bus)
    ensures Progress(a, a)
  {
  }

  /** k batches of the given size as a run. */
  lemma {:induction false} RunRounds(s: State, p: PublisherId, limit: nat, k: nat)
    requires BusInvariant(s.bus) && s.bus.batches == map[]
    ensures exists steps :: OnlyPublishes(steps, limit) && Run(s, steps) == s.(bus := Rounds(s.bus, p, limit, k))
    ensures Progress(s.bus, Rounds(s.bus, p, limit, k))
  {
    hide BusInvariant, Run, OnlyPublishes, Round, AfterBatch, Progress;
    if k == 0 {
      RunNothing(s, limit);
      ProgressReflexive(s.bus);
    } else {
      RunRounds(s, p, limit, k - 1);
      var before := Rounds(s.bus, p, limit, k - 1);
      var steps :| OnlyPublishes(steps, limit) && Run(s, steps) == s.(bus := before);
      var t := s.(bus := before);
      RunBatch(t, p, limit);
      var batch :| OnlyPublishes(batch, limit) && Run(t, batch) == t.(bus := AfterBatch(before, p, limit, None));
      BatchIsRound(before, p, limit);
      BatchProgress(before, p, limit);
      ProgressTransitive(s.bus, before, Round(before, p, limit));
      RunConcat(s, steps, batch);
      BothPublish(steps, batch, limit);
    }
  }

  lemma AllPublished(before: Bus, after: Bus)
    requires Progress(before, after) && |Unpublished(after.rows)| == 0
    ensures Published(before, after)
  {
    forall e | 0 <= e < |before.rows| ensures NewlyLogged(before, after, e) {
      assert e !in Unpublished(after.rows);
    }
  }

  /** From every state with a sound outbox, whatever batches are open, publisher steps with any given positive
      batch size publish every row, and put a new copy of every row that was not published into the log. */
  lemma CanPublishAll(s: State, limit: nat)
    requires BusInvariant(s.bus) && limit > 0
    ensures exists steps :: OnlyPublishes(steps, limit) && Published(s.bus, Run(s, steps).bus)
  {
    hide BusInvariant, Run, OnlyPublishes, Published, Progress;
    CanReleaseAll(s, limit);
    var release :| OnlyPublishes(release, limit) && Releases(s, release);
    PublisherRun(s, release, limit);
    var t := Run(s, release);
    var n := |t.bus.rows|;
    RunRounds(t, 0, limit, n);
    var batches :| OnlyPublishes(batches, limit) && Run(t, batches) == t.(bus := Rounds(t.bus, 0, limit, n));
    UnpublishedBound(t.bus.rows);
    OutboxDrains(t.bus, 0, limit, n);
    EnoughBatches(n, limit);
    AllPublished(t.bus, Rounds(t.bus, 0, limit, n));
    SamePublished(s.bus, t.bus, Rounds(t.bus, 0, limit, n));
    RunConcat(s, release, batches);
    BothPublish(release, batches, limit);
  }

  lemma EnoughBatches(n: nat, limit: nat)
    requires limit > 0
    ensures n <= n * limit
  {
    assert n * (limit - 1) >= 0;
  }

  lemma SamePublished(a: Bus, b: Bus, after: Bus)
    requires a.log == b.log && a.rows == b.rows && Published(b, after)
    ensures Published(a, after)
  {
    forall e | 0 <= e < |a.rows| ensures NewlyLogged(a, after, e) {
      assert NewlyLogged(b, after, e);
    }
  }

  lemma {:induction false} UnpublishedBound(rows: seq<Row>)
    ensures |Unpublished(rows)| <= |rows|
  {
    if rows == [] {
      assert Unpublished(rows) == {};
    } else {
      var n := |rows| - 1;
      UnpublishedBound(rows[..n]);
      var bound := Unpublished(rows[..n]) + {n};
      assert Unpublished(rows) <= bound && bound == Unpublished(rows) + (bound - Unpublished(rows));
    }
  }

  // ---------------------------------------------------------------- delivering

  function Outside(steps: seq<Step>): seq<Event> {
    seq(|steps|, i requires 0 <= i < |steps| => Elsewhere(steps[i]))
  }

  lemma {:induction false} OutsideRun(x: Session, steps: seq<Step>)
    ensures AfterEvents(x, Outside(steps)) == x.(s := Run(x.s, steps))
  {
    hide Next;
    if steps != [] {
      var n := |steps| - 1;
      OutsideRun(x, steps[..n]);
      assert Outside(steps)[..n] == Outside(steps[..n]);
    }
  }

  function Handlings(n: nat): seq<Event> {
    seq(n, i requires 0 <= i < n => Consumes(Handles))
  }

  /** Settling leaves the bus, the trades and the cycles alone, and of an instruction changes only the status,
      never back to pending. */
  ghost predicate SameFront(s: State, t: State) {
    && t.bus == s.bus && t.trades == s.trades && t.cycles == s.cycles && t.house == s.house
    && t.adapters == s.adapters && t.books.accounts == s.books.accounts && s.processed <= t.processed
    && |t.instructions| == |s.instructions|
    && forall i | 0 <= i < |s.instructions| ::
         && t.instructions[i] == s.instructions[i].(status := t.instructions[i].status)
         && (t.instructions[i].status == Pending ==> s.instructions[i].status == Pending)
  }

  lemma SettleFront(s: State, offset: nat)
    ensures SameFront(s, AfterSettle(s, offset))
  {
    hide Settle;
    if offset < |s.bus.log| && s.bus.log[offset].payload.InstructionCreated? {
      SettleShape(DeskOf(s), s.bus.log[offset].payload.instruction, s.adapters);
    }
  }

  lemma FrontReflexive(s: State)
    ensures SameFront(s, s)
  {
  }

  lemma FrontTransitive(s: State, t: State, u: State)
    requires SameFront(s, t) && SameFront(t, u)
    ensures SameFront(s, u)
  {
  }

  lemma FrontUnregistered(s: State, t: State, i: nat)
    requires SameFront(s, t) && Unregistered(t, i)
    ensures Unregistered(s, i)
  {
  }

  /** The event at offset o is spent, unless its instruction was waiting for a chain without adapter. */
  ghost predicate SpentAt(s: State, t: State, o: nat)
    requires IsAnnouncement(s, o)
  {
    Marked(t, s.bus.log[o].event) || Unregistered(s, s.bus.log[o].payload.instruction)
  }

  /** n undisturbed passes read the next n offsets and spend every event there that can be spent. */
  lemma {:induction false} HandlingsSpend(x: Session, n: nat)
    requires x.position + n <= |x.s.bus.log|
    ensures var y := AfterEvents(x, Handlings(n));
            && y.position == x.position + n
            && SameFront(x.s, y.s)
            && forall o | x.position <= o < x.position + n && IsAnnouncement(x.s, o) :: SpentAt(x.s, y.s, o)
  {
    hide AfterSettle, SameFront, Marked, Unregistered, Next;
    if n == 0 {
      FrontReflexive(x.s);
    } else {
      HandlingsSpend(x, n - 1);
      assert Handlings(n)[..n - 1] == Handlings(n - 1);
      var y, at := AfterEvents(x, Handlings(n - 1)), x.position + n - 1;
      var z := AfterPass(y, Handles);
      FrontBus(x.s, y.s);
      FrontReflexive(y.s);
      SettleFront(y.s, at);
      FrontTransitive(x.s, y.s, z.s);
      if IsAnnouncement(x.s, at) {
        var i := x.s.bus.log[at].payload.instruction;
        HandlingSpends(y.s, at);
        if Unregistered(y.s, i) {
          FrontUnregistered(x.s, y.s, i);
        }
      }
      forall o | x.position <= o < at && IsAnnouncement(x.s, o) ensures SpentAt(x.s, z.s, o) {
        assert SpentAt(x.s, y.s, o);
        SettleMarksMore(y.s, at, x.s.bus.log[o].event);
      }
    }
  }

  lemma FrontBus(s: State, t: State)
    requires SameFront(s, t)
    ensures t.bus == s.bus
  {
  }

  lemma HandlingSpends(s: State, o: nat)
    requires IsAnnouncement(s, o)
    ensures Marked(AfterSettle(s, o), s.bus.log[o].event) || Unregistered(s, s.bus.log[o].payload.instruction)
  {
    hide AfterSettle;
    SettleMarksMore(s, o, s.bus.log[o].event);
    if !Marked(s, s.bus.log[o].event) {
      SpendsExactly(s, o);
    }
  }

  lemma SettleMarksMore(s: State, o: nat, e: nat)
    ensures Marked(s, e) ==> Marked(AfterSettle(s, o), e)
  {
    hide Settle;
  }

  /** Whether the services can still process event e: it is processed already, or its instruction is not waiting
      for a chain without adapter and the consumer will read it: its row is unpublished, so that a new copy
      will be produced, or a copy lies at or above the committed position. */
  ghost predicate Processable(x: Session, e: nat)
    requires e < |x.s.bus.rows| && x.s.bus.rows[e].payload.InstructionCreated?
  {
    || Marked(x.s, e)
    || (&& !Unregistered(x.s, x.s.bus.rows[e].payload.instruction)
        && (!x.s.bus.rows[e].published || CopyAhead(x, e)))
  }

  /** These events are the services' own. They change no trade, cycle, account or instruction terms, and process
      exactly the events that can be processed. */
  ghost predicate DeliversAll(x: Session, es: seq<Event>, limit: nat) {
    && (forall e | e in es :: e.Consumes? || (e.step.Publish? && (e.step.bus.Fetch? ==> e.step.bus.limit == limit)))
    && var y := AfterEvents(x, es);
       && y.s.trades == x.s.trades && y.s.cycles == x.s.cycles && y.s.house == x.s.house
       && y.s.books.accounts == x.s.books.accounts
       && |y.s.instructions| == |x.s.instructions|
       && (forall i | 0 <= i < |x.s.instructions| ::
             y.s.instructions[i] == x.s.instructions[i].(status := y.s.instructions[i].status))
       && |y.s.bus.rows| == |x.s.bus.rows|
       && (forall e :: 0 <= e < |x.s.bus.rows| ==> y.s.bus.rows[e].payload == x.s.bus.rows[e].payload)
       && forall e :: 0 <= e < |x.s.bus.rows| && x.s.bus.rows[e].payload.InstructionCreated? ==>
            (Marked(y.s, e) <==> Processable(x, e))
  }

  lemma NeverProcessed(x: Session, es: seq<Event>, e: nat)
    requires Sane(x) && Services(es)
    requires e < |x.s.bus.rows| && x.s.bus.rows[e].payload.InstructionCreated? && !Processable(x, e)
    ensures !Marked(AfterEvents(x, es).s, e)
  {
    hide Invariant, AfterEvents, Run, Unregistered, StepsOf;
    var i := x.s.bus.rows[e].payload.instruction;
    if Unregistered(x.s, i) {
      SessionIsRun(x, es);
      UnregisteredForever(x.s, StepsOf(x, es), i);
      StillUnmarked(x.s, StepsOf(x, es), e);
    } else {
      LostForever(x, es, e);
    }
  }

  lemma StillUnmarked(s: State, steps: seq<Step>, e: nat)
    requires Invariant(s) && e < |s.bus.rows| && s.bus.rows[e].payload.InstructionCreated?
    requires Unregistered(Run(s, steps), s.bus.rows[e].payload.instruction)
    ensures !Marked(Run(s, steps), e)
  {
    hide Invariant, Run;
    RunKeeps(s, steps);
    RowsStay(s, steps);
    EventPart(Run(s, steps), e);
  }

  lemma {:induction false} RowsStay(s: State, steps: seq<Step>)
    ensures Payloads(s.bus.rows) <= Payloads(Run(s, steps).bus.rows)
    ensures |s.bus.rows| <= |Run(s, steps).bus.rows|
    ensures forall e | 0 <= e < |s.bus.rows| :: Run(s, steps).bus.rows[e].payload == s.bus.rows[e].payload
  {
    hide Next;
    if steps != [] {
      var n := |steps| - 1;
      RowsStay(s, steps[..n]);
      var t := Run(s, steps[..n]);
      NextRows(t, steps[n]);
    }
  }

  lemma NextRows(s: State, step: Step)
    ensures |s.bus.rows| <= |Next(s, step).bus.rows|
    ensures forall e | 0 <= e < |s.bus.rows| :: Next(s, step).bus.rows[e].payload == s.bus.rows[e].payload
  {
    hide Next;
    match step
    case Publish(b) => PublishRows(s, b);
    case SettleMessage(o) =>
      SettleIsNext(s, o);
      SettleFront(s, o);
    case _ => OtherStep(s, step, 0);
  }

  lemma PublishRows(s: State, b: BusStep)
    ensures var t := Next(s, Publish(b));
            |t.bus.rows| == |s.bus.rows|
            && forall e | 0 <= e < |s.bus.rows| :: t.bus.rows[e].payload == s.bus.rows[e].payload
  {
    hide Candidates;
  }

  /** From any state of a session, with any positive batch size, the publishers and the settlement consumer can
      between them process exactly the events that are still processable, all of them together. */
  lemma CanDeliverAll(x: Session, limit: nat)
    requires Sane(x) && limit > 0
    ensures exists es :: DeliversAll(x, es, limit)
  {
    hide Invariant, Run, Published, OnlyPublishes, AfterEvents, Unregistered, Marked, SameFront, CopyAhead;
    BusPart(x.s);
    CanPublishAll(x.s, limit);
    var publish :| OnlyPublishes(publish, limit) && Published(x.s.bus, Run(x.s, publish).bus);
    PublisherRun(x.s, publish, limit);
    OutsideRun(x, publish);
    var z := x.(s := Run(x.s, publish));
    PublishedLog(x.s.bus, z.s.bus);
    var n := |z.s.bus.log| - z.position;
    HandlingsSpend(z, n);
    var y := AfterEvents(z, Handlings(n));
    var es := Outside(publish) + Handlings(n);
    EventsConcat(x, Outside(publish), Handlings(n));
    OwnEvents(publish, n, limit);
    forall e | 0 <= e < |x.s.bus.rows| && x.s.bus.rows[e].payload.InstructionCreated?
      ensures Marked(y.s, e) <==> Processable(x, e)
    {
      if Processable(x, e) {
        SpendsProcessable(x, z, y, e);
      } else {
        NeverProcessed(x, es, e);
      }
    }
    Delivered(x, z, y);
    assert DeliversAll(x, es, limit);
  }

  lemma BusPart(s: State)
    requires Invariant(s)
    ensures BusInvariant(s.bus)
  {
  }

  lemma PublishedLog(a: Bus, b: Bus)
    requires Published(a, b)
    ensures a.log <= b.log && |b.rows| == |a.rows|
    ensures forall e | 0 <= e < |a.rows| :: b.rows[e].payload == a.rows[e].payload
  {
    forall e | 0 <= e < |a.rows| ensures b.rows[e].payload == a.rows[e].payload {
      assert NewlyLogged(a, b, e);
    }
  }

  lemma OwnEvents(publish: seq<Step>, n: nat, limit: nat)
    requires OnlyPublishes(publish, limit)
    ensures var es := Outside(publish) + Handlings(n);
            && Services(es)
            && forall e | e in es ::
                 e.Consumes? || (e.step.Publish? && (e.step.bus.Fetch? ==> e.step.bus.limit == limit))
  {
    assert forall i | 0 <= i < |publish| :: publish[i] in publish;
  }

  lemma SpendsProcessable(x: Session, z: Session, y: Session, e: nat)
    requires Sane(x) && z == x.(s := x.s.(bus := z.s.bus)) && Published(x.s.bus, z.s.bus)
    requires SameFront(z.s, y.s)
    requires forall o | z.position <= o < |z.s.bus.log| && IsAnnouncement(z.s, o) :: SpentAt(z.s, y.s, o)
    requires e < |x.s.bus.rows| && x.s.bus.rows[e].payload.InstructionCreated? && Processable(x, e)
    ensures Marked(y.s, e)
  {
    hide Invariant;
    BatchesPart(x.s);
    if !Marked(x.s, e) {
      assert NewlyLogged(x.s.bus, z.s.bus, e);
      if !x.s.bus.rows[e].published {
        var o :| |x.s.bus.log| <= o < |z.s.bus.log| && z.s.bus.log[o] == Message(e, x.s.bus.rows[e].payload);
        assert IsAnnouncement(z.s, o) && SpentAt(z.s, y.s, o);
      } else {
        var o :| x.position <= o < |x.s.bus.log| && x.s.bus.log[o].event == e;
        assert x.s.bus.log[o] in x.s.bus.log && z.s.bus.log[o] == x.s.bus.log[o];
        assert IsAnnouncement(z.s, o) && SpentAt(z.s, y.s, o);
      }
    }
  }

  lemma Delivered(x: Session, z: Session, y: Session)
    requires z == x.(s := x.s.(bus := z.s.bus)) && SameFront(z.s, y.s)
    ensures y.s.bus == z.s.bus
    ensures y.s.trades == x.s.trades && y.s.cycles == x.s.cycles && y.s.house == x.s.house
    ensures y.s.books.accounts == x.s.books.accounts && |y.s.instructions| == |x.s.instructions|
    ensures forall i | 0 <= i < |x.s.instructions| ::
              y.s.instructions[i] == x.s.instructions[i].(status := y.s.instructions[i].status)
  {
  }

  /** One event at a time, the exact condition: the services can still process it, in whatever way they go on, if
      and only if it is processable. */
  lemma ProcessableExactly(x: Session, e: nat)
    requires Sane(x) && e < |x.s.bus.rows| && x.s.bus.rows[e].payload.InstructionCreated?
    ensures Processable(x, e) <==> exists es :: Services(es) && Marked(AfterEvents(x, es).s, e)
  {
    hide Sane, AfterEvents, Marked, Processable;
    if Processable(x, e) {
      CanDeliverAll(x, 1);
      var es :| DeliversAll(x, es, 1);
      assert Services(es) && Marked(AfterEvents(x, es).s, e);
    }
    if es :| Services(es) && Marked(AfterEvents(x, es).s, e) {
      if !Processable(x, e) {
        NeverProcessed(x, es, e);
      }
    }
  }

  // ---------------------------------------------------------------- ending flat

  /** Every instruction's event can still be processed: none is lost. */
  ghost predicate NoneLost(x: Session) {
    forall e | 0 <= e < |x.s.bus.rows| && x.s.bus.rows[e].payload.InstructionCreated? :: !Lost(x, e)
  }

  /** These further events of the services lead to a state in which every instruction's event is processed, the
      CCP's settlement balance is unchanged by settlement, and every other member has its cash nets. */
  ghost predicate EndsFlat(x: Session, more: seq<Event>, house: MemberId) {
    && Services(more)
    && var y := AfterEvents(x, more);
       && AllDelivered(y.s)
       && KindBalance(y.s.books, SettlementTransfer, Account(house, AccountKind.Settlement, Available)) == 0.0
       && forall m: MemberId | m != house ::
            KindBalance(y.s.books, SettlementTransfer, Account(m, AccountKind.Settlement, Available))
            == -Sum(x.s.cycles, CycleAmountOf(Cash, m))
  }

  lemma InitialSane(s0: State, contributions: seq<Contribution>, es: seq<Event>)
    requires Initial(s0, contributions) && Services(es)
    ensures var x := AfterEvents(Session(s0, 0), es); Sane(x) && NoChains(x.s.instructions) && Reachable(x.s)
  {
    hide Invariant, Initial, Run, AfterEvents, StepsOf, NoChains;
    var x0 := Session(s0, 0);
    InitialInvariant(s0, contributions);
    InitialNoChains(s0, contributions);
    EventsKeepSane(x0, es);
    SessionIsRun(x0, es);
    RunNoChains(s0, StepsOf(x0, es));
  }

  lemma NoChainsRegistered(s: State, i: nat)
    requires NoChains(s.instructions)
    ensures !Unregistered(s, i)
  {
    assert i < |s.instructions| ==> s.instructions[i] in s.instructions;
  }

  lemma FlatOnceDelivered(s0: State, contributions: seq<Contribution>, es: seq<Event>, house: MemberId, m: MemberId)
    requires Initial(s0, contributions) && Services(es) && m != house
    requires var s := AfterEvents(Session(s0, 0), es).s;
             && s.house == Some(house) && HouseNotParty(s.trades, house) && AllDelivered(s) && CashAccountsExist(s)
    ensures var s := AfterEvents(Session(s0, 0), es).s;
            && KindBalance(s.books, SettlementTransfer, Account(house, AccountKind.Settlement, Available)) == 0.0
            && KindBalance(s.books, SettlementTransfer, Account(m, AccountKind.Settlement, Available))
               == -Sum(s.cycles, CycleAmountOf(Cash, m))
  {
    hide Initial, Run, AfterEvents, StepsOf, KindBalance, Sum, HouseNotParty, AllDelivered, CashAccountsExist;
    SessionIsRun(Session(s0, 0), es);
    CcpEndsFlat(s0, contributions, StepsOf(Session(s0, 0), es), house, m);
  }

  lemma SameCashAccounts(x: Session, y: Session)
    requires CashAccountsExist(x.s) && y.s.books.accounts == x.s.books.accounts
    requires |y.s.instructions| == |x.s.instructions|
    requires forall i | 0 <= i < |x.s.instructions| ::
               y.s.instructions[i] == x.s.instructions[i].(status := y.s.instructions[i].status)
    ensures CashAccountsExist(y.s)
  {
    forall z | z in y.s.instructions && z.settlement == Cash 
      ensures HasSettlementAccounts(y.s.books.accounts, z)
    {
      var i :| 0 <= i < |y.s.instructions| && y.s.instructions[i] == z;
      assert x.s.instructions[i] in x.s.instructions;
    }
  }

  /** After any session of the services, with settlement accounts for the parties of the cash instructions: the
      services can still bring the CCP to a state with every instruction's event processed, in which it is flat,
      if and only if the settlement consumer has lost no event. */
  lemma CanEndFlat(s0: State, contributions: seq<Contribution>, es: seq<Event>, house: MemberId)
    requires Initial(s0, contributions) && Services(es)
    requires var s := AfterEvents(Session(s0, 0), es).s;
             s.house == Some(house) && HouseNotParty(s.trades, house) && CashAccountsExist(s)
    ensures var x := AfterEvents(Session(s0, 0), es);
            NoneLost(x) <==> exists more :: EndsFlat(x, more, house)
  {
    hide Initial, AfterEvents, KindBalance, Sum, HouseNotParty, NoChains, CashAccountsExist, Sane, Lost, Marked,
      Unregistered, Processable, CopyAhead;
    var x := AfterEvents(Session(s0, 0), es);
    InitialSane(s0, contributions, es);
    if NoneLost(x) {
      CanDeliverAll(x, 1);
      var more :| DeliversAll(x, more, 1);
      AllAreDelivered(x, more);
      var y := AfterEvents(x, more);
      EventsConcat(Session(s0, 0), es, more);
      assert forall e | e in es + more :: e in es || e in more;
      SameCashAccounts(x, y);
      forall m: MemberId | m != house
        ensures KindBalance(y.s.books, SettlementTransfer, Account(m, AccountKind.Settlement, Available))
                == -Sum(x.s.cycles, CycleAmountOf(Cash, m))
      {
        FlatOnceDelivered(s0, contributions, es + more, house, m);
      }
      FlatOnceDelivered(s0, contributions, es + more, house, house + 1);
      assert EndsFlat(x, more, house);
    }
    if more :| EndsFlat(x, more, house) {
      SessionIsRun(x, more);
      RowsStay(x.s, StepsOf(x, more));
      forall e | 0 <= e < |x.s.bus.rows| && x.s.bus.rows[e].payload.InstructionCreated? ensures !Lost(x, e) {
        DeliveredIsMarked(AfterEvents(x, more).s, e);
        if Lost(x, e) {
          LostForever(x, more, e);
          LostUnmarked(AfterEvents(x, more), e);
        }
      }
    }
  }

  lemma AllAreDelivered(x: Session, more: seq<Event>)
    requires DeliversAll(x, more, 1) && NoneLost(x) && NoChains(x.s.instructions)
    ensures AllDelivered(AfterEvents(x, more).s)
  {
    hide AfterEvents, NoChains, Unregistered, CopyAhead;
    var y := AfterEvents(x, more);
    forall e | 0 <= e < |y.s.bus.rows| && y.s.bus.rows[e].payload.InstructionCreated?
      ensures Mark(SettlementEngine, e) in y.s.processed
    {
      if x.s.bus.rows[e].payload.InstructionCreated? {
        NoChainsRegistered(x.s, x.s.bus.rows[e].payload.instruction);
        assert Processable(x, e) && Marked(y.s, e);
      }
    }
  }

  lemma DeliveredIsMarked(s: State, e: nat)
    requires AllDelivered(s) && e < |s.bus.rows| && s.bus.rows[e].payload.InstructionCreated?
    ensures Marked(s, e)
  {
  }

  lemma LostUnmarked(x: Session, e: nat)
    requires Lost(x, e)
    ensures !Marked(x.s, e)
  {
  }
}
