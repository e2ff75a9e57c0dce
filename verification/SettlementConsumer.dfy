/** The settlement engine's consumer loop. Unlike the shared consumer it commits the offset even after a
    handling that failed: a message below the committed position is never read again. */
module SettlementConsumer {
  import opened Ledger
  import opened Registry
  import opened Model
  import opened Outbox
  import opened Trading
  import opened NettingCycle
  import opened Settlement
  import opened Waterfall
  import opened Collateral
  import opened System
  import opened Preservation
  import opened Theorems
  import opened Store
  import opened SettlementEngine

  /** One pass of the loop: nothing arrives; the message is handled (an exception of the handling itself, such
      as an unregistered chain, is logged); something else raises before the handling commits (an unreadable
      message, a lost connection), which is logged as well; or the process dies before or after that commit. */
  datatype Pass = Nothing | Handles | Raises | DiesBefore | DiesAfter

  /** The system and the group's committed position, which outlives the process. */
  datatype Session = Session(s: State, position: nat)

  predicate IsAnnouncement(s: State, o: nat) {
    o < |s.bus.log| && s.bus.log[o].payload.InstructionCreated?
  }

  predicate Attempts(p: Pass) {
    p == Handles || p == DiesAfter
  }

  predicate Commits(p: Pass) {
    p == Handles || p == Raises
  }

  function AfterPass(x: Session, p: Pass): Session {
    var o := x.position;
    if p.Nothing? || o >= |x.s.bus.log| then x
    else if !IsAnnouncement(x.s, o) then x.(position := o + 1)
    else Session(if Attempts(p) then AfterSettle(x.s, o) else x.s, if Commits(p) then o + 1 else o)
  }

  function AfterPasses(x: Session, ps: seq<Pass>): Session {
    if ps == [] then x else AfterPass(AfterPasses(x, ps[..|ps| - 1]), ps[|ps| - 1])
  }

  predicate Kills(p: Pass) {
    p == DiesBefore || p == DiesAfter
  }

  lemma PassSnoc(x: Session, ps: seq<Pass>, p: Pass)
    ensures AfterPasses(x, []) == x
    ensures AfterPasses(x, ps + [p]) == AfterPass(AfterPasses(x, ps), p)
  {
    assert (ps + [p])[..|ps|] == ps;
  }

  class ConsumeLoop {
    var position: nat

    constructor (committed: nat)
      ensures position == committed
    {
      position := committed;
    }

    /** The loop body. `alive` is false when the process died in it. */
    method HandleOne(db: Database, p: Pass) returns (alive: bool)
      modifies this, db`books, db`instructions, db`transitions, db`runs, db`processed, db`effects
      ensures Session(db.Snapshot(), position) == AfterPass(Session(old(db.Snapshot()), old(position)), p)
      ensures alive <==> !(Kills(p) && IsAnnouncement(old(db.Snapshot()), old(position)))
    {
      hide AfterSettle;
      alive := true;
      if p.Nothing? || position >= |db.bus.log| {
        return;
      }
      var o := position;
      if db.bus.log[o].payload.InstructionCreated? {
        if p == DiesBefore {
          return false;
        }
        if p != Raises {
          HandleInstruction(db, o);
        }
        if p == DiesAfter {
          return false;
        }
      }
      position := o + 1;
    }

    /** consume_loop, until the process dies or these passes are over: `done` of them took place. */
    method Run(db: Database, passes: seq<Pass>) returns (done: nat)
      modifies this, db`books, db`instructions, db`transitions, db`runs, db`processed, db`effects
      ensures done <= |passes|
      ensures done < |passes| ==> done > 0 && Kills(passes[done - 1])
      ensures Session(db.Snapshot(), position)
              == AfterPasses(Session(old(db.Snapshot()), old(position)), passes[..done])
    {
      hide AfterPass, AfterPasses, Kills;
      ghost var x := Session(db.Snapshot(), position);
      PassSnoc(x, [], Nothing);
      done := 0;
      var alive := true;
      while done < |passes| && alive
        invariant done <= |passes|
        invariant Session(db.Snapshot(), position) == AfterPasses(x, passes[..done])
        invariant !alive ==> done > 0 && Kills(passes[done - 1])
        decreases |passes| - done
      {
        PassSnoc(x, passes[..done], passes[done]);
        assert passes[..done + 1] == passes[..done] + [passes[done]];
        alive := HandleOne(db, passes[done]);
        done := done + 1;
      }
    }
  }

  // ---------------------------------------------------------------- what a delivery spends

  predicate Marked(s: State, e: nat) {
    Mark(SettlementEngine, e) in s.processed
  }

  /** A pending on-chain instruction whose chain has no adapter. */
  predicate Unregistered(s: State, i: nat) {
    && i < |s.instructions|
    && s.instructions[i].status == Pending && s.instructions[i].settlement != Cash
    && s.instructions[i].chain.Some? && s.instructions[i].chain.value !in s.adapters
  }

  /** The first delivery of an event spends it if and only if its instruction is not waiting for a chain that has
      no adapter: then the handling raises, and the mark is rolled back with everything else. */
  lemma SpendsExactly(s: State, o: nat)
    requires IsAnnouncement(s, o) && !Marked(s, s.bus.log[o].event)
    ensures var t := AfterSettle(s, o);
            && (Marked(t, s.bus.log[o].event) <==> !Unregistered(s, s.bus.log[o].payload.instruction))
            && (Unregistered(s, s.bus.log[o].payload.instruction) ==> t == s)
  {
    hide SettleCash;
  }

  lemma DeskUnregistered(s: State, e: Desk, j: nat, i: nat)
    requires Unregistered(s, i) && OnlyAt(DeskOf(s), e, j)
    requires i == j ==> e.instructions == s.instructions
    ensures Unregistered(WithDesk(s, e), i) && e.instructions[i] == s.instructions[i]
  {
  }

  lemma SettleUnregistered(s: State, o: nat, i: nat)
    requires Unregistered(s, i)
    ensures Unregistered(AfterSettle(s, o), i) && AfterSettle(s, o).instructions[i] == s.instructions[i]
  {
    hide SettleCash, OnlyAt;
    if o < |s.bus.log| && s.bus.log[o].payload.InstructionCreated? {
      var j := s.bus.log[o].payload.instruction;
      SettleShape(DeskOf(s), j, s.adapters);
      var r := Settle(DeskOf(s), j, s.adapters);
      if r.Ok? && j != i {
        DeskUnregistered(s, r.value, j, i);
      }
    }
  }

  lemma RunUnregistered(s: State, j: nat, run: RunStep, i: nat)
    requires Unregistered(s, i) && RunsInvariant(s.instructions, s.runs)
    ensures var t := WithDesk(s, NextRun(DeskOf(s), j, run));
            Unregistered(t, i) && t.instructions[i] == s.instructions[i]
  {
    hide NextRun, OnlyAt;
    RunShape(DeskOf(s), j, run);
    DeskUnregistered(s, NextRun(DeskOf(s), j, run), j, i);
  }

  lemma NextUnregistered(s: State, step: Step, i: nat)
    requires Invariant(s) && Unregistered(s, i) && !step.RouteToChain?
    ensures Unregistered(Next(s, step), i) && Next(s, step).instructions[i] == s.instructions[i]
  {
    hide Invariant, AfterIngest, AfterSettle, NextRun, AfterDefault, Deposit, Withdraw, TransferToMargin,
      VariationMarginPosting, NextBus, EmitInstructions, CycleObligations;
    RunsPart(s);
    match step
    case IngestTrade(offset, now) => IngestInstructions(s, offset, now);
    case SettleMessage(offset) => SettleUnregistered(s, offset, i);
    case OnChain(j, run) => RunUnregistered(s, j, run, i);
    case DeclareDefault(m, exposure) => DefaultInstructions(s, m, exposure);
    case _ =>
  }

  /** Such an instruction stays pending in every run in which nobody routes it again. */
  lemma {:induction false} UnregisteredForever(s: State, steps: seq<Step>, i: nat)
    requires Invariant(s) && Unregistered(s, i) && forall st | st in steps :: !st.RouteToChain?
    ensures Unregistered(Run(s, steps), i) && Run(s, steps).instructions[i] == s.instructions[i]
  {
    hide Invariant, Next, Unregistered;
    if steps != [] {
      var n := |steps| - 1;
      UnregisteredForever(s, steps[..n], i);
      RunKeeps(s, steps[..n]);
      NextUnregistered(Run(s, steps[..n]), steps[n], i);
      InRange(Run(s, steps[..n]), i);
    }
  }

  lemma InRange(s: State, i: nat)
    requires Unregistered(s, i)
    ensures i < |s.instructions|
  {
  }

  // ---------------------------------------------------------------- progress

  /** Where a pass leaves the committed position. */
  lemma PositionExactly(x: Session, p: Pass)
    ensures var at := x.position;
            AfterPass(x, p).position
            == if && p != Nothing && at < |x.s.bus.log|
                  && (p in {Handles, Raises} || !x.s.bus.log[at].payload.InstructionCreated?)
               then at + 1 else at
    ensures AfterPass(x, p).s.bus == x.s.bus
  {
    hide Settle;
  }

  /** What a pass does to the database: an instruction's message is settled if the handling ran to its commit or to
      its own exception, whether or not the process died after that; nothing else is ever done. */
  lemma PassSettles(x: Session, p: Pass)
    ensures AfterPass(x, p).s
            == if && p in {Handles, DiesAfter}
                  && x.position < |x.s.bus.log| && x.s.bus.log[x.position].payload.InstructionCreated?
               then Next(x.s, SettleMessage(x.position)) else x.s
  {
    hide AfterSettle;
  }

  /** What became of an instruction's message that was handled: its event is spent, or the instruction waits for a
      chain that has no adapter. */
  predicate IsDecided(s: State, o: nat)
    requires o < |s.bus.log|
  {
    s.bus.log[o].payload.InstructionCreated? ==>
      Marked(s, s.bus.log[o].event) || Unregistered(s, s.bus.log[o].payload.instruction)
  }

  lemma SettleDecides(s: State, o: nat, q: nat)
    requires q < |s.bus.log| && IsAnnouncement(s, o)
    ensures AfterSettle(s, o).bus == s.bus
    ensures q == o || IsDecided(s, q) ==> IsDecided(AfterSettle(s, o), q)
  {
    hide Settle, Unregistered;
    if q == o {
      if !Marked(s, s.bus.log[o].event) {
        SpendsExactly(s, o);
      }
    } else if s.bus.log[q].payload.InstructionCreated? && Unregistered(s, s.bus.log[q].payload.instruction) {
      SettleUnregistered(s, o, s.bus.log[q].payload.instruction);
    }
  }

  /** The loop advances: n handled messages raise the committed position by exactly n, and each instruction among
      them is decided. */
  lemma {:induction false} Advances(x: Session, ps: seq<Pass>)
    requires forall p | p in ps :: p == Handles
    requires x.position + |ps| <= |x.s.bus.log|
    ensures var y := AfterPasses(x, ps);
            && y.position == x.position + |ps| && y.s.bus == x.s.bus
            && forall o | x.position <= o < y.position :: IsDecided(y.s, o)
  {
    hide IsDecided, AfterSettle;
    if ps != [] {
      var before, p := ps[..|ps| - 1], ps[|ps| - 1];
      assert p in ps && forall q | q in before :: q in ps;
      Advances(x, before);
      var y, z := AfterPasses(x, before), AfterPasses(x, ps);
      PositionExactly(y, p);
      forall o | x.position <= o < z.position ensures IsDecided(z.s, o) {
        if IsAnnouncement(y.s, y.position) {
          SettleDecides(y.s, y.position, o);
        } else {
          OthersDecided(y.s, y.position);
        }
      }
    }
  }

  lemma OthersDecided(s: State, o: nat)
    requires o < |s.bus.log| && !IsAnnouncement(s, o)
    ensures IsDecided(s, o)
  {
  }

  // ---------------------------------------------------------------- sessions

  /** Between passes the rest of the system takes any steps; only the consumer settles messages. */
  datatype Event = Consumes(pass: Pass) | Elsewhere(step: Step)

  function AfterEvent(x: Session, e: Event): Session {
    match e
    case Consumes(p) => AfterPass(x, p)
    case Elsewhere(step) => x.(s := Next(x.s, step))
  }

  function AfterEvents(x: Session, es: seq<Event>): Session {
    if es == [] then x else AfterEvent(AfterEvents(x, es[..|es| - 1]), es[|es| - 1])
  }

  predicate IsService(e: Event) {
    e.Elsewhere? ==> !e.step.SettleMessage? && !e.step.RouteToChain?
  }

  /** What the services do by themselves: settle through the consumer, and route nothing. */
  ghost predicate Services(es: seq<Event>) {
    forall e | e in es :: IsService(e)
  }

  ghost predicate Sane(x: Session) {
    Invariant(x.s) && x.position <= |x.s.bus.log|
  }

  /** A pass is a step of the system, or none. */
  function StepsOfEvent(x: Session, e: Event): seq<Step> {
    match e
    case Consumes(p) => if Attempts(p) && IsAnnouncement(x.s, x.position) then [SettleMessage(x.position)] else []
    case Elsewhere(step) => [step]
  }

  function StepsOf(x: Session, es: seq<Event>): seq<Step> {
    if es == [] then []
    else
      var before := es[..|es| - 1];
      StepsOf(x, before) + StepsOfEvent(AfterEvents(x, before), es[|es| - 1])
  }

  lemma OneEvent(x: Session, e: Event)
    ensures Run(x.s, StepsOfEvent(x, e)) == AfterEvent(x, e).s
  {
    hide Next, AfterSettle;
    if e.Consumes? {
      SettleIsNext(x.s, x.position);
    }
    var steps := StepsOfEvent(x, e);
    assert |steps| == 1 ==> steps[..0] == [] && steps == [steps[0]];
  }

  lemma SettleIsNext(s: State, o: nat)
    ensures Next(s, SettleMessage(o)) == AfterSettle(s, o)
  {
    hide AfterSettle;
  }

  /** A session is a run of the system, without routing if there is none among its events. */
  lemma {:induction false} SessionIsRun(x: Session, es: seq<Event>)
    ensures Run(x.s, StepsOf(x, es)) == AfterEvents(x, es).s
    ensures Services(es) ==> forall st | st in StepsOf(x, es) :: !st.RouteToChain?
  {
    hide Run, AfterEvent, StepsOfEvent;
    if es == [] {
      NoSteps(x.s);
    } else {
      var before, e := es[..|es| - 1], es[|es| - 1];
      SessionIsRun(x, before);
      OneEvent(AfterEvents(x, before), e);
      RunConcat(x.s, StepsOf(x, before), StepsOfEvent(AfterEvents(x, before), e));
      EventRoutes(AfterEvents(x, before), e);
      assert e in es && forall f | f in before :: f in es;
    }
  }

  lemma NoSteps(s: State)
    ensures Run(s, []) == s
  {
  }

  lemma EventRoutes(x: Session, e: Event)
    ensures IsService(e) ==> forall st | st in StepsOfEvent(x, e) :: !st.RouteToChain?
  {
  }

  lemma {:induction false} EventsConcat(x: Session, first: seq<Event>, second: seq<Event>)
    ensures AfterEvents(AfterEvents(x, first), second) == AfterEvents(x, first + second)
  {
    hide AfterEvent;
    if second == [] {
      assert first + second == first;
    } else {
      EventsConcat(x, first, second[..|second| - 1]);
      assert (first + second)[..|first + second| - 1] == first + second[..|second| - 1];
    }
  }

  lemma EventKeepsSane(x: Session, e: Event)
    requires Sane(x)
    ensures Sane(AfterEvent(x, e))
    ensures |x.s.bus.log| <= |AfterEvent(x, e).s.bus.log|
  {
    hide Invariant, Next, AfterSettle, Appends;
    match e
    case Consumes(p) =>
      NextKeeps(x.s, SettleMessage(x.position));
      NextGrows(x.s, SettleMessage(x.position));
      SettleIsNext(x.s, x.position);
    case Elsewhere(step) =>
      NextKeeps(x.s, step);
      NextGrows(x.s, step);
  }

  lemma {:induction false} EventsKeepSane(x: Session, es: seq<Event>)
    requires Sane(x)
    ensures Sane(AfterEvents(x, es))
  {
    hide Sane, AfterEvent;
    if es != [] {
      EventsKeepSane(x, es[..|es| - 1]);
      EventKeepsSane(AfterEvents(x, es[..|es| - 1]), es[|es| - 1]);
    }
  }

  // ---------------------------------------------------------------- what is lost

  /** A copy of event e lies at or above the committed position. */
  predicate CopyAhead(x: Session, e: nat) {
    exists o :: x.position <= o < |x.s.bus.log| && x.s.bus.log[o].event == e
  }

  /** The row is published, the event unprocessed, and every copy of it below the position. */
  predicate Lost(x: Session, e: nat) {
    e < |x.s.bus.rows| && x.s.bus.rows[e].published && !Marked(x.s, e) && !CopyAhead(x, e)
  }

  /** A published row stays published and is not produced again. */
  lemma PublishedOnce(bus: Bus, step: BusStep, e: nat)
    requires BatchesValid(bus) && e < |bus.rows| && bus.rows[e].published
    ensures var after := NextBus(bus, step);
            && |after.rows| == |bus.rows| && after.rows[e].published
            && bus.log <= after.log
            && forall o | |bus.log| <= o < |after.log| :: after.log[o].event != e
  {
    hide Candidates;
    if step.Produce? && step.publisher in bus.batches {
      var b := bus.batches[step.publisher];
      assert b.produced < |b.rows| ==> b.rows[b.produced] in b.rows;
    }
  }

  lemma {:induction false} EmitRows(bus: Bus, first: nat, n: nat)
    ensures bus.rows <= EmitInstructions(bus, first, n).rows
    ensures EmitInstructions(bus, first, n).log == bus.log
  {
    if n > 0 {
      EmitRows(bus, first, n - 1);
    }
  }

  /** No step but a settlement marks an event for the settlement engine, and no step but a publisher's
      touches the log or a row that exists. */
  lemma OtherStep(s: State, step: Step, e: nat)
    requires !step.SettleMessage? && !step.Publish?
    ensures var t := Next(s, step);
            t.bus.log == s.bus.log && s.bus.rows <= t.bus.rows && (Marked(t, e) <==> Marked(s, e))
  {
    hide Process, NextRun, Deposit, Withdraw, TransferToMargin, VariationMarginPosting, CycleObligations, AfterDefault;
    match step
    case RunNetting(cutoff) =>
      EmitRows(s.bus, |s.instructions|, |CycleObligations(s.legs, s.instruments, s.prices, cutoff)|);
    case DeclareDefault(m, exposure) => DefaultBus(s, m, exposure);
    case _ =>
  }

  lemma DefaultBus(s: State, m: MemberId, exposure: real)
    ensures var t := AfterDefault(s, m, exposure); t.bus == s.bus && t.processed == s.processed
  {
    hide Execute, PayAll, TriggerAccepts;
  }

  lemma SettleMarksOnly(s: State, o: nat, e: nat)
    requires IsAnnouncement(s, o) && s.bus.log[o].event != e
    ensures Marked(AfterSettle(s, o), e) <==> Marked(s, e)
    ensures AfterSettle(s, o).bus == s.bus
  {
    hide Settle;
  }

  lemma BatchesPart(s: State)
    requires Invariant(s)
    ensures BatchesValid(s.bus) && LogFaithful(s.bus)
  {
    hide Safe, Consistent, EventInvariant, InstructionInvariant, CycleInvariant, FlatInvariant, TypedInvariant,
      DeskInvariant, LocksDisjoint, CopiesBounded, InFlightLogged;
  }

  lemma PassKeepsLost(x: Session, p: Pass, e: nat)
    requires Lost(x, e)
    ensures Lost(AfterPass(x, p), e)
  {
    hide AfterSettle;
    if IsAnnouncement(x.s, x.position) {
      SettleMarksOnly(x.s, x.position, e);
    }
  }

  lemma StepKeepsLost(x: Session, step: Step, e: nat)
    requires Sane(x) && Lost(x, e) && !step.SettleMessage?
    ensures Lost(x.(s := Next(x.s, step)), e)
  {
    hide Invariant, NextBus;
    BatchesPart(x.s);
    if step.Publish? {
      PublishedOnce(x.s.bus, step.bus, e);
    } else {
      OtherStep(x.s, step, e);
      hide Next;
    }
  }

  /** A lost event stays lost: whatever the services and everyone else do from then on, no pass ever reads it. */
  lemma {:induction false} LostForever(x: Session, es: seq<Event>, e: nat)
    requires Sane(x) && Lost(x, e)
    requires forall f | f in es && f.Elsewhere? :: !f.step.SettleMessage?
    ensures Lost(AfterEvents(x, es), e)
  {
    hide Sane, Lost, AfterPass, Next;
    if es != [] {
      var before, f := es[..|es| - 1], es[|es| - 1];
      assert f in es && forall g | g in before :: g in es;
      LostForever(x, before, e);
      EventsKeepSane(x, before);
      match f
      case Consumes(p) => PassKeepsLost(AfterEvents(x, before), p, e);
      case Elsewhere(step) => StepKeepsLost(AfterEvents(x, before), step, e);
    }
  }

  /** A pass loses an event exactly when it commits the last copy of a published row without having processed it:
      because something raised before the handling committed, or because the handling itself raised for want
      of an adapter. */
  lemma LossExactly(x: Session, p: Pass, e: nat)
    requires Sane(x) && e < |x.s.bus.rows| && !Marked(x.s, e) && !Lost(x, e)
    requires x.s.bus.rows[e].payload.InstructionCreated?
    ensures Lost(AfterPass(x, p), e)
            <==> && x.s.bus.rows[e].published
                 && x.position < |x.s.bus.log| && x.s.bus.log[x.position].event == e
                 && !CopyAhead(x.(position := x.position + 1), e)
                 && (p == Raises || (p == Handles && Unregistered(x.s, x.s.bus.rows[e].payload.instruction)))
  {
    hide Invariant, AfterSettle, Unregistered;
    BatchesPart(x.s);
    var o := x.position;
    if o < |x.s.bus.log| {
      assert x.s.bus.log[o] in x.s.bus.log;
      if IsAnnouncement(x.s, o) {
        SettleBus(x.s, o);
        if x.s.bus.log[o].event == e {
          SpendsExactly(x.s, o);
        } else {
          SettleMarksOnly(x.s, o, e);
        }
      }
    }
  }

  lemma SettleBus(s: State, o: nat)
    ensures AfterSettle(s, o).bus == s.bus
  {
    hide Settle;
  }
}
