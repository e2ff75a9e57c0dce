/** The Kafka consumer with its dead letter queue, driving trade ingestion: one message at a time, over any
    number of processes that die and are started again. */
module Consumer {
  import opened Ledger
  import opened Model
  import opened Trading
  import opened System
  import opened Theorems
  import opened Store
  import opened TradeIngestion

  /** How the callback fares on its database connection: it returns, it raises before its commit (the
      connection rolls back), or the connection's exit raises after the commit. */
  datatype Callback = Returns | RaisesBeforeCommit | RaisesAfterCommit

  /** Where the process dies while it is busy with a message, if it does. */
  datatype Death = Survives | DiesBeforeCallback | DiesAfterCallback | DiesBeforeOffsetCommit

  /** One pass of the poll loop: nothing arrives, or the next message of the topic does. The message may be
      unreadable, and the insert into the dead letter table may itself fail (which is logged and ignored). */
  datatype Pass =
    | Nothing
    | Delivery(readable: bool, callback: Callback, stored: bool, death: Death, now: int)

  /** What outlives the process: the group's committed position and the dead letter table. `dropped` records
      the offsets whose dead letter insert failed. */
  datatype Group = Group(position: nat, deadLetters: seq<nat>, dropped: seq<nat>)

  datatype Session = Session(s: State, group: Group)

  predicate IsSubmission(s: State, o: nat) {
    o < |s.bus.log| && s.bus.log[o].payload.TradeSubmitted?
  }

  /** The pass commits the callback's transaction. */
  predicate Ingests(p: Pass) {
    p.Delivery? && p.readable && p.death != DiesBeforeCallback && p.callback != RaisesBeforeCommit
  }

  /** The pass gets as far as the dead letter queue. */
  predicate Rejects(p: Pass) {
    p.Delivery? && p.death in {Survives, DiesBeforeOffsetCommit} && (!p.readable || p.callback != Returns)
  }

  predicate Commits(p: Pass) {
    p.Delivery? && p.death == Survives
  }

  /** One pass over the message at the committed position. A message of another topic is never delivered. */
  function AfterPass(x: Session, p: Pass): Session {
    var o := x.group.position;
    if p.Nothing? || o >= |x.s.bus.log| then x
    else if !IsSubmission(x.s, o) then x.(group := x.group.(position := o + 1))
    else
      Session(
        if Ingests(p) then AfterIngest(x.s, o, p.now) else x.s,
        Group(if Commits(p) then o + 1 else o,
              if Rejects(p) && p.stored then x.group.deadLetters + [o] else x.group.deadLetters,
              if Rejects(p) && !p.stored then x.group.dropped + [o] else x.group.dropped))
  }

  function AfterPasses(x: Session, ps: seq<Pass>): Session {
    if ps == [] then x else AfterPass(AfterPasses(x, ps[..|ps| - 1]), ps[|ps| - 1])
  }

  lemma PassSnoc(x: Session, ps: seq<Pass>, p: Pass)
    ensures AfterPasses(x, ps + [p]) == AfterPass(AfterPasses(x, ps), p)
  {
    assert (ps + [p])[..|ps|] == ps;
  }

  predicate Kills(p: Pass) {
    p.Delivery? && p.death != Survives
  }

  /** The consumer object. Position and dead letters belong to the broker and the database: they are what the
      next process starts from. */
  class KafkaConsumer {
    var running: bool
    var position: nat
    var deadLetters: seq<nat>
    var dropped: seq<nat>

    function Durable(): Group
      reads this
    {
      Group(position, deadLetters, dropped)
    }

    constructor (group: Group)
      ensures !running && Durable() == group
    {
      running, position, deadLetters, dropped := false, group.position, group.deadLetters, group.dropped;
    }

    /** _send_to_dlq: a failed insert is swallowed. */
    method SendToDlq(o: nat, stored: bool)
      modifies `deadLetters, `dropped
      ensures o in deadLetters || o in dropped
      ensures Durable() == if stored then old(Durable()).(deadLetters := old(deadLetters) + [o])
                         else old(Durable()).(dropped := old(dropped) + [o])
    {
      if stored {
        deadLetters := deadLetters + [o];
      } else {
        dropped := dropped + [o];
      }
    }

    /** The callback of trade ingestion, with the outcome of its connection. */
    method Call(db: Database, o: nat, callback: Callback, now: int) returns (raised: bool)
      requires o < |db.bus.log| && db.bus.log[o].payload.TradeSubmitted?
      modifies db`books, db`trades, db`legs, db`processed, db`effects
      ensures raised <==> callback != Returns
      ensures db.Snapshot() == if callback == RaisesBeforeCommit then old(db.Snapshot())
                               else AfterIngest(old(db.Snapshot()), o, now)
    {
      hide AfterIngest;
      if callback != RaisesBeforeCommit {
        HandleMessage(db, o, now);
      }
      raised := callback != Returns;
    }

    /** One pass of the loop body; `alive` is false when the process died in it. */
    method HandleOne(db: Database, p: Pass) returns (alive: bool)
      modifies this, db`books, db`trades, db`legs, db`processed, db`effects
      ensures alive <==> !(Kills(p) && IsSubmission(old(db.Snapshot()), old(position)))
      ensures Session(db.Snapshot(), Durable()) == AfterPass(Session(old(db.Snapshot()), old(Durable())), p)
      ensures running == old(running)
    {
      hide AfterIngest;
      alive := true;
      if p.Nothing? || position >= |db.bus.log| {
        return;
      }
      var o := position;
      if !db.bus.log[o].payload.TradeSubmitted? {
        position := o + 1;
        return;
      }
      if p.death == DiesBeforeCallback {
        return false;
      }
      var raised := true;
      if p.readable {
        raised := Call(db, o, p.callback, p.now);
      }
      if p.death == DiesAfterCallback {
        return false;
      }
      if raised {
        SendToDlq(o, p.stored);
      }
      if p.death == DiesBeforeOffsetCommit {
        return false;
      }
      position := o + 1;
    }

    /** poll_loop, until the process dies or these passes are over: `done` of them took place. */
    method PollLoop(db: Database, passes: seq<Pass>) returns (done: nat)
      modifies this, db`books, db`trades, db`legs, db`processed, db`effects
      ensures done <= |passes| && !running
      ensures done < |passes| ==> done > 0 && Kills(passes[done - 1])
      ensures Session(db.Snapshot(), Durable())
              == AfterPasses(Session(old(db.Snapshot()), old(Durable())), passes[..done])
    {
      hide AfterPass, AfterPasses, Kills;
      ghost var x := Session(db.Snapshot(), Durable());
      NoPasses(x);
      running := true;
      done := 0;
      var alive := true;
      while running
        invariant done <= |passes|
        invariant Session(db.Snapshot(), Durable()) == AfterPasses(x, passes[..done])
        invariant !running ==> done == |passes| || (done > 0 && Kills(passes[done - 1]))
        decreases |passes| - done, running
      {
        if done == |passes| {
          Stop();
        } else {
          PassSnoc(x, passes[..done], passes[done]);
          assert passes[..done + 1] == passes[..done] + [passes[done]];
          alive := HandleOne(db, passes[done]);
          done := done + 1;
          if !alive {
            running := false;
          }
        }
      }
    }

    /** stop. */
    method Stop()
      modifies `running
      ensures !running
    {
      running := false;
    }
  }

  lemma NoPasses(x: Session)
    ensures AfterPasses(x, []) == x
  {
  }

  // ---------------------------------------------------------------- one pass

  /** A message is both ingested and dead-lettered by one pass exactly when its callback raises after its
      commit and the process lives to insert the dead letter, which succeeds. */
  lemma BothExactly(x: Session, p: Pass)
    requires p.Delivery? && IsSubmission(x.s, x.group.position)
    requires Mark(TradeIngestion, x.s.bus.log[x.group.position].event) !in x.s.processed
    requires x.group.position !in x.group.deadLetters
    ensures var y := AfterPass(x, p);
            var o := x.group.position;
            (Mark(TradeIngestion, x.s.bus.log[o].event) in y.s.processed && o in y.group.deadLetters)
            <==> (&& p.readable && p.callback == RaisesAfterCommit && p.stored
                  && p.death in {Survives, DiesBeforeOffsetCommit})
  {
    hide Process;
  }

  /** The offset that pass k works on. */
  function OffsetAt(x: Session, ps: seq<Pass>, k: nat): nat
    requires k <= |ps|
  {
    AfterPasses(x, ps[..k]).group.position
  }

  predicate IngestsAt(x: Session, ps: seq<Pass>, k: nat, event: nat)
    requires k < |ps|
  {
    var p, o := ps[k], OffsetAt(x, ps, k);
    && p.Delivery? && p.readable && p.callback in {Returns, RaisesAfterCommit}
    && p.death in {Survives, DiesAfterCallback, DiesBeforeOffsetCommit}
    && o < |x.s.bus.log| && x.s.bus.log[o].payload.TradeSubmitted? && x.s.bus.log[o].event == event
  }

  predicate RejectsAt(x: Session, ps: seq<Pass>, k: nat, o: nat)
    requires k < |ps|
  {
    var p := ps[k];
    && p.Delivery? && (!p.readable || p.callback in {RaisesBeforeCommit, RaisesAfterCommit})
    && p.death in {Survives, DiesBeforeOffsetCommit} && p.stored
    && OffsetAt(x, ps, k) == o < |x.s.bus.log| && x.s.bus.log[o].payload.TradeSubmitted?
  }

  /** The same over any number of passes and restarts: an event is marked exactly if it was before or some pass
      over a copy of it committed the callback; an offset is dead-lettered exactly if it was before or some
      pass over it got to store a dead letter. A message therefore ends up as both exactly when both happened,
      in one pass or, after a death, in two. */
  lemma {:induction false} HistoryExactly(x: Session, ps: seq<Pass>, event: nat, o: nat)
    ensures var y := AfterPasses(x, ps);
            && y.s.bus == x.s.bus
            && (Mark(TradeIngestion, event) in y.s.processed
                <==> || Mark(TradeIngestion, event) in x.s.processed
                     || exists k :: 0 <= k < |ps| && IngestsAt(x, ps, k, event))
            && (o in y.group.deadLetters
                <==> o in x.group.deadLetters || exists k :: 0 <= k < |ps| && RejectsAt(x, ps, k, o))
  {
    hide AfterPass;
    if ps != [] {
      var n := |ps| - 1;
      HistoryExactly(x, ps[..n], event, o);
      OnePass(AfterPasses(x, ps[..n]), ps[n], event, o);
      forall k | 0 <= k < n
        ensures IngestsAt(x, ps, k, event) == IngestsAt(x, ps[..n], k, event)
        ensures RejectsAt(x, ps, k, o) == RejectsAt(x, ps[..n], k, o)
      {
        assert ps[..n][..k] == ps[..k];
      }
      SameSubmission(x.s, AfterPasses(x, ps[..n]).s, OffsetAt(x, ps, n));
      // What the last pass adds.
      var ingests, rejects := IngestsAt(x, ps, n, event), RejectsAt(x, ps, n, o);
    }
  }

  lemma SameSubmission(s: State, t: State, o: nat)
    requires s.bus == t.bus
    ensures IsSubmission(s, o) == IsSubmission(t, o)
  {
  }

  lemma OnePass(x: Session, p: Pass, event: nat, o: nat)
    ensures var y := AfterPass(x, p);
            var at := x.group.position;
            && y.s.bus == x.s.bus
            && (Mark(TradeIngestion, event) in y.s.processed
                <==> || Mark(TradeIngestion, event) in x.s.processed
                     || (Ingests(p) && IsSubmission(x.s, at) && x.s.bus.log[at].event == event))
            && (o in y.group.deadLetters
                <==> o in x.group.deadLetters || (Rejects(p) && p.stored && IsSubmission(x.s, at) && at == o))
  {
    hide Process;
  }

  /** A pass commits the offset of a fresh message and leaves it neither ingested nor dead-lettered exactly when
      the callback committed nothing (or never ran) and the dead letter insert failed too. */
  lemma LostExactly(x: Session, p: Pass)
    requires Commits(p) && IsSubmission(x.s, x.group.position)
    requires Mark(TradeIngestion, x.s.bus.log[x.group.position].event) !in x.s.processed
    requires x.group.position !in x.group.deadLetters
    ensures var y := AfterPass(x, p);
            var o := x.group.position;
            (Mark(TradeIngestion, x.s.bus.log[o].event) !in y.s.processed && o !in y.group.deadLetters)
            <==> (!p.readable || p.callback == RaisesBeforeCommit) && !p.stored
  {
    hide Process;
  }

  // ---------------------------------------------------------------- over restarts

  /** Between passes the rest of the system, other consumers included, takes any steps. */
  datatype Event = Consumes(pass: Pass) | Elsewhere(step: Step)

  function AfterEvent(x: Session, e: Event): Session {
    match e
    case Consumes(p) => AfterPass(x, p)
    case Elsewhere(step) => x.(s := Next(x.s, step))
  }

  function AfterEvents(x: Session, es: seq<Event>): Session {
    if es == [] then x else AfterEvent(AfterEvents(x, es[..|es| - 1]), es[|es| - 1])
  }

  /** What has become of the message at offset o. */
  predicate IsAccounted(x: Session, o: nat)
    requires o < |x.s.bus.log|
  {
    || Mark(TradeIngestion, x.s.bus.log[o].event) in x.s.processed
    || o in x.group.deadLetters
    || o in x.group.dropped
  }

  /** Every message below the committed position is accounted for. */
  ghost predicate NoGap(x: Session) {
    && x.group.position <= |x.s.bus.log|
    && forall o | 0 <= o < x.group.position && IsSubmission(x.s, o) :: IsAccounted(x, o)
  }

  lemma IngestMarks(s: State, o: nat, now: int)
    requires IsSubmission(s, o)
    ensures Mark(TradeIngestion, s.bus.log[o].event) in AfterIngest(s, o, now).processed
    ensures AfterIngest(s, o, now).bus == s.bus
    ensures s.processed <= AfterIngest(s, o, now).processed
  {
    hide Process;
  }

  lemma PassKeepsNoGap(x: Session, p: Pass)
    requires NoGap(x)
    ensures NoGap(AfterPass(x, p))
  {
    hide AfterIngest;
    var o := x.group.position;
    if p.Delivery? && IsSubmission(x.s, o) {
      IngestMarks(x.s, o, p.now);
    }
    var y := AfterPass(x, p);
    forall q | 0 <= q < y.group.position && IsSubmission(y.s, q) ensures IsAccounted(y, q) {
      assert q < o ==> IsSubmission(x.s, q) && IsAccounted(x, q);
    }
  }

  lemma StepKeepsNoGap(x: Session, step: Step)
    requires NoGap(x)
    ensures NoGap(x.(s := Next(x.s, step)))
  {
    hide Next, Appends;
    NextGrows(x.s, step);
    var y := x.(s := Next(x.s, step));
    forall q | 0 <= q < y.group.position && IsSubmission(y.s, q) ensures IsAccounted(y, q) {
      assert IsSubmission(x.s, q) && IsAccounted(x, q);
    }
  }

  /** No message is lost over restarts. Whatever the callbacks do, wherever processes die, however often they
      are started again, and whatever the rest of the system does in between: every submitted trade's message
      below the committed position has been ingested or sent to the dead letter queue, unless the insert of
      its own dead letter failed. */
  lemma {:induction false} NothingLost(x: Session, es: seq<Event>)
    requires NoGap(x)
    ensures NoGap(AfterEvents(x, es))
  {
    hide AfterPass, NoGap, Next;
    if es != [] {
      var y, e := AfterEvents(x, es[..|es| - 1]), es[|es| - 1];
      NothingLost(x, es[..|es| - 1]);
      match e
      case Consumes(p) => PassKeepsNoGap(y, p);
      case Elsewhere(step) => StepKeepsNoGap(y, step);
    }
  }

  /** From the first message on, while the dead letter inserts succeed: everything below the committed position
      has been ingested or dead-lettered. */
  lemma LossFree(x: Session, es: seq<Event>)
    requires x.group == Group(0, [], [])
    requires forall e | e in es && e.Consumes? && e.pass.Delivery? :: e.pass.stored
    ensures var y := AfterEvents(x, es);
            && y.group.position <= |y.s.bus.log|
            && forall o | 0 <= o < y.group.position && IsSubmission(y.s, o) ::
                 Mark(TradeIngestion, y.s.bus.log[o].event) in y.s.processed || o in y.group.deadLetters
  {
    hide AfterEvents;
    NothingLost(x, es);
    DroppedOnlyByFailedInserts(x, es);
    var y := AfterEvents(x, es);
    forall o | 0 <= o < y.group.position && IsSubmission(y.s, o)
      ensures Mark(TradeIngestion, y.s.bus.log[o].event) in y.s.processed || o in y.group.deadLetters
    {
      assert IsAccounted(y, o);
    }
  }

  /** Nothing is dropped as long as the dead letter inserts succeed. */
  lemma {:induction false} DroppedOnlyByFailedInserts(x: Session, es: seq<Event>)
    requires forall e | e in es && e.Consumes? && e.pass.Delivery? :: e.pass.stored
    ensures AfterEvents(x, es).group.dropped == x.group.dropped
  {
    hide AfterIngest, Next;
    if es != [] {
      DroppedOnlyByFailedInserts(x, es[..|es| - 1]);
      assert es[|es| - 1] in es;
    }
  }

  // ---------------------------------------------------------------- progress

  /** Where a pass leaves the committed position: one further if there is a message and the process lives to commit
      its offset, or the message is another consumer's; where it was otherwise. */
  lemma PositionExactly(x: Session, p: Pass)
    ensures var at := x.group.position;
            AfterPass(x, p).group.position
            == if && p.Delivery? && at < |x.s.bus.log|
                  && (p.death == Survives || !x.s.bus.log[at].payload.TradeSubmitted?)
               then at + 1 else at
  {
    hide AfterIngest;
  }

  /** The process lives through its passes, and each of them gets a message. */
  predicate LivesThrough(e: Event) {
    e.Consumes? ==> e.pass.Delivery? && e.pass.death == Survives
  }

  /** The pass reads its message, and the callback's transaction commits. */
  predicate GetsThrough(e: Event) {
    e.Consumes? && e.pass.Delivery? ==> e.pass.readable && e.pass.callback in {Returns, RaisesAfterCommit}
  }

  function Passes(es: seq<Event>): nat {
    if es == [] then 0 else Passes(es[..|es| - 1]) + if es[|es| - 1].Consumes? then 1 else 0
  }

  /** Every submission's message at an offset from `from` up to the committed position has been ingested. */
  ghost predicate IngestedFrom(x: Session, from: nat) {
    && x.group.position <= |x.s.bus.log|
    && forall o | from <= o < x.group.position && x.s.bus.log[o].payload.TradeSubmitted? ::
         Mark(TradeIngestion, x.s.bus.log[o].event) in x.s.processed
  }

  lemma PassIngests(x: Session, p: Pass, from: nat)
    requires IngestedFrom(x, from) && LivesThrough(Consumes(p)) && GetsThrough(Consumes(p))
    ensures IngestedFrom(AfterPass(x, p), from)
  {
    hide AfterIngest;
    if IsSubmission(x.s, x.group.position) {
      IngestMarks(x.s, x.group.position, p.now);
    }
  }

  lemma StepKeepsIngested(x: Session, step: Step, from: nat)
    ensures |x.s.bus.log| <= |Next(x.s, step).bus.log|
    ensures IngestedFrom(x, from) ==> IngestedFrom(x.(s := Next(x.s, step)), from)
  {
    hide Next, Appends;
    NextGrows(x.s, step);
  }

  lemma PassKeepsLog(x: Session, p: Pass)
    ensures AfterPass(x, p).s.bus == x.s.bus
  {
    hide Process;
  }

  /** The consumer advances: with n messages ahead, n passes that the process lives through raise the committed
      position by exactly n, whatever the rest of the system does in between. If the passes get through, every
      submitted trade's message among them has been ingested. */
  lemma {:induction false} Advances(x: Session, es: seq<Event>)
    requires forall e | e in es :: LivesThrough(e)
    requires x.group.position + Passes(es) <= |x.s.bus.log|
    ensures var y := AfterEvents(x, es);
            && y.group.position == x.group.position + Passes(es)
            && |x.s.bus.log| <= |y.s.bus.log|
            && ((forall e | e in es :: GetsThrough(e)) ==> IngestedFrom(y, x.group.position))
  {
    hide AfterPass, Next, IngestedFrom, GetsThrough;
    if es == [] {
      NothingYet(x);
    } else {
      var before, e := es[..|es| - 1], es[|es| - 1];
      assert e in es && forall f | f in before :: f in es;
      Advances(x, before);
      var y := AfterEvents(x, before);
      match e
      case Consumes(p) =>
        PositionExactly(y, p);
        PassKeepsLog(y, p);
        if forall f | f in es :: GetsThrough(f) {
          PassIngests(y, p, x.group.position);
        }
      case Elsewhere(step) => StepKeepsIngested(y, step, x.group.position);
    }
  }

  lemma NothingYet(x: Session)
    ensures x.group.position <= |x.s.bus.log| ==> IngestedFrom(x, x.group.position)
  {
  }

  /** The passes of one process are a session without steps in between. */
  lemma {:induction false} PassesAreEvents(x: Session, ps: seq<Pass>)
    ensures var es := seq(|ps|, i requires 0 <= i < |ps| => Consumes(ps[i]));
            AfterEvents(x, es) == AfterPasses(x, ps) && Passes(es) == |ps|
  {
    hide AfterPass;
    if ps != [] {
      var es := seq(|ps|, i requires 0 <= i < |ps| => Consumes(ps[i]));
      PassesAreEvents(x, ps[..|ps| - 1]);
      assert es[..|es| - 1] == seq(|ps| - 1, i requires 0 <= i < |ps| - 1 => Consumes(ps[..|ps| - 1][i]));
    }
  }

  /** One process: |ps| deliveries that it lives through move the committed position from p to p + |ps|. */
  lemma ProcessAdvances(x: Session, ps: seq<Pass>)
    requires forall p | p in ps :: p.Delivery? && p.death == Survives
    requires x.group.position + |ps| <= |x.s.bus.log|
    ensures var y := AfterPasses(x, ps);
            && y.group.position == x.group.position + |ps| && y.s.bus == x.s.bus
            && ((forall p | p in ps :: p.readable && p.callback == Returns) ==>
                  forall o | x.group.position <= o < y.group.position && x.s.bus.log[o].payload.TradeSubmitted? ::
                    Mark(TradeIngestion, x.s.bus.log[o].event) in y.s.processed)
  {
    hide AfterPasses, AfterEvents;
    var es := seq(|ps|, i requires 0 <= i < |ps| => Consumes(ps[i]));
    PassesAreEvents(x, ps);
    forall e | e in es
      ensures LivesThrough(e) && ((forall p | p in ps :: p.readable && p.callback == Returns) ==> GetsThrough(e))
    {
      var i :| 0 <= i < |ps| && e == Consumes(ps[i]);
      assert ps[i] in ps;
    }
    Advances(x, es);
    HistoryExactly(x, ps, 0, 0);
  }

  /** Consuming is a run of the system: what holds of every reachable state holds between any two passes. */
  lemma {:induction false} SessionsReachable(x: Session, es: seq<Event>)
    requires Reachable(x.s)
    ensures Reachable(AfterEvents(x, es).s)
  {
    hide Reachable, Next, AfterIngest;
    if es != [] {
      var y, e := AfterEvents(x, es[..|es| - 1]), es[|es| - 1];
      SessionsReachable(x, es[..|es| - 1]);
      match e
      case Consumes(p) =>
        if p.Delivery? {
          ReachableNext(y.s, IngestTrade(y.group.position, p.now));
          IngestIsNext(y.s, y.group.position, p.now);
        }
      case Elsewhere(step) => ReachableNext(y.s, step);
    }
  }
}
