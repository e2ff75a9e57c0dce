/** The outbox publisher as the service runs it: one batch, from the row locks to the commit. */
module OutboxPublisher {
  import opened Options
  import opened Outbox
  import opened Store

  /** fetch_unpublished_batch: the SELECT, row by row in order of creation, skipping locked rows, until the
      limit is reached; the rows it returns are locked. */
  method FetchUnpublishedBatch(db: Database, p: PublisherId, batchSize: nat) returns (events: seq<nat>)
    requires p !in db.bus.batches
    modifies db`bus
    ensures forall i, j :: 0 <= i < j < |events| ==> events[i] < events[j]
    ensures forall e | e in events :: IsWaiting(old(db.bus), e)
    ensures forall e: nat | IsWaiting(old(db.bus), e) && e !in events ::
              |events| == batchSize && forall r :: r in events ==> r < e
    ensures events == Candidates(old(db.bus), |old(db.bus).rows|, batchSize)
    ensures db.bus == if events == [] then old(db.bus)
                      else old(db.bus).(batches := old(db.bus).batches[p := Batch(events, 0)])
    ensures db.bus == NextBus(old(db.bus), Fetch(p, batchSize))
  {
    events := [];
    var row := 0;
    while row < |db.bus.rows| && |events| < batchSize
      invariant row <= |db.bus.rows|
      invariant events == Candidates(db.bus, row, batchSize)
    {
      if Fetchable(db.bus, row) {
        events := events + [row];
      }
      row := row + 1;
    }
    FullBatch(db.bus, row, |db.bus.rows|, batchSize);
    CandidatesAreOldest(db.bus, |db.bus.rows|, batchSize);
    if events != [] {
      db.bus := db.bus.(batches := db.bus.batches[p := Batch(events, 0)]);
    }
  }

  /** Rows past a full batch do not matter. */
  lemma {:induction false} FullBatch(bus: Bus, row: nat, upTo: nat, limit: nat)
    requires row <= upTo <= |bus.rows|
    requires row < upTo ==> |Candidates(bus, row, limit)| == limit
    ensures Candidates(bus, upTo, limit) == Candidates(bus, row, limit)
  {
    if row < upTo {
      FullBatch(bus, row, upTo - 1, limit);
    }
  }

  /** The bus after p has produced n more of its rows. */
  function ProduceSome(bus: Bus, p: PublisherId, n: nat): Bus {
    if n == 0 then bus else NextBus(ProduceSome(bus, p, n - 1), Produce(p))
  }

  /** The messages of some rows, in order. */
  function MessagesOf(rows: seq<Row>, ids: seq<nat>): seq<Message>
    requires forall i | 0 <= i < |ids| :: ids[i] < |rows|
  {
    seq(|ids|, i requires 0 <= i < |ids| => Message(ids[i], rows[ids[i]].payload))
  }

  /** Publisher p holds a batch of existing rows and has produced none of them. */
  ghost predicate FreshBatch(bus: Bus, p: PublisherId) {
    && p in bus.batches && bus.batches[p].produced == 0
    && forall i | 0 <= i < |bus.batches[p].rows| :: bus.batches[p].rows[i] < |bus.rows|
  }

  function Logged(bus: Bus, p: PublisherId, n: nat): Bus
    requires FreshBatch(bus, p) && n <= |bus.batches[p].rows|
  {
    bus.(log := bus.log + MessagesOf(bus.rows, bus.batches[p].rows[..n]),
         batches := bus.batches[p := Batch(bus.batches[p].rows, n)])
  }

  /** n produce steps append exactly the messages of the batch's first n rows. */
  lemma {:induction false} ProduceSomeLogs(bus: Bus, p: PublisherId, n: nat)
    requires FreshBatch(bus, p) && n <= |bus.batches[p].rows|
    ensures ProduceSome(bus, p, n) == Logged(bus, p, n)
  {
    hide MessagesOf, Candidates;
    if n == 0 {
      NothingLogged(bus, p);
    } else {
      ProduceSomeLogs(bus, p, n - 1);
      LoggedStep(bus, p, n - 1);
    }
  }

  lemma LoggedStep(bus: Bus, p: PublisherId, n: nat)
    requires FreshBatch(bus, p) && n < |bus.batches[p].rows|
    ensures var e := bus.batches[p].rows[n];
            Logged(bus, p, n + 1)
            == Logged(bus, p, n).(log := Logged(bus, p, n).log + [Message(e, bus.rows[e].payload)],
                                  batches := Logged(bus, p, n).batches[p := Batch(bus.batches[p].rows, n + 1)])
  {
    var rows := bus.batches[p].rows;
    assert bus.log + MessagesOf(bus.rows, rows[..n + 1])
        == bus.log + MessagesOf(bus.rows, rows[..n]) + [Message(rows[n], bus.rows[rows[n]].payload)];
  }

  /** publish_batch: produces the events in order, each with its event_id. The producer raises at event
      `failure`, if there is such an event; flush then never happens. */
  method PublishBatch(db: Database, p: PublisherId, failure: Option<nat>) returns (published: seq<nat>, raised: bool)
    requires FreshBatch(db.bus, p)
    modifies db`bus
    ensures raised <==> failure.Some? && failure.value < |old(db.bus).batches[p].rows|
    ensures published == (if raised then old(db.bus).batches[p].rows[..failure.value] else old(db.bus).batches[p].rows)
    ensures db.bus == Logged(old(db.bus), p, |published|) == ProduceSome(old(db.bus), p, |published|)
  {
    hide Logged, ProduceSome;
    ghost var before := db.bus;
    var rows := db.bus.batches[p].rows;
    published, raised := [], false;
    var i := 0;
    ProduceSomeLogs(before, p, 0);
    NothingLogged(before, p);
    while i < |rows| && !raised
      invariant 0 <= i <= |rows| && published == rows[..i]
      invariant db.bus == Logged(before, p, i)
      invariant if raised then failure == Some(i) && i < |rows| else failure.Some? ==> failure.value >= i
      decreases |rows| - i, !raised
    {
      if failure == Some(i) {
        raised := true;
      } else {
        var e := rows[i];
        assert rows[..i + 1] == rows[..i] + [e];
        LoggedStep(before, p, i);
        LoggedRows(before, p, i);
        db.bus := db.bus.(log := db.bus.log + [Message(e, db.bus.rows[e].payload)],
                          batches := db.bus.batches[p := Batch(rows, i + 1)]);
        published := published + [e];
        i := i + 1;
      }
    }
    ProduceSomeLogs(before, p, i);
  }

  lemma NothingLogged(bus: Bus, p: PublisherId)
    requires FreshBatch(bus, p)
    ensures Logged(bus, p, 0) == bus
  {
    assert bus.log + MessagesOf(bus.rows, bus.batches[p].rows[..0]) == bus.log;
    assert bus.batches[p := Batch(bus.batches[p].rows, 0)] == bus.batches;
  }

  lemma LoggedRows(bus: Bus, p: PublisherId, n: nat)
    requires FreshBatch(bus, p) && n <= |bus.batches[p].rows|
    ensures Logged(bus, p, n).rows == bus.rows
    ensures p in Logged(bus, p, n).batches && Logged(bus, p, n).batches[p].rows == bus.batches[p].rows
  {
  }

  /** What one call of _process_batch does to the bus. */
  function AfterBatch(bus: Bus, p: PublisherId, batchSize: nat, failure: Option<nat>): Bus {
    var rows := Candidates(bus, |bus.rows|, batchSize);
    var fetched := NextBus(bus, Fetch(p, batchSize));
    if rows == [] then bus
    else if failure.Some? && failure.value < |rows| then NextBus(ProduceSome(fetched, p, failure.value), AbortBatch(p))
    else NextBus(ProduceSome(fetched, p, |rows|), CommitBatch(p))
  }

  /** _process_batch: a raised exception rolls the locks back and publishes nothing, although messages may
      already be in the log. */
  method ProcessBatch(db: Database, p: PublisherId, batchSize: nat, failure: Option<nat>) returns (count: nat)
    requires BusInvariant(db.bus) && p !in db.bus.batches
    modifies db`bus
    ensures db.bus == AfterBatch(old(db.bus), p, batchSize, failure)
    ensures p !in db.bus.batches
    ensures var rows := Candidates(old(db.bus), |old(db.bus).rows|, batchSize);
            && count == (if failure.Some? && failure.value < |rows| then 0 else |rows|)
            && db.bus.rows == MarkPublished(old(db.bus).rows, if count == 0 then [] else rows)
  {
    hide CopiesBounded, LogFaithful, InFlightLogged, LocksDisjoint, Candidates, NextBus, ProduceSome, Logged,
      MarkPublished, Release;
    FetchKeeps(db.bus, p, batchSize);
    var events := FetchUnpublishedBatch(db, p, batchSize);
    NoneMarked(db.bus.rows);
    if events == [] {
      return 0;
    }
    ghost var fetched := db.bus;
    FetchedIsFresh(fetched, p);
    var published, raised := PublishBatch(db, p, failure);
    LoggedRows(fetched, p, |published|);
    BatchEnds(fetched, p, |published|);
    if raised {
      db.bus := db.bus.(batches := Release(db.bus, p), aborted := db.bus.aborted + [db.bus.batches[p].rows]);
      return 0;
    }
    db.bus := db.bus.(rows := MarkPublished(db.bus.rows, published), batches := Release(db.bus, p));
    count := |published|;
  }

  lemma NoneMarked(rows: seq<Row>)
    ensures MarkPublished(rows, []) == rows
  {
  }

  /** How a batch with n produced rows ends. */
  lemma BatchEnds(bus: Bus, p: PublisherId, n: nat)
    requires FreshBatch(bus, p) && n <= |bus.batches[p].rows|
    ensures var some, rows := Logged(bus, p, n), bus.batches[p].rows;
            && NextBus(some, AbortBatch(p)) == some.(batches := Release(some, p), aborted := some.aborted + [rows])
            && p !in Release(some, p)
            && (n == |rows| ==>
                  NextBus(some, CommitBatch(p))
                  == some.(rows := MarkPublished(some.rows, rows), batches := Release(some, p)))
  {
    hide MarkPublished, MessagesOf;
  }

  lemma FetchedIsFresh(bus: Bus, p: PublisherId)
    requires BatchesValid(bus) && p in bus.batches && bus.batches[p].produced == 0
    ensures FreshBatch(bus, p)
  {
    forall i | 0 <= i < |bus.batches[p].rows| ensures bus.batches[p].rows[i] < |bus.rows| {
      assert bus.batches[p].rows[i] in bus.batches[p].rows;
    }
  }

  lemma {:induction false} ProduceSomeKeeps(bus: Bus, p: PublisherId, n: nat)
    requires BusInvariant(bus)
    ensures BusInvariant(ProduceSome(bus, p, n))
  {
    if n > 0 {
      ProduceSomeKeeps(bus, p, n - 1);
      NextBusKeeps(ProduceSome(bus, p, n - 1), Produce(p));
    }
  }

  /** A batch, complete or failed at any point, keeps the outbox invariant. */
  lemma BatchKeeps(bus: Bus, p: PublisherId, batchSize: nat, failure: Option<nat>)
    requires BusInvariant(bus)
    ensures BusInvariant(AfterBatch(bus, p, batchSize, failure))
  {
    hide BusInvariant, Candidates;
    var fetched := NextBus(bus, Fetch(p, batchSize));
    var n := |Candidates(bus, |bus.rows|, batchSize)|;
    NextBusKeeps(bus, Fetch(p, batchSize));
    ProduceSomeKeeps(fetched, p, n);
    NextBusKeeps(ProduceSome(fetched, p, n), CommitBatch(p));
    if failure.Some? {
      ProduceSomeKeeps(fetched, p, failure.value);
      NextBusKeeps(ProduceSome(fetched, p, failure.value), AbortBatch(p));
    }
  }

  /** An undisturbed batch is one round of the progress argument. */
  lemma BatchIsRound(bus: Bus, p: PublisherId, batchSize: nat)
    requires BusInvariant(bus) && bus.batches == map[]
    ensures AfterBatch(bus, p, batchSize, None) == Round(bus, p, batchSize)
  {
    hide CopiesBounded, LogFaithful, InFlightLogged, LocksDisjoint, Candidates;
    var fetched := NextBus(bus, Fetch(p, batchSize));
    FetchKeeps(bus, p, batchSize);
    if p in fetched.batches {
      RestIsSome(fetched, p, 0);
    }
  }

  lemma {:induction false} RestIsSome(fetched: Bus, p: PublisherId, k: nat)
    requires p in fetched.batches && BusInvariant(fetched) && fetched.batches[p].produced == 0
    requires k <= |fetched.batches[p].rows|
    requires var bus := ProduceSome(fetched, p, k);
             BusInvariant(bus) && p in bus.batches && bus.batches[p] == Batch(fetched.batches[p].rows, k)
    ensures ProduceRest(ProduceSome(fetched, p, k), p) == ProduceSome(fetched, p, |fetched.batches[p].rows|)
    decreases |fetched.batches[p].rows| - k
  {
    hide CopiesBounded, LogFaithful, InFlightLogged, LocksDisjoint;
    var bus := ProduceSome(fetched, p, k);
    if k < |fetched.batches[p].rows| {
      assert bus.batches[p].rows[k] in bus.batches[p].rows;
      ProduceKeeps(bus, p);
      RestIsSome(fetched, p, k + 1);
    }
  }
}
