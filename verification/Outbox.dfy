/** The transactional outbox and its publishers: rows are fetched under a row lock, produced to the
    log, and marked published in the transaction that fetched them. */
module Outbox {
  import opened Sums
  import opened Model

  /** A row of outbox_events. Its row number is both its position in created_at order and its event_id. */
  datatype Row = Row(payload: Payload, published: bool)

  /** A message in the log: the payload of a row, with the row's event_id embedded. */
  datatype Message = Message(event: nat, payload: Payload)

  /** An open publisher transaction: the rows it has locked, and how many it has produced. */
  datatype Batch = Batch(rows: seq<nat>, produced: nat)

  type PublisherId = nat

  /** `aborted` remembers the rows of every batch whose transaction did not commit. */
  datatype Bus = Bus(rows: seq<Row>, log: seq<Message>, batches: map<PublisherId, Batch>, aborted: seq<seq<nat>>)

  datatype BusStep =
    | Fetch(publisher: PublisherId, limit: nat)
    | Produce(publisher: PublisherId)
    | CommitBatch(publisher: PublisherId)
    | AbortBatch(publisher: PublisherId)

  predicate IsLocked(bus: Bus, e: nat) {
    exists p :: p in bus.batches && e in bus.batches[p].rows
  }

  predicate Fetchable(bus: Bus, e: nat)
    requires e < |bus.rows|
  {
    !bus.rows[e].published && !IsLocked(bus, e)
  }

  /** SELECT ... WHERE published_at IS NULL ORDER BY created_at LIMIT n FOR UPDATE SKIP LOCKED, over
      the rows before row `upTo`. */
  function Candidates(bus: Bus, upTo: nat, limit: nat): (rows: seq<nat>)
    requires upTo <= |bus.rows|
    ensures |rows| <= limit
    ensures forall e | e in rows :: e < upTo && Fetchable(bus, e)
    ensures Distinct(rows)
  {
    if upTo == 0 then []
    else
      var rest := Candidates(bus, upTo - 1, limit);
      if |rest| < limit && Fetchable(bus, upTo - 1) then rest + [upTo - 1] else rest
  }

  /** Row e waits to be published, and no open batch holds it. */
  ghost predicate IsWaiting(bus: Bus, e: nat) {
    && e < |bus.rows| && !bus.rows[e].published
    && forall p | p in bus.batches :: e !in bus.batches[p].rows
  }

  ghost predicate Ascending(rows: seq<nat>) {
    forall i, j :: 0 <= i < j < |rows| ==> rows[i] < rows[j]
  }

  lemma AscendingSnoc(rows: seq<nat>, x: nat)
    requires Ascending(rows) && forall r | r in rows :: r < x
    ensures Ascending(rows + [x])
  {
    assert forall i | 0 <= i < |rows| :: rows[i] in rows;
  }

  lemma {:induction false} CandidatesAscend(bus: Bus, upTo: nat, limit: nat)
    requires upTo <= |bus.rows|
    ensures Ascending(Candidates(bus, upTo, limit))
  {
    hide Ascending;
    if upTo > 0 {
      CandidatesAscend(bus, upTo - 1, limit);
      AscendingSnoc(Candidates(bus, upTo - 1, limit), upTo - 1);
    } else {
      EmptyAscends();
    }
  }

  lemma EmptyAscends()
    ensures Ascending([])
  {
  }

  /** A fetch takes the oldest rows first, in order, and stops early only when none is left: a waiting row that it
      does not take is younger than all it took, and then the batch is full. */
  lemma {:induction false} CandidatesAreOldest(bus: Bus, upTo: nat, limit: nat)
    requires upTo <= |bus.rows|
    ensures var rows := Candidates(bus, upTo, limit);
            && (forall i, j :: 0 <= i < j < |rows| ==> rows[i] < rows[j])
            && (forall e | e in rows :: IsWaiting(bus, e))
            && (forall e: nat :: e < upTo && IsWaiting(bus, e) && e !in rows ==>
                  |rows| == limit && forall r :: r in rows ==> r < e)
  {
    CandidatesAscend(bus, upTo, limit);
    if upTo > 0 {
      CandidatesAreOldest(bus, upTo - 1, limit);
    }
  }

  function MarkPublished(rows: seq<Row>, ids: seq<nat>): (marked: seq<Row>)
    ensures |marked| == |rows|
  {
    seq(|rows|, i requires 0 <= i < |rows| => if i in ids then rows[i].(published := true) else rows[i])
  }

  function Release(bus: Bus, p: PublisherId): map<PublisherId, Batch> {
    map q | q in bus.batches && q != p :: bus.batches[q]
  }

  /** One step of one publisher. A step that is not enabled changes nothing. */
  function NextBus(bus: Bus, step: BusStep): Bus {
    match step
    case Fetch(p, limit) =>
      var rows := Candidates(bus, |bus.rows|, limit);
      if p in bus.batches || rows == [] then bus else bus.(batches := bus.batches[p := Batch(rows, 0)])
    case Produce(p) =>
      if p in bus.batches && bus.batches[p].produced < |bus.batches[p].rows| then
        var b := bus.batches[p];
        var e := b.rows[b.produced];
        if e < |bus.rows| then
          bus.(log := bus.log + [Message(e, bus.rows[e].payload)],
               batches := bus.batches[p := b.(produced := b.produced + 1)])
        else bus
      else bus
    case CommitBatch(p) =>
      if p in bus.batches && bus.batches[p].produced == |bus.batches[p].rows| then
        bus.(rows := MarkPublished(bus.rows, bus.batches[p].rows), batches := Release(bus, p))
      else bus
    case AbortBatch(p) =>
      if p in bus.batches then
        bus.(batches := Release(bus, p), aborted := bus.aborted + [bus.batches[p].rows])
      else bus
  }

  function Emit(bus: Bus, payload: Payload): Bus {
    bus.(rows := bus.rows + [Row(payload, false)])
  }

  // ---------------------------------------------------------------- invariant

  /** How many copies of event e the log holds. */
  function Copies(log: seq<Message>, e: nat): nat {
    if log == [] then 0 else Copies(log[..|log| - 1], e) + if log[|log| - 1].event == e then 1 else 0
  }

  /** How many aborted batches contained row e. */
  function Aborts(aborted: seq<seq<nat>>, e: nat): nat {
    if aborted == [] then 0
    else Aborts(aborted[..|aborted| - 1], e) + if e in aborted[|aborted| - 1] then 1 else 0
  }

  /** Row e has been produced by the open batch of some publisher. */
  predicate InFlight(bus: Bus, e: nat) {
    exists p :: p in bus.batches && bus.batches[p].produced <= |bus.batches[p].rows|
                && e in bus.batches[p].rows[..bus.batches[p].produced]
  }

  /** No two publishers hold one row. */
  ghost predicate LocksDisjoint(bus: Bus) {
    forall p, q, e | p in bus.batches && q in bus.batches && e in bus.batches[p].rows && e in bus.batches[q].rows ::
      p == q
  }

  ghost predicate BatchesValid(bus: Bus) {
    forall p | p in bus.batches ::
      && bus.batches[p].produced <= |bus.batches[p].rows|
      && Distinct(bus.batches[p].rows)
      && forall e | e in bus.batches[p].rows :: e < |bus.rows| && !bus.rows[e].published
  }

  ghost predicate LogFaithful(bus: Bus) {
    forall m | m in bus.log :: m.event < |bus.rows| && m.payload == bus.rows[m.event].payload
  }

  /** At-least-once and at most 1 + aborts: a published row is in the log, and every further copy of a
      row is owed to a batch that aborted. */
  ghost predicate CopiesBounded(bus: Bus) {
    forall e :: 0 <= e < |bus.rows| ==>
      && (bus.rows[e].published ==> Copies(bus.log, e) >= 1)
      && Copies(bus.log, e) <= Aborts(bus.aborted, e) + if bus.rows[e].published || InFlight(bus, e) then 1 else 0
  }

  ghost predicate InFlightLogged(bus: Bus) {
    forall e | InFlight(bus, e) :: Copies(bus.log, e) >= 1
  }

  ghost predicate BusInvariant(bus: Bus) {
    LocksDisjoint(bus) && BatchesValid(bus) && LogFaithful(bus) && CopiesBounded(bus) && InFlightLogged(bus)
  }

  lemma CopiesSnoc(log: seq<Message>, m: Message, e: nat)
    ensures Copies(log + [m], e) == Copies(log, e) + if m.event == e then 1 else 0
  {
    assert (log + [m])[..|log|] == log;
  }

  lemma AbortsSnoc(aborted: seq<seq<nat>>, rows: seq<nat>, e: nat)
    ensures Aborts(aborted + [rows], e) == Aborts(aborted, e) + if e in rows then 1 else 0
  {
    assert (aborted + [rows])[..|aborted|] == aborted;
  }

  lemma {:induction false} NoCopiesAbove(log: seq<Message>, e: nat)
    requires forall m | m in log :: m.event != e
    ensures Copies(log, e) == 0
  {
    if log != [] {
      NoCopiesAbove(log[..|log| - 1], e);
    }
  }

  lemma EmitKeeps(bus: Bus, payload: Payload)
    requires BusInvariant(bus)
    ensures BusInvariant(Emit(bus, payload))
  {
    var after := Emit(bus, payload);
    NoCopiesAbove(bus.log, |bus.rows|);
    forall e | 0 <= e < |after.rows| ensures InFlight(after, e) == InFlight(bus, e) {
    }
  }

  lemma FetchKeeps(bus: Bus, p: PublisherId, limit: nat)
    requires BusInvariant(bus)
    ensures BusInvariant(NextBus(bus, Fetch(p, limit)))
  {
    var after := NextBus(bus, Fetch(p, limit));
    if after != bus {
      var rows := after.batches[p].rows;
      forall e: nat ensures InFlight(after, e) == InFlight(bus, e) {
        if q :| q in bus.batches && bus.batches[q].produced <= |bus.batches[q].rows|
                && e in bus.batches[q].rows[..bus.batches[q].produced] {
          assert after.batches[q] == bus.batches[q];
        }
      }
      forall e | e in rows ensures !IsLocked(bus, e) {
        assert Fetchable(bus, e);
      }
    }
  }

  lemma ProduceKeeps(bus: Bus, p: PublisherId)
    requires BusInvariant(bus)
    ensures BusInvariant(NextBus(bus, Produce(p)))
  {
    hide Copies, Aborts, Candidates;
    var after := NextBus(bus, Produce(p));
    if after != bus {
      var b := bus.batches[p];
      var x := b.rows[b.produced];
      assert x in b.rows;
      var m := Message(x, bus.rows[x].payload);
      assert b.rows[..b.produced + 1] == b.rows[..b.produced] + [x];
      assert x !in b.rows[..b.produced];
      forall e: nat
        ensures InFlight(after, e) == (InFlight(bus, e) || e == x)
      {
        if q :| q in bus.batches && bus.batches[q].produced <= |bus.batches[q].rows|
                && e in bus.batches[q].rows[..bus.batches[q].produced] {
          assert q in after.batches && e in after.batches[q].rows[..after.batches[q].produced];
        }
        if e == x {
          assert e in after.batches[p].rows[..after.batches[p].produced];
        }
      }
      assert !InFlight(bus, x);
      forall e: nat ensures Copies(after.log, e) == Copies(bus.log, e) + if e == x then 1 else 0 {
        CopiesSnoc(bus.log, m, e);
      }
    }
  }

  lemma CommitKeeps(bus: Bus, p: PublisherId)
    requires BusInvariant(bus)
    ensures BusInvariant(NextBus(bus, CommitBatch(p)))
  {
    var after := NextBus(bus, CommitBatch(p));
    if after != bus {
      var b := bus.batches[p];
      assert b.rows[..b.produced] == b.rows;
      forall e: nat ensures e !in b.rows ==> InFlight(after, e) == InFlight(bus, e)
                    ensures InFlight(after, e) ==> InFlight(bus, e)
      {
        if q :| q in bus.batches && bus.batches[q].produced <= |bus.batches[q].rows|
                && e in bus.batches[q].rows[..bus.batches[q].produced] {
          if e !in b.rows {
            assert q in after.batches;
          }
        }
      }
      forall e | e in b.rows ensures InFlight(bus, e) {
        assert e in bus.batches[p].rows[..bus.batches[p].produced];
      }
    }
  }

  lemma AbortKeeps(bus: Bus, p: PublisherId)
    requires BusInvariant(bus)
    ensures BusInvariant(NextBus(bus, AbortBatch(p)))
  {
    var after := NextBus(bus, AbortBatch(p));
    if after != bus {
      var b := bus.batches[p];
      forall e: nat
        ensures InFlight(after, e) ==> InFlight(bus, e)
        ensures InFlight(bus, e) && e !in b.rows ==> InFlight(after, e)
      {
        if e !in b.rows && InFlight(bus, e) {
          var q :| q in bus.batches && bus.batches[q].produced <= |bus.batches[q].rows|
                   && e in bus.batches[q].rows[..bus.batches[q].produced];
          assert q in after.batches;
        }
      }
      forall e: nat ensures Aborts(after.aborted, e) == Aborts(bus.aborted, e) + if e in b.rows then 1 else 0 {
        AbortsSnoc(bus.aborted, b.rows, e);
      }
    }
  }

  /** Every publisher step, from any interleaving of publishers, keeps the outbox invariant. */
  lemma NextBusKeeps(bus: Bus, step: BusStep)
    requires BusInvariant(bus)
    ensures BusInvariant(NextBus(bus, step))
  {
    match step
    case Fetch(p, limit) => FetchKeeps(bus, p, limit);
    case Produce(p) => ProduceKeeps(bus, p);
    case CommitBatch(p) => CommitKeeps(bus, p);
    case AbortBatch(p) => AbortKeeps(bus, p);
  }

  // ---------------------------------------------------------------- progress

  function Unpublished(rows: seq<Row>): set<nat> {
    set e | 0 <= e < |rows| && !rows[e].published
  }

  function Smaller(a: nat, b: nat): nat {
    if a <= b then a else b
  }

  /** With no row locked, a fetch takes as many unpublished rows as the limit allows. */
  lemma {:induction false} CandidatesCount(bus: Bus, upTo: nat, limit: nat)
    requires upTo <= |bus.rows|
    requires forall e | 0 <= e < |bus.rows| :: !IsLocked(bus, e)
    ensures |Candidates(bus, upTo, limit)| == Smaller(limit, |Unpublished(bus.rows[..upTo])|)
  {
    if upTo > 0 {
      CandidatesCount(bus, upTo - 1, limit);
      var before, here := Unpublished(bus.rows[..upTo - 1]), Unpublished(bus.rows[..upTo]);
      if bus.rows[upTo - 1].published {
        assert here == before;
      } else {
        assert here == before + {upTo - 1};
      }
    } else {
      assert Unpublished(bus.rows[..0]) == {};
    }
  }

  function Elements(s: seq<nat>): set<nat> {
    set x | x in s
  }

  lemma {:induction false} DistinctCount(s: seq<nat>)
    requires Distinct(s)
    ensures |Elements(s)| == |s|
  {
    if s == [] {
      assert Elements(s) == {};
    } else {
      var s0, x := s[..|s| - 1], s[|s| - 1];
      DistinctCount(s0);
      assert s == s0 + [x];
      assert Elements(s) == Elements(s0) + {x};
      assert x !in Elements(s0);
    }
  }

  /** A publisher that produces everything it has locked. */
  function ProduceRest(bus: Bus, p: PublisherId): (after: Bus)
    requires p in bus.batches && BatchesValid(bus)
    ensures p in after.batches && after.batches == bus.batches[p := after.batches[p]]
    ensures after.batches[p].rows == bus.batches[p].rows
    ensures after.batches[p].produced == |bus.batches[p].rows|
    ensures after.rows == bus.rows && after.aborted == bus.aborted
    decreases |bus.batches[p].rows| - bus.batches[p].produced
  {
    if bus.batches[p].produced == |bus.batches[p].rows| then bus
    else
      assert bus.batches[p].rows[bus.batches[p].produced] in bus.batches[p].rows;
      ProduceRest(NextBus(bus, Produce(p)), p)
  }

  /** One undisturbed run of _process_batch: fetch, produce, mark, commit. */
  function Round(bus: Bus, p: PublisherId, limit: nat): Bus
    requires BusInvariant(bus) && bus.batches == map[]
  {
    var fetched := NextBus(bus, Fetch(p, limit));
    FetchKeeps(bus, p, limit);
    if p in fetched.batches then NextBus(ProduceRest(fetched, p), CommitBatch(p)) else fetched
  }

  lemma {:induction false} ProduceRestKeeps(bus: Bus, p: PublisherId)
    requires p in bus.batches && BusInvariant(bus)
    ensures BusInvariant(ProduceRest(bus, p))
    decreases |bus.batches[p].rows| - bus.batches[p].produced
  {
    if bus.batches[p].produced < |bus.batches[p].rows| {
      assert bus.batches[p].rows[bus.batches[p].produced] in bus.batches[p].rows;
      ProduceKeeps(bus, p);
      ProduceRestKeeps(NextBus(bus, Produce(p)), p);
    }
  }

  /** Committing a batch publishes exactly the rows it holds. */
  lemma CommitPublishes(bus: Bus, p: PublisherId)
    requires BatchesValid(bus) && p in bus.batches && bus.batches[p].produced == |bus.batches[p].rows|
    ensures |Unpublished(NextBus(bus, CommitBatch(p)).rows)| == |Unpublished(bus.rows)| - |bus.batches[p].rows|
  {
    var rows := bus.batches[p].rows;
    var before, after := Unpublished(bus.rows), Unpublished(MarkPublished(bus.rows, rows));
    DistinctCount(rows);
    assert Elements(rows) <= before;
    assert after == before - Elements(rows);
    assert |before| == |after + Elements(rows)| by {
      assert before == after + Elements(rows);
    }
  }

  lemma RoundPublishes(bus: Bus, p: PublisherId, limit: nat)
    requires BusInvariant(bus) && bus.batches == map[]
    ensures BusInvariant(Round(bus, p, limit)) && Round(bus, p, limit).batches == map[]
    ensures |Unpublished(Round(bus, p, limit).rows)|
            == |Unpublished(bus.rows)| - Smaller(limit, |Unpublished(bus.rows)|)
  {
    hide CopiesBounded, LogFaithful, InFlightLogged, LocksDisjoint;
    var fetched := NextBus(bus, Fetch(p, limit));
    CandidatesCount(bus, |bus.rows|, limit);
    assert bus.rows[..|bus.rows|] == bus.rows;
    FetchKeeps(bus, p, limit);
    if p in fetched.batches {
      ProduceRestKeeps(fetched, p);
      var produced := ProduceRest(fetched, p);
      CommitKeeps(produced, p);
      CommitPublishes(produced, p);
      assert Release(produced, p) == map[];
    }
  }

  function Rounds(bus: Bus, p: PublisherId, limit: nat, k: nat): (after: Bus)
    requires BusInvariant(bus) && bus.batches == map[]
    ensures BusInvariant(after) && after.batches == map[]
  {
    if k == 0 then bus
    else
      var before := Rounds(bus, p, limit, k - 1);
      RoundPublishes(before, p, limit);
      Round(before, p, limit)
  }

  /** Progress: with n unpublished rows, no new rows and no other publisher, k successful batches of
      size `limit` leave n - k * limit rows, so that ceil(n / limit) batches publish them all. */
  lemma {:induction false} OutboxDrains(bus: Bus, p: PublisherId, limit: nat, k: nat)
    requires BusInvariant(bus) && bus.batches == map[]
    ensures var n := |Unpublished(bus.rows)|;
            |Unpublished(Rounds(bus, p, limit, k).rows)| == if n <= k * limit then 0 else n - k * limit
  {
    hide BusInvariant, Round, Unpublished;
    if k > 0 {
      OutboxDrains(bus, p, limit, k - 1);
      RoundPublishes(Rounds(bus, p, limit, k - 1), p, limit);
      OneMore(k - 1, limit);
    }
  }

  lemma OneMore(k: nat, limit: nat)
    ensures (k + 1) * limit == k * limit + limit
  {
  }
}
