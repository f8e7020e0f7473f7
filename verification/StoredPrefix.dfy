/**
 * What the replay has put into the log (apps/api/src/sim/runner.ts:312-340): the dataset's events
 * among everything else the log holds, whatever the relay has since done to their outbox rows.
 */
module StoredPrefix {
  import opened PaymentState
  import opened Projection
  import opened Relay
  import opened Ingest

  /** The events of the dataset: in order of time, each under its own id. */
  ghost predicate Sorted(events: seq<Event>) {
    forall i, j :: 0 <= i < j < |events| ==>
      events[i].occurredAt <= events[j].occurredAt && events[i].id != events[j].id
  }

  function IdSet(events: seq<Event>): set<EventId> {
    set i | 0 <= i < |events| :: events[i].id
  }

  /** The events of an outbox whose ids are of interest, row by row. */
  function Kept(outbox: seq<OutboxRow>, ids: set<EventId>): seq<Event> {
    if outbox == [] then []
    else
      var last := outbox[|outbox|-1].event;
      Kept(outbox[..|outbox|-1], ids) + if last.id in ids then [last] else []
  }

  /**
   * Of the dataset the log holds exactly the first k events: each stored as it is, each with one
   * outbox row, the rows in order; other events, and what became of the rows, are free.
   */
  ghost predicate Holds(log: Log, events: seq<Event>, k: nat) {
    && k <= |events|
    && Kept(log.outbox, IdSet(events)) == events[..k]
    && (forall i :: 0 <= i < |events| ==> (events[i].id in log.events <==> i < k))
    && forall i :: 0 <= i < k ==> events[i].id in log.events && log.events[events[i].id] == events[i]
  }

  /** How many of the dataset's events the outbox carries. */
  function Stored(log: Log, events: seq<Event>): nat {
    |Kept(log.outbox, IdSet(events))|
  }

  lemma HoldsStored(log: Log, events: seq<Event>, k: nat)
    requires Holds(log, events, k)
    ensures Stored(log, events) == k
  {
  }

  // ---- The rows of interest ----

  lemma {:induction false} KeptAppend(a: seq<OutboxRow>, b: seq<OutboxRow>, ids: set<EventId>)
    ensures Kept(a + b, ids) == Kept(a, ids) + Kept(b, ids)
  {
    if b == [] {
      assert a + b == a;
    } else {
      KeptAppend(a, b[..|b|-1], ids);
      assert (a + b)[..|a + b|-1] == a + b[..|b|-1];
    }
  }

  /** Rows written for events of interest are all kept, and rows for other events are not. */
  lemma {:induction false} KeptNewRows(first: nat, added: seq<Event>, ids: set<EventId>)
    ensures (forall e :: e in added ==> e.id in ids) ==> Kept(NewRows(first, added), ids) == added
    ensures (forall e :: e in added ==> e.id !in ids) ==> Kept(NewRows(first, added), ids) == []
  {
    if added != [] {
      var front := added[..|added|-1];
      KeptNewRows(first, front, ids);
      assert NewRows(first, added)[..|added|-1] == NewRows(first, front);
      assert added == front + [added[|added|-1]];
    }
  }

  /** Delivering, retrying and dead-lettering rows does not touch the events they carry. */
  lemma {:induction false} KeptByBooking(before: seq<OutboxRow>, after: seq<OutboxRow>, ids: set<EventId>)
    requires |before| == |after| && forall i :: 0 <= i < |before| ==> after[i].event == before[i].event
    ensures Kept(after, ids) == Kept(before, ids)
  {
    if before != [] {
      KeptByBooking(before[..|before|-1], after[..|after|-1], ids);
    }
  }

  // ---- Ingesting a chunk, perhaps again ----

  /** Of events a..b, a log that holds the first k lacks those from k on. */
  lemma {:induction false} FreshOfPrefix(held: map<EventId, Event>, events: seq<Event>, k: nat, a: nat, b: nat)
    requires a <= b <= |events| && k <= |events|
    requires forall i :: 0 <= i < |events| ==> (events[i].id in held <==> i < k)
    ensures Fresh(held, events[a..b]) == (if k <= a then events[a..b] else if b <= k then [] else events[k..b])
    decreases b - a
  {
    if a < b {
      FreshOfPrefix(held, events, k, a + 1, b);
      assert events[a..b][0] == events[a] && events[a..b][1..] == events[a+1..b];
      if k <= a {
        assert events[a..b] == [events[a]] + events[a+1..b];
      } else if k == a + 1 {
        assert b > k ==> events[k..b] == events[a+1..b];
      }
    }
  }

  /** The first event of a new id is stored as it came. */
  lemma {:induction false} FirstIsStored(held: map<EventId, Event>, batch: seq<Event>, i: nat)
    requires i < |batch| && batch[i].id !in held && forall j :: 0 <= j < i ==> batch[j].id != batch[i].id
    ensures batch[i].id in InsertAll(held, batch) && InsertAll(held, batch)[batch[i].id] == batch[i]
    decreases i
  {
    if i > 0 {
      var e := batch[0];
      assert batch[1..][i-1] == batch[i];
      FirstIsStored(if e.id in held then held else held[e.id := e], batch[1..], i - 1);
    }
  }

  lemma IdsOfRange(events: seq<Event>, a: nat, b: nat, i: nat)
    requires Sorted(events) && a <= b <= |events| && i < |events|
    ensures events[i].id in EventIds(events[a..b]) <==> a <= i < b
  {
    var ids := EventIds(events[a..b]);
    if a <= i < b {
      assert ids[i - a] == events[i].id;
    }
    if events[i].id in ids {
      var j :| 0 <= j < b - a && ids[j] == events[i].id;
      assert events[a + j].id == events[i].id;
    }
  }

  /** The outbox gains exactly the events of the chunk that were not there yet. */
  lemma ChunkRows(log: Log, events: seq<Event>, k: nat, a: nat, b: nat)
    requires Holds(log, events, k) && a <= k && a <= b <= |events|
    ensures Kept(IngestBatch(log, events[a..b]).outbox, IdSet(events)) == events[..if b <= k then k else b]
  {
    hide InsertAll, Kept;
    var added := Fresh(log.events, events[a..b]);
    FreshOfPrefix(log.events, events, k, a, b);
    KeptAppend(log.outbox, NewRows(|log.outbox|, added), IdSet(events));
    assert forall e :: e in added ==> e in events;
    KeptNewRows(|log.outbox|, added, IdSet(events));
    if b > k {
      assert added == events[k..b];
      assert events[..b] == events[..k] + events[k..b];
    }
  }

  /** A chunk that starts within what is stored extends it to the chunk's end, and repeats are dropped. */
  lemma ChunkExtends(log: Log, events: seq<Event>, k: nat, a: nat, b: nat)
    requires Sorted(events) && Holds(log, events, k) && a <= k && a <= b <= |events|
    ensures Holds(IngestBatch(log, events[a..b]), events, if b <= k then k else b)
  {
    hide InsertAll, Fresh, NewRows, EventIds, Kept;
    var n, chunk := if b <= k then k else b, events[a..b];
    var after := IngestBatch(log, chunk);
    ChunkRows(log, events, k, a, b);
    BatchKeys(log.events, chunk);
    forall i | 0 <= i < |events|
      ensures events[i].id in after.events <==> i < n
      ensures i < n ==> after.events[events[i].id] == events[i]
    {
      IdsOfRange(events, a, b, i);
      if k <= i < n {
        assert chunk[i - a] == events[i];
        assert forall j :: 0 <= j < i - a ==> chunk[j] == events[a + j];
        FirstIsStored(log.events, chunk, i - a);
      }
    }
  }

  /** Events that are not the dataset's, such as those of the gateway, leave what is stored of it. */
  predicate Foreign(batch: seq<Event>, events: seq<Event>) {
    forall e :: e in batch ==> e.id !in IdSet(events)
  }

  lemma {:induction false} FreshFromBatch(held: map<EventId, Event>, batch: seq<Event>)
    ensures forall e :: e in Fresh(held, batch) ==> e in batch
  {
    if batch != [] {
      FreshFromBatch(held, batch[1..]);
      assert forall e :: e in batch[1..] ==> e in batch;
    }
  }

  lemma ForeignKeeps(log: Log, events: seq<Event>, k: nat, batch: seq<Event>)
    requires Holds(log, events, k) && Foreign(batch, events)
    ensures Holds(IngestBatch(log, batch), events, k)
  {
    hide InsertAll, Fresh, NewRows, Kept;
    var added := Fresh(log.events, batch);
    FreshFromBatch(log.events, batch);
    KeptAppend(log.outbox, NewRows(|log.outbox|, added), IdSet(events));
    KeptNewRows(|log.outbox|, added, IdSet(events));
    BatchKeys(log.events, batch);
    forall i | 0 <= i < |events|
      ensures events[i].id !in EventIds(batch)
    {
      var ids := EventIds(batch);
      assert forall j :: 0 <= j < |batch| ==> batch[j] in batch && ids[j] == batch[j].id;
      assert events[i].id in IdSet(events);
    }
  }

  lemma BookingKeeps(log: Log, events: seq<Event>, k: nat, outbox: seq<OutboxRow>)
    requires Holds(log, events, k) && |outbox| == |log.outbox|
    requires forall i :: 0 <= i < |outbox| ==> outbox[i].event == log.outbox[i].event
    ensures Holds(log.(outbox := outbox), events, k)
  {
    KeptByBooking(log.outbox, outbox, IdSet(events));
  }

  lemma EmptyHolds(events: seq<Event>)
    ensures Holds(Log(map[], []), events, 0)
  {
  }
}
