/**
 * The transactional outbox (apps/api/src/app/ingest.ts): an event row and its outbox
 * row commit together, and a redelivered event id is dropped by its unique index.
 */
module Ingest {
  import opened PaymentState
  import opened Projection
  import opened Relay

  datatype Log = Log(events: map<EventId, Event>, outbox: seq<OutboxRow>)

  function NewRow(id: nat, e: Event): OutboxRow {
    OutboxRow(id, PaymentEvent, e, 0, false, false)
  }

  function IngestOne(log: Log, e: Event): Log {
    if e.id in log.events then log
    else Log(log.events[e.id := e], log.outbox + [NewRow(|log.outbox|, e)])
  }

  /** INSERT ... ON CONFLICT DO NOTHING over a whole batch: the first row of an id wins. */
  function InsertAll(events: map<EventId, Event>, batch: seq<Event>): (after: map<EventId, Event>)
    ensures forall id :: id in events ==> id in after && after[id] == events[id]
    decreases |batch|
  {
    if batch == [] then events
    else
      var e := batch[0];
      InsertAll(if e.id in events then events else events[e.id := e], batch[1..])
  }

  /** The events of the batch whose ids were new, tested by id, row by row. */
  function Fresh(events: map<EventId, Event>, batch: seq<Event>): seq<Event> {
    if batch == [] then []
    else
      var rest := Fresh(events, batch[1..]);
      if batch[0].id in events then rest else [batch[0]] + rest
  }

  function NewRows(first: nat, added: seq<Event>): (rows: seq<OutboxRow>)
    ensures |rows| == |added| && forall i :: 0 <= i < |rows| ==> rows[i] == NewRow(first + i, added[i])
  {
    seq(|added|, i requires 0 <= i < |added| => NewRow(first + i, added[i]))
  }

  function IngestBatch(log: Log, batch: seq<Event>): Log {
    Log(InsertAll(log.events, batch), log.outbox + NewRows(|log.outbox|, Fresh(log.events, batch)))
  }

  class EventLog {
    var events: map<EventId, Event>
    var outbox: seq<OutboxRow>

    ghost function Contents(): Log
      reads this
    {
      Log(events, outbox)
    }

    constructor ()
      ensures Contents() == Log(map[], [])
    {
      events, outbox := map[], [];
    }

    method Ingest(e: Event) returns (accepted: bool)
      modifies this
      ensures Contents() == IngestOne(old(Contents()), e) && accepted == (e.id !in old(events))
    {
      if e.id in events {
        return false;
      }
      events := events[e.id := e];
      outbox := outbox + [NewRow(|outbox|, e)];
      return true;
    }

    /** The multi-row INSERT, returning the ids it inserted. */
    method InsertBatch(batch: seq<Event>) returns (accepted: set<EventId>)
      modifies this`events
      ensures events == InsertAll(old(events), batch)
      ensures forall id :: id in accepted <==> id in EventIds(batch) && id !in old(events)
    {
      accepted := {};
      for i := 0 to |batch|
        invariant InsertAll(events, batch[i..]) == InsertAll(old(events), batch)
        invariant events.Keys == old(events).Keys + accepted && accepted !! old(events).Keys
        invariant forall id :: id in accepted <==> id in EventIds(batch[..i]) && id !in old(events)
      {
        assert batch[i..][0] == batch[i] && batch[i..][1..] == batch[i+1..];
        assert EventIds(batch[..i+1]) == EventIds(batch[..i]) + [batch[i].id];
        if batch[i].id !in events {
          accepted := accepted + {batch[i].id};
          events := events[batch[i].id := batch[i]];
        }
      }
      assert batch[|batch|..] == [] && batch[..|batch|] == batch;
    }

    /** Inserts the batch, then writes one outbox row for every event whose id was inserted. */
    method IngestMany(batch: seq<Event>) returns (accepted: set<EventId>)
      modifies this
      ensures Contents() == IngestBatch(old(Contents()), batch)
      ensures forall id :: id in accepted <==> id in EventIds(batch) && id !in old(events)
    {
      accepted := InsertBatch(batch);
      var added: seq<Event> := [];
      for i := 0 to |batch|
        invariant added + Fresh(old(events), batch[i..]) == Fresh(old(events), batch)
      {
        assert batch[i..][0] == batch[i] && batch[i..][1..] == batch[i+1..];
        assert EventIds(batch)[i] == batch[i].id;
        if batch[i].id in accepted {
          added := added + [batch[i]];
        }
      }
      assert batch[|batch|..] == [];
      outbox := outbox + NewRows(|outbox|, added);
    }
  }

  // ---- One outbox row per accepted event ----

  /** The event ids of the outbox, row by row. */
  function Ids(outbox: seq<OutboxRow>): (ids: seq<EventId>)
    ensures |ids| == |outbox| && forall i :: 0 <= i < |ids| ==> ids[i] == outbox[i].event.id
  {
    seq(|outbox|, i requires 0 <= i < |outbox| => outbox[i].event.id)
  }

  function EventIds(batch: seq<Event>): (ids: seq<EventId>)
    ensures |ids| == |batch| && forall i :: 0 <= i < |ids| ==> ids[i] == batch[i].id
  {
    seq(|batch|, i requires 0 <= i < |batch| => batch[i].id)
  }

  /** Every outbox row has its event, every event has an outbox row, and ids are what they should be. */
  ghost predicate Covered(log: Log) {
    && (forall id :: id in log.events ==> log.events[id].id == id)
    && (forall id :: id in log.events <==> id in Ids(log.outbox))
    && (forall i :: 0 <= i < |log.outbox| ==> log.outbox[i].id == i)
  }

  /** No two outbox rows carry the same event id. */
  predicate OneRowEach(log: Log) {
    Distinct(Ids(log.outbox))
  }

  /** No event id that is new to the log occurs twice in the batch. */
  predicate NoRepeatedNewId(events: map<EventId, Event>, batch: seq<Event>) {
    RepeatsOnlyHeld(events.Keys, EventIds(batch))
  }

  lemma DistinctAppend<T>(a: seq<T>, b: seq<T>)
    ensures Distinct(a + b) <==> Distinct(a) && Distinct(b) && forall x :: x in a ==> x !in b
  {
    var ab := a + b;
    if Distinct(ab) {
      assert forall i :: 0 <= i < |a| ==> a[i] == ab[i];
      assert forall j :: 0 <= j < |b| ==> b[j] == ab[|a| + j];
    }
    if Distinct(a) && Distinct(b) && forall x :: x in a ==> x !in b {
      forall i, j | 0 <= i < j < |ab|
        ensures ab[i] != ab[j]
      {
        if i < |a| <= j {
          assert a[i] in a && b[j - |a|] in b;
        }
      }
    }
  }

  /** The ids of a list that a set does not hold, in order. */
  function NewIds(held: set<EventId>, ids: seq<EventId>): seq<EventId> {
    if ids == [] then []
    else
      var rest := NewIds(held, ids[1..]);
      if ids[0] in held then rest else [ids[0]] + rest
  }

  lemma {:induction false} FreshIds(events: map<EventId, Event>, batch: seq<Event>)
    ensures EventIds(Fresh(events, batch)) == NewIds(events.Keys, EventIds(batch))
  {
    if batch != [] {
      FreshIds(events, batch[1..]);
      assert EventIds(batch)[1..] == EventIds(batch[1..]);
      var rest := Fresh(events, batch[1..]);
      assert EventIds([batch[0]] + rest) == [batch[0].id] + EventIds(rest);
    }
  }

  lemma {:induction false} NewIdsMembers(held: set<EventId>, ids: seq<EventId>)
    ensures forall id :: id in NewIds(held, ids) <==> id in ids && id !in held
  {
    if ids != [] {
      NewIdsMembers(held, ids[1..]);
      assert forall id :: id in ids <==> id == ids[0] || id in ids[1..];
    }
  }

  /** Repeats survive the filter, so it is duplicate-free exactly when the new ids were. */
  lemma {:induction false} NewIdsDistinct(held: set<EventId>, ids: seq<EventId>)
    ensures Distinct(NewIds(held, ids)) <==> RepeatsOnlyHeld(held, ids)
  {
    if ids != [] {
      var tail := ids[1..];
      NewIdsDistinct(held, tail);
      NewIdsMembers(held, tail);
      DistinctAppend([ids[0]], NewIds(held, tail));
      assert RepeatsOnlyHeld(held, ids) ==> RepeatsOnlyHeld(held, tail) by {
        assert forall i :: 0 <= i < |tail| ==> tail[i] == ids[i+1];
      }
      assert RepeatsOnlyHeld(held, ids) && ids[0] !in held ==> ids[0] !in tail by {
        assert forall i :: 0 <= i < |tail| ==> tail[i] == ids[i+1];
      }
      if RepeatsOnlyHeld(held, tail) && (ids[0] in held || ids[0] !in tail) {
        forall i, j | 0 <= i < j < |ids| && ids[i] == ids[j]
          ensures ids[i] in held
        {
          assert ids[j] == tail[j-1] && ids[j] in tail;
          if i > 0 {
            assert ids[i] == tail[i-1];
          }
        }
      }
    }
  }

  predicate RepeatsOnlyHeld(held: set<EventId>, ids: seq<EventId>) {
    forall i, j :: 0 <= i < j < |ids| && ids[i] == ids[j] ==> ids[i] in held
  }

  lemma BatchIds(log: Log, batch: seq<Event>)
    ensures Ids(IngestBatch(log, batch).outbox) == Ids(log.outbox) + NewIds(log.events.Keys, EventIds(batch))
  {
    FreshIds(log.events, batch);
  }

  lemma {:induction false} InsertedKeepTheirId(events: map<EventId, Event>, batch: seq<Event>)
    requires forall id :: id in events ==> events[id].id == id
    ensures forall id :: id in InsertAll(events, batch) ==> InsertAll(events, batch)[id].id == id
    decreases |batch|
  {
    if batch != [] {
      var e := batch[0];
      var next := if e.id in events then events else events[e.id := e];
      InsertedKeepTheirId(next, batch[1..]);
    }
  }

  /** Every batch, clean or not, leaves each event with at least one outbox row. */
  lemma BatchKeepsCovered(log: Log, batch: seq<Event>)
    requires Covered(log)
    ensures Covered(IngestBatch(log, batch))
  {
    InsertedKeepTheirId(log.events, batch);
    BatchIds(log, batch);
    NewIdsMembers(log.events.Keys, EventIds(batch));
    BatchKeys(log.events, batch);
  }

  lemma {:induction false} BatchKeys(events: map<EventId, Event>, batch: seq<Event>)
    ensures forall id :: id in InsertAll(events, batch) <==> id in events || id in EventIds(batch)
    decreases |batch|
  {
    if batch != [] {
      var e := batch[0];
      BatchKeys(if e.id in events then events else events[e.id := e], batch[1..]);
      assert EventIds(batch) == [e.id] + EventIds(batch[1..]);
    }
  }

  /**
   * A batch keeps "one outbox row per event" exactly when no new id occurs twice in it: the
   * filter after the insert tests ids, so both copies of a repeated new id pass it.
   */
  lemma BatchKeepsOneRowEach(log: Log, batch: seq<Event>)
    requires Covered(log) && OneRowEach(log)
    ensures OneRowEach(IngestBatch(log, batch)) <==> NoRepeatedNewId(log.events, batch)
  {
    BatchIds(log, batch);
    NewIdsMembers(log.events.Keys, EventIds(batch));
    NewIdsDistinct(log.events.Keys, EventIds(batch));
    DistinctAppend(Ids(log.outbox), NewIds(log.events.Keys, EventIds(batch)));
  }

  /** The smallest batch that writes two outbox rows for one event. */
  lemma RepeatInsideBatchGetsTwoRows(log: Log, e: Event)
    requires e.id !in log.events
    ensures var after := IngestBatch(log, [e, e]);
            && |after.outbox| == |log.outbox| + 2
            && after.outbox[|log.outbox|].event == after.outbox[|log.outbox| + 1].event == e
            && after.events.Keys == log.events.Keys + {e.id}
  {
    assert [e, e][1..] == [e] && [e][1..] == [];
    assert InsertAll(log.events, [e, e]) == InsertAll(log.events[e.id := e], [e]) == log.events[e.id := e];
    assert Fresh(log.events, [e]) == [e];
    assert Fresh(log.events, [e, e]) == [e, e];
  }

  /** With one row per event the outbox is what a drain requires of it. */
  lemma OutboxIsWellFormed(log: Log)
    requires Covered(log) && OneRowEach(log)
    ensures WellFormed(log.outbox)
  {
    forall a, b | a in log.outbox && b in log.outbox && a.event.id == b.event.id
      ensures a == b
    {
      var i, j :| 0 <= i < |log.outbox| && 0 <= j < |log.outbox| && log.outbox[i] == a && log.outbox[j] == b;
      assert Ids(log.outbox)[i] == Ids(log.outbox)[j];
    }
  }
}
