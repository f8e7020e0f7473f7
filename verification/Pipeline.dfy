/**
 * The event pipeline as a step system: ingests with redelivery, any number of drains at
 * once, handlers that fail before or after they commit, drains that crash between a
 * handler's commit and the outbox update, and abandonment sweeps, interleaved freely.
 */
module Pipeline {
  import opened Wrappers
  import opened PaymentState
  import opened Rollups
  import opened Projection
  import opened Relay
  import opened Ingest

  /** A drain's transaction: the rows it locked, as read, and the outcomes it holds in memory. */
  datatype DrainTx = DrainTx(claimed: map<nat, OutboxRow>, outcomes: Outcomes)

  /**
   * `booked` counts the deliveries booked per outbox row and `effects` lists, in order, the
   * events whose projection committed something; both only record the run.
   */
  datatype System = System(
    log: Log,
    db: Db,
    drains: map<nat, DrainTx>,
    booked: map<nat, nat>,
    effects: seq<EventId>)

  const START := System(Log(map[], []), EMPTY, map[], map[], [])

  datatype Fault = Runs | FailsBeforeCommit | FailsAfterCommit

  datatype Step =
    | IngestStep(event: Event)
    | BatchStep(batch: seq<Event>)
    | BeginDrain(drain: nat, rows: set<nat>)
    | HandleRow(drain: nat, row: nat, fault: Fault)
    | CommitDrain(drain: nat)
    | CrashDrain(drain: nat)
    | SweepStep(cutoff: int, ids: seq<PaymentId>)

  ghost predicate Locked(s: System, row: nat) {
    exists d :: d in s.drains && row in s.drains[d].claimed
  }

  /** SKIP LOCKED: a drain claims pending rows that no open drain holds. */
  ghost predicate Enabled(s: System, step: Step) {
    match step
    case IngestStep(_) => true
    case BatchStep(_) => true
    case BeginDrain(d, rows) =>
      d !in s.drains && forall i :: i in rows ==> i < |s.log.outbox| && Pending(s.log.outbox[i]) && !Locked(s, i)
    case HandleRow(d, i, _) => d in s.drains && i in s.drains[d].claimed && i !in s.drains[d].outcomes
    case CommitDrain(d) => d in s.drains && s.drains[d].outcomes.Keys == s.drains[d].claimed.Keys
    case CrashDrain(d) => d in s.drains
    case SweepStep(cutoff, ids) => ListsIdle(s.db, cutoff, ids)
  }

  /** What a handler call commits, and what its drain sees of it. */
  function HandlerCall(db: Db, r: OutboxRow, fault: Fault): (Db, Option<Failure>) {
    match fault
    case Runs => Deliver(db, r)
    case FailsBeforeCommit => (db, Some(Transient))
    case FailsAfterCommit => (Deliver(db, r).0, Some(Transient))
  }

  /** The UPDATE of the outbox from the attempts read when the row was claimed. */
  function BookClaim(outbox: seq<OutboxRow>, tx: DrainTx): (after: seq<OutboxRow>)
    ensures |after| == |outbox|
    ensures forall i :: 0 <= i < |outbox| ==>
              after[i] == if i in tx.outcomes && i in tx.claimed then Book(tx.claimed[i], tx.outcomes[i]) else outbox[i]
  {
    seq(|outbox|, i requires 0 <= i < |outbox| =>
      if i in tx.outcomes && i in tx.claimed then Book(tx.claimed[i], tx.outcomes[i]) else outbox[i])
  }

  function Count(booked: map<nat, nat>, i: nat): nat {
    if i in booked then booked[i] else 0
  }

  function Apply(s: System, step: Step): System
    requires Enabled(s, step)
  {
    match step
    case IngestStep(e) => s.(log := IngestOne(s.log, e))
    case BatchStep(batch) => s.(log := IngestBatch(s.log, batch))
    case BeginDrain(d, rows) => s.(drains := s.drains[d := DrainTx(map i | i in rows :: s.log.outbox[i], map[])])
    case HandleRow(d, i, fault) =>
      var tx := s.drains[d];
      var r := tx.claimed[i];
      var (after, failure) := HandlerCall(s.db, r, fault);
      s.(db := after,
         drains := s.drains[d := tx.(outcomes := tx.outcomes[i := failure])],
         effects := if after.processed == s.db.processed then s.effects else s.effects + [r.event.id])
    case CommitDrain(d) =>
      var tx := s.drains[d];
      s.(log := s.log.(outbox := BookClaim(s.log.outbox, tx)),
         drains := s.drains - {d},
         booked := map i | i in s.booked.Keys + tx.claimed.Keys ::
                     Count(s.booked, i) + if i in tx.claimed then 1 else 0)
    case CrashDrain(d) => s.(drains := s.drains - {d})
    case SweepStep(cutoff, ids) => s.(db := FlagAll(s.db, ids))
  }

  /** `states` is a run from START taking `steps`. */
  ghost predicate IsRun(states: seq<System>, steps: seq<Step>) {
    && |states| == |steps| + 1 && states[0] == START
    && forall i :: 0 <= i < |steps| ==> Enabled(states[i], steps[i]) && states[i+1] == Apply(states[i], steps[i])
  }

  // ---- The invariant ----

  /** A row counts its bookings, leaves the queue at the fifth failure, and is sent only once projected. */
  ghost predicate RowOk(r: OutboxRow, booked: nat, processed: set<EventId>) {
    && r.topic == PaymentEvent
    && r.attempts == booked <= MAX_ATTEMPTS
    && (r.deadLettered <==> r.attempts == MAX_ATTEMPTS && !r.sent)
    && (r.sent ==> r.event.id in processed)
  }

  ghost predicate RowsOk(s: System) {
    forall i :: 0 <= i < |s.log.outbox| ==> RowOk(s.log.outbox[i], Count(s.booked, i), s.db.processed)
  }

  /** An open drain's rows are still as it read them, and an acknowledged row is projected. */
  ghost predicate TxOk(s: System, tx: DrainTx) {
    && tx.outcomes.Keys <= tx.claimed.Keys
    && (forall i :: i in tx.claimed ==>
          i < |s.log.outbox| && tx.claimed[i] == s.log.outbox[i] && Pending(s.log.outbox[i]))
    && (forall i :: i in tx.outcomes && tx.outcomes[i].None? ==> tx.claimed[i].event.id in s.db.processed)
  }

  ghost predicate DrainsOk(s: System) {
    && (forall d :: d in s.drains ==> TxOk(s, s.drains[d]))
    && (forall d, e :: d in s.drains && e in s.drains && d != e ==>
          s.drains[d].claimed.Keys !! s.drains[e].claimed.Keys)
  }

  /** The marker is exactly the list of committed effects, none of them repeated. */
  ghost predicate EffectsOk(s: System) {
    && Distinct(s.effects)
    && (forall id :: id in s.effects <==> id in s.db.processed)
    && s.db.processed <= s.log.events.Keys
  }

  ghost predicate Inv(s: System) {
    && Covered(s.log)
    && RowsOk(s)
    && DrainsOk(s)
    && EffectsOk(s)
    && Consistent(s.db)
    && forall i :: i in s.booked ==> i < |s.log.outbox|
  }

  /** A projection that leaves the marker alone leaves everything alone. */
  lemma NoMarkNoEffect(db: Db, e: Event)
    ensures Project(db, e).0.processed == db.processed ==> Project(db, e).0 == db
    ensures Project(db, e).0.processed != db.processed ==>
              e.id !in db.processed && Project(db, e).0.processed == db.processed + {e.id}
    ensures Project(db, e).1 != NotFound ==> e.id in Project(db, e).0.processed
  {
  }

  lemma StartIsOk()
    ensures Inv(START) && OneRowEach(START.log)
  {
    EmptyIsConsistent();
  }

  lemma CoverRow(log: Log, i: nat)
    requires Covered(log) && i < |log.outbox|
    ensures log.outbox[i].event.id in log.events && log.outbox[i].id == i
  {
    assert Ids(log.outbox)[i] == log.outbox[i].event.id;
  }

  lemma HandlerCallEffect(db: Db, r: OutboxRow, fault: Fault)
    requires Consistent(db) && r.topic == PaymentEvent
    ensures var (after, failure) := HandlerCall(db, r, fault);
            && Consistent(after)
            && (after.processed == db.processed
                || (r.event.id !in db.processed && after.processed == db.processed + {r.event.id}))
            && (failure.None? ==> r.event.id in after.processed)
  {
    ProjectKeepsConsistent(db, r.event);
    NoMarkNoEffect(db, r.event);
  }

  lemma HandleKeepsInv(s: System, d: nat, i: nat, fault: Fault)
    requires Inv(s) && Enabled(s, HandleRow(d, i, fault))
    ensures Inv(Apply(s, HandleRow(d, i, fault)))
  {
    hide Consistent, HandlerCall, Covered, Project;
    var next := Apply(s, HandleRow(d, i, fault));
    var r := s.drains[d].claimed[i];
    assert r == s.log.outbox[i] by { assert TxOk(s, s.drains[d]); }
    assert r.topic == PaymentEvent by { assert RowOk(r, Count(s.booked, i), s.db.processed); }
    CoverRow(s.log, i);
    HandlerCallEffect(s.db, r, fault);
    assert EffectsOk(next) by { HandleKeepsEffects(s, next, r.event.id); }
    assert RowsOk(next) by { MoreProcessedKeepsRows(s, next); }
    assert DrainsOk(next) by { HandleKeepsDrains(s, next, d, i); }
  }

  lemma HandleKeepsEffects(s: System, next: System, id: EventId)
    requires EffectsOk(s) && next.log == s.log && id in s.log.events
    requires next.db.processed == s.db.processed ==> next.effects == s.effects
    requires next.db.processed != s.db.processed ==>
               id !in s.db.processed && next.db.processed == s.db.processed + {id} && next.effects == s.effects + [id]
    ensures EffectsOk(next)
  {
    if next.db.processed != s.db.processed {
      assert id !in s.effects;
    }
  }

  lemma MoreProcessedKeepsRows(s: System, next: System)
    requires RowsOk(s) && next.log == s.log && next.booked == s.booked && s.db.processed <= next.db.processed
    ensures RowsOk(next)
  {
    forall k | 0 <= k < |next.log.outbox|
      ensures RowOk(next.log.outbox[k], Count(next.booked, k), next.db.processed)
    {
      assert RowOk(s.log.outbox[k], Count(s.booked, k), s.db.processed);
    }
  }

  lemma HandleKeepsDrains(s: System, next: System, d: nat, i: nat)
    requires DrainsOk(s) && d in s.drains && i in s.drains[d].claimed
    requires next.log == s.log && s.db.processed <= next.db.processed && next.drains.Keys == s.drains.Keys
    requires forall x :: x in s.drains && x != d ==> next.drains[x] == s.drains[x]
    requires next.drains[d].claimed == s.drains[d].claimed
    requires i in next.drains[d].outcomes
    requires next.drains[d].outcomes == s.drains[d].outcomes[i := next.drains[d].outcomes[i]]
    requires next.drains[d].outcomes[i].None? ==> s.drains[d].claimed[i].event.id in next.db.processed
    ensures DrainsOk(next)
  {
    hide TxOk;
    forall x | x in next.drains
      ensures TxOk(next, next.drains[x])
    {
      assert TxOk(s, s.drains[x]);
      if x != d {
        MoreProcessedKeepsTx(s, next, s.drains[x]);
      } else {
        HandledTx(s, next, s.drains[d], next.drains[d], i);
      }
    }
  }

  lemma MoreProcessedKeepsTx(s: System, next: System, tx: DrainTx)
    requires TxOk(s, tx) && next.log == s.log && s.db.processed <= next.db.processed
    ensures TxOk(next, tx)
  {
  }

  lemma HandledTx(s: System, next: System, tx: DrainTx, after: DrainTx, i: nat)
    requires TxOk(s, tx) && next.log == s.log && s.db.processed <= next.db.processed
    requires i in tx.claimed && i in after.outcomes && after.claimed == tx.claimed
    requires after.outcomes == tx.outcomes[i := after.outcomes[i]]
    requires after.outcomes[i].None? ==> tx.claimed[i].event.id in next.db.processed
    ensures TxOk(next, after)
  {
  }

  lemma BookKeepsRow(r: OutboxRow, booked: nat, processed: set<EventId>, failure: Option<Failure>)
    requires RowOk(r, booked, processed) && Pending(r) && (failure.None? ==> r.event.id in processed)
    ensures RowOk(Book(r, failure), booked + 1, processed)
    ensures Book(r, failure).id == r.id && Book(r, failure).event == r.event
  {
  }

  lemma CommitKeepsRows(s: System, d: nat)
    requires RowsOk(s) && Enabled(s, CommitDrain(d)) && TxOk(s, s.drains[d])
    ensures RowsOk(Apply(s, CommitDrain(d)))
    ensures var before, after := s.log.outbox, Apply(s, CommitDrain(d)).log.outbox;
            |after| == |before| && forall k :: 0 <= k < |before| ==>
                                     after[k].id == before[k].id && after[k].event == before[k].event
  {
    var next := Apply(s, CommitDrain(d));
    var tx := s.drains[d];
    forall k | 0 <= k < |next.log.outbox|
      ensures RowOk(next.log.outbox[k], Count(next.booked, k), next.db.processed)
      ensures next.log.outbox[k].id == s.log.outbox[k].id && next.log.outbox[k].event == s.log.outbox[k].event
    {
      assert RowOk(s.log.outbox[k], Count(s.booked, k), s.db.processed);
      if k in tx.claimed {
        BookKeepsRow(s.log.outbox[k], Count(s.booked, k), s.db.processed, tx.outcomes[k]);
      }
    }
  }

  lemma CommitKeepsInv(s: System, d: nat)
    requires Inv(s) && Enabled(s, CommitDrain(d))
    ensures Inv(Apply(s, CommitDrain(d)))
  {
    var next := Apply(s, CommitDrain(d));
    assert TxOk(s, s.drains[d]);
    CommitKeepsRows(s, d);
    assert Ids(next.log.outbox) == Ids(s.log.outbox);
    CommitKeepsDrains(s, next, d);
  }

  lemma CommitKeepsDrains(s: System, next: System, d: nat)
    requires DrainsOk(s) && d in s.drains && next.db == s.db && next.drains == s.drains - {d}
    requires next.log.outbox == BookClaim(s.log.outbox, s.drains[d])
    ensures DrainsOk(next)
  {
    forall x | x in next.drains
      ensures TxOk(next, next.drains[x])
    {
      assert TxOk(s, s.drains[x]);
      assert s.drains[x].claimed.Keys !! s.drains[d].claimed.Keys;
      forall i | i in next.drains[x].claimed
        ensures next.log.outbox[i] == s.log.outbox[i]
      {
      }
    }
  }

  lemma BeginKeepsInv(s: System, d: nat, rows: set<nat>)
    requires Inv(s) && Enabled(s, BeginDrain(d, rows))
    ensures Inv(Apply(s, BeginDrain(d, rows)))
  {
    var next := Apply(s, BeginDrain(d, rows));
    forall x | x in next.drains
      ensures TxOk(next, next.drains[x])
      ensures x != d ==> next.drains[x].claimed.Keys !! next.drains[d].claimed.Keys
    {
      if x != d {
        assert TxOk(s, s.drains[x]);
        forall i | i in s.drains[x].claimed
          ensures i !in rows
        {
          assert Locked(s, i);
        }
      }
    }
  }

  /** Appending outbox rows disturbs neither the rows nor the drains. */
  lemma GrowKeepsInv(s: System, log: Log)
    requires Inv(s) && Covered(log) && s.log.events.Keys <= log.events.Keys
    requires |s.log.outbox| <= |log.outbox| && log.outbox[..|s.log.outbox|] == s.log.outbox
    requires forall i :: |s.log.outbox| <= i < |log.outbox| ==> log.outbox[i] == NewRow(i, log.outbox[i].event)
    ensures Inv(s.(log := log))
  {
    var next := s.(log := log);
    forall i | 0 <= i < |log.outbox|
      ensures RowOk(log.outbox[i], Count(s.booked, i), s.db.processed)
    {
      if i < |s.log.outbox| {
        assert RowOk(s.log.outbox[i], Count(s.booked, i), s.db.processed);
        assert log.outbox[i] == log.outbox[..|s.log.outbox|][i];
      }
    }
    forall d | d in s.drains
      ensures TxOk(next, s.drains[d])
    {
      assert TxOk(s, s.drains[d]);
      forall i | i in s.drains[d].claimed
        ensures log.outbox[i] == s.log.outbox[i]
      {
        assert log.outbox[i] == log.outbox[..|s.log.outbox|][i];
      }
    }
  }

  lemma IngestIsBatch(log: Log, e: Event)
    ensures IngestOne(log, e) == IngestBatch(log, [e])
  {
    assert [e][1..] == [];
    assert InsertAll(log.events, [e]) == if e.id in log.events then log.events else log.events[e.id := e];
    assert Fresh(log.events, [e]) == if e.id in log.events then [] else [e];
  }

  lemma BatchKeepsInv(s: System, batch: seq<Event>)
    requires Inv(s)
    ensures Inv(s.(log := IngestBatch(s.log, batch)))
  {
    BatchKeepsCovered(s.log, batch);
    BatchKeys(s.log.events, batch);
    GrowKeepsInv(s, IngestBatch(s.log, batch));
  }

  lemma SweepKeepsInv(s: System, cutoff: int, ids: seq<PaymentId>)
    requires Inv(s) && ListsIdle(s.db, cutoff, ids)
    ensures Inv(s.(db := FlagAll(s.db, ids)))
  {
    SweepKeepsConsistent(s.db, cutoff, ids);
    var next := s.(db := FlagAll(s.db, ids));
    forall d | d in s.drains
      ensures TxOk(next, s.drains[d])
    {
      assert TxOk(s, s.drains[d]);
    }
  }

  lemma StepKeepsInv(s: System, step: Step)
    requires Inv(s) && Enabled(s, step)
    ensures Inv(Apply(s, step))
  {
    match step
    case IngestStep(e) =>
      IngestIsBatch(s.log, e);
      BatchKeepsInv(s, [e]);
    case BatchStep(batch) => BatchKeepsInv(s, batch);
    case BeginDrain(d, rows) => BeginKeepsInv(s, d, rows);
    case HandleRow(d, i, fault) => HandleKeepsInv(s, d, i, fault);
    case CommitDrain(d) => CommitKeepsInv(s, d);
    case CrashDrain(d) => CrashKeepsInv(s, d);
    case SweepStep(cutoff, ids) => SweepKeepsInv(s, cutoff, ids);
  }

  lemma CrashKeepsInv(s: System, d: nat)
    requires Inv(s) && d in s.drains
    ensures Inv(s.(drains := s.drains - {d}))
  {
    var next := s.(drains := s.drains - {d});
    forall x | x in next.drains
      ensures TxOk(next, next.drains[x])
    {
      assert TxOk(s, s.drains[x]);
    }
  }

  /**
   * At-least-once delivery, at-most-once effect, zero drift: every state of every run keeps
   * the invariant.
   */
  lemma {:induction false} EveryRunKeepsInv(states: seq<System>, steps: seq<Step>, n: nat)
    requires IsRun(states, steps) && n < |states|
    ensures Inv(states[n])
  {
    if n == 0 {
      StartIsOk();
    } else {
      EveryRunKeepsInv(states, steps, n - 1);
      StepKeepsInv(states[n-1], steps[n-1]);
    }
  }

  /** Every batch of the run is free of repeated new ids. */
  ghost predicate CleanBatches(states: seq<System>, steps: seq<Step>)
    requires |states| == |steps| + 1
  {
    forall i :: 0 <= i < |steps| && steps[i].BatchStep? ==> NoRepeatedNewId(states[i].log.events, steps[i].batch)
  }

  /** A run gives every accepted event exactly one outbox row exactly as long as its batches are clean. */
  lemma {:induction false} OneRowPerEvent(states: seq<System>, steps: seq<Step>)
    requires IsRun(states, steps)
    ensures (forall n :: 0 <= n < |states| ==> OneRowEach(states[n].log)) <==> CleanBatches(states, steps)
  {
    if CleanBatches(states, steps) {
      forall n | 0 <= n < |states|
        ensures OneRowEach(states[n].log)
      {
        CleanRunHasOneRow(states, steps, n);
      }
    } else {
      var i :| 0 <= i < |steps| && steps[i].BatchStep? && !NoRepeatedNewId(states[i].log.events, steps[i].batch);
      EveryRunKeepsInv(states, steps, i);
      if OneRowEach(states[i].log) {
        BatchKeepsOneRowEach(states[i].log, steps[i].batch);
        assert !OneRowEach(states[i+1].log);
      }
    }
  }

  lemma {:induction false} CleanRunHasOneRow(states: seq<System>, steps: seq<Step>, n: nat)
    requires IsRun(states, steps) && CleanBatches(states, steps) && n < |states|
    ensures OneRowEach(states[n].log)
  {
    if n == 0 {
      StartIsOk();
    } else {
      CleanRunHasOneRow(states, steps, n - 1);
      EveryRunKeepsInv(states, steps, n - 1);
      StepKeepsOneRow(states[n-1], steps[n-1]);
    }
  }

  lemma StepKeepsOneRow(s: System, step: Step)
    requires Inv(s) && Enabled(s, step) && OneRowEach(s.log)
    requires step.BatchStep? ==> NoRepeatedNewId(s.log.events, step.batch)
    ensures OneRowEach(Apply(s, step).log)
  {
    match step
    case IngestStep(e) =>
      IngestIsBatch(s.log, e);
      BatchKeepsOneRowEach(s.log, [e]);
    case BatchStep(batch) => BatchKeepsOneRowEach(s.log, batch);
    case CommitDrain(d) =>
      assert TxOk(s, s.drains[d]);
      CommitKeepsRows(s, d);
      assert Ids(Apply(s, step).log.outbox) == Ids(s.log.outbox);
    case _ =>
  }

  /** What the invariant says to an operator, about any state of any run. */
  lemma DeliveryGuarantees(states: seq<System>, steps: seq<Step>, n: nat)
    requires IsRun(states, steps) && n < |states|
    ensures var s := states[n];
            && Distinct(s.effects)
            && (forall i :: 0 <= i < |s.log.outbox| ==>
                  var r := s.log.outbox[i];
                  && r.attempts == Count(s.booked, i) <= MAX_ATTEMPTS
                  && (r.sent ==> r.event.id in s.effects)
                  && (Count(s.booked, i) == MAX_ATTEMPTS ==> !Pending(r))
                  && (r.deadLettered ==> Count(s.booked, i) == MAX_ATTEMPTS))
            && s.db.rollup == Recompute(s.db.payments)
            && (forall id :: id in s.db.payments ==>
                  var p, live := s.db.payments[id], Live(Rows(s.db, id));
                  && IsPath(live, p.state)
                  && Entries(live, Captured) == (if IsTerminal(p.state) then 1 else 0)
                  && p.attemptIndex == 1 + Retries(live))
  {
    EveryRunKeepsInv(states, steps, n);
    var s := states[n];
    MatchIsRecompute(s.db.rollup, s.db.payments);
    forall i | 0 <= i < |s.log.outbox|
      ensures RowOk(s.log.outbox[i], Count(s.booked, i), s.db.processed)
    {
    }
    forall id | id in s.db.payments
      ensures Entries(Live(Rows(s.db, id)), Captured) == (if IsTerminal(s.db.payments[id].state) then 1 else 0)
    {
      CapturedAtMostOnce(Live(Rows(s.db, id)), s.db.payments[id].state);
    }
  }
}
