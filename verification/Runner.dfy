/**
 * The replay runner's emitter (apps/api/src/sim/runner.ts:269-340): a cursor over the sorted
 * events, batches with a cap ingested in chunks, chunks that may fail, and a clock held back
 * whenever the emitter falls behind. Each method is a run of the replay's steps.
 */
module Runner {
  import opened Wrappers
  import opened Projection
  import opened Ingest
  import opened SimulatedClock
  import opened StoredPrefix
  import opened ReplayRuns
  import Pipeline

  const MAX_EVENTS_PER_TICK := 3000

  /** A chunk whose ingestion throws, before or after its transaction committed. */
  datatype Fault = Fault(chunk: nat, committed: bool)

  datatype Emission = Emission(emitted: nat, heldAt: Option<int>)

  function Chunks(due: nat): nat {
    (due + INGEST_CHUNK - 1) / INGEST_CHUNK
  }

  /** The fault hits a chunk of a batch of this size. */
  predicate Hits(fault: Option<Fault>, due: nat) {
    fault.Some? && fault.value.chunk < Chunks(due)
  }

  function FateOf(fault: Option<Fault>, chunk: nat): Fate {
    if fault.Some? && fault.value.chunk == chunk then (if fault.value.committed then ReplyLost else RolledBack)
    else Committed
  }

  /** Chunk by chunk, up to the one that throws. */
  function EmitSteps(due: nat, fault: Option<Fault>): seq<Step> {
    seq(if Hits(fault, due) then fault.value.chunk + 1 else Chunks(due), (chunk: nat) => Chunk(FateOf(fault, chunk)))
  }

  /** A tick that nothing interrupts. */
  function TickSteps(due: nat, readMs: real, doneMs: real, fault: Option<Fault>): seq<Step> {
    [BeginTick(MAX_EVENTS_PER_TICK, readMs)] + EmitSteps(due, fault)
    + if Hits(fault, due) then [] else [EndTick(doneMs)]
  }

  class Replay {
    const events: seq<Event>
    const store: EventLog
    const clock: SimClock
    var cursor: nat

    ghost predicate Mirrors(w: World)
      reads this, store, clock
    {
      store.Contents() == w.sys.log && clock.Contents() == w.clock && cursor == w.cursor
    }

    constructor (events: seq<Event>, store: EventLog, clock: SimClock)
      ensures this.events == events && this.store == store && this.clock == clock && cursor == 0
    {
      this.events, this.store, this.clock, cursor := events, store, clock, 0;
    }

    /** How many events are due: the cap, or fewer because the next one is not due yet. */
    method CountDue(nowMs: real, cap: nat) returns (n: nat)
      ensures n == Due(events, cursor, nowMs, cap)
    {
      n := 0;
      while cursor + n < |events| && n < cap
        invariant n <= cap
        invariant Due(events, cursor, nowMs, cap) == n + Due(events, cursor + n, nowMs, cap - n)
      {
        if events[cursor + n].occurredAt as real > nowMs {
          break;
        }
        n := n + 1;
      }
    }

    /** The due events, chunk by chunk, each chunk one transaction; false when one of them throws. */
    method IngestChunks(due: nat, fault: Option<Fault>, ghost w: World) returns (done: bool)
      requires Inv(events, w) && Mirrors(w)
      requires w.batch.Some? && w.batch.value.due == due && w.batch.value.done == 0
      modifies store
      ensures done <==> !Hits(fault, due)
      ensures CanRun(events, w, EmitSteps(due, fault))
      ensures var after := After(events, w, EmitSteps(due, fault));
              && Inv(events, after) && Mirrors(after)
              && after.realMs == w.realMs
              && after.batch == if done then Some(w.batch.value.(done := due)) else None
    {
      hide Inv, Enabled, Apply, IngestBatch;
      var i, chunk := 0, 0;
      ghost var taken: seq<Step>, at := [], w;
      while i < due
        invariant i == chunk * INGEST_CHUNK || (i >= due && chunk == Chunks(due))
        invariant i >= due ==> chunk == Chunks(due)
        invariant fault.None? || fault.value.chunk >= chunk
        invariant taken == seq(chunk, (c: nat) => Chunk(FateOf(fault, c)))
        invariant CanRun(events, w, taken) && at == After(events, w, taken) && Inv(events, at) && Mirrors(at)
        invariant at.realMs == w.realMs
        invariant at.batch == Some(w.batch.value.(done := if i <= due then i else due))
      {
        var end := if i + INGEST_CHUNK <= due then i + INGEST_CHUNK else due;
        var fate := FateOf(fault, chunk);
        ChunkRuns(at, fate, end);
        StepKeepsInv(events, at, Chunk(fate));
        OneMoreStep(events, w, taken, Chunk(fate));
        if fate != RolledBack {
          var _ := store.IngestMany(events[cursor + i..cursor + end]);
        }
        at := Apply(events, at, Chunk(fate));
        taken := taken + [Chunk(fate)];
        if fate != Committed {
          assert taken == EmitSteps(due, fault);
          return false;
        }
        i, chunk := i + INGEST_CHUNK, chunk + 1;
      }
      assert taken == EmitSteps(due, fault);
      return true;
    }

    /** What one chunk does. */
    lemma ChunkRuns(w: World, fate: Fate, end: nat)
      requires Inv(events, w) && w.batch.Some? && w.batch.value.done < w.batch.value.due
      requires end == ChunkEnd(w.batch.value)
      ensures Enabled(events, w, Chunk(fate)) && w.cursor + w.batch.value.done <= w.cursor + end <= |events|
      ensures var next := Apply(events, w, Chunk(fate));
              && next.clock == w.clock && next.cursor == w.cursor && next.realMs == w.realMs
              && next.sys.log == (if fate == RolledBack then w.sys.log
                                  else IngestBatch(w.sys.log, events[w.cursor + w.batch.value.done..w.cursor + end]))
              && next.batch == if fate == Committed then Some(w.batch.value.(done := end)) else None
    {
      hide Holds, Pipeline.Inv;
    }

    /**
     * Emits what is due. The cursor moves over the whole batch unless one of its chunks throws; the
     * clock is to be held exactly when the cap bit and more is due.
     */
    method EmitBatch(nowMs: real, cap: nat, fault: Option<Fault>, ghost w: World) returns (emission: Option<Emission>)
      requires Inv(events, w) && Mirrors(w)
      requires w.batch == Some(Batch(nowMs, cap, Due(events, cursor, nowMs, cap), 0))
      modifies this`cursor, store
      ensures var due := Due(events, old(cursor), nowMs, cap);
              && (emission.None? <==> Hits(fault, due))
              && cursor == old(cursor) + (if emission.Some? then due else 0) <= |events|
              && (emission.Some? ==>
                    && emission.value.emitted == due
                    && (emission.value.heldAt.Some?
                        <==> due == cap && cursor < |events| && events[cursor].occurredAt as real <= nowMs)
                    && emission.value.heldAt == HeldAt(events, cursor, w.batch.value))
              && CanRun(events, w, EmitSteps(due, fault))
              && var after := After(events, w, EmitSteps(due, fault));
                 && Inv(events, after) && store.Contents() == after.sys.log && clock.Contents() == after.clock
                 && after.cursor == old(cursor) && after.realMs == w.realMs
                 && after.batch == if emission.Some? then Some(w.batch.value.(done := due)) else None
    {
      hide Enabled, Apply, Holds, Pipeline.Inv, Due;
      DueMeans(events, cursor, nowMs, cap);
      var n := CountDue(nowMs, cap);
      if n == 0 {
        assert EmitSteps(0, fault) == [];
        return Some(Emission(0, None));
      }
      var done := IngestChunks(n, fault, w);
      if !done {
        return None;
      }
      cursor := cursor + n;
      var stillDue := cursor < |events| && events[cursor].occurredAt as real <= nowMs;
      emission := Some(Emission(n, if n == cap && stillDue then Some(events[cursor-1].occurredAt) else None));
    }

    /**
     * One tick's emit-and-hold: the clock is read at `readMs`, and the emission takes until
     * `doneMs`. It is a run of the replay's steps; if the clock is held, every event strictly
     * earlier than it is stored; if not, every event up to the instant that was read is, and the
     * clock, which ran on, is not ahead of the data exactly when the next event has not come yet.
     */
    method Tick(readMs: real, doneMs: real, fault: Option<Fault>, ghost w: World) returns (ok: bool)
      requires Inv(events, w) && Mirrors(w) && w.batch.None? && w.realMs <= readMs <= doneMs
      modifies this`cursor, store, clock
      ensures var nowMs := old(clock.NowMs(readMs));
              var due := Due(events, old(cursor), nowMs, MAX_EVENTS_PER_TICK);
              var steps := TickSteps(due, readMs, doneMs, fault);
              && (ok <==> !Hits(fault, due))
              && cursor == old(cursor) + (if ok then due else 0) <= |events|
              && CanRun(events, w, steps)
              && Inv(events, After(events, w, steps)) && Mirrors(After(events, w, steps))
              && var b := Batch(nowMs, MAX_EVENTS_PER_TICK, due, due);
                 && (ok && HeldAt(events, cursor, b).Some? ==> Covers(events, cursor, clock.NowMs(doneMs)))
                 && (!ok || HeldAt(events, cursor, b).None? ==> clock.Contents() == old(clock.Contents()))
                 && (ok && HeldAt(events, cursor, b).None? ==>
                       && (forall i :: 0 <= i < |events| && events[i].occurredAt as real <= nowMs ==> i < cursor)
                       && var k := Stored(store.Contents(), events);
                          k <= |events|
                          && (Covers(events, k, clock.NowMs(doneMs))
                              <==> k == |events| || events[k].occurredAt as real >= clock.NowMs(doneMs)))
    {
      hide Inv, Enabled, Apply, Due, Covers, EmitSteps, Reading, Hits, JumpedTo, Stored;
      var nowMs := clock.NowMs(readMs);
      ghost var begin := BeginTick(MAX_EVENTS_PER_TICK, readMs);
      BeginRuns(w, readMs);
      OneMoreStep(events, w, [], begin);
      ghost var began := Apply(events, w, begin);
      ghost var due := began.batch.value.due;
      var emission := EmitBatch(nowMs, MAX_EVENTS_PER_TICK, fault, began);
      RunsJoin(events, w, [begin], EmitSteps(due, fault));
      ghost var emitted := [begin] + EmitSteps(due, fault);
      if emission.None? {
        assert TickSteps(due, readMs, doneMs, fault) == emitted;
        return false;
      }
      ghost var full := After(events, w, emitted);
      EndRuns(full, doneMs);
      OneMoreStep(events, w, emitted, EndTick(doneMs));
      assert TickSteps(due, readMs, doneMs, fault) == emitted + [EndTick(doneMs)];
      if emission.value.heldAt.Some? {
        clock.JumpTo(emission.value.heldAt.value as real, doneMs);
      }
      return true;
    }

    lemma BeginRuns(w: World, readMs: real)
      requires Inv(events, w) && w.batch.None? && w.realMs <= readMs
      ensures var begin := BeginTick(MAX_EVENTS_PER_TICK, readMs);
              && Enabled(events, w, begin)
              && var began := Apply(events, w, begin);
                 && Inv(events, began) && began.sys == w.sys && began.cursor == w.cursor && began.clock == w.clock
                 && began.realMs == readMs
                 && began.batch == Some(Batch(Reading(w.clock, readMs), MAX_EVENTS_PER_TICK,
                                              Due(events, w.cursor, Reading(w.clock, readMs), MAX_EVENTS_PER_TICK), 0))
    {
      hide Inv, Due, Reading;
      StepKeepsInv(events, w, BeginTick(MAX_EVENTS_PER_TICK, readMs));
    }

    lemma EndRuns(w: World, doneMs: real)
      requires Inv(events, w) && w.batch.Some? && w.batch.value.done == w.batch.value.due && w.realMs <= doneMs
      ensures Enabled(events, w, EndTick(doneMs))
      ensures var next := Apply(events, w, EndTick(doneMs));
              var b := w.batch.value;
              var held := HeldAt(events, next.cursor, b);
              && Inv(events, next) && next.sys == w.sys && next.cursor == w.cursor + b.due
              && next.clock == (if held.Some? then JumpedTo(w.clock, held.value as real, doneMs) else w.clock)
              && (held.Some? ==> Covers(events, next.cursor, Reading(next.clock, doneMs)))
              && (held.None? ==>
                    && (forall i :: 0 <= i < |events| && events[i].occurredAt as real <= b.nowMs ==> i < next.cursor)
                    && var k, now := Stored(next.sys.log, events), Reading(next.clock, doneMs);
                       && k <= |events|
                       && (Covers(events, k, now) <==> k == |events| || events[k].occurredAt as real >= now))
    {
      hide Inv, Due, Reading, JumpedTo, Covers, HeldAt, Stored;
      StepKeepsInv(events, w, EndTick(doneMs));
      TickHolds(events, w, doneMs);
    }
  }
}
