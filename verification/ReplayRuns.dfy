/**
 * The replay beside the running pipeline (apps/api/src/sim/runner.ts:269-340): a tick reads the
 * clock, emits what is due in chunks that may fail, and holds the clock back when the cap bit.
 * Between any two of those steps the pipeline may take steps of its own - drains, crashes, sweeps,
 * the gateway's events - and the clock may be started, paused or sped up.
 */
module ReplayRuns {
  import opened Wrappers
  import opened Projection
  import opened Ingest
  import opened SimulatedClock
  import opened StoredPrefix
  import Pipeline

  const INGEST_CHUNK := 500

  /** An emission under way: what the clock read, the cap, how many events are due and how many are ingested. */
  datatype Batch = Batch(nowMs: real, cap: nat, due: nat, done: nat)

  /** `realMs` is the last instant at which the clock was used. */
  datatype World = World(sys: Pipeline.System, cursor: nat, clock: Clock, batch: Option<Batch>, realMs: real)

  /** A chunk commits, or throws before its transaction commits, or after. */
  datatype Fate = Committed | RolledBack | ReplyLost

  datatype Step =
    | Beside(step: Pipeline.Step)
    | BeginTick(cap: nat, at: real)
    | Chunk(fate: Fate)
    | EndTick(at: real)
    | StartClock(at: real)
    | PauseClock(at: real)
    | SetSpeed(speed: real, at: real)

  /** How many events from the cursor on have come, up to the cap. */
  function Due(events: seq<Event>, cursor: nat, nowMs: real, cap: nat): nat
    decreases cap
  {
    if cap == 0 || cursor >= |events| || events[cursor].occurredAt as real > nowMs then 0
    else 1 + Due(events, cursor + 1, nowMs, cap - 1)
  }

  function ChunkEnd(b: Batch): nat {
    if b.done + INGEST_CHUNK <= b.due then b.done + INGEST_CHUNK else b.due
  }

  /** With the cursor moved over the batch: the last event's time, when the cap bit and more is due. */
  function HeldAt(events: seq<Event>, cursor: nat, b: Batch): Option<int> {
    if 0 < b.due == b.cap && 0 < cursor < |events| && events[cursor].occurredAt as real <= b.nowMs
    then Some(events[cursor-1].occurredAt) else None
  }

  /** What the pipeline does besides the replay brings no event of the dataset. */
  predicate IsForeign(step: Pipeline.Step, events: seq<Event>) {
    match step
    case IngestStep(e) => Foreign([e], events)
    case BatchStep(batch) => Foreign(batch, events)
    case _ => true
  }

  ghost predicate Enabled(events: seq<Event>, w: World, step: Step) {
    match step
    case Beside(s) => Pipeline.Enabled(w.sys, s) && IsForeign(s, events)
    case BeginTick(cap, at) => w.batch.None? && cap > 0 && w.realMs <= at
    case Chunk(_) => w.batch.Some? && w.batch.value.done < w.batch.value.due && w.cursor + w.batch.value.due <= |events|
    case EndTick(at) => w.batch.Some? && w.batch.value.done >= w.batch.value.due && w.realMs <= at
    case StartClock(at) => w.realMs <= at
    case PauseClock(at) => w.realMs <= at
    case SetSpeed(speed, at) => speed > 0.0 && w.realMs <= at
  }

  function Apply(events: seq<Event>, w: World, step: Step): World
    requires Enabled(events, w, step)
  {
    match step
    case Beside(s) => w.(sys := Pipeline.Apply(w.sys, s))
    case BeginTick(cap, at) =>
      var now := Reading(w.clock, at);
      w.(batch := Some(Batch(now, cap, Due(events, w.cursor, now, cap), 0)), realMs := at)
    case Chunk(fate) =>
      var b := w.batch.value;
      var chunk := events[w.cursor + b.done..w.cursor + ChunkEnd(b)];
      w.(sys := if fate == RolledBack then w.sys else Pipeline.Apply(w.sys, Pipeline.BatchStep(chunk)),
         batch := if fate == Committed then Some(b.(done := ChunkEnd(b))) else None)
    case EndTick(at) =>
      var cursor := w.cursor + w.batch.value.due;
      var held := HeldAt(events, cursor, w.batch.value);
      w.(cursor := cursor, batch := None, realMs := at,
         clock := if held.Some? then JumpedTo(w.clock, held.value as real, at) else w.clock)
    case StartClock(at) => w.(clock := Started(w.clock, at), realMs := at)
    case PauseClock(at) => w.(clock := Paused(w.clock, at), realMs := at)
    case SetSpeed(speed, at) => w.(clock := WithSpeed(w.clock, speed, at), realMs := at)
  }

  /** The dataset is sorted, and the clock's window begins no later than its first event. */
  ghost predicate Dataset(events: seq<Event>, clock: Clock) {
    Sorted(events) && Sound(clock) && (events != [] ==> clock.startMs <= events[0].occurredAt as real)
  }

  function Fresh(clock: Clock, realMs: real): World {
    World(Pipeline.START, 0, clock, None, realMs)
  }

  /** `states` is a replay of the dataset from an empty pipeline and a stopped clock. */
  ghost predicate IsReplay(events: seq<Event>, states: seq<World>, steps: seq<Step>) {
    && |states| == |steps| + 1
    && states[0] == Fresh(states[0].clock, states[0].realMs)
    && Dataset(events, states[0].clock) && !states[0].clock.running
    && forall i :: 0 <= i < |steps| ==>
         Enabled(events, states[i], steps[i]) && states[i+1] == Apply(events, states[i], steps[i])
  }

  // ---- The invariant ----

  ghost predicate BatchOk(events: seq<Event>, w: World, b: Batch) {
    && b.cap > 0 && b.due == Due(events, w.cursor, b.nowMs, b.cap) && b.done <= b.due
    && w.cursor + b.due <= |events| && w.cursor + b.done <= Stored(w.sys.log, events)
    && b.nowMs <= Reading(w.clock, w.realMs)
  }

  ghost predicate Inv(events: seq<Event>, w: World) {
    && Dataset(events, w.clock) && Anchored(w.clock, w.realMs)
    && Pipeline.Inv(w.sys)
    && Holds(w.sys.log, events, Stored(w.sys.log, events)) && w.cursor <= Stored(w.sys.log, events)
    && (w.batch.Some? ==> BatchOk(events, w, w.batch.value))
  }

  lemma {:induction false} DueMeans(events: seq<Event>, cursor: nat, nowMs: real, cap: nat)
    requires cursor <= |events|
    ensures var n := Due(events, cursor, nowMs, cap);
            && n <= cap && cursor + n <= |events|
            && (forall i :: cursor <= i < cursor + n ==> events[i].occurredAt as real <= nowMs)
            && (n < cap && cursor + n < |events| ==> events[cursor + n].occurredAt as real > nowMs)
    decreases cap
  {
    if cap > 0 && cursor < |events| && events[cursor].occurredAt as real <= nowMs {
      DueMeans(events, cursor + 1, nowMs, cap - 1);
    }
  }

  /** The pipeline's own steps leave what is stored of the dataset. */
  lemma BesideKeepsHolds(events: seq<Event>, s: Pipeline.System, step: Pipeline.Step, k: nat)
    requires Pipeline.Inv(s) && Pipeline.Enabled(s, step) && IsForeign(step, events) && Holds(s.log, events, k)
    ensures Holds(Pipeline.Apply(s, step).log, events, k)
  {
    hide Holds, Pipeline.Inv;
    match step
    case IngestStep(e) =>
      Pipeline.IngestIsBatch(s.log, e);
      ForeignKeeps(s.log, events, k, [e]);
    case BatchStep(batch) => ForeignKeeps(s.log, events, k, batch);
    case CommitDrain(d) =>
      CommitKeepsEvents(s, d);
      BookingKeeps(s.log, events, k, Pipeline.Apply(s, step).log.outbox);
    case _ =>
  }

  lemma CommitKeepsEvents(s: Pipeline.System, d: nat)
    requires Pipeline.Inv(s) && Pipeline.Enabled(s, Pipeline.CommitDrain(d))
    ensures var next := Pipeline.Apply(s, Pipeline.CommitDrain(d));
            && next.log == s.log.(outbox := next.log.outbox) && |next.log.outbox| == |s.log.outbox|
            && forall i :: 0 <= i < |s.log.outbox| ==> next.log.outbox[i].event == s.log.outbox[i].event
  {
    assert Pipeline.TxOk(s, s.drains[d]);
    Pipeline.CommitKeepsRows(s, d);
  }

  lemma ChunkKeepsInv(events: seq<Event>, w: World, fate: Fate)
    requires Inv(events, w) && Enabled(events, w, Chunk(fate))
    ensures Inv(events, Apply(events, w, Chunk(fate)))
  {
    hide Holds, Pipeline.Inv, Due, IngestBatch, Stored, Sorted;
    var b, k := w.batch.value, Stored(w.sys.log, events);
    var next := Apply(events, w, Chunk(fate));
    if fate != RolledBack {
      var chunk := events[w.cursor + b.done..w.cursor + ChunkEnd(b)];
      Pipeline.StepKeepsInv(w.sys, Pipeline.BatchStep(chunk));
      ChunkExtends(w.sys.log, events, k, w.cursor + b.done, w.cursor + ChunkEnd(b));
      HoldsStored(next.sys.log, events, if w.cursor + ChunkEnd(b) <= k then k else w.cursor + ChunkEnd(b));
    }
  }

  lemma BesideKeepsInv(events: seq<Event>, w: World, step: Pipeline.Step)
    requires Inv(events, w) && Enabled(events, w, Beside(step))
    ensures Inv(events, Apply(events, w, Beside(step)))
  {
    hide Holds, Pipeline.Inv, Due, Dataset, Stored, IsForeign;
    var k := Stored(w.sys.log, events);
    Pipeline.StepKeepsInv(w.sys, step);
    BesideKeepsHolds(events, w.sys, step, k);
    HoldsStored(Pipeline.Apply(w.sys, step).log, events, k);
  }

  lemma BeginKeepsInv(events: seq<Event>, w: World, cap: nat, at: real)
    requires Inv(events, w) && Enabled(events, w, BeginTick(cap, at))
    ensures Inv(events, Apply(events, w, BeginTick(cap, at)))
  {
    hide Pipeline.Inv, Due, Stored, Sorted, Reading;
    DueMeans(events, w.cursor, Reading(w.clock, at), cap);
  }

  lemma EndKeepsInv(events: seq<Event>, w: World, at: real)
    requires Inv(events, w) && Enabled(events, w, EndTick(at))
    ensures Inv(events, Apply(events, w, EndTick(at)))
  {
    hide Pipeline.Inv, Due, Holds, Stored, Sorted;
    var held := HeldAt(events, w.cursor + w.batch.value.due, w.batch.value);
    if held.Some? {
      JumpIsClamped(w.clock, held.value as real, at);
    }
  }

  lemma ClockKeepsInv(events: seq<Event>, w: World, step: Step)
    requires step.StartClock? || step.PauseClock? || step.SetSpeed?
    requires Inv(events, w) && Enabled(events, w, step)
    ensures Inv(events, Apply(events, w, step))
  {
    hide Pipeline.Inv, Due, Holds, Stored, Sorted, Reading, Started, Paused, WithSpeed, Sound;
    var next := Apply(events, w, step);
    SameWindow(w.clock, if step.SetSpeed? then step.speed else 1.0, next.realMs);
    ChangesKeepTheInstant(w.clock, if step.SetSpeed? then step.speed else 1.0, next.realMs);
    Monotone(w.clock, w.realMs, next.realMs);
  }

  lemma SameWindow(c: Clock, speed: real, at: real)
    ensures forall next | next in {Started(c, at), Paused(c, at), WithSpeed(c, speed, at)} ::
              next.startMs == c.startMs && next.endMs == c.endMs
  {
  }

  lemma StepKeepsInv(events: seq<Event>, w: World, step: Step)
    requires Inv(events, w) && Enabled(events, w, step)
    ensures Inv(events, Apply(events, w, step))
  {
    hide Inv, Enabled, Apply;
    match step
    case Beside(s) => BesideKeepsInv(events, w, s);
    case BeginTick(cap, at) => BeginKeepsInv(events, w, cap, at);
    case Chunk(fate) => ChunkKeepsInv(events, w, fate);
    case EndTick(at) => EndKeepsInv(events, w, at);
    case _ => ClockKeepsInv(events, w, step);
  }

  lemma StartIsOk(events: seq<Event>, clock: Clock, realMs: real)
    requires Dataset(events, clock) && !clock.running
    ensures Inv(events, Fresh(clock, realMs))
  {
    hide Sorted;
    Pipeline.StartIsOk();
    EmptyHolds(events);
  }

  lemma {:induction false} EveryReplayKeepsInv(events: seq<Event>, states: seq<World>, steps: seq<Step>, n: nat)
    requires IsReplay(events, states, steps) && n < |states|
    ensures Inv(events, states[n])
  {
    hide Inv, Enabled, Apply, Dataset;
    if n == 0 {
      StartIsOk(events, states[0].clock, states[0].realMs);
    } else {
      EveryReplayKeepsInv(events, states, steps, n - 1);
      StepKeepsInv(events, states[n-1], steps[n-1]);
    }
  }

  // ---- What is stored ----

  /** Of the batch under way, the events that are ingested. */
  function Done(w: World): nat {
    if w.batch.Some? then w.batch.value.done else 0
  }

  /** No chunk has failed. */
  predicate Unfailing(steps: seq<Step>) {
    forall i :: 0 <= i < |steps| && steps[i].Chunk? ==> steps[i].fate == Committed
  }

  /**
   * In every state of every replay the log holds a prefix of the dataset, in order and each event
   * with one outbox row, that reaches at least to the cursor; while no chunk has failed it ends
   * with what the batch under way has ingested. The pipeline's own guarantees hold beside it.
   */
  lemma ReplayStoresAPrefix(events: seq<Event>, states: seq<World>, steps: seq<Step>, n: nat)
    requires IsReplay(events, states, steps) && n < |states|
    ensures var log := states[n].sys.log;
            var k := Stored(log, events);
            && Holds(log, events, k) && states[n].cursor <= k
            && (Unfailing(steps[..n]) ==> k == states[n].cursor + Done(states[n]))
    ensures Pipeline.Inv(states[n].sys)
  {
    hide Holds, Stored, Pipeline.Inv;
    EveryReplayKeepsInv(events, states, steps, n);
    if Unfailing(steps[..n]) {
      UnfailingReplay(events, states, steps, n);
    }
  }

  lemma {:induction false} UnfailingReplay(events: seq<Event>, states: seq<World>, steps: seq<Step>, n: nat)
    requires IsReplay(events, states, steps) && n < |states| && Unfailing(steps[..n])
    ensures Stored(states[n].sys.log, events) == states[n].cursor + Done(states[n])
  {
    hide Holds, Stored, Inv, Enabled, Apply, Dataset;
    if n == 0 {
      EmptyHolds(events);
      HoldsStored(states[0].sys.log, events, 0);
    } else {
      assert steps[..n][n-1] == steps[n-1];
      assert Unfailing(steps[..n-1]) by {
        assert forall i :: 0 <= i < n - 1 ==> steps[..n-1][i] == steps[..n][i];
      }
      UnfailingReplay(events, states, steps, n - 1);
      EveryReplayKeepsInv(events, states, steps, n - 1);
      UnfailingStep(events, states[n-1], steps[n-1]);
    }
  }

  lemma UnfailingStep(events: seq<Event>, w: World, step: Step)
    requires Inv(events, w) && Enabled(events, w, step) && (step.Chunk? ==> step.fate == Committed)
    requires Stored(w.sys.log, events) == w.cursor + Done(w)
    ensures var next := Apply(events, w, step);
            Stored(next.sys.log, events) == next.cursor + Done(next)
  {
    hide Holds, Stored, Pipeline.Inv, Sorted, Due, IngestBatch, IsForeign;
    var k, next := Stored(w.sys.log, events), Apply(events, w, step);
    match step
    case Beside(s) =>
      BesideKeepsHolds(events, w.sys, s, k);
      HoldsStored(next.sys.log, events, k);
    case Chunk(_) =>
      var b := w.batch.value;
      ChunkExtends(w.sys.log, events, k, w.cursor + b.done, w.cursor + ChunkEnd(b));
      HoldsStored(next.sys.log, events, w.cursor + ChunkEnd(b));
    case _ =>
  }

  /**
   * Two emissions at once - a jump does not ask whether a tick is emitting - read one cursor and
   * both move it: it stays within what is stored exactly when one of them had nothing to emit.
   * Otherwise the events in between are behind the cursor and never emitted.
   */
  lemma OverlappingEmissionsSkip(events: seq<Event>, log: Log, c: nat, n: nat, m: nat)
    requires Sorted(events) && Holds(log, events, c) && c + n <= |events| && c + m <= |events|
    ensures var after := IngestBatch(IngestBatch(log, events[c..c+n]), events[c..c+m]);
            && Stored(after, events) == c + (if n <= m then m else n)
            && (c + n + m <= Stored(after, events) <==> n == 0 || m == 0)
  {
    hide Holds, Stored, IngestBatch, Sorted;
    ChunkExtends(log, events, c, c, c + n);
    ChunkExtends(IngestBatch(log, events[c..c+n]), events, c + n, c, c + m);
    HoldsStored(IngestBatch(IngestBatch(log, events[c..c+n]), events[c..c+m]), events, c + (if n <= m then m else n));
  }

  // ---- Simulated time and the data ----

  /** Every event strictly earlier than an instant is among the first k. */
  ghost predicate Covers(events: seq<Event>, k: nat, ms: real) {
    forall i :: 0 <= i < |events| && (events[i].occurredAt as real) < ms ==> i < k
  }

  lemma CoversMeans(events: seq<Event>, k: nat, ms: real)
    requires Sorted(events) && k <= |events|
    ensures Covers(events, k, ms) <==> k == |events| || events[k].occurredAt as real >= ms
  {
    if k < |events| && events[k].occurredAt as real >= ms {
      assert forall i :: k < i < |events| ==> events[k].occurredAt <= events[i].occurredAt;
    }
  }

  /**
   * The end of a tick whose batch was ingested. If the cap bit with more due, the clock is held and
   * is then not ahead of the data. If not, everything up to the instant the tick began at is
   * stored, and the clock, which ran on during the emission, is not ahead of the data exactly when
   * the next event has not come by now.
   */
  lemma TickHolds(events: seq<Event>, w: World, at: real)
    requires Inv(events, w) && Enabled(events, w, EndTick(at))
    ensures var next := Apply(events, w, EndTick(at));
            var b, k, now := w.batch.value, Stored(next.sys.log, events), Reading(next.clock, at);
            var held := HeldAt(events, next.cursor, b);
            && next.cursor == w.cursor + b.due <= k <= |events|
            && (held.Some?
                <==> && b.due == b.cap && next.cursor < |events|
                     && events[next.cursor].occurredAt as real <= b.nowMs)
            && now <= Reading(w.clock, at)
            && (held.Some? ==> Covers(events, next.cursor, now))
            && (held.None? ==>
                  && now == Reading(w.clock, at)
                  && (forall i :: 0 <= i < |events| && events[i].occurredAt as real <= b.nowMs ==> i < next.cursor)
                  && (Covers(events, k, now) <==> k == |events| || events[k].occurredAt as real >= now))
  {
    hide Pipeline.Inv, Stored, Due, Covers, Reading, JumpedTo;
    var b, next := w.batch.value, Apply(events, w, EndTick(at));
    var c, k := next.cursor, Stored(next.sys.log, events);
    DueMeans(events, w.cursor, b.nowMs, b.cap);
    Monotone(w.clock, w.realMs, at);
    CoversMeans(events, k, Reading(next.clock, at));
    CoversMeans(events, c, Reading(next.clock, at));
    assert forall i :: c < i < |events| ==> events[c].occurredAt <= events[i].occurredAt;
    if HeldAt(events, c, b).Some? {
      JumpIsClamped(w.clock, events[c-1].occurredAt as real, at);
      assert events[0].occurredAt <= events[c-1].occurredAt <= events[c].occurredAt;
    }
  }

  /** A tick that holds nothing can leave the clock ahead of the data: one real millisecond is enough at speed 60. */
  lemma ClockOutrunsData(e: Event, speed60: Clock)
    requires e.occurredAt == 1000
    requires speed60 == Clock(0.0, 86_400_000.0, 0.0, 60.0, false, 0.0, 0.0)
    ensures var w0 := Fresh(speed60, 0.0);
            && Dataset([e], speed60) && Enabled([e], w0, StartClock(0.0))
            && var w1 := Apply([e], w0, StartClock(0.0));
               && Enabled([e], w1, BeginTick(3000, 0.0))
               && var w2 := Apply([e], w1, BeginTick(3000, 0.0));
                  && w2.batch.value.due == 0 && Enabled([e], w2, EndTick(1.0))
                  && var w3 := Apply([e], w2, EndTick(1.0));
                     && Reading(w3.clock, 0.0) < 1000.0 < Reading(w3.clock, 1.0)
                     && !Covers([e], Stored(w3.sys.log, [e]), Reading(w3.clock, 1.0))
  {
  }

  /**
   * The clock reads the same right before and right after every step, but for a tick that holds it,
   * which only sets it back; and it never leaves its window.
   */
  lemma ClockIsContinuous(events: seq<Event>, w: World, step: Step)
    requires Inv(events, w) && Enabled(events, w, step)
    ensures var next := Apply(events, w, step);
            && next.realMs >= w.realMs
            && w.clock.startMs <= Reading(next.clock, next.realMs) <= Reading(w.clock, next.realMs) <= w.clock.endMs
            && ((step.EndTick? && HeldAt(events, next.cursor, w.batch.value).Some?)
                || Reading(next.clock, next.realMs) == Reading(w.clock, next.realMs))
  {
    hide Pipeline.Inv, Holds, Stored, Sorted, Due, Reading, Started, Paused, WithSpeed, JumpedTo, HeldAt, Sound;
    var next := Apply(events, w, step);
    Monotone(w.clock, w.realMs, next.realMs);
    InWindow(w.clock, next.realMs);
    StepKeepsInv(events, w, step);
    InWindow(next.clock, next.realMs);
    if step.EndTick? {
      TickHolds(events, w, step.at);
      JumpKeepsWindow(w.clock, events, next.cursor, w.batch.value, step.at);
    } else if step.StartClock? || step.PauseClock? || step.SetSpeed? {
      SameWindow(w.clock, if step.SetSpeed? then step.speed else 1.0, next.realMs);
      ChangesKeepTheInstant(w.clock, if step.SetSpeed? then step.speed else 1.0, next.realMs);
    }
  }

  lemma JumpKeepsWindow(c: Clock, events: seq<Event>, cursor: nat, b: Batch, at: real)
    ensures var held := HeldAt(events, cursor, b);
            held.Some? ==> var j := JumpedTo(c, held.value as real, at); j.startMs == c.startMs && j.endMs == c.endMs
  {
  }

  // ---- Sequences of steps ----

  ghost predicate CanRun(events: seq<Event>, w: World, steps: seq<Step>)
    decreases |steps|, 0
  {
    steps == []
    || (CanRun(events, w, steps[..|steps|-1])
        && Enabled(events, After(events, w, steps[..|steps|-1]), steps[|steps|-1]))
  }

  ghost function After(events: seq<Event>, w: World, steps: seq<Step>): World
    requires CanRun(events, w, steps)
    decreases |steps|, 1
  {
    if steps == [] then w else Apply(events, After(events, w, steps[..|steps|-1]), steps[|steps|-1])
  }

  lemma OneMoreStep(events: seq<Event>, w: World, steps: seq<Step>, step: Step)
    requires CanRun(events, w, steps) && Enabled(events, After(events, w, steps), step)
    ensures CanRun(events, w, steps + [step])
    ensures After(events, w, steps + [step]) == Apply(events, After(events, w, steps), step)
  {
    assert (steps + [step])[..|steps|] == steps;
  }

  lemma {:induction false} RunsJoin(events: seq<Event>, w: World, a: seq<Step>, b: seq<Step>)
    requires CanRun(events, w, a) && CanRun(events, After(events, w, a), b)
    ensures CanRun(events, w, a + b) && After(events, w, a + b) == After(events, After(events, w, a), b)
    decreases |b|
  {
    hide Enabled, Apply;
    if b == [] {
      assert a + b == a;
    } else {
      RunsJoin(events, w, a, b[..|b|-1]);
      OneMoreStep(events, w, a + b[..|b|-1], b[|b|-1]);
      assert a + b == (a + b[..|b|-1]) + [b[|b|-1]];
    }
  }
}
