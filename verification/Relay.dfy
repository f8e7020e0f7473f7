/**
 * The outbox relay (apps/api/src/app/relay.ts): one drain claims rows, spreads them
 * over lanes by payment, runs the lanes concurrently and books the outcomes.
 */
module Relay {
  import opened Wrappers
  import opened PaymentState
  import opened Projection

  const HANDLER_CONCURRENCY := 5
  const MAX_ATTEMPTS := 5

  datatype Topic = PaymentEvent | Unroutable(name: string)

  datatype OutboxRow = OutboxRow(
    id: nat,
    topic: Topic,
    event: Event,
    attempts: nat,
    sent: bool,
    deadLettered: bool)

  predicate Pending(r: OutboxRow) {
    !r.sent && !r.deadLettered
  }

  // ---- Lanes ----

  /** One round of the FNV-1a hash: 32-bit xor, then 32-bit wrapping multiplication. */
  function HashStep(h: bv32, unit: bv32): bv32 {
    (h ^ unit) * 16777619
  }

  function Hash(key: seq<bv32>): bv32 {
    if key == [] then 2166136261 else HashStep(Hash(key[..|key|-1]), key[|key|-1])
  }

  /** Math.abs of the 32 bits read as a signed number. */
  function Magnitude(h: bv32): nat {
    var n := h as nat;
    if n < 0x8000_0000 then n else 0x1_0000_0000 - n
  }

  /** The hash as a number: before its first round it has not been made a signed one yet. */
  function Spread(key: seq<bv32>): nat {
    if key == [] then 2166136261 else Magnitude(Hash(key))
  }

  method LaneOf(key: seq<bv32>, lanes: nat) returns (lane: nat)
    requires lanes > 0
    ensures lane == Spread(key) % lanes && lane < lanes
  {
    var h: bv32 := 2166136261;
    for i := 0 to |key|
      invariant h == Hash(key[..i])
    {
      assert key[..i+1][..i] == key[..i];
      h := HashStep(h, key[i]);
    }
    assert key[..|key|] == key;
    lane := (if key == [] then 2166136261 else Magnitude(h)) % lanes;
  }

  /** The UTF-16 units of a text: a character beyond the first plane is a surrogate pair. */
  function Units(text: string): seq<bv32> {
    if text == "" then []
    else
      var c := text[0] as int;
      var units := if c < 0x1_0000 then [c as bv32]
                   else [(0xD800 + (c - 0x1_0000) / 0x400) as bv32, (0xDC00 + (c - 0x1_0000) % 0x400) as bv32];
      units + Units(text[1..])
  }

  /**
   * The lane of a row. A row without a key goes to lane 0: the round-robin counter
   * is the length of a list that is still empty while lanes are assigned.
   */
  function LaneFor(r: OutboxRow, lanes: nat): (lane: nat)
    requires lanes > 0
    ensures lane < lanes
  {
    if r.topic.Unroutable? || r.event.paymentId.text == "" then 0
    else Spread(Units(r.event.paymentId.text)) % lanes
  }

  /** Any way of choosing a lane for a row. */
  type Lanes = OutboxRow -> nat

  /** Rows about one payment share a lane. */
  ghost predicate ByPayment(lane: Lanes) {
    forall a: OutboxRow, b: OutboxRow ::
      a.topic.PaymentEvent? && b.topic.PaymentEvent? && a.event.paymentId == b.event.paymentId ==> lane(a) == lane(b)
  }

  /** The rows of one lane, in order. */
  function LaneRows(rows: seq<OutboxRow>, l: nat, lane: Lanes): (s: seq<OutboxRow>) {
    if rows == [] then []
    else
      var rest := LaneRows(rows[1..], l, lane);
      if lane(rows[0]) == l then [rows[0]] + rest else rest
  }

  // ---- Delivering a row ----

  datatype Failure = NoHandler | PaymentNotFound | Transient

  /** One handler call: the tables after it and whether it threw. */
  function Deliver(db: Db, r: OutboxRow): (Db, Option<Failure>) {
    if r.topic.Unroutable? then (db, Some(NoHandler))
    else
      var (after, outcome) := Project(db, r.event);
      (after, if outcome == NotFound then Some(PaymentNotFound) else None)
  }

  /** Outcomes keyed by outbox row. */
  type Outcomes = map<nat, Option<Failure>>

  /** The tables, and the outcome of every row delivered so far. */
  datatype Progress = Progress(db: Db, outcomes: Outcomes)

  function Next(s: Progress, r: OutboxRow): Progress {
    var (after, failure) := Deliver(s.db, r);
    Progress(after, s.outcomes[r.id := failure])
  }

  /** Delivering rows one after the other. */
  function DeliverAll(s: Progress, rows: seq<OutboxRow>): Progress
    decreases |rows|
  {
    if rows == [] then s else DeliverAll(Next(s, rows[0]), rows[1..])
  }

  /** `run` is a way the lanes of `rows` can interleave: each lane in its own order. */
  ghost predicate Interleaves(run: seq<OutboxRow>, rows: seq<OutboxRow>, lane: Lanes)
  {
    forall l: nat :: LaneRows(run, l, lane) == LaneRows(rows, l, lane)
  }

  /** Claimed rows have their own ids, and an event id belongs to one payment. */
  predicate Claimable(rows: seq<OutboxRow>) {
    && (forall i, j :: 0 <= i < j < |rows| ==> rows[i].id != rows[j].id)
    && (forall a, b :: a in rows && b in rows && a.event.id == b.event.id ==>
          a.event.paymentId == b.event.paymentId)
  }

  // ---- Any interleaving is the sequential run ----

  /** Rows on different lanes are about different payments, so their order is immaterial. */
  lemma DeliveriesCommute(s: Progress, a: OutboxRow, b: OutboxRow, lane: Lanes)
    requires ByPayment(lane) && lane(a) != lane(b) && a.id != b.id
    requires a.event.id == b.event.id ==> a.event.paymentId == b.event.paymentId
    ensures Next(Next(s, a), b) == Next(Next(s, b), a)
  {
    if a.topic.PaymentEvent? && b.topic.PaymentEvent? {
      ProjectionsCommute(s.db, a.event, b.event);
    }
    UpdatesCommute(s.outcomes, a.id, Deliver(s.db, a).1, b.id, Deliver(s.db, b).1);
  }

  lemma {:induction false} DeliverAppend(s: Progress, a: seq<OutboxRow>, b: seq<OutboxRow>)
    ensures DeliverAll(s, a + b) == DeliverAll(DeliverAll(s, a), b)
    decreases |a|
  {
    if a == [] {
      assert a + b == b;
    } else {
      assert (a + b)[1..] == a[1..] + b;
      DeliverAppend(Next(s, a[0]), a[1..], b);
    }
  }

  /** A row can be moved ahead of any rows of other lanes. */
  lemma {:induction false} MoveToFront(s: Progress, before: seq<OutboxRow>, r: OutboxRow, lane: Lanes)
    requires ByPayment(lane)
    requires forall x :: x in before ==>
               && lane(x) != lane(r) && x.id != r.id
               && (x.event.id == r.event.id ==> x.event.paymentId == r.event.paymentId)
    ensures DeliverAll(s, before + [r]) == DeliverAll(s, [r] + before)
    decreases |before|
  {
    if before == [] {
      assert before + [r] == [r] + before;
    } else {
      var x, rest := before[0], before[1..];
      assert (before + [r])[1..] == rest + [r];
      MoveToFront(Next(s, x), rest, r, lane);
      assert ([r] + rest)[1..] == rest && ([r] + before)[1..] == before;
      assert x in before;
      DeliveriesCommute(s, x, r, lane);
    }
  }

  lemma {:induction false} LaneRowsMembers(rows: seq<OutboxRow>, l: nat, lane: Lanes)
    ensures forall r :: r in LaneRows(rows, l, lane) <==> r in rows && lane(r) == l
  {
    if rows != [] {
      LaneRowsMembers(rows[1..], l, lane);
      assert forall r :: r in rows <==> r == rows[0] || r in rows[1..];
    }
  }

  /** The first row of a lane splits a run into rows of other lanes and the rest. */
  lemma {:induction false} FirstOfLane(run: seq<OutboxRow>, l: nat, lane: Lanes) returns (p: nat)
    requires LaneRows(run, l, lane) != []
    ensures p < |run| && lane(run[p]) == l && run[p] == LaneRows(run, l, lane)[0]
    ensures forall i :: 0 <= i < p ==> lane(run[i]) != l
  {
    if lane(run[0]) == l {
      p := 0;
    } else {
      var q := FirstOfLane(run[1..], l, lane);
      p := q + 1;
    }
  }

  lemma {:induction false} LaneRowsAppend(a: seq<OutboxRow>, b: seq<OutboxRow>, l: nat, lane: Lanes)
    ensures LaneRows(a + b, l, lane) == LaneRows(a, l, lane) + LaneRows(b, l, lane)
  {
    if a == [] {
      assert a + b == b;
    } else {
      assert (a + b)[1..] == a[1..] + b;
      LaneRowsAppend(a[1..], b, l, lane);
    }
  }

  lemma LaneRowsRemove(run: seq<OutboxRow>, p: nat, l: nat, lane: Lanes)
    requires p < |run|
    ensures LaneRows(run, l, lane)
         == LaneRows(run[..p], l, lane) + LaneRows([run[p]], l, lane) + LaneRows(run[p+1..], l, lane)
    ensures LaneRows(run[..p] + run[p+1..], l, lane)
         == LaneRows(run[..p], l, lane) + LaneRows(run[p+1..], l, lane)
  {
    assert run == run[..p] + [run[p]] + run[p+1..];
    LaneRowsAppend(run[..p] + [run[p]], run[p+1..], l, lane);
    LaneRowsAppend(run[..p], [run[p]], l, lane);
    LaneRowsAppend(run[..p], run[p+1..], l, lane);
  }

  /** Taking the head row out of a run leaves an interleaving of the remaining rows. */
  lemma InterleavesTail(run: seq<OutboxRow>, p: nat, rows: seq<OutboxRow>, lane: Lanes)
    requires rows != [] && p < |run| && run[p] == rows[0]
    requires Interleaves(run, rows, lane)
    requires forall i :: 0 <= i < p ==> lane(run[i]) != lane(rows[0])
    ensures Interleaves(run[..p] + run[p+1..], rows[1..], lane)
  {
    var rest, tail := run[..p] + run[p+1..], rows[1..];
    forall l: nat
      ensures LaneRows(rest, l, lane) == LaneRows(tail, l, lane)
    {
      assert LaneRows(run, l, lane) == LaneRows(rows, l, lane);
      LaneTail(run, p, rows, l, lane);
    }
  }

  lemma LaneTail(run: seq<OutboxRow>, p: nat, rows: seq<OutboxRow>, l: nat, lane: Lanes)
    requires rows != [] && p < |run| && run[p] == rows[0]
    requires LaneRows(run, l, lane) == LaneRows(rows, l, lane)
    requires forall i :: 0 <= i < p ==> lane(run[i]) != lane(rows[0])
    ensures LaneRows(run[..p] + run[p+1..], l, lane) == LaneRows(rows[1..], l, lane)
  {
    LaneRowsRemove(run, p, l, lane);
    if l == lane(rows[0]) {
      NoneOfLane(run[..p], l, lane);
      assert LaneRows([run[p]], l, lane) == [rows[0]];
      assert LaneRows(rows, l, lane)[1..] == LaneRows(rows[1..], l, lane);
    }
  }

  lemma NoneOfLane(rows: seq<OutboxRow>, l: nat, lane: Lanes)
    requires forall r :: r in rows ==> lane(r) != l
    ensures LaneRows(rows, l, lane) == []
  {
    LaneRowsMembers(rows, l, lane);
    assert forall r :: r !in LaneRows(rows, l, lane);
  }

  lemma SameRows(run: seq<OutboxRow>, rows: seq<OutboxRow>, lane: Lanes)
    requires Interleaves(run, rows, lane)
    ensures forall r :: r in run <==> r in rows
    ensures rows == [] ==> run == []
  {
    forall r
      ensures r in run <==> r in rows
    {
      var l := lane(r);
      assert LaneRows(run, l, lane) == LaneRows(rows, l, lane);
      LaneRowsMembers(run, l, lane);
      LaneRowsMembers(rows, l, lane);
    }
    if run != [] {
      assert run[0] in rows;
    }
  }

  /**
   * Confluence of a drain. However the lanes interleave, the payments, the history,
   * the markers, the rollups and the outcome of every row are those of delivering
   * the claimed rows one by one in id order.
   */
  lemma {:induction false} LanesAreSequential(s: Progress, run: seq<OutboxRow>, rows: seq<OutboxRow>, lane: Lanes)
    requires ByPayment(lane) && Claimable(rows) && Claimable(run) && Interleaves(run, rows, lane)
    ensures DeliverAll(s, run) == DeliverAll(s, rows)
    decreases |rows|
  {
    SameRows(run, rows, lane);
    if rows != [] {
      var r, l := rows[0], lane(rows[0]);
      assert LaneRows(run, l, lane) == LaneRows(rows, l, lane);
      var p := FirstOfLane(run, l, lane);
      var rest := run[..p] + run[p+1..];
      InterleavesTail(run, p, rows, lane);
      TakenOut(s, run, p, lane);
      LanesAreSequential(Next(s, r), rest, rows[1..], lane);
    }
  }

  /** The first row of its lane may as well have been delivered first of all. */
  lemma TakenOut(s: Progress, run: seq<OutboxRow>, p: nat, lane: Lanes)
    requires ByPayment(lane) && Claimable(run) && p < |run|
    requires forall i :: 0 <= i < p ==> lane(run[i]) != lane(run[p])
    ensures DeliverAll(s, run) == DeliverAll(Next(s, run[p]), run[..p] + run[p+1..])
    ensures Claimable(run[..p] + run[p+1..])
  {
    var before, r, after := run[..p], run[p], run[p+1..];
    var rest := before + after;
    ClaimableWithout(run, p);
    MoveToFront(s, before, r, lane);
    assert run == (before + [r]) + after;
    DeliverAppend(s, before + [r], after);
    DeliverAppend(s, [r] + before, after);
    assert (([r] + before) + after)[1..] == rest;
  }

  lemma ClaimableWithout(run: seq<OutboxRow>, p: nat)
    requires Claimable(run) && p < |run|
    ensures Claimable(run[..p] + run[p+1..])
    ensures forall x :: x in run[..p] ==>
              x.id != run[p].id && (x.event.id == run[p].event.id ==> x.event.paymentId == run[p].event.paymentId)
  {
    var rest := run[..p] + run[p+1..];
    assert forall i :: 0 <= i < |rest| ==> rest[i] == run[if i < p then i else i + 1];
    assert forall x :: x in rest ==> x in run;
  }

  // ---- One drain ----

  datatype DrainResult = DrainResult(claimed: nat, sent: nat, failed: nat, deadLettered: nat)

  /** The first `limit` pending rows, in id order. */
  function Claim(outbox: seq<OutboxRow>, limit: nat): (rows: seq<OutboxRow>)
    ensures |rows| <= limit && forall r :: r in rows ==> r in outbox && Pending(r)
  {
    if outbox == [] || limit == 0 then []
    else if Pending(outbox[0]) then [outbox[0]] + Claim(outbox[1..], limit - 1)
    else Claim(outbox[1..], limit)
  }

  function BookAll(outbox: seq<OutboxRow>, outcomes: Outcomes): (after: seq<OutboxRow>)
    ensures |after| == |outbox|
    ensures forall i :: 0 <= i < |outbox| ==>
              after[i] == if outbox[i].id in outcomes then Book(outbox[i], outcomes[outbox[i].id]) else outbox[i]
  {
    seq(|outbox|, i requires 0 <= i < |outbox| =>
      if outbox[i].id in outcomes then Book(outbox[i], outcomes[outbox[i].id]) else outbox[i])
  }

  datatype Fate = Sent | Retried | Dead

  /** How a delivered row is booked. */
  function FateOf(r: OutboxRow, failure: Option<Failure>): Fate {
    if failure.None? then Sent
    else if r.attempts + 1 >= MAX_ATTEMPTS then Dead
    else Retried
  }

  /** The UPDATE of one delivered row. */
  function Book(r: OutboxRow, failure: Option<Failure>): OutboxRow {
    var counted := r.(attempts := r.attempts + 1);
    match FateOf(r, failure)
    case Sent => counted.(sent := true)
    case Dead => counted.(deadLettered := true)
    case Retried => counted
  }

  function WithFate(rows: set<OutboxRow>, outcomes: Outcomes, fate: Fate): set<OutboxRow> {
    set r | r in rows && r.id in outcomes && FateOf(r, outcomes[r.id]) == fate
  }

  /** The drain as a sequential program: deliver the claimed rows in id order, then book them. */
  function Drain(outbox: seq<OutboxRow>, db: Db, limit: nat): (seq<OutboxRow>, Db, DrainResult) {
    var rows := Claim(outbox, limit);
    var done := DeliverAll(Progress(db, map[]), rows);
    var all := set r | r in rows;
    (BookAll(outbox, done.outcomes), done.db,
     DrainResult(|rows|, |WithFate(all, done.outcomes, Sent)|, |WithFate(all, done.outcomes, Retried)|,
                 |WithFate(all, done.outcomes, Dead)|))
  }

  /** The table as ingest leaves it: ids ascend, and an event id belongs to one payment. */
  predicate WellFormed(outbox: seq<OutboxRow>) {
    && (forall i, j :: 0 <= i < j < |outbox| ==> outbox[i].id < outbox[j].id)
    && (forall a, b :: a in outbox && b in outbox && a.event.id == b.event.id ==>
          a.event.paymentId == b.event.paymentId)
  }

  lemma {:induction false} ClaimIsClaimable(outbox: seq<OutboxRow>, limit: nat)
    requires WellFormed(outbox)
    ensures Claimable(Claim(outbox, limit))
  {
    if outbox != [] && limit > 0 {
      var rest := outbox[1..];
      assert WellFormed(rest);
      ClaimIsClaimable(rest, if Pending(outbox[0]) then limit - 1 else limit);
      assert forall r :: r in rest ==> outbox[0].id < r.id;
    }
  }

  /** One entry of the in-memory outcome list. */
  datatype Delivered = Delivered(row: OutboxRow, attempt: nat, failure: Option<Failure>)

  /** The outcome list as a map; later entries win. */
  function ByRow(list: seq<Delivered>): Outcomes {
    if list == [] then map[] else ByRow(list[..|list|-1])[list[|list|-1].row.id := list[|list|-1].failure]
  }

  function RowsOf(list: seq<Delivered>): (rows: seq<OutboxRow>)
    ensures |rows| == |list| && forall i :: 0 <= i < |list| ==> rows[i] == list[i].row
  {
    seq(|list|, i requires 0 <= i < |list| => list[i].row)
  }

  class OutboxRelay {
    var outbox: seq<OutboxRow>
    const store: Store

    constructor (store: Store)
      ensures this.store == store && outbox == []
    {
      this.store := store;
      outbox := [];
    }

    /** One handler call, its exception caught. */
    method Handle(r: OutboxRow) returns (failure: Option<Failure>)
      modifies store
      ensures (store.Tables(), failure) == Deliver(old(store.Tables()), r)
    {
      if r.topic.Unroutable? {
        return Some(NoHandler);
      }
      var outcome := store.ProjectEvent(r.event);
      failure := if outcome == NotFound then Some(PaymentNotFound) else None;
    }

    /**
     * The lanes, run concurrently: as long as some lane has rows left, any such lane may be
     * the one whose next handler call finishes.
     */
    method RunLanes(lanes: seq<seq<OutboxRow>>, ghost rows: seq<OutboxRow>, ghost lane: Lanes)
      returns (list: seq<Delivered>)
      requires ByPayment(lane) && Claimable(rows)
      requires forall l :: 0 <= l < |lanes| ==> lanes[l] == LaneRows(rows, l, lane)
      requires forall r :: r in rows ==> lane(r) < |lanes|
      modifies store
      ensures Progress(store.Tables(), ByRow(list)) == DeliverAll(Progress(old(store.Tables()), map[]), rows)
      ensures forall d :: d in list ==> d.attempt == d.row.attempts + 1
      ensures forall r :: r in rows <==> r in RowsOf(list)
      ensures Claimable(RowsOf(list))
      ensures forall d :: d in list ==> d.row.id in ByRow(list) && ByRow(list)[d.row.id] == d.failure
    {
      list := [];
      var pos: seq<nat> := seq(|lanes|, i => 0);
      ghost var left := set r | r in rows;
      ghost var start := Progress(store.Tables(), map[]);
      while exists l :: 0 <= l < |lanes| && pos[l] < |lanes[l]|
        invariant UnderWay(RowsOf(list), pos, lanes, rows, left, lane)
        invariant forall d :: d in list ==> d.attempt == d.row.attempts + 1
        invariant Progress(store.Tables(), ByRow(list)) == DeliverAll(start, RowsOf(list))
        decreases left
      {
        var l :| 0 <= l < |lanes| && pos[l] < |lanes[l]|;
        var r := lanes[l][pos[l]];
        LaneAdvances(RowsOf(list), pos, lanes, rows, left, l, lane);
        ghost var before := store.Tables();
        var failure := Handle(r);
        DeliveredOneMore(start, before, list, Delivered(r, r.attempts + 1, failure), store.Tables());
        list := list + [Delivered(r, r.attempts + 1, failure)];
        pos := pos[l := pos[l] + 1];
        left := left - {r};
      }
      AllDelivered(rows, RowsOf(list), lanes, lane);
      LanesAreSequential(Progress(old(store.Tables()), map[]), RowsOf(list), rows, lane);
      ByRowHolds(list);
    }

    /** Spreads the claimed rows over the lanes in id order. */
    method Partition(rows: seq<OutboxRow>, laneCount: nat) returns (lanes: seq<seq<OutboxRow>>)
      requires laneCount > 0
      ensures |lanes| == laneCount
      ensures forall l :: 0 <= l < |lanes| ==> lanes[l] == LaneRows(rows, l, r => LaneFor(r, laneCount))
    {
      ghost var lane := (r: OutboxRow) => LaneFor(r, laneCount);
      lanes := seq(laneCount, i => []);
      for i := 0 to |rows|
        invariant |lanes| == laneCount
        invariant forall l :: 0 <= l < |lanes| ==> lanes[l] == LaneRows(rows[..i], l, lane)
      {
        var r := rows[i];
        var l := 0;
        if r.topic.PaymentEvent? && r.event.paymentId.text != "" {
          l := LaneOf(Units(r.event.paymentId.text), laneCount);
        }
        assert l == lane(r);
        assert rows[..i+1] == rows[..i] + [r];
        forall k | 0 <= k < |lanes|
          ensures LaneRows(rows[..i+1], k, lane) == lanes[k] + if k == l then [r] else []
        {
          LaneRowsAppend(rows[..i], [r], k, lane);
          assert LaneRows([r], k, lane) == if k == l then [r] else [];
        }
        lanes := lanes[l := lanes[l] + [r]];
      }
      assert rows[..|rows|] == rows;
    }

    /** UPDATE outbox ... WHERE id = d.row.id. */
    method BookRow(d: Delivered)
      modifies this`outbox
      ensures outbox == BookAll(old(outbox), map[d.row.id := d.failure])
    {
      outbox := BookAll(outbox, map[d.row.id := d.failure]);
    }

    /** Books the outcome list, counting how each row was booked. */
    method BookOutcomes(list: seq<Delivered>) returns (sent: nat, failed: nat, dead: nat)
      requires Claimable(RowsOf(list))
      requires forall d :: d in list ==> d.attempt == d.row.attempts + 1
      requires forall d :: d in list ==> d.row.id in ByRow(list) && ByRow(list)[d.row.id] == d.failure
      modifies this`outbox
      ensures outbox == BookAll(old(outbox), ByRow(list))
      ensures var rows := set d | d in list :: d.row;
              && sent == |WithFate(rows, ByRow(list), Sent)|
              && failed == |WithFate(rows, ByRow(list), Retried)|
              && dead == |WithFate(rows, ByRow(list), Dead)|
    {
      ghost var table, outcomes := outbox, ByRow(list);
      sent, failed, dead := 0, 0, 0;
      for i := 0 to |list|
        invariant outbox == BookAll(table, ByRow(list[..i]))
        invariant sent == |WithFate(Done(list, i), outcomes, Sent)|
        invariant failed == |WithFate(Done(list, i), outcomes, Retried)|
        invariant dead == |WithFate(Done(list, i), outcomes, Dead)|
      {
        var d := list[i];
        BookedOneMore(table, list, i);
        BookRow(d);
        CountOneMore(list, i, outcomes, Sent);
        CountOneMore(list, i, outcomes, Retried);
        CountOneMore(list, i, outcomes, Dead);
        if d.failure.None? {
          sent := sent + 1;
        } else if d.attempt >= MAX_ATTEMPTS {
          dead := dead + 1;
        } else {
          failed := failed + 1;
        }
      }
      assert list[..|list|] == list;
      assert Done(list, |list|) == set d | d in list :: d.row;
    }

    /**
     * One pass. Whatever order the lanes ran in, the outbox, the tables and the counts are
     * those of the sequential drain.
     */
    method DrainOnce(batchSize: nat) returns (result: DrainResult)
      requires WellFormed(outbox)
      modifies this`outbox, store
      ensures (outbox, store.Tables(), result) == Drain(old(outbox), old(store.Tables()), batchSize)
      ensures WellFormed(outbox)
      ensures |outbox| == |old(outbox)| && Drained(old(outbox), outbox, batchSize)
      ensures result.claimed == if Waiting(old(outbox)) < batchSize then Waiting(old(outbox)) else batchSize
    {
      hide Drained, Waiting;
      DrainTakes(outbox, store.Tables(), batchSize);
      var rows := Claim(outbox, batchSize);
      ClaimIsClaimable(outbox, batchSize);
      ghost var table := outbox;
      ghost var start := Progress(store.Tables(), map[]);
      var laneCount := if |rows| < HANDLER_CONCURRENCY then |rows| else HANDLER_CONCURRENCY;
      var list: seq<Delivered> := [];
      if laneCount > 0 {
        var lanes := Partition(rows, laneCount);
        list := RunLanes(lanes, rows, r => LaneFor(r, laneCount));
      }
      var sent, failed, dead := BookOutcomes(list);
      SameRowSet(list, rows);
      BookingKeepsForm(table, ByRow(list));
      result := DrainResult(|rows|, sent, failed, dead);
    }
  }

  lemma SameRowSet(list: seq<Delivered>, rows: seq<OutboxRow>)
    requires forall r :: r in rows <==> r in RowsOf(list)
    ensures (set d | d in list :: d.row) == set r | r in rows
  {
    forall r | r in RowsOf(list)
      ensures exists d :: d in list && d.row == r
    {
      var i :| 0 <= i < |list| && RowsOf(list)[i] == r;
      assert list[i] in list;
    }
  }

  lemma BookingKeepsForm(outbox: seq<OutboxRow>, outcomes: Outcomes)
    requires WellFormed(outbox)
    ensures WellFormed(BookAll(outbox, outcomes))
  {
    var after := BookAll(outbox, outcomes);
    forall i | 0 <= i < |after|
      ensures after[i].id == outbox[i].id && after[i].event == outbox[i].event
    {
    }
    forall a, b | a in after && b in after && a.event.id == b.event.id
      ensures a.event.paymentId == b.event.paymentId
    {
      var i, j :| 0 <= i < |after| && 0 <= j < |after| && after[i] == a && after[j] == b;
      assert outbox[i] in outbox && outbox[j] in outbox;
    }
  }

  lemma BookedOneMore(table: seq<OutboxRow>, list: seq<Delivered>, i: nat)
    requires i < |list| && Claimable(RowsOf(list))
    ensures BookAll(BookAll(table, ByRow(list[..i])), map[list[i].row.id := list[i].failure])
         == BookAll(table, ByRow(list[..i+1]))
  {
    assert list[..i+1][..i] == list[..i];
    forall k | 0 <= k < i
      ensures list[k].row.id != list[i].row.id
    {
      assert RowsOf(list)[k].id != RowsOf(list)[i].id;
    }
    ByRowKeys(list[..i]);
  }

  lemma {:induction false} ByRowKeys(list: seq<Delivered>)
    ensures forall id :: id in ByRow(list) ==> exists k :: 0 <= k < |list| && list[k].row.id == id
  {
    if list != [] {
      ByRowKeys(list[..|list|-1]);
    }
  }

  /** The rows of the first `i` entries. */
  ghost function Done(list: seq<Delivered>, i: nat): set<OutboxRow>
    requires i <= |list|
  {
    set k | 0 <= k < i :: list[k].row
  }

  lemma CountOneMore(list: seq<Delivered>, i: nat, outcomes: Outcomes, fate: Fate)
    requires i < |list| && Claimable(RowsOf(list)) && list[i].row.id in outcomes
    ensures |WithFate(Done(list, i + 1), outcomes, fate)| == |WithFate(Done(list, i), outcomes, fate)|
              + if FateOf(list[i].row, outcomes[list[i].row.id]) == fate then 1 else 0
  {
    var r, before, after := list[i].row, Done(list, i), Done(list, i + 1);
    assert after == before + {r};
    assert r !in before by { assert forall k :: 0 <= k < i ==> RowsOf(list)[k].id != RowsOf(list)[i].id; }
    WithFateAdd(before, r, outcomes, fate);
  }

  lemma WithFateAdd(rows: set<OutboxRow>, r: OutboxRow, outcomes: Outcomes, fate: Fate)
    requires r !in rows && r.id in outcomes
    ensures |WithFate(rows + {r}, outcomes, fate)|
         == |WithFate(rows, outcomes, fate)| + if FateOf(r, outcomes[r.id]) == fate then 1 else 0
  {
    var before, after := WithFate(rows, outcomes, fate), WithFate(rows + {r}, outcomes, fate);
    if FateOf(r, outcomes[r.id]) == fate {
      assert after == before + {r};
    } else {
      assert after == before;
    }
  }

  lemma {:induction false} ByRowHolds(list: seq<Delivered>)
    requires Claimable(RowsOf(list))
    ensures forall d :: d in list ==> d.row.id in ByRow(list) && ByRow(list)[d.row.id] == d.failure
  {
    if list != [] {
      var front := list[..|list|-1];
      assert Claimable(RowsOf(front)) by {
        assert RowsOf(front) == RowsOf(list)[..|list|-1];
        assert forall r :: r in RowsOf(front) ==> r in RowsOf(list);
      }
      ByRowHolds(front);
      forall d | d in list
        ensures d.row.id in ByRow(list) && ByRow(list)[d.row.id] == d.failure
      {
        var i :| 0 <= i < |list| && list[i] == d;
        if i < |front| {
          assert front[i] == d;
          assert RowsOf(list)[i].id != RowsOf(list)[|front|].id;
        }
      }
    }
  }

  /** The next row of a lane has not been delivered. */
  lemma NextIsNew(rows: seq<OutboxRow>, run: seq<OutboxRow>, l: nat, pos: nat, lane: Lanes)
    requires Claimable(rows) && pos < |LaneRows(rows, l, lane)|
    requires LaneRows(run, l, lane) == LaneRows(rows, l, lane)[..pos]
    ensures LaneRows(rows, l, lane)[pos] in rows && LaneRows(rows, l, lane)[pos] !in run
    ensures forall r :: r in run && r in rows ==> r.id != LaneRows(rows, l, lane)[pos].id
  {
    var all := LaneRows(rows, l, lane);
    var r := all[pos];
    LaneRowsMembers(rows, l, lane);
    LaneRowsMembers(run, l, lane);
    LaneRowsDistinct(rows, l, lane);
    assert r in all;
    forall x | x in run && x in rows
      ensures x.id != r.id
    {
      if lane(x) == l {
        assert x in LaneRows(run, l, lane);
        assert exists i :: 0 <= i < pos && all[i] == x;
      } else {
        assert x != r;
        var i, j :| 0 <= i < |rows| && 0 <= j < |rows| && rows[i] == x && rows[j] == r;
      }
    }
  }

  /** How far the lanes have got, and that no row has been delivered twice. */
  ghost predicate UnderWay(run: seq<OutboxRow>, pos: seq<nat>, lanes: seq<seq<OutboxRow>>,
                           rows: seq<OutboxRow>, left: set<OutboxRow>, lane: Lanes) {
    && |pos| == |lanes|
    && (forall l :: 0 <= l < |lanes| ==> pos[l] <= |lanes[l]|)
    && (forall l :: 0 <= l < |lanes| ==> LaneRows(run, l, lane) == lanes[l][..pos[l]])
    && (forall r :: r in run <==> r in rows && r !in left)
    && (forall r :: r in left ==> r in rows)
    && Claimable(run)
  }

  lemma LaneAdvances(run: seq<OutboxRow>, pos: seq<nat>, lanes: seq<seq<OutboxRow>>,
                     rows: seq<OutboxRow>, left: set<OutboxRow>, l: nat, lane: Lanes)
    requires UnderWay(run, pos, lanes, rows, left, lane) && Claimable(rows)
    requires l < |lanes| && pos[l] < |lanes[l]| && lanes[l] == LaneRows(rows, l, lane)
    ensures lanes[l][pos[l]] in left
    ensures UnderWay(run + [lanes[l][pos[l]]], pos[l := pos[l] + 1], lanes, rows, left - {lanes[l][pos[l]]}, lane)
  {
    var r := lanes[l][pos[l]];
    NextIsNew(rows, run, l, pos[l], lane);
    assert forall x :: x in run + [r] <==> x in run || x == r;
    LaneRowsMembers(rows, l, lane);
    assert r in lanes[l];
    LanesAdvance(run, pos, lanes, l, lane);
    assert Claimable(run + [r]) by {
      assert forall i :: 0 <= i < |run| ==> run[i] in run;
    }
  }

  lemma LanesAdvance(run: seq<OutboxRow>, pos: seq<nat>, lanes: seq<seq<OutboxRow>>, l: nat, lane: Lanes)
    requires |pos| == |lanes| && forall k :: 0 <= k < |lanes| ==> pos[k] <= |lanes[k]|
    requires forall k :: 0 <= k < |lanes| ==> LaneRows(run, k, lane) == lanes[k][..pos[k]]
    requires l < |lanes| && pos[l] < |lanes[l]| && lane(lanes[l][pos[l]]) == l
    ensures forall k :: 0 <= k < |lanes| ==>
              LaneRows(run + [lanes[l][pos[l]]], k, lane) == lanes[k][..pos[l := pos[l] + 1][k]]
  {
    var r := lanes[l][pos[l]];
    forall k | 0 <= k < |lanes|
      ensures LaneRows(run + [r], k, lane) == lanes[k][..pos[l := pos[l] + 1][k]]
    {
      LaneRowsAppend(run, [r], k, lane);
      assert LaneRows([r], k, lane) == if k == l then [r] else [];
    }
  }

  lemma DeliveredOneMore(start: Progress, before: Db, list: seq<Delivered>, d: Delivered, after: Db)
    requires Progress(before, ByRow(list)) == DeliverAll(start, RowsOf(list))
    requires (after, d.failure) == Deliver(before, d.row)
    ensures Progress(after, ByRow(list + [d])) == DeliverAll(start, RowsOf(list + [d]))
    ensures RowsOf(list + [d]) == RowsOf(list) + [d.row]
  {
    assert (list + [d])[..|list|] == list;
    assert RowsOf(list + [d]) == RowsOf(list) + [d.row];
    DeliverAppend(start, RowsOf(list), [d.row]);
    assert DeliverAll(DeliverAll(start, RowsOf(list)), [d.row]) == Next(DeliverAll(start, RowsOf(list)), d.row);
  }

  lemma {:induction false} LaneRowsDistinct(rows: seq<OutboxRow>, l: nat, lane: Lanes)
    requires Claimable(rows)
    ensures forall i, j :: 0 <= i < j < |LaneRows(rows, l, lane)| ==>
              LaneRows(rows, l, lane)[i].id != LaneRows(rows, l, lane)[j].id
  {
    if rows != [] {
      assert Claimable(rows[1..]);
      LaneRowsDistinct(rows[1..], l, lane);
      LaneRowsMembers(rows[1..], l, lane);
      assert forall r :: r in rows[1..] ==> r.id != rows[0].id;
    }
  }

  lemma AllDelivered(rows: seq<OutboxRow>, run: seq<OutboxRow>, lanes: seq<seq<OutboxRow>>, lane: Lanes)
    requires forall l :: 0 <= l < |lanes| ==> LaneRows(run, l, lane) == LaneRows(rows, l, lane)
    requires forall r :: r in rows ==> lane(r) < |lanes|
    requires forall r :: r in run ==> lane(r) < |lanes|
    ensures Interleaves(run, rows, lane)
    ensures forall r :: r in rows ==> r in run
  {
    forall l: nat
      ensures LaneRows(run, l, lane) == LaneRows(rows, l, lane)
    {
      if l >= |lanes| {
        NoneOfLane(run, l, lane);
        NoneOfLane(rows, l, lane);
      }
    }
    SameRows(run, rows, lane);
  }

  /** Every claimed row is booked exactly one way. */
  lemma DrainAccountsForEveryRow(outbox: seq<OutboxRow>, db: Db, limit: nat)
    requires WellFormed(outbox)
    ensures var r := Drain(outbox, db, limit).2; r.claimed == r.sent + r.failed + r.deadLettered
  {
    var rows := Claim(outbox, limit);
    ClaimIsClaimable(outbox, limit);
    var outcomes := DeliverAll(Progress(db, map[]), rows).outcomes;
    EveryRowHasOutcome(Progress(db, map[]), rows);
    var all := set r | r in rows;
    var sent, dead, retry :=
        WithFate(all, outcomes, Sent), WithFate(all, outcomes, Dead), WithFate(all, outcomes, Retried);
    assert all == sent + dead + retry;
    ThreeParts(sent, dead, retry);
    DistinctCount(rows);
  }

  lemma ThreeParts<T>(a: set<T>, b: set<T>, c: set<T>)
    requires a !! b && a !! c && b !! c
    ensures |a + b + c| == |a| + |b| + |c|
  {
  }

  lemma {:induction false} EveryRowHasOutcome(s: Progress, rows: seq<OutboxRow>)
    ensures s.outcomes.Keys <= DeliverAll(s, rows).outcomes.Keys
    ensures forall r :: r in rows ==> r.id in DeliverAll(s, rows).outcomes
    decreases |rows|
  {
    if rows != [] {
      EveryRowHasOutcome(Next(s, rows[0]), rows[1..]);
      assert forall r :: r in rows ==> r == rows[0] || r in rows[1..];
    }
  }

  lemma {:induction false} DistinctCount(rows: seq<OutboxRow>)
    requires Claimable(rows)
    ensures |set r | r in rows| == |rows|
  {
    if rows != [] {
      var front := rows[..|rows|-1];
      assert Claimable(front) by { assert forall r :: r in front ==> r in rows; }
      DistinctCount(front);
      assert (set r | r in rows) == (set r | r in front) + {rows[|rows|-1]};
      assert rows[|rows|-1] !in front;
    }
  }

  // ---- What a drain does to each row, and over many drains ----

  /** How many of the rows are neither sent nor dead-lettered. */
  function Waiting(rows: seq<OutboxRow>): nat {
    if rows == [] then 0
    else Waiting(rows[..|rows|-1]) + if !rows[|rows|-1].sent && !rows[|rows|-1].deadLettered then 1 else 0
  }

  /** Row `i` waits, and fewer than `limit` rows before it do. */
  predicate IsTaken(outbox: seq<OutboxRow>, i: nat, limit: nat)
    requires i < |outbox|
  {
    !outbox[i].sent && !outbox[i].deadLettered && Waiting(outbox[..i]) < limit
  }

  /** `s` is the row `r` after one more attempt: sent, dead at the fifth attempt, or still waiting. */
  predicate AttemptedOnce(r: OutboxRow, s: OutboxRow) {
    && s == r.(attempts := r.attempts + 1, sent := s.sent, deadLettered := s.deadLettered)
    && (s.deadLettered <==> !s.sent && s.attempts >= 5)
  }

  /** Of the rows there were, the drain attempted exactly those it had to take; more rows may have come. */
  ghost predicate Drained(before: seq<OutboxRow>, after: seq<OutboxRow>, limit: nat) {
    && |before| <= |after|
    && forall i :: 0 <= i < |before| ==>
         if IsTaken(before, i, limit) then AttemptedOnce(before[i], after[i]) else after[i] == before[i]
  }

  lemma {:induction false} WaitingSplit(a: seq<OutboxRow>, b: seq<OutboxRow>)
    ensures Waiting(a + b) == Waiting(a) + Waiting(b)
  {
    if b == [] {
      assert a + b == a;
    } else {
      assert (a + b)[..|a + b|-1] == a + b[..|b|-1];
      WaitingSplit(a, b[..|b|-1]);
    }
  }

  lemma {:induction false} ClaimCount(outbox: seq<OutboxRow>, limit: nat)
    ensures |Claim(outbox, limit)| == if Waiting(outbox) < limit then Waiting(outbox) else limit
  {
    if outbox != [] && limit > 0 {
      ClaimCount(outbox[1..], if Pending(outbox[0]) then limit - 1 else limit);
      assert outbox == [outbox[0]] + outbox[1..];
      WaitingSplit([outbox[0]], outbox[1..]);
      assert Waiting([outbox[0]]) == if Pending(outbox[0]) then 1 else 0;
    }
  }

  lemma TakenInTail(outbox: seq<OutboxRow>, limit: nat, i: nat)
    requires 0 < i < |outbox| && limit > 0
    ensures IsTaken(outbox, i, limit)
       <==> IsTaken(outbox[1..], i - 1, if Pending(outbox[0]) then limit - 1 else limit)
  {
    assert outbox[..i] == [outbox[0]] + outbox[1..][..i-1];
    WaitingSplit([outbox[0]], outbox[1..][..i-1]);
    assert Waiting([outbox[0]]) == if Pending(outbox[0]) then 1 else 0;
  }

  /** The claim is the rows to take. */
  lemma {:induction false} ClaimTakes(outbox: seq<OutboxRow>, limit: nat, i: nat)
    requires i < |outbox| && forall j, k :: 0 <= j < k < |outbox| ==> outbox[j].id < outbox[k].id
    ensures outbox[i] in Claim(outbox, limit) <==> IsTaken(outbox, i, limit)
  {
    if limit > 0 && i > 0 {
      hide IsTaken;
      var head, rest := outbox[0], outbox[1..];
      ClaimTakes(rest, if Pending(head) then limit - 1 else limit, i - 1);
      TakenInTail(outbox, limit, i);
      assert outbox[i] == rest[i-1] && outbox[i] != head;
    } else if limit > 0 {
      assert forall r :: r in outbox[1..] ==> r.id > outbox[0].id;
    }
  }

  /** An outcome's key is the id of a row delivered. */
  lemma {:induction false} OutcomesAreOfRows(s: Progress, rows: seq<OutboxRow>)
    ensures forall id :: id in DeliverAll(s, rows).outcomes ==>
              id in s.outcomes || exists r :: r in rows && r.id == id
    decreases |rows|
  {
    if rows != [] {
      OutcomesAreOfRows(Next(s, rows[0]), rows[1..]);
      assert rows[0] in rows;
    }
  }

  /** Booking the outcomes of the rows taken attempts each of them once. */
  lemma BookingAttempts(outbox: seq<OutboxRow>, outcomes: Outcomes, limit: nat)
    requires forall i :: 0 <= i < |outbox| ==> (outbox[i].id in outcomes <==> IsTaken(outbox, i, limit))
    ensures Drained(outbox, BookAll(outbox, outcomes), limit)
  {
    hide IsTaken;
    forall i | 0 <= i < |outbox| && IsTaken(outbox, i, limit)
      ensures AttemptedOnce(outbox[i], BookAll(outbox, outcomes)[i])
    {
      BookingAttemptsOnce(outbox, i, outcomes[outbox[i].id], limit);
    }
  }

  lemma BookingAttemptsOnce(outbox: seq<OutboxRow>, i: nat, failure: Option<Failure>, limit: nat)
    requires i < |outbox| && IsTaken(outbox, i, limit)
    ensures AttemptedOnce(outbox[i], Book(outbox[i], failure))
  {
  }

  /** One drain attempts the first waiting rows, up to the limit, and leaves every other row alone. */
  lemma DrainTakes(outbox: seq<OutboxRow>, db: Db, limit: nat)
    requires WellFormed(outbox)
    ensures |Drain(outbox, db, limit).0| == |outbox| && Drained(outbox, Drain(outbox, db, limit).0, limit)
    ensures Drain(outbox, db, limit).2.claimed == if Waiting(outbox) < limit then Waiting(outbox) else limit
  {
    hide DeliverAll, Claim, Waiting, IsTaken, Drained, Book, WithFate;
    var rows := Claim(outbox, limit);
    var outcomes := DeliverAll(Progress(db, map[]), rows).outcomes;
    ClaimCount(outbox, limit);
    EveryRowHasOutcome(Progress(db, map[]), rows);
    OutcomesAreOfRows(Progress(db, map[]), rows);
    forall i | 0 <= i < |outbox|
      ensures outbox[i].id in outcomes <==> IsTaken(outbox, i, limit)
    {
      ClaimTakes(outbox, limit, i);
      SameIdSameRow(outbox, rows, i);
    }
    BookingAttempts(outbox, outcomes, limit);
  }

  lemma SameIdSameRow(outbox: seq<OutboxRow>, rows: seq<OutboxRow>, i: nat)
    requires WellFormed(outbox) && i < |outbox| && forall r :: r in rows ==> r in outbox
    ensures forall r :: r in rows && r.id == outbox[i].id ==> r == outbox[i]
  {
    forall r | r in rows && r.id == outbox[i].id
      ensures r == outbox[i]
    {
      var j :| 0 <= j < |outbox| && outbox[j] == r;
    }
  }

  /** An event is acknowledged only once it is marked, and if its payment exists it is acknowledged. */
  ghost predicate OutcomeFits(r: OutboxRow, failure: Option<Failure>, known: set<PaymentId>, processed: set<EventId>) {
    && (failure.None? ==> r.topic.PaymentEvent? && r.event.id in processed)
    && (r.topic.PaymentEvent? && r.event.paymentId in known ==> failure.None?)
  }

  lemma DeliverFits(db: Db, r: OutboxRow)
    ensures OutcomeFits(r, Deliver(db, r).1, db.payments.Keys, Deliver(db, r).0.processed)
    ensures db.payments.Keys <= Deliver(db, r).0.payments.Keys && db.processed <= Deliver(db, r).0.processed
  {
    OutcomeMeans(db, r.event);
    ProjectOnlyAdds(db, r.event);
  }

  lemma {:induction false} DeliveriesFit(s: Progress, rows: seq<OutboxRow>)
    requires Claimable(rows)
    ensures s.db.processed <= DeliverAll(s, rows).db.processed
    ensures forall id :: id in s.outcomes && (forall r :: r in rows ==> r.id != id) ==>
              id in DeliverAll(s, rows).outcomes && DeliverAll(s, rows).outcomes[id] == s.outcomes[id]
    ensures forall r :: r in rows ==>
              && r.id in DeliverAll(s, rows).outcomes
              && OutcomeFits(r, DeliverAll(s, rows).outcomes[r.id], s.db.payments.Keys,
                             DeliverAll(s, rows).db.processed)
    decreases |rows|
  {
    hide Deliver;
    if rows != [] {
      var head, rest := rows[0], rows[1..];
      assert forall r :: r in rest ==> r.id != head.id;
      assert forall r :: r in rows ==> r == head || r in rest;
      DeliverFits(s.db, head);
      DeliveriesFit(Next(s, head), rest);
    }
  }

  /** Which of the rows taken a drain sends: those whose handler acknowledged. */
  lemma DrainSends(outbox: seq<OutboxRow>, db: Db, limit: nat, i: nat)
    requires WellFormed(outbox) && i < |outbox| && IsTaken(outbox, i, limit)
    ensures var (after, tables, _) := Drain(outbox, db, limit);
            && (after[i].sent ==> outbox[i].topic.PaymentEvent? && outbox[i].event.id in tables.processed)
            && (outbox[i].topic.PaymentEvent? && outbox[i].event.paymentId in db.payments ==> after[i].sent)
  {
    hide DeliverAll, Claim, WithFate;
    var rows := Claim(outbox, limit);
    ClaimIsClaimable(outbox, limit);
    ClaimTakes(outbox, limit, i);
    DeliveriesFit(Progress(db, map[]), rows);
  }

  /** As many rows as places, since no two places hold one row. */
  lemma {:induction false} RowsAtPlaces(outbox: seq<OutboxRow>, places: set<nat>)
    requires WellFormed(outbox) && forall i :: i in places ==> i < |outbox|
    ensures |set i | i in places :: outbox[i]| == |places|
    decreases |places|
  {
    if places != {} {
      var p :| p in places;
      RowsAtPlaces(outbox, places - {p});
      var others := set i | i in places - {p} :: outbox[i];
      assert outbox[p] !in others;
      assert (set i | i in places :: outbox[i]) == others + {outbox[p]};
    }
  }

  /** The places of the rows a drain sent, and of those it gave up. */
  ghost function NewlySent(before: seq<OutboxRow>, after: seq<OutboxRow>): set<nat>
    requires |before| <= |after|
  {
    set i | 0 <= i < |before| && !before[i].sent && after[i].sent
  }

  ghost function NewlyDead(before: seq<OutboxRow>, after: seq<OutboxRow>): set<nat>
    requires |before| <= |after|
  {
    set i | 0 <= i < |before| && !before[i].deadLettered && after[i].deadLettered
  }

  /** The counters a drain reports are the rows whose state it changed. */
  lemma DrainCounts(outbox: seq<OutboxRow>, db: Db, limit: nat)
    requires WellFormed(outbox)
    ensures var (after, _, result) := Drain(outbox, db, limit);
            && result.sent == |NewlySent(outbox, after)|
            && result.deadLettered == |NewlyDead(outbox, after)|
            && result.claimed == result.sent + result.failed + result.deadLettered
  {
    hide DeliverAll, Claim, WithFate, NewlySent, NewlyDead, Book, FateOf, BookAll;
    var rows := Claim(outbox, limit);
    var outcomes := DeliverAll(Progress(db, map[]), rows).outcomes;
    OutcomesAreOfRows(Progress(db, map[]), rows);
    DrainAccountsForEveryRow(outbox, db, limit);
    NewlyBooked(outbox, rows, outcomes);
    FateIsSeen(outbox, rows, outcomes, Sent, NewlySent(outbox, BookAll(outbox, outcomes)));
    FateIsSeen(outbox, rows, outcomes, Dead, NewlyDead(outbox, BookAll(outbox, outcomes)));
  }

  lemma NewlyBooked(outbox: seq<OutboxRow>, rows: seq<OutboxRow>, outcomes: Outcomes)
    requires WellFormed(outbox) && forall r :: r in rows ==> r in outbox && Pending(r)
    requires forall id :: id in outcomes ==> exists r :: r in rows && r.id == id
    ensures forall i :: i in NewlySent(outbox, BookAll(outbox, outcomes)) <==>
              0 <= i < |outbox| && outbox[i].id in outcomes && FateOf(outbox[i], outcomes[outbox[i].id]) == Sent
    ensures forall i :: i in NewlyDead(outbox, BookAll(outbox, outcomes)) <==>
              0 <= i < |outbox| && outbox[i].id in outcomes && FateOf(outbox[i], outcomes[outbox[i].id]) == Dead
  {
    forall i | 0 <= i < |outbox| && outbox[i].id in outcomes
      ensures Pending(outbox[i])
    {
      SameIdSameRow(outbox, rows, i);
    }
  }

  lemma FateIsSeen(outbox: seq<OutboxRow>, rows: seq<OutboxRow>, outcomes: Outcomes, fate: Fate, places: set<nat>)
    requires WellFormed(outbox) && forall r :: r in rows ==> r in outbox
    requires forall id :: id in outcomes ==> exists r :: r in rows && r.id == id
    requires forall i :: i in places <==>
               0 <= i < |outbox| && outbox[i].id in outcomes && FateOf(outbox[i], outcomes[outbox[i].id]) == fate
    ensures |WithFate((set r | r in rows), outcomes, fate)| == |places|
  {
    hide FateOf;
    forall i | 0 <= i < |outbox| && outbox[i].id in outcomes
      ensures outbox[i] in rows
    {
      SameIdSameRow(outbox, rows, i);
    }
    RowsAtPlaces(outbox, places);
    assert WithFate((set r | r in rows), outcomes, fate) == set i | i in places :: outbox[i];
  }

  /** The attempts the rows can still take before each of them is dead. */
  function AttemptsLeft(rows: seq<OutboxRow>): nat {
    if rows == [] then 0
    else
      var r := rows[|rows|-1];
      AttemptsLeft(rows[..|rows|-1])
      + if r.sent || r.deadLettered then 0 else if r.attempts < 5 then 5 - r.attempts else 1
  }

  lemma {:induction false} AtMostFiveEach(rows: seq<OutboxRow>)
    ensures AttemptsLeft(rows) <= 5 * Waiting(rows)
  {
    if rows != [] {
      AtMostFiveEach(rows[..|rows|-1]);
    }
  }

  /** A drain spends at least one attempt on the rows up to any place where one waits. */
  lemma {:induction false} DrainSpends(before: seq<OutboxRow>, after: seq<OutboxRow>, limit: nat, n: nat)
    requires Drained(before, after, limit) && limit > 0 && n <= |before|
    ensures AttemptsLeft(after[..n]) <= AttemptsLeft(before[..n])
    ensures Waiting(before[..n]) > 0 ==> AttemptsLeft(after[..n]) < AttemptsLeft(before[..n])
  {
    if n > 0 {
      DrainSpends(before, after, limit, n - 1);
      assert before[..n][..n-1] == before[..n-1] && after[..n][..n-1] == after[..n-1];
      assert IsTaken(before, n - 1, limit) ==> AttemptedOnce(before[n-1], after[n-1]);
    }
  }

  /** Drains one after the other; between two of them rows may be added. */
  ghost predicate DrainRun(states: seq<seq<OutboxRow>>, limit: nat) {
    && states != []
    && forall k :: 0 <= k < |states| - 1 ==> Drained(states[k], states[k+1], limit)
  }

  lemma {:induction false} SettledStays(states: seq<seq<OutboxRow>>, limit: nat, i: nat)
    requires DrainRun(states, limit) && i < |states[0]|
    requires states[0][i].sent || states[0][i].deadLettered
    ensures i < |states[|states|-1]| && states[|states|-1][i] == states[0][i]
    decreases |states|
  {
    if |states| > 1 {
      assert Drained(states[0], states[1], limit);
      SettledStays(states[1..], limit, i);
    }
  }

  lemma {:induction false} SettlesWithin(states: seq<seq<OutboxRow>>, limit: nat, i: nat)
    requires DrainRun(states, limit) && limit > 0 && i < |states[0]|
    requires |states| > AttemptsLeft(states[0][..i+1])
    ensures var last := states[|states|-1];
            i < |last| && last[i].id == states[0][i].id && (last[i].sent || last[i].deadLettered)
    decreases |states|
  {
    if states[0][i].sent || states[0][i].deadLettered {
      SettledStays(states, limit, i);
    } else {
      assert states[0][..i+1][..i] == states[0][..i];
      assert Drained(states[0], states[1], limit);
      DrainSpends(states[0], states[1], limit, i + 1);
      SettlesWithin(states[1..], limit, i);
    }
  }

  /**
   * No row waits for ever: whatever each handler call did, after five drains for every row waiting
   * up to a row, itself included, that row is sent or dead-lettered, and it stays what it is.
   */
  lemma EveryRowSettles(states: seq<seq<OutboxRow>>, limit: nat, i: nat)
    requires DrainRun(states, limit) && limit > 0 && i < |states[0]|
    requires |states| > 5 * Waiting(states[0][..i+1])
    ensures var last := states[|states|-1];
            i < |last| && last[i].id == states[0][i].id && (last[i].sent || last[i].deadLettered)
  {
    AtMostFiveEach(states[0][..i+1]);
    SettlesWithin(states, limit, i);
  }

  /**
   * Why the confluence is about a drain whose handlers do not fail transiently: when the
   * `attempted` of a created payment fails once, its `authorized` is refused and marked, and
   * after both retries the payment is attempted for good instead of authorized.
   */
  lemma TransientFailureStrands(db: Db, attempted: Event, authorized: Event)
    requires attempted.kind == PaymentAttempted && authorized.kind == PaymentAuthorized
    requires attempted.paymentId == authorized.paymentId && attempted.paymentId in db.payments
    requires db.payments[attempted.paymentId].state == Created
    requires db.payments[attempted.paymentId].lastEventAt <= attempted.occurredAt <= authorized.occurredAt
    requires attempted.id != authorized.id && {attempted.id, authorized.id} !! db.processed
    ensures var inOrder := Project(Project(db, attempted).0, authorized).0;
            attempted.paymentId in inOrder.payments && inOrder.payments[attempted.paymentId].state == Authorized
    ensures var refused := Project(db, authorized);
            var late := Project(refused.0, attempted).0;
            && refused.1 == Rejected(NotMoved(InvalidTransition))
            && attempted.paymentId in late.payments && late.payments[attempted.paymentId].state == Attempted
            && Project(late, authorized) == (late, AlreadyProcessed)
  {
  }
}
