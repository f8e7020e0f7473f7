/**
 * The projector (apps/api/src/app/projector.ts) and the abandonment sweep
 * (apps/api/src/app/abandonment.ts): one transaction per event over the marker,
 * the payment row, its history and the rollup rows.
 */
module Projection {
  import opened Wrappers
  import opened PaymentState
  import opened Rollups

  const MAX_AMOUNT_PAISE := 1_000_000_000

  /** The `data` of payment.created, as far as the projector reads it. */
  datatype CreatedData = CreatedData(
    merchantId: MerchantId,
    customerId: string,
    amountPaise: int,
    paymentMethod: string,
    bank: Option<string>,
    cardCountry: Option<string>,
    cardNetwork: Option<string>,
    isInternational: bool,
    gateway: string)

  datatype Event = Event(
    id: EventId,
    paymentId: PaymentId,
    kind: EventKind,
    occurredAt: int,
    data: Option<CreatedData>,
    failureCode: Option<string>,
    gateway: Option<string>)

  datatype Reason = AlreadyCreated | InvalidPayload | NotMoved(error: TransitionError)

  /** `NotFound` is the thrown outcome: the transaction rolls back. */
  datatype Outcome =
    | PaymentAdded
    | Applied(from: State, to: State)
    | StaleRecorded(state: State)
    | AlreadyProcessed
    | Rejected(reason: Reason)
    | NotFound

  /** The tables one projection reads and writes; the history is kept per payment. */
  datatype Db = Db(
    payments: map<PaymentId, Payment>,
    processed: set<EventId>,
    history: map<PaymentId, seq<TransitionRow>>,
    rollup: map<Key, Cell>)

  const EMPTY := Db(map[], {}, map[], map[])

  function Rows(db: Db, id: PaymentId): seq<TransitionRow> {
    if id in db.history then db.history[id] else []
  }

  predicate NonEmpty(s: Option<string>) {
    s.Some? ==> s.value != ""
  }

  /** The schema payment.created is parsed against. */
  predicate Parses(d: CreatedData) {
    && d.merchantId.text != "" && d.customerId != "" && d.gateway != ""
    && 0 < d.amountPaise <= MAX_AMOUNT_PAISE
    && d.paymentMethod in {"upi", "card", "netbanking", "wallet"}
    && NonEmpty(d.bank) && NonEmpty(d.cardNetwork)
    && (d.cardCountry.Some? ==> |d.cardCountry.value| == 2)
  }

  function NewPayment(d: CreatedData, at: int): Payment {
    Payment(d.merchantId, d.customerId, d.amountPaise, d.paymentMethod, d.bank, d.cardCountry, d.cardNetwork,
            d.isInternational, Created, at, at, 1, None, d.gateway, false, 0)
  }

  /** The UPDATE of a payment that moves. */
  function MovePayment(p: Payment, e: Event, next: State): Payment {
    p.(state := next,
       lastEventAt := e.occurredAt,
       attemptIndex := p.attemptIndex + if IncrementsAttemptIndex(p.state, next) then 1 else 0,
       failureCode := if e.kind == PaymentFailed then e.failureCode else None,
       gateway := if e.kind == PaymentAttempted && e.gateway.Some? then e.gateway.value else p.gateway,
       abandoned := false,
       version := p.version + 1)
  }

  function AddRow(db: Db, id: PaymentId, row: TransitionRow): map<PaymentId, seq<TransitionRow>> {
    db.history[id := Rows(db, id) + [row]]
  }

  /** What one transaction writes: nothing here depends on any other payment. */
  datatype Writes = Writes(mark: bool, payment: Option<Payment>, row: Option<TransitionRow>,
                           subject: Option<Payment>, delta: Delta, outcome: Outcome)

  function ProjectionWrites(db: Db, e: Event): Writes {
    if e.id in db.processed then Writes(false, None, None, None, NOTHING, AlreadyProcessed)
    else if e.paymentId !in db.payments then
      if e.kind != PaymentCreated then Writes(false, None, None, None, NOTHING, NotFound)
      else if e.data.None? || !Parses(e.data.value) then
        Writes(true, None, None, None, NOTHING, Rejected(InvalidPayload))
      else
        var p := NewPayment(e.data.value, e.occurredAt);
        Writes(true, Some(p), None, Some(p), Delta(1, 0, 0, 0, p.amountPaise, 0), PaymentAdded)
    else if e.kind == PaymentCreated then Writes(true, None, None, None, NOTHING, Rejected(AlreadyCreated))
    else
      var p := db.payments[e.paymentId];
      match Transition(p.state, e.kind, Some(e.occurredAt), Some(p.lastEventAt))
      case Refused(error) => Writes(true, None, None, None, NOTHING, Rejected(NotMoved(error)))
      case Stale(s) =>
        Writes(true, None, Some(TransitionRow(p.state, s, e.id, e.occurredAt, true)), None, NOTHING, StaleRecorded(s))
      case Moved(next) =>
        var q := MovePayment(p, e, next);
        Writes(true, Some(q), Some(TransitionRow(p.state, next, e.id, e.occurredAt, false)),
               Some(p), Change(p, q), Applied(p.state, next))
  }

  function Write(db: Db, e: Event, w: Writes): Db {
    Db(if w.payment.Some? then db.payments[e.paymentId := w.payment.value] else db.payments,
       if w.mark then db.processed + {e.id} else db.processed,
       if w.row.Some? then AddRow(db, e.paymentId, w.row.value) else db.history,
       if w.subject.Some? then ApplyDelta(db.rollup, w.subject.value, w.delta) else db.rollup)
  }

  /** What one projection does to the tables. */
  function Project(db: Db, e: Event): (Db, Outcome) {
    var w := ProjectionWrites(db, e);
    (Write(db, e, w), w.outcome)
  }

  predicate Idle(p: Payment, cutoff: int) {
    p.state == Attempted && !p.abandoned && p.lastEventAt < cutoff
  }

  /** The domain rule, for dates that parse. */
  predicate IsAbandoned(p: Payment, now: int, idleMinutes: int) {
    p.state == Attempted && now - p.lastEventAt >= idleMinutes * 60_000
  }

  /** The sweep is stricter than the rule by exactly one instant. */
  lemma SweepWaitsOneInstant(p: Payment, now: int, idleMinutes: int)
    requires !p.abandoned
    ensures Idle(p, now - idleMinutes * 60_000)
       <==> IsAbandoned(p, now, idleMinutes) && now - p.lastEventAt != idleMinutes * 60_000
  {
  }

  function IdleSet(db: Db, cutoff: int): set<PaymentId> {
    set id | id in db.payments && Idle(db.payments[id], cutoff)
  }

  function FlagPayment(p: Payment): Payment {
    p.(abandoned := true, version := p.version + 1)
  }

  function FlagOne(db: Db, id: PaymentId): Db
    requires id in db.payments
  {
    db.(payments := db.payments[id := FlagPayment(db.payments[id])],
        rollup := ApplyDelta(db.rollup, db.payments[id], Delta(0, 0, 0, 1, 0, 0)))
  }

  /** Flags a list of payments, one after the other. */
  function FlagAll(db: Db, ids: seq<PaymentId>): (r: Db)
    requires forall id :: id in ids ==> id in db.payments
    ensures r.payments.Keys == db.payments.Keys
    ensures r.processed == db.processed && r.history == db.history
  {
    if ids == [] then db else FlagOne(FlagAll(db, ids[..|ids|-1]), ids[|ids|-1])
  }

  predicate Distinct<T(==)>(s: seq<T>) {
    forall i, j :: 0 <= i < j < |s| ==> s[i] != s[j]
  }

  /** `ids` lists every idle payment once, in the order the UPDATE returned them. */
  ghost predicate ListsIdle(db: Db, cutoff: int, ids: seq<PaymentId>) {
    Distinct(ids) && forall id :: id in ids <==> id in IdleSet(db, cutoff)
  }

  // ---- The store, updated in place ----

  class Store {
    var payments: map<PaymentId, Payment>
    var processed: set<EventId>
    var history: map<PaymentId, seq<TransitionRow>>
    var rollup: map<Key, Cell>

    ghost function Tables(): Db
      reads this
    {
      Db(payments, processed, history, rollup)
    }

    constructor ()
      ensures Tables() == EMPTY
    {
      payments, processed, history, rollup := map[], {}, map[], map[];
    }

    /** One upsert per dimension of the payment. */
    method ApplyRollupDelta(p: Payment, d: Delta)
      modifies this`rollup
      ensures rollup == ApplyDelta(old(rollup), p, d)
    {
      if d == NOTHING {
        return;
      }
      var dims := DimensionsOf(p);
      ghost var done: set<Key> := {};
      for i := 0 to |dims|
        invariant done == set j | 0 <= j < i :: KeyAt(p, dims[j])
        invariant rollup == BumpKeys(old(rollup), done, d)
      {
        var k := KeyAt(p, dims[i]);
        assert k !in done;
        rollup := rollup[k := Bump(Get(rollup, k), d)];
        done := done + {k};
      }
      assert done == KeysOf(p);
    }

    method CreatePayment(e: Event) returns (o: Outcome)
      modifies this`payments, this`rollup
      ensures e.data.None? || !Parses(e.data.value) ==>
                o == Rejected(InvalidPayload) && payments == old(payments) && rollup == old(rollup)
      ensures e.data.Some? && Parses(e.data.value) ==>
                var p := NewPayment(e.data.value, e.occurredAt);
                && o == PaymentAdded
                && payments == old(payments)[e.paymentId := p]
                && rollup == ApplyDelta(old(rollup), p, Delta(1, 0, 0, 0, p.amountPaise, 0))
    {
      if e.data.None? || !Parses(e.data.value) {
        return Rejected(InvalidPayload);
      }
      var p := NewPayment(e.data.value, e.occurredAt);
      payments := payments[e.paymentId := p];
      ApplyRollupDelta(p, Delta(1, 0, 0, 0, p.amountPaise, 0));
      return PaymentAdded;
    }

    /** The row update of a payment that moves, and the counters that move with it. */
    method Advance(e: Event, next: State)
      requires e.paymentId in payments
      modifies this`payments, this`rollup
      ensures var p := old(payments)[e.paymentId];
              var q := MovePayment(p, e, next);
              && payments == old(payments)[e.paymentId := q]
              && rollup == ApplyDelta(old(rollup), p, Change(p, q))
    {
      var p := payments[e.paymentId];
      payments := payments[e.paymentId := MovePayment(p, e, next)];
      var captured := Flag(next == Captured) - Flag(p.state == Captured);
      ApplyRollupDelta(p, Delta(0,
                                captured,
                                Flag(next == Failed) - Flag(p.state == Failed),
                                if p.abandoned then -1 else 0,
                                0,
                                p.amountPaise * captured));
    }

    /** One event, one transaction: the marker is claimed first and rolled back with a throw. */
    method ProjectEvent(e: Event) returns (o: Outcome)
      modifies this
      ensures (Tables(), o) == Project(old(Tables()), e)
    {
      if e.id in processed {
        return AlreadyProcessed;
      }
      processed := processed + {e.id};

      if e.paymentId !in payments {
        if e.kind != PaymentCreated {
          processed := processed - {e.id};
          assert processed == old(processed);
          return NotFound;
        }
        o := CreatePayment(e);
        return;
      }
      if e.kind == PaymentCreated {
        return Rejected(AlreadyCreated);
      }

      var p := payments[e.paymentId];
      var result := Transition(p.state, e.kind, Some(e.occurredAt), Some(p.lastEventAt));
      if result.Refused? {
        return Rejected(NotMoved(result.error));
      }

      var next := if result.Stale? then result.current else result.next;
      var rows := if e.paymentId in history then history[e.paymentId] else [];
      history := history[e.paymentId := rows + [TransitionRow(p.state, next, e.id, e.occurredAt, result.Stale?)]];
      if result.Stale? {
        return StaleRecorded(p.state);
      }

      Advance(e, next);
      return Applied(p.state, next);
    }

    /** The UPDATE of the sweep, returning the rows it touched. */
    method FlagIdleRows(cutoff: int) returns (ids: seq<PaymentId>)
      modifies this`payments
      ensures ListsIdle(old(Tables()), cutoff, ids)
      ensures payments == FlagAll(old(Tables()), ids).payments
    {
      var rest := set id | id in payments && Idle(payments[id], cutoff);
      ids := [];
      while rest != {}
        invariant Distinct(ids) && forall id :: id in ids ==> id in old(payments) && id !in rest
        invariant forall id :: id in rest || id in ids <==> id in IdleSet(old(Tables()), cutoff)
        invariant payments == FlagAll(old(Tables()), ids).payments
        decreases |rest|
      {
        var id :| id in rest;
        payments := payments[id := FlagPayment(payments[id])];
        assert (ids + [id])[..|ids|] == ids;
        ids := ids + [id];
        rest := rest - {id};
      }
    }

    /** Flags every attempted payment idle since before the cutoff, then counts each in the rollups. */
    method SweepAbandoned(now: int, idleMinutes: int) returns (ids: seq<PaymentId>)
      modifies this
      ensures ListsIdle(old(Tables()), now - idleMinutes * 60_000, ids)
      ensures Tables() == FlagAll(old(Tables()), ids)
    {
      hide ApplyDelta, ListsIdle;
      ids := FlagIdleRows(now - idleMinutes * 60_000);
      ListedAreThere(old(Tables()), now - idleMinutes * 60_000, ids);
      for i := 0 to |ids|
        invariant payments == FlagAll(old(Tables()), ids).payments
        invariant processed == old(processed) && history == old(history)
        invariant rollup == FlagAll(old(Tables()), ids[..i]).rollup
      {
        assert ids[..i+1][..i] == ids[..i];
        FlagKeepsSubject(old(Tables()), ids[..i], ids[i]);
        FlagKeepsSubject(old(Tables()), ids, ids[i]);
        SameSubjectSameDelta(rollup, payments[ids[i]], FlagAll(old(Tables()), ids[..i]).payments[ids[i]],
                             Delta(0, 0, 0, 1, 0, 0));
        ApplyRollupDelta(payments[ids[i]], Delta(0, 0, 0, 1, 0, 0));
      }
      assert ids[..|ids|] == ids;
    }
  }

  lemma ListedAreThere(db: Db, cutoff: int, ids: seq<PaymentId>)
    requires ListsIdle(db, cutoff, ids)
    ensures forall id :: id in ids ==> id in db.payments
  {
  }

  /** The two versions of a payment are counted under the same rollup rows. */
  lemma SameSubjectSameDelta(rollup: map<Key, Cell>, p: Payment, q: Payment, d: Delta)
    requires SameSubject(p, q)
    ensures ApplyDelta(rollup, p, d) == ApplyDelta(rollup, q, d)
  {
    assert DimensionsOf(p) == DimensionsOf(q);
    assert KeysOf(p) == KeysOf(q);
  }

  lemma {:induction false} FlagKeepsSubject(db: Db, ids: seq<PaymentId>, id: PaymentId)
    requires forall x :: x in ids ==> x in db.payments
    requires id in db.payments
    ensures SameSubject(FlagAll(db, ids).payments[id], db.payments[id])
  {
    if ids != [] {
      FlagKeepsSubject(db, ids[..|ids|-1], id);
    }
  }

  lemma {:induction false} FlagLeaves(db: Db, ids: seq<PaymentId>, id: PaymentId)
    requires forall x :: x in ids ==> x in db.payments
    requires id in db.payments && id !in ids
    ensures FlagAll(db, ids).payments[id] == db.payments[id]
  {
    if ids != [] {
      FlagLeaves(db, ids[..|ids|-1], id);
    }
  }

  // ---- What every transaction keeps ----

  /** One payment agrees with its recorded history. */
  ghost predicate FollowsHistory(p: Payment, rows: seq<TransitionRow>) {
    var live := Live(rows);
    && IsPath(live, p.state)
    && InTimeOrder(live, p.createdAt)
    && LastTime(live, p.createdAt) == p.lastEventAt
    && p.attemptIndex == 1 + Retries(live)
    && (p.abandoned ==> p.state == Attempted)
    && (p.failureCode.Some? ==> p.state == Failed)
    && forall r :: r in rows && r.stale ==> r.from == r.to
  }

  ghost predicate Histories(db: Db) {
    && db.history.Keys <= db.payments.Keys
    && (forall id :: id in db.payments ==> FollowsHistory(db.payments[id], Rows(db, id)))
    && (forall id, r :: id in db.history && r in db.history[id] ==> r.eventId in db.processed)
  }

  ghost predicate Consistent(db: Db) {
    Match(db.rollup, db.payments) && Histories(db)
  }

  lemma EmptyIsConsistent()
    ensures Consistent(EMPTY)
  {
    forall k
      ensures RowMatches(EMPTY.rollup, EMPTY.payments, k)
    {
      assert Group(EMPTY.payments, k) == {};
    }
  }

  lemma LiveAppend(rows: seq<TransitionRow>, r: TransitionRow)
    ensures Live(rows + [r]) == if r.stale then Live(rows) else Live(rows) + [r]
  {
    assert (rows + [r])[..|rows|] == rows;
  }

  /** A live row appended to a history that the payment follows. */
  lemma FollowsStep(p: Payment, q: Payment, rows: seq<TransitionRow>, r: TransitionRow)
    requires FollowsHistory(p, rows) && !r.stale && r.from == p.state && r.to == q.state && Edge(r.from, r.to)
    requires r.occurredAt == q.lastEventAt >= p.lastEventAt && q.createdAt == p.createdAt && !q.abandoned
    requires q.attemptIndex == p.attemptIndex + if IncrementsAttemptIndex(p.state, q.state) then 1 else 0
    requires q.failureCode.Some? ==> q.state == Failed
    ensures FollowsHistory(q, rows + [r])
  {
    LiveAppend(rows, r);
    var live := Live(rows);
    assert (live + [r])[..|live|] == live;
  }

  lemma ProjectKeepsMatch(db: Db, e: Event)
    requires Match(db.rollup, db.payments)
    ensures Match(Project(db, e).0.rollup, Project(db, e).0.payments)
  {
    var w := ProjectionWrites(db, e);
    match w.outcome
    case PaymentAdded => InsertKeepsMatch(db.rollup, db.payments, e.paymentId, w.payment.value);
    case Applied(from, to) => UpdateKeepsMatch(db.rollup, db.payments, e.paymentId, w.payment.value);
    case _ =>
  }

  /** A stale row leaves the payment where its history says it is. */
  lemma FollowsStale(p: Payment, rows: seq<TransitionRow>, r: TransitionRow)
    requires FollowsHistory(p, rows) && r.stale && r.from == r.to
    ensures FollowsHistory(p, rows + [r])
  {
    LiveAppend(rows, r);
  }

  lemma FollowsStart(d: CreatedData, at: int)
    ensures FollowsHistory(NewPayment(d, at), [])
  {
  }

  /** What is written about one payment extends its life by at most one row. */
  lemma WritesFollowHistory(w: Writes, p: Payment, rows: seq<TransitionRow>, e: Event)
    requires FollowsHistory(p, rows)
    requires w.outcome.Applied? ==>
               && w.row == Some(TransitionRow(p.state, w.outcome.to, e.id, e.occurredAt, false))
               && Edge(p.state, w.outcome.to) && e.occurredAt >= p.lastEventAt
               && w.payment == Some(MovePayment(p, e, w.outcome.to)) && (e.kind == PaymentFailed ==>
                    w.outcome.to == Failed)
    requires !w.outcome.Applied? ==> w.payment.None? && (w.row.Some? ==>
               w.row.value.stale && w.row.value.from == w.row.value.to)
    ensures FollowsHistory(w.payment.GetOr(p), if w.row.Some? then rows + [w.row.value] else rows)
  {
    if w.outcome.Applied? {
      FollowsStep(p, w.payment.value, rows, w.row.value);
    } else if w.row.Some? {
      FollowsStale(p, rows, w.row.value);
    }
  }

  /** Of a payment that is there, the writes move it along the table, record it, or leave it. */
  lemma WritesMean(db: Db, e: Event)
    requires e.paymentId in db.payments
    ensures var w, p := ProjectionWrites(db, e), db.payments[e.paymentId];
            && !w.outcome.PaymentAdded?
            && (w.outcome.Applied? ==>
                  && w.row == Some(TransitionRow(p.state, w.outcome.to, e.id, e.occurredAt, false))
                  && Edge(p.state, w.outcome.to) && e.occurredAt >= p.lastEventAt
                  && w.payment == Some(MovePayment(p, e, w.outcome.to)) && (e.kind == PaymentFailed ==>
                       w.outcome.to == Failed))
            && (!w.outcome.Applied? ==>
                  w.payment.None? && (w.row.Some? ==> w.row.value.stale && w.row.value.from == w.row.value.to))
  {
    hide MovePayment, Change;
  }

  lemma WritesToNew(db: Db, e: Event)
    requires e.paymentId !in db.payments
    ensures var w := ProjectionWrites(db, e);
            && w.row.None?
            && (w.payment.Some? ==> e.data.Some? && w.payment == Some(NewPayment(e.data.value, e.occurredAt)))
  {
  }

  lemma WrittenRows(db: Db, e: Event, w: Writes)
    ensures var after := Write(db, e, w);
            && Rows(after, e.paymentId)
               == (if w.row.Some? then Rows(db, e.paymentId) + [w.row.value] else Rows(db, e.paymentId))
            && (e.paymentId in after.payments <==> w.payment.Some? || e.paymentId in db.payments)
            && (e.paymentId in db.payments ==> after.payments[e.paymentId] == w.payment.GetOr(db.payments[e.paymentId]))
            && (w.payment.Some? ==> after.payments[e.paymentId] == w.payment.value)
  {
    hide ApplyDelta;
  }

  /** The payment the event is about still follows its history. */
  lemma ProjectKeepsHistory(db: Db, e: Event)
    requires Histories(db)
    ensures var after := Project(db, e).0;
            e.paymentId in after.payments ==>
              FollowsHistory(after.payments[e.paymentId], Rows(after, e.paymentId))
  {
    hide ProjectionWrites, FollowsHistory, Write, MovePayment, Rows, NewPayment;
    var w := ProjectionWrites(db, e);
    WrittenRows(db, e, w);
    if e.paymentId in db.payments {
      WritesMean(db, e);
      WritesFollowHistory(w, db.payments[e.paymentId], Rows(db, e.paymentId), e);
    } else {
      WritesToNew(db, e);
      if w.payment.Some? {
        FollowsStart(e.data.value, e.occurredAt);
        NoRowsYet(db, e.paymentId);
      }
    }
  }

  lemma NoRowsYet(db: Db, id: PaymentId)
    requires db.history.Keys <= db.payments.Keys && id !in db.payments
    ensures Rows(db, id) == []
  {
  }

  /** `after` differs from `db` only at one payment and by rows that carry a marked event. */
  ghost predicate TouchesOnly(db: Db, after: Db, id: PaymentId, e: EventId) {
    && after.history.Keys <= after.payments.Keys <= db.payments.Keys + {id}
    && (forall x :: x in after.payments && x != id ==>
          after.payments[x] == db.payments[x] && Rows(after, x) == Rows(db, x))
    && (forall x, r :: x in after.history && r in after.history[x] ==>
          (r.eventId == e && e in after.processed) || (x in db.history && r in db.history[x]))
    && db.processed <= after.processed
  }

  lemma HistoriesFrame(db: Db, after: Db, id: PaymentId, e: EventId)
    requires Histories(db) && TouchesOnly(db, after, id, e)
    requires id in after.payments ==> FollowsHistory(after.payments[id], Rows(after, id))
    ensures Histories(after)
  {
    hide FollowsHistory, Rows;
  }

  lemma ProjectTouchesOnly(db: Db, e: Event)
    requires db.history.Keys <= db.payments.Keys
    ensures TouchesOnly(db, Project(db, e).0, e.paymentId, e.id)
  {
    hide ApplyDelta, Change, MovePayment, Parses, NewPayment;
  }

  lemma ProjectKeepsHistories(db: Db, e: Event)
    requires Histories(db)
    ensures Histories(Project(db, e).0)
  {
    ProjectKeepsHistory(db, e);
    ProjectTouchesOnly(db, e);
    HistoriesFrame(db, Project(db, e).0, e.paymentId, e.id);
  }

  /** Every projection keeps the tables consistent, whatever event arrives. */
  lemma ProjectKeepsConsistent(db: Db, e: Event)
    requires Consistent(db)
    ensures Consistent(Project(db, e).0)
  {
    ProjectKeepsMatch(db, e);
    ProjectKeepsHistories(db, e);
  }

  lemma FlagKeepsMatch(db: Db, id: PaymentId)
    requires Match(db.rollup, db.payments) && id in db.payments
    requires db.payments[id].state == Attempted && !db.payments[id].abandoned
    ensures Match(FlagOne(db, id).rollup, FlagOne(db, id).payments)
  {
    var p, q := db.payments[id], FlagPayment(db.payments[id]);
    assert Change(p, q) == Delta(0, 0, 0, 1, 0, 0);
    UpdateKeepsMatch(db.rollup, db.payments, id, q);
  }

  /** Flagging one idle payment keeps the tables consistent. */
  lemma FlagKeepsConsistent(db: Db, id: PaymentId)
    requires Consistent(db) && id in db.payments
    requires db.payments[id].state == Attempted && !db.payments[id].abandoned
    ensures Consistent(FlagOne(db, id))
  {
    FlagKeepsMatch(db, id);
    FlagKeepsHistories(db, id);
  }

  lemma FlagKeepsHistories(db: Db, id: PaymentId)
    requires Histories(db) && id in db.payments && db.payments[id].state == Attempted
    ensures Histories(FlagOne(db, id))
  {
    var after := FlagOne(db, id);
    forall x | x in after.payments
      ensures FollowsHistory(after.payments[x], Rows(after, x))
    {
      assert FollowsHistory(db.payments[x], Rows(db, x));
    }
  }

  lemma {:induction false} SweepKeepsConsistent(db: Db, cutoff: int, ids: seq<PaymentId>)
    requires Consistent(db) && Distinct(ids)
    requires forall id :: id in ids ==> id in db.payments && id in IdleSet(db, cutoff)
    ensures Consistent(FlagAll(db, ids))
  {
    if ids != [] {
      var front, id := ids[..|ids|-1], ids[|ids|-1];
      assert id in ids;
      SweepKeepsConsistent(db, cutoff, front);
      FlagLeaves(db, front, id);
      FlagKeepsConsistent(FlagAll(db, front), id);
    }
  }

  /**
   * When an event moves a payment, and what the move writes: the state its kind names, the time of
   * the event, a new attempt index after a failure only, the failure code of a failure only, and
   * the gateway an attempt was routed to.
   */
  lemma AppliedMeans(db: Db, e: Event, to: State)
    requires e.paymentId in db.payments
    ensures var p, after := db.payments[e.paymentId], Project(db, e).0;
            Project(db, e).1 == Applied(p.state, to) <==>
            e.id !in db.processed && e.occurredAt >= p.lastEventAt && Takes(e.kind, p.state, to)
    ensures Project(db, e).1.Applied? ==>
              && Project(db, e).1.from == db.payments[e.paymentId].state
              && Moves(db.payments[e.paymentId], e, Project(db, e).1.to, Project(db, e).0.payments[e.paymentId])
              && Rows(Project(db, e).0, e.paymentId) == Rows(db, e.paymentId)
                   + [TransitionRow(Project(db, e).1.from, Project(db, e).1.to, e.id, e.occurredAt, false)]
  {
    hide ApplyDelta, Parses, NewPayment;
    TransitionMoves(db.payments[e.paymentId].state, e.kind, e.occurredAt, db.payments[e.paymentId].lastEventAt, to);
  }

  /** `q` is `p` after the event `e` moved it to the state `to`. */
  ghost predicate Moves(p: Payment, e: Event, to: State, q: Payment) {
    && q.state == to && q.lastEventAt == e.occurredAt && SameSubject(p, q) && q.customerId == p.customerId
    && q.attemptIndex == (if p.state == Failed && to == Attempted then p.attemptIndex + 1 else p.attemptIndex)
    && (to == Failed ==> q.failureCode == e.failureCode)
    && (to != Failed ==> q.failureCode.None?)
    && (to == Attempted && e.gateway.Some? ==> q.gateway == e.gateway.value)
    && (to != Attempted || e.gateway.None? ==> q.gateway == p.gateway)
    && !q.abandoned
    && q.version == p.version + 1
  }

  /** `p` is a payment as the event `e` and its data create it. */
  ghost predicate IsCreated(p: Payment, e: Event, d: CreatedData) {
    && p.merchantId == d.merchantId && p.customerId == d.customerId && p.amountPaise == d.amountPaise
    && p.paymentMethod == d.paymentMethod && p.bank == d.bank && p.isInternational == d.isInternational
    && p.cardNetwork == d.cardNetwork && p.cardCountry == d.cardCountry && p.gateway == d.gateway
    && p.state == Created && p.createdAt == p.lastEventAt == e.occurredAt
    && p.attemptIndex == 1 && p.failureCode.None? && !p.abandoned
  }

  /** When an event moves no payment, which outcome it has and what it leaves behind. */
  lemma OutcomeMeans(db: Db, e: Event)
    ensures var ((after, o), unseen, known) := (Project(db, e), e.id !in db.processed, e.paymentId in db.payments);
            && (o == AlreadyProcessed <==> !unseen)
            && (o == NotFound <==> unseen && !known && e.kind != PaymentCreated)
            && (o == PaymentAdded <==>
                unseen && !known && e.kind == PaymentCreated && e.data.Some? && Parses(e.data.value))
            && (o == Rejected(InvalidPayload) <==>
                unseen && !known && e.kind == PaymentCreated && (e.data.Some? ==> !Parses(e.data.value)))
            && (o == Rejected(AlreadyCreated) <==> unseen && known && e.kind == PaymentCreated)
            && (o.StaleRecorded? <==> unseen && known && e.kind != PaymentCreated
                                      && e.occurredAt < db.payments[e.paymentId].lastEventAt)
            && (o.AlreadyProcessed? || o.NotFound? ==> after == db)
            && (!o.AlreadyProcessed? && !o.NotFound? ==> after.processed == db.processed + {e.id})
            && (o.PaymentAdded? ==> after.history == db.history && e.paymentId in after.payments
                                    && IsCreated(after.payments[e.paymentId], e, e.data.value))
            && (o.Rejected? ==> after == db.(processed := db.processed + {e.id}))
            && (o.StaleRecorded? ==>
                  && after.payments == db.payments && after.rollup == db.rollup
                  && o.state == db.payments[e.paymentId].state
                  && Rows(after, e.paymentId) == Rows(db, e.paymentId)
                       + [TransitionRow(o.state, o.state, e.id, e.occurredAt, true)])
  {
    hide ApplyDelta, Parses, MovePayment, Change;
  }

  /** Nothing a payment has gone through is ever taken back. */
  lemma ProjectOnlyAdds(db: Db, e: Event)
    ensures var after := Project(db, e).0;
            && db.processed <= after.processed <= db.processed + {e.id}
            && db.payments.Keys <= after.payments.Keys <= db.payments.Keys + {e.paymentId}
            && (forall id :: id in db.payments ==>
                  && SameSubject(db.payments[id], after.payments[id])
                  && db.payments[id].lastEventAt <= after.payments[id].lastEventAt
                  && db.payments[id].attemptIndex <= after.payments[id].attemptIndex)
            && (forall id :: Rows(db, id) <= Rows(after, id))
  {
    hide ApplyDelta, Parses, Change;
  }

  /** Two events about different payments can be projected in either order. */
  lemma ProjectionsCommute(db: Db, a: Event, b: Event)
    requires a.paymentId != b.paymentId && a.id != b.id
    ensures Project(Project(db, a).0, b).0 == Project(Project(db, b).0, a).0
    ensures Project(Project(db, a).0, b).1 == Project(db, b).1
    ensures Project(Project(db, b).0, a).1 == Project(db, a).1
  {
    hide ApplyDelta, Change, MovePayment, Parses, NewPayment;
    var ra, rb := ProjectionWrites(db, a), ProjectionWrites(db, b);
    assert ProjectionWrites(Project(db, a).0, b) == rb;
    assert ProjectionWrites(Project(db, b).0, a) == ra;
    WritesCommute(db, a, ra, b, rb);
  }

  lemma UpdatesCommute<K, V>(m: map<K, V>, a: K, x: V, b: K, y: V)
    requires a != b
    ensures m[a := x][b := y] == m[b := y][a := x]
  {
  }

  lemma WritesCommute(db: Db, a: Event, ra: Writes, b: Event, rb: Writes)
    requires a.paymentId != b.paymentId
    ensures Write(Write(db, a, ra), b, rb) == Write(Write(db, b, rb), a, ra)
  {
    hide ApplyDelta;
    var ab, ba := Write(Write(db, a, ra), b, rb), Write(Write(db, b, rb), a, ra);
    assert ab.rollup == ba.rollup by {
      if ra.subject.Some? && rb.subject.Some? {
        DeltasCommute(db.rollup, ra.subject.value, ra.delta, rb.subject.value, rb.delta);
      }
    }
    assert ab.payments == ba.payments by {
      if ra.payment.Some? && rb.payment.Some? {
        UpdatesCommute(db.payments, a.paymentId, ra.payment.value, b.paymentId, rb.payment.value);
      }
    }
    assert ab.history == ba.history by {
      if ra.row.Some? && rb.row.Some? {
        UpdatesCommute(db.history, a.paymentId, Rows(db, a.paymentId) + [ra.row.value],
                       b.paymentId, Rows(db, b.paymentId) + [rb.row.value]);
      }
    }
    assert ab.processed == ba.processed;
  }
}
