/**
 * The payment state machine (apps/api/src/domain/payment-state.ts): the constant
 * transition table, the order in which its rules are asked, and what every path
 * through the table has in common.
 */
module PaymentState {
  import opened Wrappers

  /** Identifiers, each kind its own type. */
  datatype PaymentId = PaymentId(text: string)
  datatype EventId = EventId(text: string)
  datatype MerchantId = MerchantId(text: string)

  datatype State = Created | Attempted | Authorized | Captured | Failed | Refunded

  datatype EventKind =
    | PaymentCreated
    | PaymentAttempted
    | PaymentAuthorized
    | PaymentCaptured
    | PaymentFailed
    | RefundProcessed

  datatype TransitionError = InvalidTransition | TerminalProtected

  datatype TransitionResult =
    | Moved(next: State)
    | Stale(current: State)
    | Refused(error: TransitionError)

  predicate IsTerminal(s: State) {
    s == Captured || s == Refunded
  }

  /** The edge, if any, that an event takes out of a state. */
  function Table(s: State, k: EventKind): Option<State> {
    match (s, k)
    case (Created, PaymentAttempted) => Some(Attempted)
    case (Attempted, PaymentAuthorized) => Some(Authorized)
    case (Attempted, PaymentCaptured) => Some(Captured)
    case (Attempted, PaymentFailed) => Some(Failed)
    case (Authorized, PaymentCaptured) => Some(Captured)
    case (Authorized, PaymentFailed) => Some(Failed)
    case (Failed, PaymentAttempted) => Some(Attempted)
    case (Captured, RefundProcessed) => Some(Refunded)
    case _ => None
  }

  /**
   * Timestamps are milliseconds; `None` is a text no date can be read from.
   * Staleness is asked before terminal protection.
   */
  function Transition(current: State, event: EventKind, occurredAt: Option<int>, lastEventAt: Option<int>)
    : (r: TransitionResult)
  {
    if occurredAt.None? || lastEventAt.None? then Refused(InvalidTransition)
    else if occurredAt.value < lastEventAt.value then Stale(current)
    else
      var next := Table(current, event);
      if IsTerminal(current) then
        if next.None? then Refused(TerminalProtected) else Moved(next.value)
      else
        if next.None? then Refused(InvalidTransition) else Moved(next.value)
  }

  predicate IncrementsAttemptIndex(from: State, to: State) {
    from == Failed && to == Attempted
  }

  /** One row of payment_state_transitions, without the payment it belongs to. */
  datatype TransitionRow =
    TransitionRow(from: State, to: State, eventId: EventId, occurredAt: int, stale: bool)

  /** Some event takes `from` to `to`. */
  ghost predicate Edge(from: State, to: State) {
    exists k :: Table(from, k) == Some(to)
  }

  /** The rows that moved the payment. */
  function Live(rows: seq<TransitionRow>): (r: seq<TransitionRow>)
    ensures forall x :: x in r ==> x in rows && !x.stale
  {
    if rows == [] then []
    else
      var front := Live(rows[..|rows|-1]);
      var last := rows[|rows|-1];
      if last.stale then front else front + [last]
  }

  /** `rows` walk the table from Created to `end`. */
  ghost predicate IsPath(rows: seq<TransitionRow>, end: State)
    decreases |rows|
  {
    if rows == [] then end == Created
    else
      var last := rows[|rows|-1];
      last.to == end && Edge(last.from, last.to) && IsPath(rows[..|rows|-1], last.from)
  }

  /** When the last of `rows` happened, or `start` if there is none. */
  function LastTime(rows: seq<TransitionRow>, start: int): int {
    if rows == [] then start else rows[|rows|-1].occurredAt
  }

  /** Occurrence times never go back along `rows`, the first no earlier than `start`. */
  predicate InTimeOrder(rows: seq<TransitionRow>, start: int)
    decreases |rows|
  {
    rows == [] ||
    var front := rows[..|rows|-1];
    LastTime(front, start) <= rows[|rows|-1].occurredAt && InTimeOrder(front, start)
  }

  function Entries(rows: seq<TransitionRow>, s: State): nat {
    if rows == [] then 0
    else Entries(rows[..|rows|-1], s) + if rows[|rows|-1].to == s then 1 else 0
  }

  /** How many times a failed payment was attempted again. */
  function Retries(rows: seq<TransitionRow>): nat {
    if rows == [] then 0
    else
      Retries(rows[..|rows|-1])
      + if IncrementsAttemptIndex(rows[|rows|-1].from, rows[|rows|-1].to) then 1 else 0
  }

  /**
   * The double-charge guard over a whole life: a payment enters Captured exactly
   * once if it has ever succeeded and never otherwise, and likewise Refunded.
   */
  lemma {:induction false} CapturedAtMostOnce(rows: seq<TransitionRow>, end: State)
    requires IsPath(rows, end)
    ensures Entries(rows, Captured) == if IsTerminal(end) then 1 else 0
    ensures Entries(rows, Refunded) == if end == Refunded then 1 else 0
    ensures forall r :: r in rows && r.from == Captured ==> r.to == Refunded
    ensures forall r :: r in rows ==> r.from != Refunded && r.to != Created
    decreases |rows|
  {
    if rows != [] {
      var last := rows[|rows|-1];
      CapturedAtMostOnce(rows[..|rows|-1], last.from);
      assert forall r :: r in rows ==> r == last || r in rows[..|rows|-1];
    }
  }

  /**
   * What each kind of event does to a payment, read off the kind alone: the states it moves a
   * payment out of, and the one state it then moves it to. Nothing moves a payment by creating it.
   */
  predicate Takes(k: EventKind, from: State, to: State) {
    match k
    case PaymentCreated => false
    case PaymentAttempted => from in {Created, Failed} && to == Attempted
    case PaymentAuthorized => from == Attempted && to == Authorized
    case PaymentCaptured => from in {Attempted, Authorized} && to == Captured
    case PaymentFailed => from in {Attempted, Authorized} && to == Failed
    case RefundProcessed => from == Captured && to == Refunded
  }

  /** The table, listed by state, has exactly the edges that are listed by kind. */
  lemma TableIsByKind(s: State, k: EventKind, to: State)
    ensures Table(s, k) == Some(to) <==> Takes(k, s, to)
    ensures Table(s, k).None? <==> forall x :: !Takes(k, s, x)
  {
    if Table(s, k).Some? {
      assert Takes(k, s, Table(s, k).value);
    }
  }

  /**
   * An event that is not late moves a payment exactly when its kind takes the payment's state,
   * always to the state the kind names. A late one moves nothing, and a terminal state is left by
   * nothing but a refund of a captured payment.
   */
  lemma TransitionMoves(s: State, k: EventKind, at: int, last: int, to: State)
    ensures Transition(s, k, Some(at), Some(last)) == Moved(to) <==> at >= last && Takes(k, s, to)
    ensures Transition(s, k, Some(at), Some(last)) == Stale(to) <==> at < last && to == s
    ensures Transition(s, k, Some(at), Some(last)) == Refused(TerminalProtected)
       <==> at >= last && s in {Captured, Refunded} && forall x :: !Takes(k, s, x)
    ensures Transition(s, k, Some(at), Some(last)) == Refused(InvalidTransition)
       <==> at >= last && s !in {Captured, Refunded} && forall x :: !Takes(k, s, x)
    ensures s in {Captured, Refunded} && Transition(s, k, Some(at), Some(last)) == Moved(to) ==>
              s == Captured && k == RefundProcessed && to == Refunded
  {
    TableIsByKind(s, k, to);
  }
}
