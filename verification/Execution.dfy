/**
 * Execution rules (apps/api/src/domain/execution.ts) and attribution
 * (apps/api/src/domain/attribution.ts): total functions over classes, attempts and times.
 */
module Execution {
  import opened Wrappers

  datatype ActionKind = RetryPayment | RouteAlternateGateway | CreatePaymentLink | NotifyCustomer | Escalate

  datatype ErrorClass = Retryable | Terminal | NeedsHuman

  datatype NextAction = Retry | Fail | EscalateNow

  const MAX_RETRIES := 2
  const MAX_ATTEMPTS := MAX_RETRIES + 1
  const BACKOFF_BASE_MS := 200
  const BACKOFF_CAP_MS := 2_000

  /** An error without a class goes to a person. */
  function Classify(cls: Option<ErrorClass>): ErrorClass {
    cls.GetOr(NeedsHuman)
  }

  function NextStep(cls: ErrorClass, attempt: nat): NextAction {
    if cls == Terminal then Fail
    else if cls == Retryable && attempt < MAX_ATTEMPTS then Retry
    else EscalateNow
  }

  function Pow2(n: nat): (p: nat)
    ensures p >= 1
  {
    if n == 0 then 1 else 2 * Pow2(n - 1)
  }

  /** Math.round: halves go up. */
  function Round(x: real): int {
    (x + 0.5).Floor
  }

  /** Half fixed, half jittered, capped. */
  function BackoffMs(attempt: nat, jitter: real): (ms: int)
    requires 0.0 <= jitter < 1.0
    ensures BACKOFF_BASE_MS / 2 <= ms <= BACKOFF_CAP_MS
  {
    var exponential := BACKOFF_BASE_MS * Pow2(if attempt >= 1 then attempt - 1 else 0);
    var capped := if exponential < BACKOFF_CAP_MS then exponential else BACKOFF_CAP_MS;
    assert capped as real * 0.5 <= capped as real * (0.5 + 0.5 * jitter) <= capped as real;
    Round(capped as real * (0.5 + 0.5 * jitter))
  }

  datatype Route = Primary | Secondary

  function RouteFor(kind: ActionKind): Route {
    if kind == RouteAlternateGateway then Secondary else Primary
  }

  /** What the gateway reads of a payment; the network is in lower case. */
  datatype Instrument = Instrument(paymentMethod: string, cardNetwork: Option<string>, failureCode: Option<string>)

  predicate RouteAccepts(route: Route, i: Instrument) {
    route == Primary
    || (i.paymentMethod != "upi" && i.paymentMethod != "netbanking"
        && !(i.paymentMethod == "card" && i.cardNetwork == Some("rupay")))
  }

  datatype Labels = Labels(retry: bool, link: bool, alternate: bool, gateway: bool)

  /** The counterfactual an intervention is answered from; `escalate` has none. */
  function CounterfactualFor(kind: ActionKind, l: Labels): Option<bool> {
    match kind
    case RetryPayment => Some(l.retry)
    case CreatePaymentLink => Some(l.link)
    case NotifyCustomer => Some(l.alternate)
    case RouteAlternateGateway => Some(l.gateway)
    case Escalate => None
  }

  function SettleDelayMinutes(kind: ActionKind, u: real): (minutes: int)
    requires 0.0 <= u < 1.0
    ensures 1 <= minutes <= 25
  {
    var low, high := if kind == CreatePaymentLink || kind == NotifyCustomer then 5 else 1,
                     if kind == CreatePaymentLink || kind == NotifyCustomer then 25 else 5;
    var span := (high - low + 1) as real;
    assert 0.0 <= u * span < span;
    low + (u * span).Floor
  }

  /**
   * The wait doubles from one attempt to the next, to within the rounding, until the cap is
   * reached; the first is between 100 and 200 ms.
   */
  lemma BackoffDoubles(attempt: nat, jitter: real)
    requires 0.0 <= jitter < 1.0 && attempt >= 1
    ensures attempt == 1 ==> 100 <= BackoffMs(attempt, jitter) <= 200
    ensures attempt < 4 ==>
              2 * BackoffMs(attempt, jitter) - 1 <= BackoffMs(attempt + 1, jitter) <= 2 * BackoffMs(attempt, jitter) + 1
    ensures attempt >= 5 ==> 1_000 <= BackoffMs(attempt, jitter) <= 2_000
  {
    Pow2Values(attempt);
    var half := 0.5 + 0.5 * jitter;
    if attempt == 1 {
      assert BackoffMs(1, jitter) == Round(200.0 * half) && BackoffMs(2, jitter) == Round(400.0 * half);
    } else if attempt == 2 {
      assert BackoffMs(2, jitter) == Round(400.0 * half) && BackoffMs(3, jitter) == Round(800.0 * half);
    } else if attempt == 3 {
      assert BackoffMs(3, jitter) == Round(800.0 * half) && BackoffMs(4, jitter) == Round(1600.0 * half);
    } else if attempt >= 5 {
      assert BackoffMs(attempt, jitter) == Round(2000.0 * half);
    }
  }

  lemma {:induction false} Pow2Values(n: nat)
    ensures Pow2(0) == 1 && Pow2(1) == 2 && Pow2(2) == 4 && Pow2(3) == 8
    ensures n >= 5 ==> Pow2(n - 1) >= 16
  {
    assert Pow2(3) == 2 * Pow2(2) && Pow2(2) == 2 * Pow2(1);
    if n > 5 {
      Pow2Values(n - 1);
    }
  }

  // ---- Attribution ----

  datatype Attribution = Direct | Assisted | Organic

  const DIRECT_WINDOW_MINUTES := 30
  const ASSIST_WINDOW_MINUTES := 360

  /** The reference of an action: the route it took and the key it was sent under. */
  datatype Reference = Reference(route: Route, key: string)

  datatype Capture = Capture(capturedAt: int, reference: Option<Reference>)
  datatype OurAction = OurAction(actedAt: int, reference: Option<Reference>)

  function Attribute(capture: Capture, action: Option<OurAction>): Attribution {
    if action.None? then Organic
    else
      var minutes := (capture.capturedAt - action.value.actedAt) as real / 60_000.0;
      var ours := capture.reference.Some? && action.value.reference.Some?
                  && capture.reference.value == action.value.reference.value;
      if minutes < 0.0 then Organic
      else if ours && minutes <= DIRECT_WINDOW_MINUTES as real then Direct
      else if minutes <= ASSIST_WINDOW_MINUTES as real then Assisted
      else Organic
  }

  function CreditedPaise(a: Attribution, amountPaise: int): int {
    if a == Organic then 0 else amountPaise
  }

  /** Attribution by exact milliseconds: what each verdict means. */
  lemma AttributionMeans(c: Capture, a: OurAction)
    ensures var gap := c.capturedAt - a.actedAt;
            var ours := c.reference.Some? && c.reference == a.reference;
            && (Attribute(c, Some(a)) == Direct <==> ours && 0 <= gap <= 30 * 60_000)
            && (Attribute(c, Some(a)) == Organic <==> gap < 0 || gap > 360 * 60_000)
    ensures Attribute(c, None) == Organic
  {
  }

  /** A capture the gateway reports for our own action is always credited as direct. */
  lemma OwnCaptureIsDirect(kind: ActionKind, u: real, now: int, reference: Reference)
    requires 0.0 <= u < 1.0
    ensures Attribute(Capture(now + SettleDelayMinutes(kind, u) * 60_000, Some(reference)),
                      Some(OurAction(now, Some(reference)))) == Direct
  {
    AttributionMeans(Capture(now + SettleDelayMinutes(kind, u) * 60_000, Some(reference)),
                     OurAction(now, Some(reference)));
  }
}
