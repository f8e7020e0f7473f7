/**
 * The simulated gateway (apps/api/src/sim/gateway.ts): a memory per idempotency key,
 * injected and seeded faults, and two webhook events per effect.
 */
module Gateway {
  import opened Wrappers
  import opened PaymentState
  import opened Projection
  import opened Execution

  /** The key of a decision, `ik_<decision id>`. */
  datatype Key = Key(decision: string)

  datatype Fault = NoFault | RetryableFault | TimeoutFault | TerminalFault

  /** What the generator seeded from a key and an attempt draws: the fault, the coin, the settle draw. */
  datatype Draws = Draws(fault: Fault, acts: bool, settle: real)

  type Seeded = (Key, nat) -> Draws

  /** The ingest of an effect's two events commits, rolls back, or commits and loses its reply. */
  datatype Ingestion = Commits | RollsBack | ReplyLost

  /** What a call finds around the gateway: the payment, a stored label, and how ingest goes. */
  datatype World = World(instrument: Option<Instrument>, stored: Option<Labels>, ingest: Ingestion)

  datatype GatewayResult = GatewayResult(reference: Reference, recovered: bool, settlesAt: int, attemptedAt: int)

  /** An answer, an error with or without a class, or a timeout of unknown outcome. */
  datatype CallOutcome =
    | Answered(result: GatewayResult)
    | Threw(cls: Option<ErrorClass>)
    | TimedOut

  datatype Stats = Stats(calls: nat, effects: nat, deduplicated: nat, retryable: nat, timeout: nat, terminal: nat,
                         refusedByRoute: nat, unlabelled: nat)

  /** `emitted` are the events of committed ingests, which drop those whose ids they know. */
  datatype State = State(
    memory: map<Key, GatewayResult>,
    attemptsByKey: map<Key, nat>,
    labels: map<PaymentId, Labels>,
    queued: seq<Fault>,
    stats: Stats,
    emitted: seq<Event>)

  datatype Request = Request(kind: ActionKind, payment: PaymentId, key: Key, now: int)

  function ReferenceFor(r: Request): Reference {
    Reference(RouteFor(r.kind), r.key.decision)
  }

  function EventFor(r: Request, suffix: string, kind: EventKind, at: int, code: Option<string>): Event {
    Event(EventId("evt_ik_" + r.key.decision + suffix), r.payment, kind, at, None, code,
          Some(if RouteFor(r.kind) == Primary then "primary" else "secondary"))
  }

  function ResultFor(r: Request, recovered: bool, settle: real): GatewayResult
    requires 0.0 <= settle < 1.0
  {
    GatewayResult(ReferenceFor(r), recovered, r.now + SettleDelayMinutes(r.kind, settle) * 60_000, r.now + 30_000)
  }

  /** The attempt and its verdict, as the webhook path will carry them. */
  function EventsFor(r: Request, i: Instrument, result: GatewayResult): seq<Event> {
    [EventFor(r, "_a", PaymentAttempted, result.attemptedAt, None),
     if result.recovered then EventFor(r, "_c", PaymentCaptured, result.settlesAt, None)
     else EventFor(r, "_f", PaymentFailed, result.settlesAt, Some(i.failureCode.GetOr("DO_NOT_HONOR")))]
  }

  function LabelFor(g: State, r: Request, w: World): Option<Labels> {
    if r.payment in g.labels then Some(g.labels[r.payment]) else w.stored
  }

  predicate Recovers(g: State, r: Request, w: World) {
    var known := LabelFor(g, r, w);
    known.Some? && CounterfactualFor(r.kind, known.value) == Some(true)
  }

  function Effect(g: State, r: Request, w: World, settle: real): (State, CallOutcome)
    requires 0.0 <= settle < 1.0
  {
    if w.instrument.None? then (g, Threw(Some(Terminal)))
    else if !RouteAccepts(RouteFor(r.kind), w.instrument.value) then
      (g.(stats := g.stats.(refusedByRoute := g.stats.refusedByRoute + 1)), Threw(Some(Terminal)))
    else
      var counted := if r.kind != Escalate && LabelFor(g, r, w).None?
                     then g.(stats := g.stats.(unlabelled := g.stats.unlabelled + 1)) else g;
      var result := ResultFor(r, Recovers(g, r, w), settle);
      var events := EventsFor(r, w.instrument.value, result);
      match w.ingest
      case RollsBack => (counted, Threw(None))
      case ReplyLost => (counted.(emitted := g.emitted + events), Threw(None))
      case Commits =>
        (counted.(memory := g.memory[r.key := result], emitted := g.emitted + events,
                  stats := counted.stats.(effects := g.stats.effects + 1)),
         Answered(result))
  }

  /** What the gateway decides before it touches the payment: an answer at once, or an effect to attempt. */
  datatype Admission = Decided(outcome: CallOutcome) | WillAct(late: bool, settle: real)

  /** The memory check and the draws. An injected fault replaces the seeded one without shifting the stream. */
  function Admit(g: State, seeded: Seeded, r: Request): (State, Admission) {
    var called := g.(stats := g.stats.(calls := g.stats.calls + 1));
    if r.key in g.memory then
      (called.(stats := called.stats.(deduplicated := g.stats.deduplicated + 1)), Decided(Answered(g.memory[r.key])))
    else
      var attempt := (if r.key in g.attemptsByKey then g.attemptsByKey[r.key] else 0) + 1;
      var draws := seeded(r.key, attempt);
      var fault := if g.queued != [] then g.queued[0] else draws.fault;
      var drawn := called.(attemptsByKey := g.attemptsByKey[r.key := attempt],
                           queued := if g.queued != [] then g.queued[1..] else []);
      match fault
      case RetryableFault =>
        (drawn.(stats := drawn.stats.(retryable := g.stats.retryable + 1)), Decided(Threw(Some(Retryable))))
      case TerminalFault =>
        (drawn.(stats := drawn.stats.(terminal := g.stats.terminal + 1)), Decided(Threw(Some(Terminal))))
      case TimeoutFault =>
        (drawn.(stats := drawn.stats.(timeout := g.stats.timeout + 1)),
         if draws.acts then WillAct(true, draws.settle) else Decided(TimedOut))
      case NoFault => (drawn, WillAct(false, draws.settle))
  }

  /** A late answer is a timeout; an effect that throws is thrown either way. */
  function Reported(late: bool, outcome: CallOutcome): CallOutcome {
    if late && outcome.Answered? then TimedOut else outcome
  }

  /** Every settle draw is a uniform one. */
  ghost predicate Uniform(seeded: Seeded) {
    forall k, n :: 0.0 <= seeded(k, n).settle < 1.0
  }

  /** One call, start to end. */
  function Call(g: State, seeded: Seeded, r: Request, w: World): (State, CallOutcome)
    requires Uniform(seeded)
  {
    var (admitted, admission) := Admit(g, seeded, r);
    match admission
    case Decided(outcome) => (admitted, outcome)
    case WillAct(late, settle) =>
      var (after, outcome) := Effect(admitted, r, w, settle);
      (after, Reported(late, outcome))
  }

  /** The payment is known and the route takes it. */
  predicate Routed(r: Request, w: World) {
    w.instrument.Some? && RouteAccepts(RouteFor(r.kind), w.instrument.value)
  }

  /** Whether an effect goes through: it is routed, and its events commit. */
  predicate Reaches(r: Request, w: World) {
    Routed(r, w) && w.ingest == Commits
  }

  /** Whether an effect's events commit while the gateway is told that they did not. */
  predicate Slips(r: Request, w: World) {
    Routed(r, w) && w.ingest == ReplyLost
  }

  /** Whether this call reaches an effect that goes through. */
  predicate Acts(g: State, seeded: Seeded, r: Request, w: World) {
    r.key !in g.memory && Admit(g, seeded, r).1.WillAct? && Reaches(r, w)
  }

  /** Whether this call puts events in the log that it does not remember. */
  predicate Leaks(g: State, seeded: Seeded, r: Request, w: World) {
    r.key !in g.memory && Admit(g, seeded, r).1.WillAct? && Slips(r, w)
  }

  /** Admission answers from memory or decides the fault; it acts on nothing. */
  lemma AdmitMeans(g: State, seeded: Seeded, r: Request)
    requires Uniform(seeded)
    ensures var (after, admission) := Admit(g, seeded, r);
            && after.memory == g.memory && after.emitted == g.emitted && after.labels == g.labels
            && after.stats.calls == g.stats.calls + 1 && after.stats.effects == g.stats.effects
            && (r.key in g.memory ==> admission == Decided(Answered(g.memory[r.key])))
            && (r.key !in g.memory && admission.Decided? ==> !admission.outcome.Answered?)
            && (admission.WillAct? ==> 0.0 <= admission.settle < 1.0)
  {
  }

  /**
   * An effect goes through or throws. Through, it is one memory entry, one count and two events;
   * thrown it is none of them, but for the two events of an ingest whose reply was lost.
   */
  lemma EffectMeans(g: State, r: Request, w: World, settle: real)
    requires 0.0 <= settle < 1.0
    ensures var (after, outcome) := Effect(g, r, w, settle);
            && after.stats.calls == g.stats.calls
            && (if Reaches(r, w)
                then
                  && outcome == Answered(ResultFor(r, Recovers(g, r, w), settle))
                  && after.memory == g.memory[r.key := outcome.result]
                  && after.stats.effects == g.stats.effects + 1
                  && after.emitted == g.emitted + EventsFor(r, w.instrument.value, outcome.result)
                else
                  && outcome == Threw(if Routed(r, w) then None else Some(Terminal))
                  && after.memory == g.memory && after.stats.effects == g.stats.effects
                  && if !Slips(r, w) then after.emitted == g.emitted
                     else
                       after.emitted
                       == g.emitted + EventsFor(r, w.instrument.value, ResultFor(r, Recovers(g, r, w), settle)))
  {
    hide ResultFor, EventsFor, Recovers, RouteAccepts;
  }

  /**
   * One call acts at most once, and only on its own key: the memory and the effect count move
   * together, and the emitted events with them unless the call leaks, in which case it throws.
   */
  lemma CallActsAtMostOnce(g: State, seeded: Seeded, r: Request, w: World)
    requires Uniform(seeded)
    ensures var (after, outcome) := Call(g, seeded, r, w);
            && after.stats.calls == g.stats.calls + 1
            && (forall k :: k != r.key ==> (k in after.memory <==> k in g.memory) && (k in g.memory ==>
                  after.memory[k] == g.memory[k]))
            && (r.key in after.memory <==> r.key in g.memory || Acts(g, seeded, r, w))
            && after.stats.effects == g.stats.effects + (if Acts(g, seeded, r, w) then 1 else 0)
            && (if Acts(g, seeded, r, w) || Leaks(g, seeded, r, w)
                then |after.emitted| == |g.emitted| + 2 && after.emitted[..|g.emitted|] == g.emitted
                else after.emitted == g.emitted)
            && (Leaks(g, seeded, r, w) ==> outcome == Threw(None) && !Acts(g, seeded, r, w))
            && (r.key in g.memory ==> outcome == Answered(g.memory[r.key]) && after.memory == g.memory)
            && (outcome.Answered? ==> r.key in after.memory && after.memory[r.key] == outcome.result)
            && (outcome.Threw? ==> r.key !in after.memory)
  {
    hide Admit, Effect, Routed, ResultFor, EventsFor, Recovers;
    AdmitMeans(g, seeded, r);
    var (admitted, admission) := Admit(g, seeded, r);
    if admission.WillAct? {
      EffectMeans(admitted, r, w, admission.settle);
      RoutedIsKnown(r, w);
      if Routed(r, w) {
        TwoEvents(r, w, ResultFor(r, Recovers(admitted, r, w), admission.settle));
      }
    }
  }

  lemma RoutedIsKnown(r: Request, w: World)
    ensures Routed(r, w) ==> w.instrument.Some?
  {
  }

  lemma TwoEvents(r: Request, w: World, result: GatewayResult)
    requires w.instrument.Some?
    ensures |EventsFor(r, w.instrument.value, result)| == 2
  {
  }

  /** The label, if any, that a request's payment carries for the kind of the request. */
  ghost predicate LabelSays(g: State, r: Request, w: World) {
    var labels := if r.payment in g.labels then Some(g.labels[r.payment]) else w.stored;
    && labels.Some?
    && (r.kind == RetryPayment ==> labels.value.retry)
    && (r.kind == CreatePaymentLink ==> labels.value.link)
    && (r.kind == NotifyCustomer ==> labels.value.alternate)
    && (r.kind == RouteAlternateGateway ==> labels.value.gateway)
    && r.kind != Escalate
  }

  lemma RecoversByLabel(g: State, r: Request, w: World)
    ensures Recovers(g, r, w) <==> LabelSays(g, r, w)
  {
  }

  /** The two events an effect emits, told apart, with their times and verdict. */
  lemma TwoEventsMean(r: Request, i: Instrument, recovered: bool, settle: real)
    requires 0.0 <= settle < 1.0
    ensures var result := ResultFor(r, recovered, settle);
            var events := EventsFor(r, i, result);
            && result.reference == ReferenceFor(r) && result.recovered == recovered && |events| == 2
            && var attempted, verdict := events[0], events[1];
               && attempted.kind == PaymentAttempted && attempted.occurredAt == r.now + 30_000
               && verdict.kind == (if recovered then PaymentCaptured else PaymentFailed)
               && verdict.occurredAt == result.settlesAt == r.now + SettleDelayMinutes(r.kind, settle) * 60_000
               && attempted.paymentId == verdict.paymentId == r.payment && attempted.id != verdict.id
  {
    hide ReferenceFor;
    var attempted, verdict := EventFor(r, "_a", PaymentAttempted, 0, None),
                              EventFor(r, if recovered then "_c" else "_f", PaymentFailed, 0, None);
    assert attempted.id.text[|attempted.id.text|-1] == 'a' && verdict.id.text[|verdict.id.text|-1] != 'a';
  }

  lemma DelayOfKind(kind: ActionKind, settle: real)
    requires 0.0 <= settle < 1.0
    ensures kind in {CreatePaymentLink, NotifyCustomer} ==> 5 <= SettleDelayMinutes(kind, settle) <= 25
    ensures kind !in {CreatePaymentLink, NotifyCustomer} ==> 1 <= SettleDelayMinutes(kind, settle) <= 5
  {
  }

  /**
   * The events of an effect are those of its key, half a minute out and at the settle time, whether
   * the gateway learns that they were ingested or not. The verdict is a capture exactly when the
   * payment's label for this kind of action says so, and a capture is ours.
   */
  lemma EffectEvents(g: State, seeded: Seeded, r: Request, w: World)
    requires Uniform(seeded)
    requires Acts(g, seeded, r, w) || Leaks(g, seeded, r, w)
    ensures var after := Call(g, seeded, r, w).0;
            && |after.emitted| == |g.emitted| + 2
            && var attempted, verdict := after.emitted[|g.emitted|], after.emitted[|g.emitted|+1];
               && attempted.kind == PaymentAttempted && attempted.occurredAt == r.now + 30_000
               && verdict.kind == (if LabelSays(g, r, w) then PaymentCaptured else PaymentFailed)
               && (if r.kind in {CreatePaymentLink, NotifyCustomer}
                   then r.now + 5 * 60_000 <= verdict.occurredAt <= r.now + 25 * 60_000
                   else r.now + 60_000 <= verdict.occurredAt <= r.now + 5 * 60_000)
               && attempted.paymentId == verdict.paymentId == r.payment && attempted.id != verdict.id
               && Attribute(Capture(verdict.occurredAt, Some(ReferenceFor(r))),
                            Some(OurAction(r.now, Some(ReferenceFor(r))))) == Direct
               && (Acts(g, seeded, r, w) ==>
                     && r.key in after.memory && after.memory[r.key].reference == ReferenceFor(r)
                     && after.memory[r.key].settlesAt == verdict.occurredAt
                     && after.memory[r.key].recovered == LabelSays(g, r, w))
               && (Leaks(g, seeded, r, w) ==> r.key !in after.memory)
  {
    hide Admit, Effect, Attribute, ReferenceFor, ResultFor, EventsFor, Recovers, LabelSays, SettleDelayMinutes;
    AdmitMeans(g, seeded, r);
    var (admitted, admission) := Admit(g, seeded, r);
    EffectMeans(admitted, r, w, admission.settle);
    SameLabels(g, admitted, r, w);
    RecoversByLabel(admitted, r, w);
    TwoEventsMean(r, w.instrument.value, Recovers(admitted, r, w), admission.settle);
    DelayOfKind(r.kind, admission.settle);
    OwnCaptureIsDirect(r.kind, admission.settle, r.now, ReferenceFor(r));
  }

  lemma SameLabels(g: State, after: State, r: Request, w: World)
    requires after.labels == g.labels
    ensures LabelSays(after, r, w) <==> LabelSays(g, r, w)
  {
  }

  /** References and event ids tell keys apart, so no effect is taken for that of another key. */
  lemma KeysAreToldApart(a: Request, b: Request, s: string, t: string, kind: EventKind, at: int, code: Option<string>)
    requires |s| == |t|
    ensures EventFor(a, s, kind, at, code).id == EventFor(b, t, kind, at, code).id <==> a.key == b.key && s == t
    ensures ReferenceFor(a).key == ReferenceFor(b).key <==> a.key == b.key
    ensures ReferenceFor(a).route == Secondary <==> a.kind == RouteAlternateGateway
  {
    var x, y := "evt_ik_" + a.key.decision, "evt_ik_" + b.key.decision;
    if x + s == y + t {
      assert (x + s)[..|x|] == x && (y + t)[..|y|] == y && |x| == |y|;
      assert x[7..] == a.key.decision && y[7..] == b.key.decision;
      assert (x + s)[|x|..] == s && (y + t)[|y|..] == t;
    }
  }

  /** What is drawn for the key's next attempt. */
  function NextDraws(g: State, seeded: Seeded, r: Request): Draws {
    seeded(r.key, if r.key in g.attemptsByKey then g.attemptsByKey[r.key] + 1 else 1)
  }

  /** The fault of a call: the first one injected, or else the one drawn. */
  function FaultOf(g: State, seeded: Seeded, r: Request): Fault {
    if g.queued != [] then g.queued[0] else NextDraws(g, seeded, r).fault
  }

  /** The payment is known, and the alternate route is not asked to take an instrument of this country alone. */
  predicate CanBeSent(r: Request, w: World) {
    && w.instrument.Some?
    && (r.kind == RouteAlternateGateway ==>
          && w.instrument.value.paymentMethod !in {"upi", "netbanking"}
          && (w.instrument.value.paymentMethod == "card" ==> w.instrument.value.cardNetwork != Some("rupay")))
  }

  /** What the gateway decides at once, fault by fault, and what it has drawn for the key since. */
  lemma AdmitDecides(g: State, seeded: Seeded, r: Request)
    requires Uniform(seeded) && r.key !in g.memory
    ensures var ((after, admission), fault) := (Admit(g, seeded, r), FaultOf(g, seeded, r));
            && (fault == RetryableFault ==> admission == Decided(Threw(Some(Retryable))))
            && (fault == TerminalFault ==> admission == Decided(Threw(Some(Terminal))))
            && (fault == TimeoutFault ==>
                  admission == if NextDraws(g, seeded, r).acts then WillAct(true, NextDraws(g, seeded, r).settle)
                               else Decided(TimedOut))
            && (fault == NoFault ==> admission == WillAct(false, NextDraws(g, seeded, r).settle))
            && after.queued == (if g.queued == [] then [] else g.queued[1..])
            && r.key in after.attemptsByKey
            && after.attemptsByKey[r.key] == (if r.key in g.attemptsByKey then g.attemptsByKey[r.key] + 1 else 1)
  {
  }

  lemma EffectKeepsQueue(g: State, r: Request, w: World, settle: real)
    requires 0.0 <= settle < 1.0
    ensures var after := Effect(g, r, w, settle).0;
            after.queued == g.queued && after.attemptsByKey == g.attemptsByKey
  {
    hide ResultFor, EventsFor, Recovers;
  }

  /**
   * What a call under a key that is not remembered answers, fault by fault: nothing but the
   * payment, its route and the ingest decides it when there is no fault; a timeout may have acted,
   * and is seen as one exactly when nothing was thrown on the way.
   */
  lemma CallAnswers(g: State, seeded: Seeded, r: Request, w: World)
    requires Uniform(seeded) && r.key !in g.memory
    ensures var (after, outcome) := Call(g, seeded, r, w);
            var fault := FaultOf(g, seeded, r);
            var through := CanBeSent(r, w) && w.ingest == Commits;
            && (fault == RetryableFault ==> outcome == Threw(Some(Retryable)) && after.emitted == g.emitted)
            && (fault == TerminalFault ==> outcome == Threw(Some(Terminal)) && after.emitted == g.emitted)
            && (fault == NoFault ==> (outcome.Answered? <==> through))
            && (fault == TimeoutFault ==> (outcome.TimedOut? <==> !NextDraws(g, seeded, r).acts || through))
            && (r.key in after.memory <==>
                through && (fault == NoFault || (fault == TimeoutFault && NextDraws(g, seeded, r).acts)))
            && (fault in {NoFault, TimeoutFault} && !outcome.Answered? && !outcome.TimedOut? ==>
                  outcome == Threw(if CanBeSent(r, w) then None else Some(Terminal)))
            && after.queued == (if g.queued == [] then [] else g.queued[1..])
            && r.key in after.attemptsByKey
            && after.attemptsByKey[r.key] == (if r.key in g.attemptsByKey then g.attemptsByKey[r.key] + 1 else 1)
  {
    hide ResultFor, EventsFor, Recovers, Admit, Effect, FaultOf, NextDraws;
    AdmitMeans(g, seeded, r);
    AdmitDecides(g, seeded, r);
    var (admitted, admission) := Admit(g, seeded, r);
    if admission.WillAct? {
      EffectMeans(admitted, r, w, admission.settle);
      EffectKeepsQueue(admitted, r, w, admission.settle);
    }
  }

  class SimulatedGateway {
    const seeded: Seeded
    var memory: map<Key, GatewayResult>
    var attemptsByKey: map<Key, nat>
    var labels: map<PaymentId, Labels>
    var queued: seq<Fault>
    var stats: Stats
    var emitted: seq<Event>

    ghost function Contents(): State
      reads this
    {
      State(memory, attemptsByKey, labels, queued, stats, emitted)
    }

    ghost predicate Valid() {
      Uniform(seeded)
    }

    constructor (seeded: Seeded)
      ensures this.seeded == seeded
      ensures Contents() == State(map[], map[], map[], [], Stats(0, 0, 0, 0, 0, 0, 0, 0), [])
    {
      this.seeded := seeded;
      memory, attemptsByKey, labels, queued, emitted := map[], map[], map[], [], [];
      stats := Stats(0, 0, 0, 0, 0, 0, 0, 0);
    }

    method InjectFaults(kind: Fault, count: nat)
      modifies this`queued
      ensures queued == old(queued) + seq(count, i => kind)
    {
      for i := 0 to count
        invariant queued == old(queued) + seq(i, _ => kind)
      {
        queued := queued + [kind];
      }
    }

    method Lookup(key: Key) returns (found: Option<GatewayResult>)
      ensures found == if key in memory then Some(memory[key]) else None
    {
      found := if key in memory then Some(memory[key]) else None;
    }

    method PerformEffect(r: Request, w: World, settle: real) returns (outcome: CallOutcome)
      requires 0.0 <= settle < 1.0
      modifies this
      ensures (Contents(), outcome) == Effect(old(Contents()), r, w, settle)
    {
      if w.instrument.None? {
        return Threw(Some(Terminal));
      }
      if !RouteAccepts(RouteFor(r.kind), w.instrument.value) {
        stats := stats.(refusedByRoute := stats.refusedByRoute + 1);
        return Threw(Some(Terminal));
      }
      var known := if r.payment in labels then Some(labels[r.payment]) else w.stored;
      if r.kind != Escalate && known.None? {
        stats := stats.(unlabelled := stats.unlabelled + 1);
      }
      var recovered := known.Some? && CounterfactualFor(r.kind, known.value) == Some(true);
      var result := ResultFor(r, recovered, settle);
      if w.ingest == RollsBack {
        return Threw(None);
      }
      emitted := emitted + EventsFor(r, w.instrument.value, result);
      if w.ingest == ReplyLost {
        return Threw(None);
      }
      memory := memory[r.key := result];
      stats := stats.(effects := stats.effects + 1);
      return Answered(result);
    }

    method ExecuteAction(r: Request, w: World) returns (outcome: CallOutcome)
      requires Valid()
      modifies this
      ensures (Contents(), outcome) == Call(old(Contents()), seeded, r, w)
    {
      stats := stats.(calls := stats.calls + 1);
      if r.key in memory {
        stats := stats.(deduplicated := stats.deduplicated + 1);
        return Answered(memory[r.key]);
      }
      var attempt := (if r.key in attemptsByKey then attemptsByKey[r.key] else 0) + 1;
      attemptsByKey := attemptsByKey[r.key := attempt];
      var draws := seeded(r.key, attempt);
      var fault := draws.fault;
      if queued != [] {
        fault := queued[0];
        queued := queued[1..];
      }
      match fault
      case RetryableFault =>
        stats := stats.(retryable := stats.retryable + 1);
        return Threw(Some(Retryable));
      case TerminalFault =>
        stats := stats.(terminal := stats.terminal + 1);
        return Threw(Some(Terminal));
      case TimeoutFault =>
        stats := stats.(timeout := stats.timeout + 1);
        if draws.acts {
          outcome := PerformEffect(r, w, draws.settle);
          if !outcome.Answered? {
            return outcome;
          }
        }
        return TimedOut;
      case NoFault =>
        outcome := PerformEffect(r, w, draws.settle);
    }
  }
}
