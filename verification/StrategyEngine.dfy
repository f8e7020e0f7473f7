/**
 * The strategy engine (apps/api/src/domain/strategy.ts): expected value in integer paise with
 * do_nothing always on the ballot, and the reconciliation of a proposal with it
 * (apps/api/src/domain/agent.ts:145-166).
 */
module StrategyEngine {
  import opened Wrappers
  import opened Policy
  import Execution

  datatype Odds = Odds(retry: real, paymentLink: real, alternateMethod: real, alternateGateway: real)

  datatype StrategyInput = StrategyInput(
    amountPaise: nat,
    odds: Odds,
    caseProbability: Option<real>,
    lifetimeValuePaise: nat,
    optedOut: bool,
    secondaryRouteAvailable: bool,
    family: Family)

  datatype StrategyOption = StrategyOption(
    strategy: Strategy,
    probability: real,
    grossPaise: int,
    costPaise: int,
    frictionPaise: int,
    evPaise: int,
    available: bool)

  datatype StrategyDecision = StrategyDecision(chosen: StrategyOption, options: seq<StrategyOption>)

  const PROBABILITY_FLOOR := 0.01
  const PROBABILITY_CEILING := 0.95
  const STRATEGIES := [Retry, PaymentLink, AlternateMethod, AlternateGateway, DoNothing]

  function Min(a: real, b: real): real { if a <= b then a else b }
  function Max(a: real, b: real): real { if a >= b then a else b }
  function Times(a: real, b: real): real { a * b }
  function Clamp(p: real): real { Min(PROBABILITY_CEILING, Max(PROBABILITY_FLOOR, p)) }

  function CustomerMultiplier(lifetimeValuePaise: nat): real {
    1.0 + Min(0.5, lifetimeValuePaise as real / 5_000_000.0)
  }

  function CostPaise(s: Strategy): nat {
    match s
    case Retry => 200
    case PaymentLink => 500
    case AlternateMethod => 300
    case AlternateGateway => 900
    case DoNothing => 0
  }

  function FrictionRate(s: Strategy): real {
    match s
    case PaymentLink => 0.005
    case AlternateMethod => 0.003
    case _ => 0.0
  }

  /** A scaled amount, rounded once; a negative factor is refused by the source. */
  function ScalePaise(paise: nat, factor: real): (scaled: int)
    requires factor >= 0.0
    ensures scaled >= 0
  {
    assert paise as real * factor >= 0.0;
    Execution.Round(paise as real * factor)
  }

  function OddsOf(o: Odds, s: Strategy): real {
    match s
    case Retry => o.retry
    case PaymentLink => o.paymentLink
    case AlternateMethod => o.alternateMethod
    case AlternateGateway => o.alternateGateway
    case DoNothing => 0.0
  }

  predicate Plausible(o: Odds) {
    o.retry >= 0.0 && o.paymentLink >= 0.0 && o.alternateMethod >= 0.0 && o.alternateGateway >= 0.0
  }

  function Best(o: Odds): real {
    Max(Max(o.retry, o.paymentLink), Max(o.alternateMethod, o.alternateGateway))
  }

  /** The odds the values are computed from: the table, scaled to the case's own probability if there is one. */
  function ActiveOdds(i: StrategyInput): (o: Odds)
    requires Plausible(i.odds)
    ensures Plausible(o)
  {
    if i.caseProbability.Some? && Best(i.odds) > 0.0 then
      var k := i.caseProbability.value / Best(i.odds);
      Odds(Clamp(Times(i.odds.retry, k)), Clamp(Times(i.odds.paymentLink, k)), Clamp(Times(i.odds.alternateMethod, k)),
           Clamp(Times(i.odds.alternateGateway, k)))
    else i.odds
  }

  /** Whether the intervention can happen at all. */
  predicate Available(i: StrategyInput, s: Strategy) {
    s == DoNothing
    || (!i.optedOut && i.family != Terminal && (s == AlternateGateway ==> i.secondaryRouteAvailable))
  }

  /** What one intervention brings back of the amount, on average. */
  function Yield(i: StrategyInput, s: Strategy): (f: real)
    requires Plausible(i.odds)
    ensures f >= 0.0
  {
    Times(OddsOf(ActiveOdds(i), s), CustomerMultiplier(i.lifetimeValuePaise))
  }

  function Price(i: StrategyInput, s: Strategy): StrategyOption
    requires Plausible(i.odds)
  {
    var p := OddsOf(ActiveOdds(i), s);
    if !Available(i, s) then StrategyOption(s, p, 0, 0, 0, 0, false)
    else
      var gross := ScalePaise(i.amountPaise, Yield(i, s));
      var friction := ScalePaise(i.amountPaise, FrictionRate(s));
      StrategyOption(s, p, gross, CostPaise(s), friction,
                     if s == DoNothing then 0 else gross - CostPaise(s) - friction, true)
  }

  function Options(i: StrategyInput): (options: seq<StrategyOption>)
    requires Plausible(i.odds)
    ensures |options| == 5 && forall k :: 0 <= k < 5 ==> options[k] == Price(i, STRATEGIES[k])
  {
    seq(5, k requires 0 <= k < 5 => Price(i, STRATEGIES[k]))
  }

  /** An option that is available and acts. */
  predicate Acting(o: StrategyOption) {
    o.available && o.strategy != DoNothing
  }

  /**
   * The first of the best: do_nothing when no acting option clears zero, otherwise the earliest
   * acting option that no other beats.
   */
  predicate FirstBest(options: seq<StrategyOption>, chosen: StrategyOption) {
    if chosen.strategy == DoNothing then
      chosen in options && forall o :: o in options && Acting(o) ==> o.evPaise <= 0
    else
      && chosen.evPaise > 0 && Acting(chosen)
      && exists k :: 0 <= k < |options| && options[k] == chosen
           && (forall j :: 0 <= j < |options| && Acting(options[j]) ==> options[j].evPaise <= chosen.evPaise)
           && forall j :: 0 <= j < k && Acting(options[j]) ==> options[j].evPaise < chosen.evPaise
  }

  /** The argmax loop as a fold: a later option replaces the best so far only by beating it. */
  function BestFrom(options: seq<StrategyOption>, best: StrategyOption): StrategyOption {
    if options == [] then best
    else BestFrom(options[1..], if Acting(options[0]) && options[0].evPaise > best.evPaise then options[0] else best)
  }

  function Chosen(i: StrategyInput): StrategyOption
    requires Plausible(i.odds)
  {
    BestFrom(Options(i), Options(i)[4])
  }

  /** `r` is an option that beats `best` and every option before it. */
  predicate Overtakes(options: seq<StrategyOption>, best: StrategyOption, r: StrategyOption) {
    exists k :: 0 <= k < |options| && options[k] == r && Acting(r) && r.evPaise > best.evPaise
                && forall j :: 0 <= j < k && Acting(options[j]) ==> options[j].evPaise < r.evPaise
  }

  /** The fold ends at an option no other beats: `best` itself, or the first one that overtakes it. */
  lemma {:induction false} BestFromMeans(options: seq<StrategyOption>, best: StrategyOption)
    ensures var r := BestFrom(options, best);
            && (forall j :: 0 <= j < |options| && Acting(options[j]) ==> options[j].evPaise <= r.evPaise)
            && (r == best || Overtakes(options, best, r))
  {
    if options != [] {
      var next := if Acting(options[0]) && options[0].evPaise > best.evPaise then options[0] else best;
      var tail := options[1..];
      var r := BestFrom(tail, next);
      BestFromMeans(tail, next);
      assert forall j :: 0 < j < |options| ==> options[j] == tail[j-1];
      if r != next {
        var k :| 0 <= k < |tail| && tail[k] == r && Acting(r) && r.evPaise > next.evPaise
                 && forall j :: 0 <= j < k && Acting(tail[j]) ==> tail[j].evPaise < r.evPaise;
        assert options[k+1] == r;
      } else if r != best {
        assert options[0] == r;
      }
    }
  }

  lemma ChosenIsFirstBest(i: StrategyInput)
    requires Plausible(i.odds)
    ensures FirstBest(Options(i), Chosen(i))
  {
    hide BestFrom;
    BestFromMeans(Options(i), Options(i)[4]);
    assert Options(i)[4].strategy == DoNothing && Options(i)[4].evPaise == 0;
  }

  method Choose(i: StrategyInput) returns (d: StrategyDecision)
    requires Plausible(i.odds)
    ensures d == StrategyDecision(Chosen(i), Options(i)) && FirstBest(d.options, d.chosen)
  {
    var options := Options(i);
    var chosen := options[4];
    for k := 0 to |options|
      invariant BestFrom(options[k..], chosen) == Chosen(i)
    {
      var o := options[k];
      assert options[k..][0] == o && options[k..][1..] == options[k+1..];
      if o.available && o.strategy != DoNothing {
        if o.evPaise > chosen.evPaise {
          chosen := o;
        }
      }
    }
    assert options[|options|..] == [];
    ChosenIsFirstBest(i);
    d := StrategyDecision(chosen, options);
  }

  /** The five options differ by their strategy, so there is only one first best. */
  lemma FirstBestIsUnique(i: StrategyInput, a: StrategyOption, b: StrategyOption)
    requires Plausible(i.odds) && FirstBest(Options(i), a) && FirstBest(Options(i), b)
    ensures a == b
  {
    var options := Options(i);
    if a.strategy == DoNothing && b.strategy == DoNothing {
      var j, k :| 0 <= j < 5 && 0 <= k < 5 && options[j] == a && options[k] == b;
    } else if a.strategy != DoNothing && b.strategy != DoNothing {
      var j :| 0 <= j < 5 && options[j] == a && forall x :: 0 <= x < j && Acting(options[x]) ==>
                                                  options[x].evPaise < a.evPaise;
      var k :| 0 <= k < 5 && options[k] == b && forall x :: 0 <= x < k && Acting(options[x]) ==>
                                                  options[x].evPaise < b.evPaise;
    }
  }

  lemma ScaleNear(paise: nat, factor: real)
    requires factor >= 0.0
    ensures -0.5 <= ScalePaise(paise, factor) as real - paise as real * factor <= 0.5
  {
  }

  /** How much more a customer is worth: up to half again, at a lifetime value of half the scale. */
  function Worth(lifetimeValuePaise: nat): real {
    if lifetimeValuePaise < 2_500_000 then 1.0 + lifetimeValuePaise as real / 5_000_000.0 else 1.5
  }

  /**
   * The price of an option that can happen: its money to the nearest paisa, less what the attempt
   * costs and what asking the customer costs, 5 or 3 in a thousand.
   */
  lemma PriceMeans(i: StrategyInput, s: Strategy)
    requires Plausible(i.odds) && s != DoNothing
    ensures var o := Price(i, s);
            && (o.available <==>
                !i.optedOut && i.family != Terminal && (s == AlternateGateway ==> i.secondaryRouteAvailable))
            && (!o.available ==> o.evPaise == 0)
            && (o.available ==>
                  && o.evPaise == o.grossPaise - o.costPaise - o.frictionPaise
                  && IsNear(o.grossPaise, i.amountPaise as real * Times(o.probability, Worth(i.lifetimeValuePaise)))
                  && (s == Retry ==> o.costPaise == 200 && o.frictionPaise == 0)
                  && (s == PaymentLink ==>
                        o.costPaise == 500 && IsNear(o.frictionPaise, i.amountPaise as real * 0.005))
                  && (s == AlternateMethod ==>
                        o.costPaise == 300 && IsNear(o.frictionPaise, i.amountPaise as real * 0.003))
                  && (s == AlternateGateway ==> o.costPaise == 900 && o.frictionPaise == 0))
  {
    hide ScalePaise, ActiveOdds, Times, CustomerMultiplier;
    WorthIsMultiplier(i.lifetimeValuePaise);
    ScaleNear(i.amountPaise, Yield(i, s));
    ScaleNear(i.amountPaise, FrictionRate(s));
  }

  predicate IsNear(whole: int, x: real) {
    -0.5 <= whole as real - x <= 0.5
  }

  lemma WorthIsMultiplier(lifetimeValuePaise: nat)
    ensures CustomerMultiplier(lifetimeValuePaise) == Worth(lifetimeValuePaise)
  {
  }

  /**
   * The probability of an option is its own odds, and with a case probability those odds in its
   * proportion to the best of them, held between 1% and 95%.
   */
  lemma ProbabilityMeans(i: StrategyInput, s: Strategy)
    requires Plausible(i.odds) && s != DoNothing
    ensures var p, best := Price(i, s).probability, Best(i.odds);
            var own := if s == Retry then i.odds.retry else if s == PaymentLink then i.odds.paymentLink
                       else if s == AlternateMethod then i.odds.alternateMethod else i.odds.alternateGateway;
            && own <= best
            && best in {i.odds.retry, i.odds.paymentLink, i.odds.alternateMethod, i.odds.alternateGateway}
            && (i.caseProbability.None? || best == 0.0 ==> p == own)
            && (i.caseProbability.Some? && best > 0.0 ==>
                  var scaled := Times(own, i.caseProbability.value / best);
                  && 0.01 <= p <= 0.95 && (0.01 <= scaled <= 0.95 ==> p == scaled)
                  && (scaled < 0.01 ==> p == 0.01) && (scaled > 0.95 ==> p == 0.95))
  {
    hide ScalePaise, Times, Yield;
  }

  lemma ClampMonotone(a: real, b: real)
    requires a <= b
    ensures Clamp(a) <= Clamp(b)
  {
  }

  lemma TimesMonotone(k: real, a: real, b: real)
    requires a <= b && k >= 0.0
    ensures Times(k, a) <= Times(k, b) && Times(a, k) <= Times(b, k)
  {
    assert (b - a) * k >= 0.0;
    assert b * k == a * k + (b - a) * k;
  }

  lemma ScaledMax(a: real, b: real, k: real)
    requires k >= 0.0
    ensures Clamp(Times(Max(a, b), k)) == Max(Clamp(Times(a, k)), Clamp(Times(b, k)))
  {
    hide Clamp, Times;
    if a <= b {
      TimesMonotone(k, a, b);
      ClampMonotone(Times(a, k), Times(b, k));
    } else {
      TimesMonotone(k, b, a);
      ClampMonotone(Times(b, k), Times(a, k));
    }
  }

  lemma DivideMultiply(p: real, best: real)
    requires best > 0.0 && p >= 0.0
    ensures Times(best, p / best) == p && p / best >= 0.0
  {
  }

  /** After rescaling, the best of the odds is the case's own probability, clamped. */
  lemma BestOddsAgree(i: StrategyInput)
    requires Plausible(i.odds) && i.caseProbability.Some? && i.caseProbability.value >= 0.0 && Best(i.odds) > 0.0
    ensures Best(ActiveOdds(i)) == Clamp(i.caseProbability.value)
  {
    hide Clamp, Max, Times;
    var o, best := i.odds, Best(i.odds);
    var k := i.caseProbability.value / best;
    DivideMultiply(i.caseProbability.value, best);
    ScaledMax(o.retry, o.paymentLink, k);
    ScaledMax(o.alternateMethod, o.alternateGateway, k);
    ScaledMax(Max(o.retry, o.paymentLink), Max(o.alternateMethod, o.alternateGateway), k);
  }

  /** Every acting choice is available for this customer and this failure, and makes money. */
  lemma ActingChoice(i: StrategyInput, chosen: StrategyOption)
    requires Plausible(i.odds) && FirstBest(Options(i), chosen) && chosen.strategy != DoNothing
    ensures !i.optedOut && i.family != Terminal && chosen.evPaise > 0
    ensures chosen.strategy == AlternateGateway ==> i.secondaryRouteAvailable
    ensures chosen == Price(i, chosen.strategy) && chosen.costPaise == CostPaise(chosen.strategy)
  {
  }

  // ---- Where a proposal meets the arithmetic ----

  datatype Source = Llm | Fallback

  datatype Reconciled = Reconciled(choice: Strategy, source: Source)

  function Find(options: seq<StrategyOption>, s: Strategy): Option<StrategyOption> {
    if options == [] then None
    else if options[0].strategy == s then Some(options[0]) else Find(options[1..], s)
  }

  /** No proposal, or one that is not there, not available, loses money or leaves some, gives way to the engine. */
  function Reconcile(proposal: Option<Strategy>, d: StrategyDecision): Reconciled {
    var engine := Reconciled(d.chosen.strategy, Fallback);
    if proposal.None? then engine
    else
      var choice := proposal.value;
      var option := Find(d.options, choice);
      if option.None? then engine
      else if choice != DoNothing && !option.value.available then engine
      else if choice != DoNothing && option.value.evPaise <= 0 then engine
      else if choice == DoNothing && d.chosen.evPaise > 0 then engine
      else Reconciled(choice, Llm)
  }

  lemma FindOption(i: StrategyInput, s: Strategy)
    requires Plausible(i.odds)
    ensures Find(Options(i), s) == Some(Price(i, s))
  {
    hide Price;
    var o := Options(i);
    assert o == [o[0], o[1], o[2], o[3], o[4]];
    forall k | 0 <= k < 5
      ensures o[k].strategy == STRATEGIES[k]
    {
      PriceStrategy(i, STRATEGIES[k]);
    }
    assert o[1..][1..] == o[2..] && o[2..][1..] == o[3..] && o[3..][1..] == o[4..];
    assert Find(o[4..], s) == if s == DoNothing then Some(o[4]) else Find(o[4..][1..], s);
    assert Find(o[3..], s) == if s == AlternateGateway then Some(o[3]) else Find(o[4..], s);
    assert Find(o[2..], s) == if s == AlternateMethod then Some(o[2]) else Find(o[3..], s);
    assert Find(o[1..], s) == if s == PaymentLink then Some(o[1]) else Find(o[2..], s);
  }

  lemma PriceStrategy(i: StrategyInput, s: Strategy)
    requires Plausible(i.odds)
    ensures Price(i, s).strategy == s
  {
  }

  /** A proposal that may stand: acting where that is available and makes money, or not acting where nothing does. */
  predicate MayStand(i: StrategyInput, d: StrategyDecision, s: Strategy)
    requires Plausible(i.odds)
  {
    if s == DoNothing then d.chosen.evPaise <= 0
    else
      && !i.optedOut && i.family != Terminal && (s == AlternateGateway ==> i.secondaryRouteAvailable)
      && Price(i, s).evPaise > 0
  }

  /** The model's choice is followed exactly when it may stand, and otherwise the engine's is. */
  lemma ReconcileFollows(i: StrategyInput, d: StrategyDecision, proposal: Option<Strategy>)
    requires Plausible(i.odds) && d.options == Options(i)
    ensures proposal.None? ==> Reconcile(proposal, d) == Reconciled(d.chosen.strategy, Fallback)
    ensures proposal.Some? ==>
              Reconcile(proposal, d)
              == if MayStand(i, d, proposal.value) then Reconciled(proposal.value, Llm)
                 else Reconciled(d.chosen.strategy, Fallback)
  {
    hide ScalePaise, ActiveOdds, Yield;
    if proposal.Some? {
      FindOption(i, proposal.value);
    }
  }

  /**
   * Whatever a model proposes, the outcome declines to act exactly when the engine does, and
   * otherwise is an available option that makes money.
   */
  lemma ReconcileNeverLoses(i: StrategyInput, d: StrategyDecision, proposal: Option<Strategy>)
    requires Plausible(i.odds) && d.options == Options(i) && FirstBest(d.options, d.chosen)
    ensures var choice := Reconcile(proposal, d).choice;
            && (choice == DoNothing <==> d.chosen.strategy == DoNothing)
            && (choice != DoNothing ==> Available(i, choice) && 0 < Price(i, choice).evPaise <= d.chosen.evPaise)
  {
    var choice := Reconcile(proposal, d).choice;
    FindOption(i, choice);
    FindOption(i, d.chosen.strategy);
    assert forall k :: 0 <= k < 5 ==> d.options[k] in d.options;
    assert Price(i, choice) in d.options by {
      assert exists k :: 0 <= k < 5 && STRATEGIES[k] == choice by {
        assert STRATEGIES[0] == Retry && STRATEGIES[1] == PaymentLink && STRATEGIES[2] == AlternateMethod
            && STRATEGIES[3] == AlternateGateway && STRATEGIES[4] == DoNothing;
      }
    }
  }
}
