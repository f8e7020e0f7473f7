/**
 * The two arms of the what-if simulator and their comparison
 * (apps/api/src/domain/whatif.ts:80-246): counters filled row by row, conserved over any rows.
 */
module WhatIfArms {
  import opened Wrappers
  import opened Policy
  import opened StrategyEngine
  import opened WhatIf
  import Execution

  datatype Segment = Segment(failed: nat, attempted: nat, recovered: nat, costPaise: nat, revenuePaise: nat)

  datatype Tally = Tally(attempted: nat, recovered: nat, revenuePaise: nat)

  /** One tally per strategy. */
  datatype Tallies = Tallies(
    retry: Tally, paymentLink: Tally, alternateMethod: Tally, alternateGateway: Tally, doNothing: Tally)

  function With(t: Tallies, s: Strategy, tally: Tally): Tallies {
    match s
    case Retry => t.(retry := tally)
    case PaymentLink => t.(paymentLink := tally)
    case AlternateMethod => t.(alternateMethod := tally)
    case AlternateGateway => t.(alternateGateway := tally)
    case DoNothing => t.(doNothing := tally)
  }

  function Of(t: Tallies, s: Strategy): Tally {
    match s
    case Retry => t.retry
    case PaymentLink => t.paymentLink
    case AlternateMethod => t.alternateMethod
    case AlternateGateway => t.alternateGateway
    case DoNothing => t.doNothing
  }

  datatype ArmResult = ArmResult(
    total: Segment,
    international: Segment,
    domestic: Segment,
    byStrategy: Tallies,
    doNothing: nat,
    denied: nat,
    deferred: nat,
    requiredApproval: nat,
    scoredByModel: nat,
    scoredByBaseline: nat)

  const EMPTY_TALLY := Tally(0, 0, 0)
  const EMPTY_TALLIES := Tallies(EMPTY_TALLY, EMPTY_TALLY, EMPTY_TALLY, EMPTY_TALLY, EMPTY_TALLY)
  const EMPTY_SEGMENT := Segment(0, 0, 0, 0, 0)
  const EMPTY_ARM := ArmResult(EMPTY_SEGMENT, EMPTY_SEGMENT, EMPTY_SEGMENT,
                               EMPTY_TALLIES, 0, 0, 0, 0, 0, 0)

  function CountIn(s: Segment, row: Row, acted: bool, cost: nat, recovered: bool): Segment {
    if !acted then s.(failed := s.failed + 1)
    else Segment(s.failed + 1, s.attempted + 1, s.recovered + (if recovered then 1 else 0), s.costPaise + cost,
                 s.revenuePaise + (if recovered then row.amountPaise else 0))
  }

  function CountUnder(t: Tally, row: Row, recovered: bool): Tally {
    Tally(t.attempted + 1, t.recovered + (if recovered then 1 else 0),
          t.revenuePaise + (if recovered then row.amountPaise else 0))
  }

  /** `record`: one row, what was done about it if anything, and whether it came back. */
  function Recorded(a: ArmResult, row: Row, strategy: Option<Strategy>, cost: nat, recovered: bool): ArmResult {
    var acted := strategy.Some? && strategy.value != DoNothing;
    a.(total := CountIn(a.total, row, acted, cost, recovered),
       international := if row.isInternational then CountIn(a.international, row, acted, cost, recovered)
                        else a.international,
       domestic := if row.isInternational then a.domestic else CountIn(a.domestic, row, acted, cost, recovered),
       byStrategy := if acted
                     then With(a.byStrategy, strategy.value,
                               CountUnder(Of(a.byStrategy, strategy.value), row, recovered))
                     else a.byStrategy)
  }

  /** The counters of a decided row. */
  function Counted(a: ArmResult, row: Row, fate: Fate): ArmResult {
    match fate
    case Untouched => Recorded(a.(doNothing := a.doNothing + 1), row, Some(DoNothing), 0, false)
    case Denied => Recorded(a.(denied := a.denied + 1), row, None, 0, false)
    case Deferred => Recorded(a.(deferred := a.deferred + 1), row, None, 0, false)
    case Attempt(s, cost, signed) =>
      Recorded(a.(requiredApproval := a.requiredApproval + if signed then 1 else 0), row, Some(s), cost,
               LabelFor(s, row.labels))
  }

  function AgentRow(a: ArmResult, row: Row, fate: Fate, source: ScoreSource): ArmResult {
    Counted(if source == FromModel then a.(scoredByModel := a.scoredByModel + 1)
            else a.(scoredByBaseline := a.scoredByBaseline + 1), row, fate)
  }

  function AgentArm(score: Scorer, rows: seq<Row>, fates: seq<Fate>): (a: ArmResult)
    requires |rows| == |fates|
  {
    if rows == [] then EMPTY_ARM
    else
      AgentRow(AgentArm(score, rows[..|rows|-1], fates[..|rows|-1]), rows[|rows|-1], fates[|rows|-1],
               score(rows[|rows|-1]).source)
  }

  function BaselineArm(rows: seq<Row>): ArmResult {
    if rows == [] then EMPTY_ARM
    else
      var row := rows[|rows|-1];
      Recorded(BaselineArm(rows[..|rows|-1]), row, Some(Retry), BLIND_RETRY_COST_PAISE, row.labels.retry)
  }

  /** An arm while it is filled. */
  class Arm {
    var total: Segment
    var international: Segment
    var domestic: Segment
    var byStrategy: Tallies
    var doNothing: nat
    var denied: nat
    var deferred: nat
    var requiredApproval: nat
    var scoredByModel: nat
    var scoredByBaseline: nat

    ghost function Contents(): ArmResult
      reads this
    {
      ArmResult(total, international, domestic, byStrategy, doNothing, denied, deferred, requiredApproval,
                scoredByModel, scoredByBaseline)
    }

    constructor ()
      ensures Contents() == EMPTY_ARM
    {
      total, international, domestic := EMPTY_SEGMENT, EMPTY_SEGMENT, EMPTY_SEGMENT;
      byStrategy := EMPTY_TALLIES;
      doNothing, denied, deferred, requiredApproval, scoredByModel, scoredByBaseline := 0, 0, 0, 0, 0, 0;
    }

    method Record(row: Row, strategy: Option<Strategy>, cost: nat, recovered: bool)
      modifies this
      ensures Contents() == Recorded(old(Contents()), row, strategy, cost, recovered)
    {
      var acted := strategy.Some? && strategy.value != DoNothing;
      total := CountIn(total, row, acted, cost, recovered);
      if row.isInternational {
        international := CountIn(international, row, acted, cost, recovered);
      } else {
        domestic := CountIn(domestic, row, acted, cost, recovered);
      }
      if acted {
        byStrategy := With(byStrategy, strategy.value, CountUnder(Of(byStrategy, strategy.value), row, recovered));
      }
    }
  }

  method RunBaseline(rows: seq<Row>) returns (arm: Arm)
    ensures arm.Contents() == BaselineArm(rows)
  {
    arm := new Arm();
    for i := 0 to |rows|
      invariant fresh(arm) && arm.Contents() == BaselineArm(rows[..i])
    {
      assert rows[..i+1][..i] == rows[..i];
      arm.Record(rows[i], Some(Retry), BLIND_RETRY_COST_PAISE, rows[i].labels.retry);
    }
    assert rows[..|rows|] == rows;
  }

  /** The gate of one acting row: judged against the merchant's ledger, then recorded. */
  method GateRow(arm: Arm, ledger: Ledger, parse: DateParse, row: Row, chosen: StrategyOption)
    returns (charged: Ledger, ghost fate: Fate)
    requires chosen.strategy != DoNothing && chosen.costPaise >= 0
    modifies arm
    ensures fate == FateOf(EvaluatePolicy(parse, PolicyInputOf(row, ledger, chosen)), chosen)
    ensures charged == if fate.Attempt? then Charged(ledger, row, fate.costPaise) else ledger
    ensures arm.Contents() == Counted(old(arm.Contents()), row, fate)
  {
    hide EvaluatePolicy, Recorded, PolicyInputOf, LabelFor, IsDeferrable;
    var verdict := EvaluatePolicy(parse, PolicyInputOf(row, ledger, chosen));
    fate := FateOf(verdict, chosen);
    if verdict.verdict == Deny {
      if IsDeferrable(verdict) {
        arm.deferred := arm.deferred + 1;
      } else {
        arm.denied := arm.denied + 1;
      }
      arm.Record(row, None, 0, false);
      return ledger, fate;
    }
    if verdict.verdict == RequireApproval {
      arm.requiredApproval := arm.requiredApproval + 1;
    }
    arm.Record(row, Some(chosen.strategy), chosen.costPaise, LabelFor(chosen.strategy, row.labels));
    return Charged(ledger, row, chosen.costPaise), fate;
  }

  /** One row of the agent arm: score, choose, gate, record. */
  method DecideRow(arm: Arm, ledgers: map<Merchant, Ledger>, parse: DateParse, score: Scorer, row: Row)
    returns (after: map<Merchant, Ledger>, ghost fate: Fate)
    requires Plausible(row.odds)
    modifies arm
    ensures Walked([fate], after) == WalkRow(Walked([], ledgers), parse, score, row)
    ensures arm.Contents() == AgentRow(old(arm.Contents()), row, fate, score(row).source)
  {
    hide Chosen, EvaluatePolicy, FirstBest, Recorded, Opened;
    hide PolicyInputOf, LabelFor, IsDeferrable, Options, Counted, FateOf;
    var scored := score(row);
    if scored.source == FromModel {
      arm.scoredByModel := arm.scoredByModel + 1;
    } else {
      arm.scoredByBaseline := arm.scoredByBaseline + 1;
    }
    var decision := Choose(StrategyInputOf(row, score));
    var chosen := decision.chosen;
    ChosenCost(StrategyInputOf(row, score));
    if chosen.strategy == DoNothing {
      UntouchedCounts(arm.Contents(), row);
      arm.doNothing := arm.doNothing + 1;
      arm.Record(row, Some(DoNothing), 0, false);
      return ledgers, Untouched;
    }
    var found := Opened(LedgerOf(ledgers, row.merchant), DayOf(row), HourOf(row));
    var ledger;
    ledger, fate := GateRow(arm, found, parse, row, chosen);
    FateTouches(EvaluatePolicy(parse, PolicyInputOf(row, found, chosen)), chosen);
    after := ledgers[row.merchant := ledger];
  }

  lemma UntouchedCounts(a: ArmResult, row: Row)
    ensures Counted(a, row, Untouched) == Recorded(a.(doNothing := a.doNothing + 1), row, Some(DoNothing), 0, false)
  {
  }

  lemma FateTouches(d: Decision, chosen: StrategyOption)
    requires chosen.costPaise >= 0
    ensures !FateOf(d, chosen).Untouched?
  {
  }

  method RunAgent(rows: seq<Row>, parse: DateParse, score: Scorer) returns (arm: Arm)
    requires Usable(rows)
    ensures arm.Contents() == AgentArm(score, rows, Walk(parse, score, rows).fates)
  {
    hide WalkRow, AgentRow;
    arm := new Arm();
    var ledgers: map<Merchant, Ledger> := map[];
    for i := 0 to |rows|
      invariant fresh(arm)
      invariant ledgers == Walk(parse, score, rows[..i]).ledgers
      invariant arm.Contents() == AgentArm(score, rows[..i], Walk(parse, score, rows[..i]).fates)
    {
      ghost var w := Walk(parse, score, rows[..i]);
      assert rows[..i+1][..i] == rows[..i];
      ghost var fate;
      ledgers, fate := DecideRow(arm, ledgers, parse, score, rows[i]);
      WalkRowAppends(w, parse, score, rows[i], fate);
      assert (w.fates + [fate])[..i] == w.fates;
    }
    assert rows[..|rows|] == rows;
  }

  /** The fate of a row depends on the ledgers alone, and is added at the end. */
  lemma WalkRowAppends(w: Walked, parse: DateParse, score: Scorer, r: Row, fate: Fate)
    requires Plausible(r.odds) && WalkRow(Walked([], w.ledgers), parse, score, r).fates == [fate]
    ensures WalkRow(w, parse, score, r)
         == Walked(w.fates + [fate], WalkRow(Walked([], w.ledgers), parse, score, r).ledgers)
  {
    hide Judge;
    var l := Opened(LedgerOf(w.ledgers, r.merchant), DayOf(r), HourOf(r));
    assert [Judge(parse, score, r, l)] == [fate];
    assert [fate][0] == fate;
  }

  // ---- Conservation ----

  /** Every counter of the arm is that of its two segments. */
  predicate SegmentsAdd(total: Segment, international: Segment, domestic: Segment) {
    && total.failed == international.failed + domestic.failed
    && total.attempted == international.attempted + domestic.attempted
    && total.recovered == international.recovered + domestic.recovered
    && total.costPaise == international.costPaise + domestic.costPaise
    && total.revenuePaise == international.revenuePaise + domestic.revenuePaise
    && international.recovered <= international.attempted && domestic.recovered <= domestic.attempted
  }

  /** The strategies share out what the arm attempted and recovered; doing nothing has no share. */
  predicate TalliesAdd(total: Segment, t: Tallies) {
    && total.attempted
       == t.retry.attempted + t.paymentLink.attempted + t.alternateMethod.attempted + t.alternateGateway.attempted
    && total.recovered
       == t.retry.recovered + t.paymentLink.recovered + t.alternateMethod.recovered + t.alternateGateway.recovered
    && total.revenuePaise
       == t.retry.revenuePaise + t.paymentLink.revenuePaise + t.alternateMethod.revenuePaise
          + t.alternateGateway.revenuePaise
    && t.doNothing == EMPTY_TALLY
  }

  predicate Balanced(a: ArmResult) {
    SegmentsAdd(a.total, a.international, a.domestic) && TalliesAdd(a.total, a.byStrategy)
  }

  lemma CountKeepsSegments(total: Segment, one: Segment, other: Segment, row: Row, acted: bool, cost: nat,
                           recovered: bool)
    requires SegmentsAdd(total, one, other)
    ensures SegmentsAdd(CountIn(total, row, acted, cost, recovered), CountIn(one, row, acted, cost, recovered), other)
    ensures SegmentsAdd(CountIn(total, row, acted, cost, recovered), other, CountIn(one, row, acted, cost, recovered))
  {
  }

  lemma CountKeepsTallies(total: Segment, t: Tallies, row: Row, s: Strategy, cost: nat, recovered: bool)
    requires TalliesAdd(total, t)
    ensures TalliesAdd(CountIn(total, row, false, cost, recovered), t)
    ensures s != DoNothing ==>
              TalliesAdd(CountIn(total, row, true, cost, recovered), With(t, s, CountUnder(Of(t, s), row, recovered)))
  {
  }

  lemma RecordKeepsBalance(a: ArmResult, row: Row, strategy: Option<Strategy>, cost: nat, recovered: bool)
    requires Balanced(a)
    ensures Balanced(Recorded(a, row, strategy, cost, recovered))
  {
    hide SegmentsAdd, TalliesAdd, CountIn, CountUnder, With, Of;
    var acted := strategy.Some? && strategy.value != DoNothing;
    if row.isInternational {
      CountKeepsSegments(a.total, a.international, a.domestic, row, acted, cost, recovered);
    } else {
      SegmentsSwap(a.total, a.international, a.domestic);
      CountKeepsSegments(a.total, a.domestic, a.international, row, acted, cost, recovered);
    }
    CountKeepsTallies(a.total, a.byStrategy, row, strategy.GetOr(DoNothing), cost, recovered);
  }

  lemma SegmentsSwap(total: Segment, one: Segment, other: Segment)
    requires SegmentsAdd(total, one, other)
    ensures SegmentsAdd(total, other, one)
  {
  }

  lemma RecordCounts(a: ArmResult, row: Row, strategy: Option<Strategy>, cost: nat, recovered: bool)
    ensures var r, acted := Recorded(a, row, strategy, cost, recovered), strategy.Some? && strategy.value != DoNothing;
            && r.total.failed == a.total.failed + 1
            && r.total.attempted == a.total.attempted + (if acted then 1 else 0)
            && r.total.costPaise == a.total.costPaise + (if acted then cost else 0)
  {
  }

  lemma ZeroSegments(s: Segment)
    requires s == EMPTY_SEGMENT
    ensures SegmentsAdd(s, s, s)
  {
  }

  lemma ZeroTallies(s: Segment, t: Tallies)
    requires s == EMPTY_SEGMENT && t == EMPTY_TALLIES
    ensures TalliesAdd(s, t)
  {
  }

  lemma EmptyIsBalanced()
    ensures Balanced(EMPTY_ARM)
  {
    hide SegmentsAdd, TalliesAdd;
    ZeroSegments(EMPTY_SEGMENT);
    ZeroTallies(EMPTY_SEGMENT, EMPTY_TALLIES);
  }

  lemma {:induction false} BaselineConserves(rows: seq<Row>)
    ensures var a := BaselineArm(rows);
            && Balanced(a) && a.total.failed == a.total.attempted == |rows|
            && a.total.costPaise == BLIND_RETRY_COST_PAISE * |rows|
  {
    hide Balanced, Recorded;
    EmptyIsBalanced();
    if rows != [] {
      BaselineConserves(rows[..|rows|-1]);
      var front, row := BaselineArm(rows[..|rows|-1]), rows[|rows|-1];
      RecordKeepsBalance(front, row, Some(Retry), BLIND_RETRY_COST_PAISE, row.labels.retry);
      RecordCounts(front, row, Some(Retry), BLIND_RETRY_COST_PAISE, row.labels.retry);
    }
  }

  /** Every row of the agent arm is counted once: attempted, left alone, refused or put off. */
  lemma {:induction false} AgentConserves(score: Scorer, rows: seq<Row>, fates: seq<Fate>)
    requires |rows| == |fates|
    requires NoEmptyAttempt(fates)
    ensures var a := AgentArm(score, rows, fates);
            && Balanced(a) && a.total.failed == |rows| == a.scoredByModel + a.scoredByBaseline
            && a.total.failed == a.total.attempted + a.doNothing + a.denied + a.deferred
            && a.requiredApproval <= a.total.attempted
  {
    hide Balanced, AgentRow;
    EmptyIsBalanced();
    if rows != [] {
      var front := AgentArm(score, rows[..|rows|-1], fates[..|rows|-1]);
      AgentConserves(score, rows[..|rows|-1], fates[..|rows|-1]);
      AgentRowConserves(front, rows[|rows|-1], fates[|rows|-1], score(rows[|rows|-1]).source);
    }
  }

  lemma AgentRowConserves(a: ArmResult, row: Row, fate: Fate, source: ScoreSource)
    requires Balanced(a) && (fate.Attempt? ==> fate.strategy != DoNothing)
    ensures var r := AgentRow(a, row, fate, source);
            && Balanced(r) && r.total.failed == a.total.failed + 1
            && r.scoredByModel + r.scoredByBaseline == a.scoredByModel + a.scoredByBaseline + 1
            && r.total.attempted + r.doNothing + r.denied + r.deferred
               == a.total.attempted + a.doNothing + a.denied + a.deferred + 1
            && r.requiredApproval - a.requiredApproval <= r.total.attempted - a.total.attempted
  {
    hide Balanced;
    var scored := if source == FromModel then a.(scoredByModel := a.scoredByModel + 1)
                  else a.(scoredByBaseline := a.scoredByBaseline + 1);
    assert Balanced(scored) by { SameMoneySameBalance(a, scored); }
    var counted := match fate
      case Untouched => scored.(doNothing := a.doNothing + 1)
      case Denied => scored.(denied := a.denied + 1)
      case Deferred => scored.(deferred := a.deferred + 1)
      case Attempt(_, _, signed) => scored.(requiredApproval := a.requiredApproval + if signed then 1 else 0);
    SameMoneySameBalance(scored, counted);
    match fate
    case Untouched => RecordKeepsBalance(counted, row, Some(DoNothing), 0, false);
    case Denied => RecordKeepsBalance(counted, row, None, 0, false);
    case Deferred => RecordKeepsBalance(counted, row, None, 0, false);
    case Attempt(s, cost, _) => RecordKeepsBalance(counted, row, Some(s), cost, LabelFor(s, row.labels));
  }

  // ---- What the figures of an arm are sums of ----

  /** The attempt brought the payment back: the label of its own strategy says so. */
  predicate CameBack(r: Row, f: Fate) {
    f.Attempt?
    && ((f.strategy == Retry && r.labels.retry) || (f.strategy == PaymentLink && r.labels.link)
        || (f.strategy == AlternateMethod && r.labels.alternate)
        || (f.strategy == AlternateGateway && r.labels.gateway))
  }

  function Attempts(): Weight { (r: Row, f: Fate) => if f.Attempt? then 1 else 0 }
  function Costs(): Weight { (r: Row, f: Fate) => if f.Attempt? then f.costPaise else 0 }
  function Recoveries(): Weight { (r: Row, f: Fate) => if CameBack(r, f) then 1 else 0 }
  function Revenue(): Weight { (r: Row, f: Fate) => if CameBack(r, f) then r.amountPaise else 0 }
  function Signatures(): Weight { (r: Row, f: Fate) => if f.Attempt? && f.signed then 1 else 0 }
  function LeftAlone(): Weight { (r: Row, f: Fate) => if f.Untouched? then 1 else 0 }
  function Refusals(): Weight { (r: Row, f: Fate) => if f.Denied? then 1 else 0 }
  function PutOffs(): Weight { (r: Row, f: Fate) => if f.Deferred? then 1 else 0 }

  /** A weight over the rows from abroad alone, or over one strategy's attempts alone. */
  function Abroad(w: Weight): Weight { (r: Row, f: Fate) => if r.isInternational then w(r, f) else 0 }
  function Under(s: Strategy, w: Weight): Weight {
    (r: Row, f: Fate) => if f.Attempt? && f.strategy == s then w(r, f) else 0
  }

  /** The arm's figures are the sums over the fates: an attempt costs its cost and recovers by its own label. */
  lemma {:induction false} AgentTotals(score: Scorer, rows: seq<Row>, fates: seq<Fate>)
    requires |rows| == |fates| && NoEmptyAttempt(fates)
    ensures var a := AgentArm(score, rows, fates);
            && a.total.attempted == Total(rows, fates, Attempts())
            && a.total.costPaise == Total(rows, fates, Costs())
            && a.total.recovered == Total(rows, fates, Recoveries())
            && a.total.revenuePaise == Total(rows, fates, Revenue())
            && a.requiredApproval == Total(rows, fates, Signatures())
            && a.doNothing == Total(rows, fates, LeftAlone())
            && a.denied == Total(rows, fates, Refusals())
            && a.deferred == Total(rows, fates, PutOffs())
  {
    if rows != [] {
      AgentTotals(score, rows[..|rows|-1], fates[..|rows|-1]);
      LabelOfAttempt(rows[|rows|-1], fates[|rows|-1]);
      hide LabelFor, CameBack;
    }
  }

  lemma LabelOfAttempt(r: Row, f: Fate)
    ensures f.Attempt? ==> (LabelFor(f.strategy, r.labels) <==> CameBack(r, f))
  {
  }

  /** The replay and the gateway answer alike: a strategy comes back as the action it is carried out by does. */
  lemma ReplayAgreesWithGateway(s: Strategy, l: Execution.Labels)
    ensures s == DoNothing <==> ActionKindFor(s).None?
    ensures s != DoNothing ==> Execution.CounterfactualFor(ActionKindFor(s).value, l) == Some(LabelFor(s, l))
    ensures s == AlternateGateway <==> ActionKindFor(s) == Some(Execution.RouteAlternateGateway)
  {
  }

  /** The segments are the same sums over the rows from abroad, and over the others. */
  lemma {:induction false} SegmentTotals(score: Scorer, rows: seq<Row>, fates: seq<Fate>)
    requires |rows| == |fates| && NoEmptyAttempt(fates)
    ensures var s := AgentArm(score, rows, fates).international;
            && s.failed == Total(rows, fates, Abroad((r: Row, f: Fate) => 1))
            && s.attempted == Total(rows, fates, Abroad(Attempts()))
            && s.costPaise == Total(rows, fates, Abroad(Costs()))
            && s.recovered == Total(rows, fates, Abroad(Recoveries()))
            && s.revenuePaise == Total(rows, fates, Abroad(Revenue()))
  {
    if rows != [] {
      SegmentTotals(score, rows[..|rows|-1], fates[..|rows|-1]);
      LabelOfAttempt(rows[|rows|-1], fates[|rows|-1]);
      hide LabelFor, CameBack;
    }
  }

  /** The tally of a strategy is the same sums over the attempts made by it. */
  lemma {:induction false} StrategyTotals(score: Scorer, rows: seq<Row>, fates: seq<Fate>, s: Strategy)
    requires |rows| == |fates| && NoEmptyAttempt(fates)
    ensures var t := AgentArm(score, rows, fates).byStrategy;
            var own := if s == Retry then t.retry else if s == PaymentLink then t.paymentLink
                       else if s == AlternateMethod then t.alternateMethod
                       else if s == AlternateGateway then t.alternateGateway else t.doNothing;
            && own.attempted == Total(rows, fates, Under(s, Attempts()))
            && own.recovered == Total(rows, fates, Under(s, Recoveries()))
            && own.revenuePaise == Total(rows, fates, Under(s, Revenue()))
  {
    if rows != [] {
      StrategyTotals(score, rows[..|rows|-1], fates[..|rows|-1], s);
      LabelOfAttempt(rows[|rows|-1], fates[|rows|-1]);
      hide LabelFor, CameBack, CountIn;
    }
  }

  /** An agent that retries every row, at the price of a blind retry, ends with the money of the blind arm. */
  lemma {:induction false} RetryingAllIsBaseline(score: Scorer, rows: seq<Row>, fates: seq<Fate>)
    requires |rows| == |fates|
    requires forall i :: 0 <= i < |rows| ==>
               fates[i].Attempt? && fates[i].strategy == Retry && fates[i].costPaise == 200
    ensures var a, b := AgentArm(score, rows, fates), BaselineArm(rows);
            && b.total.recovered == a.total.recovered == Total(rows, fates, Recoveries())
            && b.total == a.total && b.international == a.international && b.domestic == a.domestic
            && b.byStrategy == a.byStrategy
  {
    if rows != [] {
      RetryingAllIsBaseline(score, rows[..|rows|-1], fates[..|rows|-1]);
    }
  }

  /** Which scorer each row was scored by. */
  lemma {:induction false} SourceTotals(score: Scorer, rows: seq<Row>, fates: seq<Fate>)
    requires |rows| == |fates|
    ensures AgentArm(score, rows, fates).scoredByModel
         == Total(rows, fates, (r: Row, f: Fate) => if score(r).source == FromModel then 1 else 0)
  {
    if rows != [] {
      SourceTotals(score, rows[..|rows|-1], fates[..|rows|-1]);
      hide LabelFor;
    }
  }

  lemma SameMoneySameBalance(a: ArmResult, b: ArmResult)
    requires Balanced(a) && b.total == a.total && b.international == a.international && b.domestic == a.domestic
    requires b.byStrategy == a.byStrategy
    ensures Balanced(b)
  {
  }

  predicate NoEmptyAttempt(fates: seq<Fate>) {
    forall i :: 0 <= i < |fates| && fates[i].Attempt? ==> fates[i].strategy != DoNothing
  }

  lemma {:induction false} AttemptsAct(parse: DateParse, score: Scorer, rows: seq<Row>)
    requires Usable(rows)
    ensures NoEmptyAttempt(Walk(parse, score, rows).fates)
  {
    hide Judge, Chosen, Opened;
    if rows != [] {
      var front, r := rows[..|rows|-1], rows[|rows|-1];
      var w := Walk(parse, score, front);
      AttemptsAct(parse, score, front);
      var l := Opened(LedgerOf(w.ledgers, r.merchant), DayOf(r), HourOf(r));
      JudgeMeans(parse, score, r, l);
      assert Walk(parse, score, rows).fates == w.fates + [Judge(parse, score, r, l)];
    }
  }

  /** The check that the arms saw the same rows, which the comparison throws on, never fails. */
  method Compare(rows: seq<Row>, parse: DateParse, score: Scorer)
    returns (diverged: bool, incrementalRevenuePaise: int, interventionsAvoided: int)
    requires Usable(rows)
    ensures !diverged
    ensures var baseline, agent := BaselineArm(rows), AgentArm(score, rows, Walk(parse, score, rows).fates);
            && incrementalRevenuePaise == agent.total.revenuePaise - baseline.total.revenuePaise
            && interventionsAvoided == agent.doNothing + agent.denied + agent.deferred
  {
    hide Balanced, AgentRow, Recorded, Walk;
    var baseline := RunBaseline(rows);
    var agent := RunAgent(rows, parse, score);
    BaselineConserves(rows);
    AttemptsAct(parse, score, rows);
    AgentConserves(score, rows, Walk(parse, score, rows).fates);
    diverged := baseline.total.failed != agent.total.failed || baseline.total.failed != |rows|;
    incrementalRevenuePaise := agent.total.revenuePaise - baseline.total.revenuePaise;
    interventionsAvoided := baseline.total.attempted - agent.total.attempted;
  }
}
