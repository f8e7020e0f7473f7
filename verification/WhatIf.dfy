/**
 * The what-if simulator (apps/api/src/domain/whatif.ts): the same failures replayed under a
 * blind retry and under the full decision loop, with a ledger of budgets per merchant that is
 * reset lazily when the day or the hour changes.
 */
module WhatIf {
  import opened Wrappers
  import opened Json
  import PaymentState
  import opened Policy
  import opened StrategyEngine
  import Execution

  datatype Merchant = Merchant(id: Text)

  /** A recorded failure; `odds` are the measured baseline odds of its features. */
  datatype Row = Row(
    id: Text,
    merchant: Merchant,
    createdAt: Text,
    isInternational: bool,
    amountPaise: nat,
    attemptIndex: int,
    family: Family,
    optedOut: bool,
    lifetimeValuePaise: nat,
    odds: Odds,
    secondaryRoute: bool,
    incident: bool,
    labels: Execution.Labels,
    isPaused: bool,
    budgetPaise: int,
    budgetCount: int)

  datatype ScoreSource = FromModel | FromBaseline
  datatype Scored = Scored(probability: real, source: ScoreSource)
  type Scorer = Row -> Scored

  const BLIND_RETRY_COST_PAISE := 200

  function LabelFor(s: Strategy, l: Execution.Labels): bool {
    match s
    case Retry => l.retry
    case PaymentLink => l.link
    case AlternateMethod => l.alternate
    case AlternateGateway => l.gateway
    case DoNothing => false
  }

  // ---- One row ----

  datatype Ledger = Ledger(day: Text, count: int, spendPaise: int, hour: Text, exposurePaise: int)

  /** String.prototype.slice(0, n). */
  function Slice(t: Text, n: nat): Text {
    t[..if n <= |t| then n else |t|]
  }

  function DayOf(r: Row): Text { Slice(r.createdAt, 10) }
  function HourOf(r: Row): Text { Slice(r.createdAt, 13) }

  /** The merchant's ledger as the row finds it, its day and hour reset if they have moved on. */
  function Opened(l: Option<Ledger>, day: Text, hour: Text): Ledger {
    var kept := l.GetOr(Ledger(day, 0, 0, hour, 0));
    var today := if kept.day != day then kept.(day := day, count := 0, spendPaise := 0) else kept;
    if today.hour != hour then today.(hour := hour, exposurePaise := 0) else today
  }

  function StrategyInputOf(r: Row, score: Scorer): StrategyInput {
    StrategyInput(r.amountPaise, r.odds, Some(score(r).probability), r.lifetimeValuePaise, r.optedOut,
                  r.secondaryRoute, r.family)
  }

  const WHATIF_PREFIX := Ascii("whatif_")

  function PolicyInputOf(r: Row, l: Ledger, chosen: StrategyOption): PolicyInput {
    PolicyInput(r.createdAt,
                Limits(r.merchant.id, r.isPaused, r.budgetPaise, r.budgetCount),
                l.count, l.spendPaise, l.exposurePaise, r.optedOut,
                Subject(r.id, PaymentState.Failed, r.amountPaise, r.attemptIndex, r.family),
                None,
                Proposed(WHATIF_PREFIX + r.id, chosen.strategy,
                         ActionKindFor(chosen.strategy).GetOr(Execution.Escalate), chosen.evPaise, chosen.costPaise),
                r.incident)
  }

  /** What becomes of a row: left alone, refused for good, put off, or attempted. */
  datatype Fate = Untouched | Denied | Deferred | Attempt(strategy: Strategy, costPaise: nat, signed: bool)

  function FateOf(d: Decision, chosen: StrategyOption): Fate
    requires chosen.costPaise >= 0
  {
    if d.verdict == Deny then (if IsDeferrable(d) then Deferred else Denied)
    else Attempt(chosen.strategy, chosen.costPaise, d.verdict == RequireApproval)
  }

  function Judge(parse: DateParse, score: Scorer, r: Row, l: Ledger): Fate
    requires Plausible(r.odds)
  {
    var chosen := Chosen(StrategyInputOf(r, score));
    ChosenCost(StrategyInputOf(r, score));
    if chosen.strategy == DoNothing then Untouched
    else FateOf(EvaluatePolicy(parse, PolicyInputOf(r, l, chosen)), chosen)
  }

  lemma ChosenCost(i: StrategyInput)
    requires Plausible(i.odds)
    ensures Chosen(i).costPaise >= 0
  {
    ChosenIsFirstBest(i);
    if Chosen(i).strategy != DoNothing {
      ActingChoice(i, Chosen(i));
    }
  }

  function Charged(l: Ledger, r: Row, costPaise: nat): Ledger {
    l.(count := l.count + 1, spendPaise := l.spendPaise + costPaise, exposurePaise := l.exposurePaise + r.amountPaise)
  }

  // ---- The walk over all rows ----

  datatype Walked = Walked(fates: seq<Fate>, ledgers: map<Merchant, Ledger>)

  function LedgerOf(ledgers: map<Merchant, Ledger>, m: Merchant): Option<Ledger> {
    if m in ledgers then Some(ledgers[m]) else None
  }

  function WalkRow(w: Walked, parse: DateParse, score: Scorer, r: Row): Walked
    requires Plausible(r.odds)
  {
    var l := Opened(LedgerOf(w.ledgers, r.merchant), DayOf(r), HourOf(r));
    var fate := Judge(parse, score, r, l);
    Walked(w.fates + [fate],
           if fate.Untouched? then w.ledgers
           else w.ledgers[r.merchant := if fate.Attempt? then Charged(l, r, fate.costPaise) else l])
  }

  predicate Usable(rows: seq<Row>) {
    forall i :: 0 <= i < |rows| ==> Plausible(rows[i].odds)
  }

  function Walk(parse: DateParse, score: Scorer, rows: seq<Row>): (w: Walked)
    requires Usable(rows)
    ensures |w.fates| == |rows|
  {
    if rows == [] then Walked([], map[])
    else WalkRow(Walk(parse, score, rows[..|rows|-1]), parse, score, rows[|rows|-1])
  }

  // ---- Why a row is refused ----

  /** What the twelve rules come to for a row the engine wants to act on. */
  lemma JudgeMeans(parse: DateParse, score: Scorer, r: Row, l: Ledger)
    requires Plausible(r.odds)
    ensures var chosen, fate := Chosen(StrategyInputOf(r, score)), Judge(parse, score, r, l);
            && (fate.Untouched? <==> chosen.strategy == DoNothing)
            && (!fate.Untouched? ==>
                  var room := && l.count + 1 <= r.budgetCount && l.spendPaise + chosen.costPaise <= r.budgetPaise
                              && l.exposurePaise + r.amountPaise <= 20_000_000;
                  && (fate.Denied? <==> r.isPaused || r.attemptIndex > 3)
                  && (fate.Deferred? <==> !r.isPaused && r.attemptIndex <= 3 && !room)
                  && (fate.Attempt? <==> !r.isPaused && r.attemptIndex <= 3 && room)
                  && (fate.Attempt? ==>
                        && fate.strategy == chosen.strategy && fate.costPaise == chosen.costPaise
                        && (fate.signed <==> r.amountPaise > 2_500_000 || (chosen.strategy == Retry && r.incident))))
  {
    hide Chosen, HashInput, Reasons, VerdictOf, IsDeferrable;
    var i := StrategyInputOf(r, score);
    var chosen := Chosen(i);
    ChosenCost(i);
    ChosenIsFirstBest(i);
    if chosen.strategy != DoNothing {
      ActingChoice(i, chosen);
      VerdictMeans(parse, PolicyInputOf(r, l, chosen));
    }
  }

  // ---- Budgets ----

  /** Rows in the order of time, each with at least a date and an hour. */
  predicate Chronological(rows: seq<Row>) {
    && (forall i :: 0 <= i < |rows| ==> |rows[i].createdAt| >= 13)
    && forall i, j :: 0 <= i < j < |rows| ==> !Before(rows[j].createdAt, rows[i].createdAt)
  }

  /** Between two times with the same first n characters, every time has them. */
  lemma {:induction false} SamePrefix(a: Text, b: Text, c: Text, n: nat)
    requires n <= |a| && n <= |b| && n <= |c| && a[..n] == c[..n]
    requires !Before(b, a) && !Before(c, b)
    ensures b[..n] == a[..n]
  {
    if n > 0 {
      assert a[..n][0] == c[..n][0];
      assert a[..n][1..] == a[1..][..n-1] && c[..n][1..] == c[1..][..n-1];
      SamePrefix(a[1..], b[1..], c[1..], n - 1);
      assert b[..n] == [b[0]] + b[1..][..n-1] && a[..n] == [a[0]] + a[1..][..n-1];
    }
  }

  lemma SameDay(rows: seq<Row>, i: nat, j: nat, k: nat)
    requires Chronological(rows) && i <= j <= k < |rows|
    ensures DayOf(rows[i]) == DayOf(rows[k]) ==> DayOf(rows[j]) == DayOf(rows[k])
    ensures HourOf(rows[i]) == HourOf(rows[k]) ==> HourOf(rows[j]) == HourOf(rows[k])
  {
    var a, b, c := rows[i].createdAt, rows[j].createdAt, rows[k].createdAt;
    if i < j < k {
      if DayOf(rows[i]) == DayOf(rows[k]) {
        SamePrefix(a, b, c, 10);
      }
      if HourOf(rows[i]) == HourOf(rows[k]) {
        SamePrefix(a, b, c, 13);
      }
    }
  }

  /** What a row and its fate weigh; the sum over the rows so far. */
  type Weight = (Row, Fate) -> int

  function Total(rows: seq<Row>, fates: seq<Fate>, w: Weight): int
    requires |rows| == |fates|
  {
    if rows == [] then 0
    else Total(rows[..|rows|-1], fates[..|rows|-1], w) + w(rows[|rows|-1], fates[|rows|-1])
  }

  /** Attempts for a merchant on a day, what they cost, and the money put in motion in an hour. */
  function OnDay(m: Merchant, day: Text): Weight {
    (r: Row, f: Fate) => if f.Attempt? && r.merchant == m && DayOf(r) == day then 1 else 0
  }

  function CostOnDay(m: Merchant, day: Text): Weight {
    (r: Row, f: Fate) => if f.Attempt? && r.merchant == m && DayOf(r) == day then f.costPaise else 0
  }

  function InHour(m: Merchant, hour: Text): Weight {
    (r: Row, f: Fate) => if f.Attempt? && r.merchant == m && HourOf(r) == hour then r.amountPaise else 0
  }

  lemma {:induction false} TotalZero(rows: seq<Row>, fates: seq<Fate>, w: Weight)
    requires |rows| == |fates| && forall i :: 0 <= i < |rows| ==> w(rows[i], fates[i]) == 0
    ensures Total(rows, fates, w) == 0
  {
    if rows != [] {
      TotalZero(rows[..|rows|-1], fates[..|rows|-1], w);
    }
  }

  /** Row `j` was the merchant's latest to open the ledger, and no later row of the merchant was attempted. */
  ghost predicate LastOpened(rows: seq<Row>, fates: seq<Fate>, m: Merchant, l: Ledger, j: nat)
    requires |rows| == |fates|
  {
    && j < |rows| && rows[j].merchant == m && DayOf(rows[j]) == l.day && HourOf(rows[j]) == l.hour
    && forall i :: j < i < |rows| && rows[i].merchant == m ==> !fates[i].Attempt?
  }

  ghost predicate NoAttempts(rows: seq<Row>, fates: seq<Fate>, m: Merchant)
    requires |rows| == |fates|
  {
    forall i :: 0 <= i < |rows| && rows[i].merchant == m ==> !fates[i].Attempt?
  }

  /** The ledger's figures are the attempts of the day and hour it stands at. */
  ghost predicate Figures(rows: seq<Row>, fates: seq<Fate>, m: Merchant, l: Ledger)
    requires |rows| == |fates|
  {
    && l.count == Total(rows, fates, OnDay(m, l.day))
    && l.spendPaise == Total(rows, fates, CostOnDay(m, l.day))
    && l.exposurePaise == Total(rows, fates, InHour(m, l.hour))
  }

  ghost predicate LedgerOk(rows: seq<Row>, fates: seq<Fate>, m: Merchant, l: Option<Ledger>)
    requires |rows| == |fates|
  {
    match l
    case None => NoAttempts(rows, fates, m)
    case Some(l) => (exists j :: LastOpened(rows, fates, m, l, j)) && Figures(rows, fates, m, l)
  }

  /** No attempt of the merchant fell on a day, or in an hour, that its ledger has left or not reached. */
  lemma NothingYet(rows: seq<Row>, fates: seq<Fate>, l: Ledger, m: Merchant, r: Row, j: nat)
    requires |rows| == |fates| && Chronological(rows + [r]) && r.merchant == m && LastOpened(rows, fates, m, l, j)
    ensures l.day != DayOf(r) ==>
              Total(rows, fates, OnDay(m, DayOf(r))) == 0 && Total(rows, fates, CostOnDay(m, DayOf(r))) == 0
    ensures l.hour != HourOf(r) ==> Total(rows, fates, InHour(m, HourOf(r))) == 0
  {
    var all := rows + [r];
    forall i | 0 <= i < |rows| && fates[i].Attempt? && rows[i].merchant == m
      ensures l.day != DayOf(r) ==> DayOf(rows[i]) != DayOf(r)
      ensures l.hour != HourOf(r) ==> HourOf(rows[i]) != HourOf(r)
    {
      assert i <= j;
      SameDay(all, i, j, |rows|);
      assert all[i] == rows[i] && all[j] == rows[j] && all[|rows|] == r;
    }
    if l.day != DayOf(r) {
      TotalZero(rows, fates, OnDay(m, DayOf(r)));
      TotalZero(rows, fates, CostOnDay(m, DayOf(r)));
    }
    if l.hour != HourOf(r) {
      TotalZero(rows, fates, InHour(m, HourOf(r)));
    }
  }

  /** The lazy resets leave exactly the figures of the row's own day and hour. */
  lemma OpenedFigures(rows: seq<Row>, fates: seq<Fate>, l: Option<Ledger>, r: Row)
    requires |rows| == |fates| && Chronological(rows + [r]) && LedgerOk(rows, fates, r.merchant, l)
    ensures var o := Opened(l, DayOf(r), HourOf(r));
            o.day == DayOf(r) && o.hour == HourOf(r) && Figures(rows, fates, r.merchant, o)
  {
    var m := r.merchant;
    if l.None? {
      TotalZero(rows, fates, OnDay(m, DayOf(r)));
      TotalZero(rows, fates, CostOnDay(m, DayOf(r)));
      TotalZero(rows, fates, InHour(m, HourOf(r)));
    } else {
      var j :| LastOpened(rows, fates, m, l.value, j);
      NothingYet(rows, fates, l.value, m, r, j);
    }
  }

  lemma TotalAppend(rows: seq<Row>, fates: seq<Fate>, r: Row, f: Fate, w: Weight)
    requires |rows| == |fates|
    ensures Total(rows + [r], fates + [f], w) == Total(rows, fates, w) + w(r, f)
  {
    assert (rows + [r])[..|rows|] == rows && (fates + [f])[..|rows|] == fates;
  }

  /** A row that is not an attempt of the merchant leaves its ledger right. */
  lemma OtherKeepsLedger(rows: seq<Row>, fates: seq<Fate>, m: Merchant, l: Option<Ledger>, r: Row, f: Fate)
    requires |rows| == |fates| && LedgerOk(rows, fates, m, l) && (r.merchant != m || !f.Attempt?)
    ensures LedgerOk(rows + [r], fates + [f], m, l)
  {
    if l.Some? {
      TotalAppend(rows, fates, r, f, OnDay(m, l.value.day));
      TotalAppend(rows, fates, r, f, CostOnDay(m, l.value.day));
      TotalAppend(rows, fates, r, f, InHour(m, l.value.hour));
      var j :| LastOpened(rows, fates, m, l.value, j);
      assert LastOpened(rows + [r], fates + [f], m, l.value, j);
    }
  }

  /** The row's own merchant, when the row reaches the policy engine. */
  lemma OwnLedger(rows: seq<Row>, fates: seq<Fate>, l: Option<Ledger>, r: Row, f: Fate)
    requires |rows| == |fates| && Chronological(rows + [r]) && LedgerOk(rows, fates, r.merchant, l) && !f.Untouched?
    ensures var o := Opened(l, DayOf(r), HourOf(r));
            LedgerOk(rows + [r], fates + [f], r.merchant, Some(if f.Attempt? then Charged(o, r, f.costPaise) else o))
  {
    OpenedFigures(rows, fates, l, r);
    var m, o := r.merchant, Opened(l, DayOf(r), HourOf(r));
    TotalAppend(rows, fates, r, f, OnDay(m, o.day));
    TotalAppend(rows, fates, r, f, CostOnDay(m, o.day));
    TotalAppend(rows, fates, r, f, InHour(m, o.hour));
    var next := if f.Attempt? then Charged(o, r, f.costPaise) else o;
    assert LastOpened(rows + [r], fates + [f], m, next, |rows|);
  }

  /** One set of limits per merchant, for the whole replay. */
  ghost predicate FixedLimits(rows: seq<Row>, limits: Merchant -> (int, int)) {
    forall i :: 0 <= i < |rows| ==> (rows[i].budgetPaise, rows[i].budgetCount) == limits(rows[i].merchant)
  }

  function Positive(n: int): nat { if n > 0 then n else 0 }

  ghost predicate WithinBudgets(rows: seq<Row>, fates: seq<Fate>, limits: Merchant -> (int, int))
    requires |rows| == |fates|
  {
    forall m, text ::
      && Total(rows, fates, OnDay(m, text)) <= Positive(limits(m).1)
      && Total(rows, fates, CostOnDay(m, text)) <= Positive(limits(m).0)
      && Total(rows, fates, InHour(m, text)) <= 20_000_000
  }

  ghost predicate LedgersOk(rows: seq<Row>, w: Walked) {
    |rows| == |w.fates| && forall m :: LedgerOk(rows, w.fates, m, LedgerOf(w.ledgers, m))
  }

  lemma WalkRowKeeps(parse: DateParse, score: Scorer, rows: seq<Row>, w: Walked, r: Row, limits: Merchant -> (int, int))
    requires Plausible(r.odds) && Chronological(rows + [r]) && LedgersOk(rows, w)
    requires (r.budgetPaise, r.budgetCount) == limits(r.merchant) && WithinBudgets(rows, w.fates, limits)
    ensures LedgersOk(rows + [r], WalkRow(w, parse, score, r))
    ensures WithinBudgets(rows + [r], WalkRow(w, parse, score, r).fates, limits)
  {
    hide Judge;
    var l := LedgerOf(w.ledgers, r.merchant);
    var o := Opened(l, DayOf(r), HourOf(r));
    var f := Judge(parse, score, r, o);
    var next := WalkRow(w, parse, score, r);
    assert next.fates == w.fates + [f];
    forall m
      ensures LedgerOk(rows + [r], next.fates, m, LedgerOf(next.ledgers, m))
    {
      if m == r.merchant && !f.Untouched? {
        OwnLedger(rows, w.fates, l, r, f);
      } else {
        OtherKeepsLedger(rows, w.fates, m, LedgerOf(w.ledgers, m), r, f);
      }
    }
    RowKeepsBudgets(parse, score, rows, w.fates, r, l, limits);
  }

  /** An attempt is charged to the figures of its own day and hour, and those had room for it. */
  lemma RowKeepsBudgets(parse: DateParse, score: Scorer, rows: seq<Row>, fates: seq<Fate>, r: Row, l: Option<Ledger>,
                        limits: Merchant -> (int, int))
    requires Plausible(r.odds) && |rows| == |fates| && Chronological(rows + [r]) && LedgerOk(rows, fates, r.merchant, l)
    requires (r.budgetPaise, r.budgetCount) == limits(r.merchant) && WithinBudgets(rows, fates, limits)
    ensures WithinBudgets(rows + [r], fates + [Judge(parse, score, r, Opened(l, DayOf(r), HourOf(r)))], limits)
  {
    hide Judge, Chosen, LedgerOk;
    var o := Opened(l, DayOf(r), HourOf(r));
    var f := Judge(parse, score, r, o);
    JudgeMeans(parse, score, r, o);
    OpenedFigures(rows, fates, l, r);
    forall m, text
      ensures Total(rows + [r], fates + [f], OnDay(m, text)) <= Positive(limits(m).1)
      ensures Total(rows + [r], fates + [f], CostOnDay(m, text)) <= Positive(limits(m).0)
      ensures Total(rows + [r], fates + [f], InHour(m, text)) <= 20_000_000
    {
      TotalAppend(rows, fates, r, f, OnDay(m, text));
      TotalAppend(rows, fates, r, f, CostOnDay(m, text));
      TotalAppend(rows, fates, r, f, InHour(m, text));
      assert Total(rows, fates, OnDay(m, text)) <= Positive(limits(m).1);
    }
  }

  lemma {:induction false} WalkKeeps(parse: DateParse, score: Scorer, rows: seq<Row>, limits: Merchant -> (int, int))
    requires Usable(rows) && Chronological(rows) && FixedLimits(rows, limits)
    ensures LedgersOk(rows, Walk(parse, score, rows)) && WithinBudgets(rows, Walk(parse, score, rows).fates, limits)
  {
    hide WalkRow, LedgersOk, WithinBudgets;
    if rows == [] {
      EmptyWalk(limits);
    } else {
      var front, r := rows[..|rows|-1], rows[|rows|-1];
      WalkKeeps(parse, score, front, limits);
      assert front + [r] == rows;
      WalkRowKeeps(parse, score, front, Walk(parse, score, front), r, limits);
    }
  }

  lemma EmptyWalk(limits: Merchant -> (int, int))
    ensures LedgersOk([], Walked([], map[])) && WithinBudgets([], [], limits)
  {
    forall m, text
      ensures Total([], [], OnDay(m, text)) == Total([], [], CostOnDay(m, text)) == Total([], [], InHour(m, text)) == 0
    {
    }
  }

  /**
   * Budget safety of the agent arm: whatever the scores, for every merchant the attempts of any
   * day and what they cost stay within its daily budgets, and the money put in motion in any
   * hour within the blast radius.
   */
  lemma BudgetSafety(parse: DateParse, score: Scorer, rows: seq<Row>, limits: Merchant -> (int, int), m: Merchant,
                     text: Text)
    requires Usable(rows) && Chronological(rows) && FixedLimits(rows, limits)
    ensures var fates := Walk(parse, score, rows).fates;
            && Total(rows, fates, OnDay(m, text)) <= Positive(limits(m).1)
            && Total(rows, fates, CostOnDay(m, text)) <= Positive(limits(m).0)
            && Total(rows, fates, InHour(m, text)) <= 20_000_000
  {
    WalkKeeps(parse, score, rows, limits);
  }
}
