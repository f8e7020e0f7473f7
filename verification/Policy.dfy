/**
 * The policy engine (apps/api/src/domain/policy.ts): twelve rules, all of them always, a
 * verdict by precedence, and an approval bound by hash to the input it judged.
 */
module Policy {
  import opened Wrappers
  import opened Json
  import PaymentState
  import Execution
  import CanonicalJson

  datatype Strategy = Retry | PaymentLink | AlternateMethod | AlternateGateway | DoNothing

  datatype Family = Transient | Customer | Terminal | Abandonment | CrossBorder | Unknown

  datatype Verdict = Allow | Deny | RequireApproval

  datatype RuleResult = RuleResult(rule: nat, passed: bool, verdict: Verdict)

  datatype Limits = Limits(id: Text, isPaused: bool, budgetPaise: int, budgetCount: int)

  datatype Subject = Subject(id: Text, state: PaymentState.State, amountPaise: int, attemptIndex: int, family: Family)

  datatype Proposed = Proposed(
    caseId: Text, strategy: Strategy, kind: Execution.ActionKind, evPaise: int, costPaise: int)

  datatype PolicyInput = PolicyInput(
    now: Text,
    merchant: Limits,
    todayCount: int,
    todaySpendPaise: int,
    hourExposurePaise: int,
    optedOut: bool,
    payment: Subject,
    lastActionAt: Option<Text>,
    proposal: Proposed,
    openIncident: bool)

  /** The SHA-256 of a text, taken to be injective. */
  datatype Digest = Sha256(text: Text)

  datatype Decision = Decision(verdict: Verdict, reasons: seq<RuleResult>, inputHash: Digest)

  const MAX_ATTEMPT_INDEX := 3
  const COOLDOWN_MINUTES := 30
  const BLAST_RADIUS_PAISE_PER_HOUR := 20_000_000
  const APPROVAL_THRESHOLD_PAISE := 2_500_000

  /** Date.parse: the instant a text names, if it names one. */
  type DateParse = Text -> Option<int>

  function ActionKindFor(s: Strategy): Option<Execution.ActionKind> {
    match s
    case Retry => Some(Execution.RetryPayment)
    case AlternateGateway => Some(Execution.RouteAlternateGateway)
    case PaymentLink => Some(Execution.CreatePaymentLink)
    case AlternateMethod => Some(Execution.NotifyCustomer)
    case DoNothing => None
  }

  // ---- The canonical input ----

  /** The code units of a name, all of them ASCII. */
  function Ascii(s: string): (t: Text)
    ensures |t| == |s| && forall i :: 0 <= i < |t| ==> t[i] == s[i] as int % 128
  {
    seq(|s|, i requires 0 <= i < |s| => s[i] as int % 128)
  }

  /** Decimal digits of a whole number, without leading zeros. */
  function Digits(n: nat): (t: Text)
    ensures t != [] && forall i :: 0 <= i < |t| ==> 0x30 <= t[i] <= 0x39
  {
    if n < 10 then [0x30 + n] else Digits(n / 10) + [0x30 + n % 10]
  }

  function Decimal(n: int): (t: Text)
    ensures NumberToken(t)
  {
    if n < 0 then [0x2D] + Digits(-n) else Digits(n)
  }

  function Numeral(n: int): Json { Number(Decimal(n)) }

  function Name(s: string): Json {
    Str(Ascii(s))
  }

  function StrategyName(s: Strategy): Json {
    match s
    case Retry => Name("retry")
    case PaymentLink => Name("payment_link")
    case AlternateMethod => Name("alternate_method")
    case AlternateGateway => Name("alternate_gateway")
    case DoNothing => Name("do_nothing")
  }

  function KindName(k: Execution.ActionKind): Json {
    match k
    case RetryPayment => Name("retry_payment")
    case RouteAlternateGateway => Name("route_alternate_gateway")
    case CreatePaymentLink => Name("create_payment_link")
    case NotifyCustomer => Name("notify_customer")
    case Escalate => Name("escalate")
  }

  function FamilyName(f: Family): Json {
    match f
    case Transient => Name("TRANSIENT")
    case Customer => Name("CUSTOMER")
    case Terminal => Name("TERMINAL")
    case Abandonment => Name("ABANDONMENT")
    case CrossBorder => Name("CROSS_BORDER")
    case Unknown => Name("UNKNOWN")
  }

  function StateName(s: PaymentState.State): Json {
    match s
    case Created => Name("CREATED")
    case Attempted => Name("ATTEMPTED")
    case Authorized => Name("AUTHORIZED")
    case Captured => Name("CAPTURED")
    case Failed => Name("FAILED")
    case Refunded => Name("REFUNDED")
  }

  /** An object from its keys and values, in the order the fields are assembled. */
  function Object(keys: seq<string>, values: seq<Json>): Json
    requires |keys| == |values|
  {
    Obj(seq(|keys|, k requires 0 <= k < |keys| => Field(Ascii(keys[k]), values[k])))
  }

  const MERCHANT_KEYS := ["id", "isPaused", "dailyActionBudgetPaise", "dailyActionBudgetCount"]
  const PAYMENT_KEYS := ["id", "state", "amountPaise", "attemptIndex", "failureFamily"]
  const PROPOSAL_KEYS := ["caseId", "strategy", "actionKind", "expectedValuePaise", "costPaise"]
  const TODAY_KEYS := ["actionCount", "actionSpendPaise"]
  const INPUT_KEYS := ["now", "merchant", "merchantToday", "merchantHour", "customer", "payment", "lastActionAt",
                       "proposal", "openIncidentOnSlice"]

  function MerchantJson(m: Limits): Json {
    Object(MERCHANT_KEYS,
           [Str(m.id), Bool(m.isPaused), Numeral(m.budgetPaise), Numeral(m.budgetCount)])
  }

  function PaymentJson(p: Subject): Json {
    Object(PAYMENT_KEYS,
           [Str(p.id), StateName(p.state), Numeral(p.amountPaise), Numeral(p.attemptIndex), FamilyName(p.family)])
  }

  function ProposalJson(p: Proposed): Json {
    Object(PROPOSAL_KEYS,
           [Str(p.caseId), StrategyName(p.strategy), KindName(p.kind), Numeral(p.evPaise), Numeral(p.costPaise)])
  }

  function TodayJson(i: PolicyInput): Json {
    Object(TODAY_KEYS, [Numeral(i.todayCount), Numeral(i.todaySpendPaise)])
  }

  /** The parts of an input, in the order of INPUT_KEYS. */
  function Parts(i: PolicyInput): (v: seq<Json>)
    ensures |v| == 9
  {
    [Str(i.now), MerchantJson(i.merchant), TodayJson(i),
     Object(["exposurePaise"], [Numeral(i.hourExposurePaise)]),
     Object(["optedOut"], [Bool(i.optedOut)]),
     PaymentJson(i.payment),
     if i.lastActionAt.None? then Null else Str(i.lastActionAt.value),
     ProposalJson(i.proposal),
     Bool(i.openIncident)]
  }

  function InputJson(i: PolicyInput): Json {
    Object(INPUT_KEYS, Parts(i))
  }

  function HashInput(i: PolicyInput): Digest {
    Sha256(Canonicalise(InputJson(i)))
  }

  // ---- The rules ----

  /** A date that does not parse makes the gap NaN, and no comparison with NaN holds. */
  predicate CooledDown(parse: DateParse, i: PolicyInput) {
    i.lastActionAt.None?
    || (parse(i.now).Some? && parse(i.lastActionAt.value).Some?
        && (parse(i.now).value - parse(i.lastActionAt.value).value) as real / 60_000.0 >= COOLDOWN_MINUTES as real)
  }

  function Reasons(parse: DateParse, i: PolicyInput): (rs: seq<RuleResult>)
    ensures |rs| == 12 && forall k :: 0 <= k < 12 ==> rs[k].rule == k + 1
  {
    [RuleResult(1, !i.merchant.isPaused, Deny),
     RuleResult(2, i.payment.state != PaymentState.Captured && i.payment.state != PaymentState.Refunded, Deny),
     RuleResult(3, !i.optedOut, Deny),
     RuleResult(4, i.payment.family != Terminal, Deny),
     RuleResult(5, i.payment.attemptIndex <= MAX_ATTEMPT_INDEX, Deny),
     RuleResult(6, CooledDown(parse, i), Deny),
     RuleResult(7, i.todayCount < i.merchant.budgetCount, Deny),
     RuleResult(8, i.todaySpendPaise + i.proposal.costPaise <= i.merchant.budgetPaise, Deny),
     RuleResult(9, i.hourExposurePaise + i.payment.amountPaise <= BLAST_RADIUS_PAISE_PER_HOUR, Deny),
     RuleResult(10, i.proposal.evPaise > 0, Deny),
     RuleResult(11, i.payment.amountPaise <= APPROVAL_THRESHOLD_PAISE, RequireApproval),
     RuleResult(12, !(i.proposal.strategy == Retry && i.openIncident), RequireApproval)]
  }

  function Failed(rs: seq<RuleResult>): (f: seq<RuleResult>)
    ensures forall r :: r in f <==> r in rs && !r.passed
  {
    if rs == [] then []
    else if rs[0].passed then Failed(rs[1..]) else [rs[0]] + Failed(rs[1..])
  }

  /** Any refusal wins; otherwise anything that needs a human; otherwise allowed. */
  function VerdictOf(rs: seq<RuleResult>): Verdict {
    var failed := Failed(rs);
    if exists r :: r in failed && r.verdict == Deny then Deny
    else if exists r :: r in failed && r.verdict == RequireApproval then RequireApproval
    else Allow
  }

  function EvaluatePolicy(parse: DateParse, i: PolicyInput): Decision {
    var rs := Reasons(parse, i);
    Decision(VerdictOf(rs), rs, HashInput(i))
  }

  const CAPACITY_RULES := {6, 7, 8, 9}

  predicate IsDeferrable(d: Decision) {
    && d.verdict == Deny
    && (exists r :: r in Failed(d.reasons) && r.verdict == Deny)
    && (forall r :: r in Failed(d.reasons) && r.verdict == Deny ==> r.rule in CAPACITY_RULES)
  }

  datatype ApprovedBy = ByPolicy | ByHuman

  datatype ApprovedAction = ApprovedAction(
    proposal: Proposed, paymentId: Text, merchantId: Text, amountPaise: int, inputHash: Digest, approvedBy: ApprovedBy)

  /** An approved action, for an ALLOW or a human's yes to a REQUIRE_APPROVAL, of exactly this input. */
  function Approve(i: PolicyInput, d: Decision, human: bool): Option<ApprovedAction> {
    if d.verdict == Deny then None
    else if d.verdict == RequireApproval && !human then None
    else if d.inputHash != HashInput(i) then None
    else Some(ApprovedAction(i.proposal, i.payment.id, i.merchant.id, i.payment.amountPaise, d.inputHash,
                             if d.verdict == Allow then ByPolicy else ByHuman))
  }

  // ---- What a verdict means ----

  /** No rule that could refuse this payment for good fails. */
  predicate Eligible(i: PolicyInput) {
    && !i.merchant.isPaused && i.payment.state !in {PaymentState.Captured, PaymentState.Refunded}
    && !i.optedOut && i.payment.family != Terminal && i.payment.attemptIndex <= 3 && i.proposal.evPaise > 0
  }

  /** The payment was last acted on half an hour ago or more, and the merchant has room for this action now. */
  predicate WithinCapacity(parse: DateParse, i: PolicyInput) {
    && (i.lastActionAt.Some? ==>
          && parse(i.now).Some? && parse(i.lastActionAt.value).Some?
          && parse(i.now).value - parse(i.lastActionAt.value).value >= 1_800_000)
    && i.todayCount + 1 <= i.merchant.budgetCount
    && i.todaySpendPaise + i.proposal.costPaise <= i.merchant.budgetPaise
    && i.hourExposurePaise + i.payment.amountPaise <= 20_000_000
  }

  predicate NeedsSignature(i: PolicyInput) {
    i.payment.amountPaise > 2_500_000 || (i.proposal.strategy == Retry && i.openIncident)
  }

  /**
   * The verdict and its permanence, in the terms of the payment: denied for good when it is not
   * eligible, put off when only capacity is missing, signed for when large or into an incident.
   */
  lemma VerdictMeans(parse: DateParse, i: PolicyInput)
    ensures var d := EvaluatePolicy(parse, i);
            && (d.verdict == Deny <==> !Eligible(i) || !WithinCapacity(parse, i))
            && (IsDeferrable(d) <==> Eligible(i) && !WithinCapacity(parse, i))
            && (d.verdict == RequireApproval <==> Eligible(i) && WithinCapacity(parse, i) && NeedsSignature(i))
            && (d.verdict == Allow <==> Eligible(i) && WithinCapacity(parse, i) && !NeedsSignature(i))
  {
    hide HashInput, VerdictOf, Failed, Reasons, FirstTen, Lasting, Eligible, WithinCapacity, NeedsSignature;
    FirstTenMeans(parse, i);
    VerdictAt(Reasons(parse, i));
  }

  /** The rules, read one by one. */
  lemma FirstTenMeans(parse: DateParse, i: PolicyInput)
    ensures FirstTen(Reasons(parse, i)) <==> Eligible(i) && WithinCapacity(parse, i)
    ensures Lasting(Reasons(parse, i)) <==> Eligible(i)
    ensures Reasons(parse, i)[10].passed && Reasons(parse, i)[11].passed <==> !NeedsSignature(i)
    ensures forall k :: 0 <= k < 12 ==> Reasons(parse, i)[k].verdict == (if k < 10 then Deny else RequireApproval)
  {
  }

  predicate Lasting(rs: seq<RuleResult>)
    requires |rs| == 12
  {
    rs[0].passed && rs[1].passed && rs[2].passed && rs[3].passed && rs[4].passed && rs[9].passed
  }

  predicate FirstTen(rs: seq<RuleResult>)
    requires |rs| == 12
  {
    Lasting(rs) && rs[5].passed && rs[6].passed && rs[7].passed && rs[8].passed
  }

  /** The precedence of verdicts over any twelve results. */
  lemma VerdictAt(rs: seq<RuleResult>)
    requires |rs| == 12 && forall k :: 0 <= k < 12 ==> rs[k].rule == k + 1
    requires forall k :: 0 <= k < 12 ==> rs[k].verdict == (if k < 10 then Deny else RequireApproval)
    ensures VerdictOf(rs) == (if !FirstTen(rs) then Deny
                              else if !(rs[10].passed && rs[11].passed) then RequireApproval else Allow)
    ensures IsDeferrable(Decision(VerdictOf(rs), rs, Sha256([]))) <==> Lasting(rs) && !FirstTen(rs)
  {
    hide FirstTen, Lasting, Failed;
    RefusedWhen(rs, Deny);
    RefusedWhen(rs, RequireApproval);
    FirstTenAt(rs);
    LastingAt(rs);
    assert !rs[10].passed || !rs[11].passed <==> exists k :: 10 <= k < 12 && !rs[k].passed;
    if !Lasting(rs) {
      var k :| 0 <= k < 12 && !rs[k].passed && rs[k].verdict == Deny && rs[k].rule !in CAPACITY_RULES;
      assert rs[k] in Failed(rs);
    }
    if Lasting(rs) {
      forall r | r in Failed(rs) && r.verdict == Deny
        ensures r.rule in CAPACITY_RULES
      {
        var k :| 0 <= k < 12 && rs[k] == r;
      }
    }
  }

  lemma FirstTenAt(rs: seq<RuleResult>)
    requires |rs| == 12
    ensures FirstTen(rs) <==> forall k :: 0 <= k < 10 ==> rs[k].passed
  {
  }

  lemma LastingAt(rs: seq<RuleResult>)
    requires |rs| == 12 && forall k :: 0 <= k < 12 ==> rs[k].rule == k + 1
    ensures Lasting(rs) <==> forall k :: 0 <= k < 10 && rs[k].rule !in CAPACITY_RULES ==> rs[k].passed
  {
  }

  /** Among the failed results there is one of a verdict exactly when some rule of it failed. */
  lemma RefusedWhen(rs: seq<RuleResult>, v: Verdict)
    ensures (exists r :: r in Failed(rs) && r.verdict == v)
       <==> exists k :: 0 <= k < |rs| && !rs[k].passed && rs[k].verdict == v
  {
    if r :| r in Failed(rs) && r.verdict == v {
      var k :| 0 <= k < |rs| && rs[k] == r;
    }
    if k :| 0 <= k < |rs| && !rs[k].passed && rs[k].verdict == v {
      assert rs[k] in Failed(rs);
    }
  }

  // ---- The hash binds the input ----

  function Value(t: Text): nat
    requires forall i :: 0 <= i < |t| ==> 0x30 <= t[i] <= 0x39
  {
    if t == [] then 0 else Value(t[..|t|-1]) * 10 + (t[|t|-1] - 0x30)
  }

  lemma {:induction false} ValueOfDigits(n: nat)
    ensures Value(Digits(n)) == n
  {
    if n < 10 {
      assert Digits(n)[..0] == [];
      assert Value([]) == 0;
    } else {
      ValueOfDigits(n / 10);
      assert Digits(n)[..|Digits(n)|-1] == Digits(n / 10);
    }
  }

  lemma DecimalIsInjective(a: int, b: int)
    requires Decimal(a) == Decimal(b)
    ensures a == b
  {
    if (a < 0) == (b < 0) {
      var x, y := if a < 0 then -a else a, if b < 0 then -b else b;
      assert Digits(x) == Decimal(a)[if a < 0 then 1 else 0..];
      assert Digits(y) == Decimal(b)[if b < 0 then 1 else 0..];
      ValueOfDigits(x);
      ValueOfDigits(y);
    }
  }

  ghost predicate DistinctNames(keys: seq<string>) {
    forall i, j :: 0 <= i < j < |keys| ==> Ascii(keys[i]) != Ascii(keys[j])
  }

  /** Objects assembled from the same distinct keys are the same value by value. */
  lemma SameObject(keys: seq<string>, a: seq<Json>, b: seq<Json>)
    requires |keys| == |a| == |b| && DistinctNames(keys)
    ensures Same(Object(keys, a), Object(keys, b)) ==> forall k :: 0 <= k < |keys| ==> Same(a[k], b[k])
  {
    hide Ascii;
    var x, y := Object(keys, a), Object(keys, b);
    if Same(x, y) {
      forall k | 0 <= k < |keys|
        ensures Same(a[k], b[k])
      {
        var j :| && 0 <= j < |y.fields| && y.fields[j].key == x.fields[k].key
                 && Same(x.fields[k].value, y.fields[j].value);
        assert j == k;
      }
    }
  }

  lemma ProperObject(keys: seq<string>, values: seq<Json>)
    requires |keys| == |values| && DistinctNames(keys)
    requires forall k :: 0 <= k < |values| ==> Proper(values[k])
    ensures Proper(Object(keys, values))
  {
  }

  lemma NumeralsDiffer(a: int, b: int)
    requires Same(Numeral(a), Numeral(b))
    ensures a == b
  {
    DecimalIsInjective(a, b);
  }

  // Every enumerated name in an input is a different text: by its length or by its first letter.

  lemma StrategiesDiffer(a: Strategy, b: Strategy)
    requires Same(StrategyName(a), StrategyName(b))
    ensures a == b
  {
    assert |StrategyName(a).text| == |StrategyName(b).text|;
  }

  lemma KindsDiffer(a: Execution.ActionKind, b: Execution.ActionKind)
    requires Same(KindName(a), KindName(b))
    ensures a == b
  {
    assert |KindName(a).text| == |KindName(b).text|;
  }

  lemma FamiliesDiffer(a: Family, b: Family)
    requires Same(FamilyName(a), FamilyName(b))
    ensures a == b
  {
    assert |FamilyName(a).text| == |FamilyName(b).text| && FamilyName(a).text[0] == FamilyName(b).text[0];
  }

  lemma StatesDiffer(a: PaymentState.State, b: PaymentState.State)
    requires Same(StateName(a), StateName(b))
    ensures a == b
  {
    assert |StateName(a).text| == |StateName(b).text| && StateName(a).text[0] == StateName(b).text[0];
  }

  lemma KeysDiffer()
    ensures DistinctNames(MERCHANT_KEYS) && DistinctNames(PAYMENT_KEYS) && DistinctNames(PROPOSAL_KEYS)
    ensures DistinctNames(TODAY_KEYS) && DistinctNames(INPUT_KEYS)
  {
    assert Ascii(MERCHANT_KEYS[2])[17] != Ascii(MERCHANT_KEYS[3])[17];
    assert Ascii(INPUT_KEYS[1])[0] != Ascii(INPUT_KEYS[4])[0];
    assert Ascii(INPUT_KEYS[1])[0] != Ascii(INPUT_KEYS[7])[0];
    assert Ascii(INPUT_KEYS[4])[0] != Ascii(INPUT_KEYS[7])[0];
    assert Ascii(INPUT_KEYS[3])[0] != Ascii(INPUT_KEYS[6])[0];
  }

  lemma MerchantsDiffer(a: Limits, b: Limits)
    requires Same(MerchantJson(a), MerchantJson(b))
    ensures a == b
  {
    hide Numeral;
    KeysDiffer();
    var x, y := [Str(a.id), Bool(a.isPaused), Numeral(a.budgetPaise), Numeral(a.budgetCount)],
                [Str(b.id), Bool(b.isPaused), Numeral(b.budgetPaise), Numeral(b.budgetCount)];
    SameObject(MERCHANT_KEYS, x, y);
    assert Same(x[0], y[0]) && Same(x[1], y[1]) && Same(x[2], y[2]) && Same(x[3], y[3]);
    NumeralsDiffer(a.budgetPaise, b.budgetPaise);
    NumeralsDiffer(a.budgetCount, b.budgetCount);
  }

  lemma PaymentsDiffer(a: Subject, b: Subject)
    requires Same(PaymentJson(a), PaymentJson(b))
    ensures a == b
  {
    hide Numeral, StateName, FamilyName;
    KeysDiffer();
    var x, y := [Str(a.id), StateName(a.state), Numeral(a.amountPaise), Numeral(a.attemptIndex), FamilyName(a.family)],
                [Str(b.id), StateName(b.state), Numeral(b.amountPaise), Numeral(b.attemptIndex), FamilyName(b.family)];
    SameObject(PAYMENT_KEYS, x, y);
    assert Same(x[0], y[0]) && Same(x[1], y[1]) && Same(x[2], y[2]) && Same(x[3], y[3]) && Same(x[4], y[4]);
    StatesDiffer(a.state, b.state);
    NumeralsDiffer(a.amountPaise, b.amountPaise);
    NumeralsDiffer(a.attemptIndex, b.attemptIndex);
    FamiliesDiffer(a.family, b.family);
  }

  lemma ProposalsDiffer(a: Proposed, b: Proposed)
    requires Same(ProposalJson(a), ProposalJson(b))
    ensures a == b
  {
    hide Numeral, StrategyName, KindName;
    KeysDiffer();
    var x, y := [Str(a.caseId), StrategyName(a.strategy), KindName(a.kind), Numeral(a.evPaise), Numeral(a.costPaise)],
                [Str(b.caseId), StrategyName(b.strategy), KindName(b.kind), Numeral(b.evPaise), Numeral(b.costPaise)];
    SameObject(PROPOSAL_KEYS, x, y);
    assert Same(x[0], y[0]) && Same(x[1], y[1]) && Same(x[2], y[2]) && Same(x[3], y[3]) && Same(x[4], y[4]);
    StrategiesDiffer(a.strategy, b.strategy);
    KindsDiffer(a.kind, b.kind);
    NumeralsDiffer(a.evPaise, b.evPaise);
    NumeralsDiffer(a.costPaise, b.costPaise);
  }

  lemma TodaysDiffer(a: PolicyInput, b: PolicyInput)
    requires Same(TodayJson(a), TodayJson(b))
    ensures a.todayCount == b.todayCount && a.todaySpendPaise == b.todaySpendPaise
  {
    hide Numeral;
    KeysDiffer();
    var x, y :=
        [Numeral(a.todayCount), Numeral(a.todaySpendPaise)], [Numeral(b.todayCount), Numeral(b.todaySpendPaise)];
    SameObject(TODAY_KEYS, x, y);
    assert Same(x[0], y[0]) && Same(x[1], y[1]);
    NumeralsDiffer(a.todayCount, b.todayCount);
    NumeralsDiffer(a.todaySpendPaise, b.todaySpendPaise);
  }

  lemma SinglesDiffer(key: string, a: Json, b: Json)
    requires Same(Object([key], [a]), Object([key], [b]))
    ensures Same(a, b)
  {
    SameObject([key], [a], [b]);
    assert [a][0] == a && [b][0] == b;
  }

  /** No two inputs are assembled into the same JSON. */
  lemma InputsDiffer(a: PolicyInput, b: PolicyInput)
    requires Same(InputJson(a), InputJson(b))
    ensures a == b
  {
    hide MerchantJson, TodayJson, PaymentJson, ProposalJson, Object, Numeral;
    KeysDiffer();
    var x, y := Parts(a), Parts(b);
    SameObject(INPUT_KEYS, x, y);
    assert Same(x[0], y[0]) && Same(x[1], y[1]) && Same(x[2], y[2]) && Same(x[3], y[3]) && Same(x[4], y[4])
        && Same(x[5], y[5]) && Same(x[6], y[6]) && Same(x[7], y[7]) && Same(x[8], y[8]);
    MerchantsDiffer(a.merchant, b.merchant);
    TodaysDiffer(a, b);
    SinglesDiffer("exposurePaise", Numeral(a.hourExposurePaise), Numeral(b.hourExposurePaise));
    NumeralsDiffer(a.hourExposurePaise, b.hourExposurePaise);
    SinglesDiffer("optedOut", Bool(a.optedOut), Bool(b.optedOut));
    PaymentsDiffer(a.payment, b.payment);
    ProposalsDiffer(a.proposal, b.proposal);
  }

  lemma ProperParts(i: PolicyInput)
    ensures forall k :: 0 <= k < 9 ==> Proper(Parts(i)[k])
  {
    hide MerchantJson, PaymentJson, ProposalJson, TodayJson;
    KeysDiffer();
    ProperMerchant(i.merchant);
    ProperPayment(i.payment);
    ProperProposal(i.proposal);
    ProperToday(i);
    ProperObject(["exposurePaise"], [Numeral(i.hourExposurePaise)]);
    ProperObject(["optedOut"], [Bool(i.optedOut)]);
  }

  lemma ProperMerchant(m: Limits)
    ensures Proper(MerchantJson(m))
  {
    hide Object, Decimal, Digits;
    KeysDiffer();
    ProperObject(MERCHANT_KEYS, [Str(m.id), Bool(m.isPaused), Numeral(m.budgetPaise), Numeral(m.budgetCount)]);
  }

  lemma ProperPayment(p: Subject)
    ensures Proper(PaymentJson(p))
  {
    hide Object, Decimal, Digits;
    KeysDiffer();
    ProperObject(PAYMENT_KEYS, [Str(p.id), StateName(p.state), Numeral(p.amountPaise), Numeral(p.attemptIndex),
                                FamilyName(p.family)]);
  }

  lemma ProperProposal(p: Proposed)
    ensures Proper(ProposalJson(p))
  {
    hide Object, Decimal, Digits;
    KeysDiffer();
    ProperObject(PROPOSAL_KEYS, [Str(p.caseId), StrategyName(p.strategy), KindName(p.kind), Numeral(p.evPaise),
                                 Numeral(p.costPaise)]);
  }

  lemma ProperToday(i: PolicyInput)
    ensures Proper(TodayJson(i))
  {
    hide Object, Decimal, Digits;
    KeysDiffer();
    ProperObject(TODAY_KEYS, [Numeral(i.todayCount), Numeral(i.todaySpendPaise)]);
  }

  /** Two inputs have the same hash only if they are the same input. */
  lemma HashDeterminesInput(a: PolicyInput, b: PolicyInput)
    ensures HashInput(a) == HashInput(b) <==> a == b
  {
    hide Canonicalise, Same, Object, Parts;
    KeysDiffer();
    ProperParts(a);
    ProperParts(b);
    ProperObject(INPUT_KEYS, Parts(a));
    ProperObject(INPUT_KEYS, Parts(b));
    CanonicalJson.CanonicalIsInjective(InputJson(a), InputJson(b));
    if HashInput(a) == HashInput(b) {
      InputsDiffer(a, b);
    }
  }

  /**
   * An approval is of the input it judged and of nothing else: a decision is accepted for an
   * input exactly when it was made on that very input, and was not a refusal, and a human signed
   * where a signature is needed. The action is then the one proposed, on that payment, and says
   * whether a human signed.
   */
  lemma ApprovalBindsInput(parse: DateParse, judged: PolicyInput, input: PolicyInput, human: bool)
    ensures var a := Approve(input, EvaluatePolicy(parse, judged), human);
            && (a.Some? <==>
                  && input == judged && Eligible(judged) && WithinCapacity(parse, judged)
                  && (NeedsSignature(judged) ==> human))
            && (a.Some? ==>
                  && a.value.proposal == judged.proposal && a.value.paymentId == judged.payment.id
                  && a.value.merchantId == judged.merchant.id && a.value.amountPaise == judged.payment.amountPaise
                  && (a.value.approvedBy == ByHuman <==> NeedsSignature(judged))
                  && forall other :: HashInput(other) == a.value.inputHash ==> other == judged)
  {
    hide HashInput, Eligible, WithinCapacity, NeedsSignature, VerdictOf, Reasons;
    VerdictMeans(parse, judged);
    HashDeterminesInput(judged, input);
    forall other | HashInput(other) == HashInput(judged)
      ensures other == judged
    {
      HashDeterminesInput(other, judged);
    }
  }
}
