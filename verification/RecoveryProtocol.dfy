/**
 * The recovery protocol, from an unresolved failure to a verified outcome: open, propose,
 * gate, approve or reject, execute, verify (apps/api/src/app/recovery.ts, agent.ts, policy.ts,
 * verify.ts and their queries). Each function of the application is one atomic step.
 */
module RecoveryProtocol {
  import opened Wrappers
  import opened Json
  import PaymentState
  import opened Execution
  import opened Executor
  import Policy

  /** The policy engine: any function that judges inputs; JudgeIsPolicy says which one runs. */
  type Judge = Policy.PolicyInput -> Policy.Decision

  datatype CaseKey = CaseKey(text: Text)
  datatype PaymentKey = PaymentKey(text: Text)

  datatype PaymentRow = PaymentRow(state: PaymentState.State, amountPaise: nat, capture: Option<Capture>)

  datatype CaseRow = CaseRow(payment: PaymentKey, status: CaseStatus, strategy: Policy.Strategy, openedAt: int)

  /** One row of policy_decisions; its index is its id, which carries the order of insertion. */
  datatype DecisionRow = DecisionRow(
    caseKey: CaseKey,
    verdict: Policy.Verdict,
    input: Option<Policy.PolicyInput>,
    inputHash: Option<Policy.Digest>,
    deferred: bool,
    resolves: Option<nat>,
    at: int)

  datatype SentAction = SentAction(caseKey: CaseKey, status: ActionStatus, at: int, reference: Option<Reference>)

  datatype Verification = Verification(attribution: Attribution, recoveredPaise: int, creditedPaise: int, actual: bool)

  /** `acted` is what the gateway remembers: the decisions whose key reached an effect. */
  datatype System = System(
    payments: map<PaymentKey, PaymentRow>,
    cases: map<CaseKey, CaseRow>,
    proposed: set<CaseKey>,
    decisions: seq<DecisionRow>,
    actions: map<nat, SentAction>,
    acted: set<nat>,
    verifications: map<CaseKey, Verification>)

  const START := System(map[], map[], {}, [], map[], {}, map[])
  const DEFERRAL_MS := 3_600_000
  const ASSIST_WINDOW_MS := 6 * 3_600_000

  datatype Step =
    | Arrive(payment: PaymentKey, amountPaise: nat)
    | Move(payment: PaymentKey, kind: PaymentState.EventKind, at: int, reference: Option<Reference>)
    | OpenCase(c: CaseKey, payment: PaymentKey, strategy: Policy.Strategy, at: int)
    | Propose(c: CaseKey, strategy: Policy.Strategy)
    | Rescore(c: CaseKey, strategy: Policy.Strategy)
    | Gate(c: CaseKey, input: Policy.PolicyInput, at: int)
    | ApproveCase(c: CaseKey, pending: nat, input: Policy.PolicyInput, at: int)
    | RejectCase(c: CaseKey, at: int)
    | Execute(d: nat, status: ActionStatus, acts: bool, reference: Option<Reference>, at: int)
    | LateEffect(d: nat)
    | VerifyCaptured(c: CaseKey, action: Option<nat>)
    | VerifyLost(c: CaseKey, judgeAt: int)

  predicate Live(status: CaseStatus) {
    status == Open || status == Acting
  }

  predicate Settled(status: ActionStatus) {
    status == Succeeded || status == Failed || status == Escalated
  }

  predicate OpenIn(s: System, c: CaseKey) {
    c in s.cases && s.cases[c].status == Open
  }

  /** What buildInput reads of the case and its payment; the rest of the input is as it finds it. */
  predicate InputFits(s: System, c: CaseKey, i: Policy.PolicyInput) {
    && c in s.cases && s.cases[c].payment in s.payments
    && var row, p := s.cases[c], s.payments[s.cases[c].payment];
       && i.proposal.caseId == c.text && i.proposal.strategy == row.strategy
       && Policy.ActionKindFor(row.strategy) == Some(i.proposal.kind)
       && i.payment.id == row.payment.text && i.payment.state == p.state && i.payment.amountPaise == p.amountPaise
  }

  /** The gate has not settled the case: no decision, or only deferrals that are an hour old. */
  predicate Undecided(s: System, c: CaseKey, at: int) {
    forall k :: 0 <= k < |s.decisions| && s.decisions[k].caseKey == c ==>
      s.decisions[k].deferred && s.decisions[k].at <= at - DEFERRAL_MS
  }

  /** The latest request for a signature on the case, which nobody has answered. */
  predicate Pending(s: System, c: CaseKey, k: nat) {
    && k < |s.decisions| && s.decisions[k].caseKey == c && s.decisions[k].verdict == Policy.RequireApproval
    && (forall j :: k < j < |s.decisions| && s.decisions[j].caseKey == c ==>
          s.decisions[j].verdict != Policy.RequireApproval)
    && (forall j :: 0 <= j < |s.decisions| && s.decisions[j].caseKey == c ==> s.decisions[j].resolves != Some(k))
  }

  /** `approve` of the input a decision was made on. */
  predicate Approves(d: Policy.Decision, human: bool) {
    d.verdict == Policy.Allow || (d.verdict == Policy.RequireApproval && human)
  }

  /** What executeApproved asks of a stored ALLOW: it hashes to what was decided and approves again. */
  predicate Reproduces(judge: Judge, d: DecisionRow) {
    && d.input.Some?
    && var again := judge(d.input.value);
       && Some(again.inputHash) == d.inputHash
       && Approves(again, d.resolves.Some?)
  }

  predicate Enabled(judge: Judge, s: System, step: Step) {
    match step
    case Arrive(p, _) => p !in s.payments
    case Move(p, kind, _, _) => p in s.payments && PaymentState.Table(s.payments[p].state, kind).Some?
    case OpenCase(c, p, _, _) =>
      && c !in s.cases && p in s.payments && s.payments[p].state in {PaymentState.Failed, PaymentState.Attempted}
      && forall x :: x in s.cases ==> s.cases[x].payment != p
    case Propose(c, _) => OpenIn(s, c) && c !in s.proposed
    case Rescore(c, _) => OpenIn(s, c)
    case Gate(c, input, at) => OpenIn(s, c) && c in s.proposed && Undecided(s, c, at) && InputFits(s, c, input)
    case ApproveCase(c, k, input, _) => OpenIn(s, c) && Pending(s, c, k) && InputFits(s, c, input)
    case RejectCase(c, _) => c in s.cases && Live(s.cases[c].status)
    case Execute(d, status, acts, _, _) =>
      && d < |s.decisions| && s.decisions[d].verdict == Policy.Allow && d !in s.actions
      // the case was open when the executor was handed the decision, and may have been closed since
      && s.decisions[d].caseKey in s.cases && Reproduces(judge, s.decisions[d])
      && (status == Succeeded ==> acts) && (status == Failed || status == Escalated ==> !acts)
    case LateEffect(d) => d in s.actions && !Settled(s.actions[d].status)
    case VerifyCaptured(c, action) =>
      && c in s.cases && Live(s.cases[c].status) && c !in s.verifications
      && s.cases[c].payment in s.payments && s.payments[s.cases[c].payment].state == PaymentState.Captured
      && s.payments[s.cases[c].payment].capture.Some?
      && LatestSuccess(s, c, action)
    case VerifyLost(c, judgeAt) =>
      && c in s.cases && c !in s.verifications
      && s.cases[c].payment in s.payments && s.payments[s.cases[c].payment].state != PaymentState.Captured
      && ((s.cases[c].status == Acting && RanOut(s, c, judgeAt))
          || (s.cases[c].status == Open && s.cases[c].strategy == Policy.DoNothing
              && s.cases[c].openedAt <= judgeAt - ASSIST_WINDOW_MS))
  }

  /** `action` is the last successful action of the case, if it has one. */
  predicate LatestSuccess(s: System, c: CaseKey, action: Option<nat>) {
    match action
    case None => forall d :: d in s.actions ==> !(s.actions[d].caseKey == c && s.actions[d].status == Succeeded)
    case Some(a) =>
      && a in s.actions && s.actions[a].caseKey == c && s.actions[a].status == Succeeded
      && forall d :: d in s.actions && s.actions[d].caseKey == c && s.actions[d].status == Succeeded ==>
           s.actions[d].at <= s.actions[a].at
  }

  predicate RanOut(s: System, c: CaseKey, judgeAt: int) {
    && (exists d :: d in s.actions && s.actions[d].caseKey == c)
    && forall d :: d in s.actions && s.actions[d].caseKey == c ==>
         Settled(s.actions[d].status) && s.actions[d].at <= judgeAt - ASSIST_WINDOW_MS
  }

  function MoveTo(p: PaymentRow, next: PaymentState.State, at: int, reference: Option<Reference>): PaymentRow {
    p.(state := next, capture := if next == PaymentState.Captured then Some(Capture(at, reference)) else p.capture)
  }

  function SetStatus(s: System, c: CaseKey, status: CaseStatus): map<CaseKey, CaseRow>
    requires c in s.cases
  {
    s.cases[c := s.cases[c].(status := status)]
  }

  /** `persist`: the decision is recorded whatever it is; a lasting refusal closes an open case. */
  function Persist(s: System, c: CaseKey, d: DecisionRow): System
    requires c in s.cases
  {
    s.(decisions := s.decisions + [d],
       cases := if d.verdict == Policy.Deny && !d.deferred && s.cases[c].status == Open
                then SetStatus(s, c, AbandonedByPolicy) else s.cases)
  }

  function Judgement(judge: Judge, c: CaseKey, input: Policy.PolicyInput, at: int): DecisionRow {
    var d := judge(input);
    DecisionRow(c, d.verdict, Some(input), Some(d.inputHash), Policy.IsDeferrable(d), None, at)
  }

  function HumanJudgement(judge: Judge, c: CaseKey, k: nat, input: Policy.PolicyInput, at: int): DecisionRow {
    var d := Judgement(judge, c, input, at);
    if d.verdict == Policy.Deny then d else d.(verdict := Policy.Allow, resolves := Some(k))
  }

  function Credit(s: System, c: CaseKey, action: Option<nat>): Verification
    requires c in s.cases && s.cases[c].payment in s.payments && s.payments[s.cases[c].payment].capture.Some?
    requires action.Some? ==> action.value in s.actions
  {
    var p := s.payments[s.cases[c].payment];
    var ours := if action.None? then None
                else Some(OurAction(s.actions[action.value].at, s.actions[action.value].reference));
    var a := Attribute(p.capture.value, ours);
    Verification(a, p.amountPaise, CreditedPaise(a, p.amountPaise), true)
  }

  function Reject(s: System, c: CaseKey, at: int): System
    requires c in s.cases
  {
    s.(decisions := s.decisions + [DecisionRow(c, Policy.Deny, None, None, false, None, at)],
       cases := SetStatus(s, c, AbandonedByPolicy))
  }

  /** The action row with its outcome; reserving it moves an open case on, and leaves any other. */
  function Send(s: System, d: nat, status: ActionStatus, acts: bool, reference: Option<Reference>, at: int): System
    requires d < |s.decisions| && s.decisions[d].caseKey in s.cases
  {
    var c := s.decisions[d].caseKey;
    s.(actions := s.actions[d := SentAction(c, status, at, if status == Succeeded then reference else None)],
       acted := if acts then s.acted + {d} else s.acted,
       cases := if s.cases[c].status == Open then SetStatus(s, c, Acting) else s.cases)
  }

  function Close(s: System, c: CaseKey, v: Verification): System
    requires c in s.cases
  {
    s.(verifications := s.verifications[c := v], cases := SetStatus(s, c, if v.actual then Recovered else Lost))
  }

  function SetStrategy(s: System, c: CaseKey, strategy: Policy.Strategy): System
    requires c in s.cases
  {
    s.(cases := s.cases[c := s.cases[c].(strategy := strategy)])
  }

  function MovePayment(s: System, p: PaymentKey, next: PaymentState.State, at: int,
                       reference: Option<Reference>): System
    requires p in s.payments
  {
    s.(payments := s.payments[p := MoveTo(s.payments[p], next, at, reference)])
  }

  function Apply(judge: Judge, s: System, step: Step): System
    requires Enabled(judge, s, step)
  {
    match step
    case Arrive(p, amount) => s.(payments := s.payments[p := PaymentRow(PaymentState.Created, amount, None)])
    case Move(p, kind, at, reference) =>
      MovePayment(s, p, PaymentState.Table(s.payments[p].state, kind).value, at, reference)
    case OpenCase(c, p, strategy, at) => s.(cases := s.cases[c := CaseRow(p, Open, strategy, at)])
    case Propose(c, strategy) => SetStrategy(s, c, strategy).(proposed := s.proposed + {c})
    case Rescore(c, strategy) => SetStrategy(s, c, strategy)
    case Gate(c, input, at) => Persist(s, c, Judgement(judge, c, input, at))
    case ApproveCase(c, k, input, at) => Persist(s, c, HumanJudgement(judge, c, k, input, at))
    case RejectCase(c, at) => Reject(s, c, at)
    case Execute(d, status, acts, reference, at) => Send(s, d, status, acts, reference, at)
    case LateEffect(d) => s.(acted := s.acted + {d})
    case VerifyCaptured(c, action) => Close(s, c, Credit(s, c, action))
    case VerifyLost(c, _) => Close(s, c, Verification(Organic, 0, 0, false))
  }

  ghost predicate IsRun(judge: Judge, states: seq<System>, steps: seq<Step>) {
    && |states| == |steps| + 1 && states[0] == START
    && forall i :: 0 <= i < |steps| ==>
         Enabled(judge, states[i], steps[i]) && states[i+1] == Apply(judge, states[i], steps[i])
  }

  // ---- The invariant ----

  ghost predicate PaymentsOk(s: System) {
    forall p :: p in s.payments ==> (s.payments[p].capture.Some? <==> PaymentState.IsTerminal(s.payments[p].state))
  }

  ghost predicate CasesOk(s: System) {
    && (forall c :: c in s.cases ==> s.cases[c].payment in s.payments)
    && (forall c, d :: c in s.cases && d in s.cases && s.cases[c].payment == s.cases[d].payment ==> c == d)
  }

  /** A decision on its own: what it records reproduces it. */
  ghost predicate RowOk(judge: Judge, s: System, d: DecisionRow) {
    && d.caseKey in s.cases
    && (d.deferred ==> d.verdict == Policy.Deny)
    && (d.resolves.Some? ==> d.verdict == Policy.Allow)
    && (d.verdict != Policy.Deny ==>
          && d.input.Some?
          && var i, again := d.input.value, judge(d.input.value);
             && d.inputHash == Some(again.inputHash)
             && again.verdict != Policy.Deny && (d.resolves.None? ==> again.verdict == d.verdict)
             && i.proposal.caseId == d.caseKey.text && i.payment.id == s.cases[d.caseKey].payment.text)
  }

  /** A judgement of the gate itself that is not a refusal. */
  predicate Cleared(d: DecisionRow) {
    d.verdict != Policy.Deny && d.resolves.None?
  }

  ghost predicate DecisionsOk(judge: Judge, s: System) {
    && (forall k :: 0 <= k < |s.decisions| ==> RowOk(judge, s, s.decisions[k]))
    // the gate clears a case once
    && (forall j, k :: 0 <= j < k < |s.decisions| && s.decisions[j].caseKey == s.decisions[k].caseKey
                       ==> !(Cleared(s.decisions[j]) && Cleared(s.decisions[k])))
    // a signature answers an earlier request on the same case, and no other signature does
    && (forall k :: 0 <= k < |s.decisions| && s.decisions[k].resolves.Some? ==>
          Answers(s, k, s.decisions[k].resolves.value))
    && (forall j, k :: 0 <= j < k < |s.decisions| && s.decisions[j].caseKey == s.decisions[k].caseKey
                       ==> !(s.decisions[j].resolves.Some? && s.decisions[k].resolves.Some?))
  }

  predicate Answers(s: System, k: nat, j: nat)
    requires k < |s.decisions|
  {
    && j < k && s.decisions[j].caseKey == s.decisions[k].caseKey
    && s.decisions[j].verdict == Policy.RequireApproval && s.decisions[j].resolves == None
  }

  ghost predicate ActionsOk(s: System) {
    && s.acted <= s.actions.Keys
    && forall d :: d in s.actions ==>
         && d < |s.decisions| && s.decisions[d].verdict == Policy.Allow
         && s.actions[d].caseKey == s.decisions[d].caseKey
         && s.actions[d].caseKey in s.cases && s.cases[s.actions[d].caseKey].status != Open
         && (s.actions[d].status == Succeeded ==> d in s.acted)
         && (s.actions[d].status == Failed || s.actions[d].status == Escalated ==> d !in s.acted)
  }

  /** A case has a verdict exactly when it is closed as recovered or lost. */
  ghost predicate VerificationsOk(s: System) {
    && s.verifications.Keys <= s.cases.Keys
    && forall c :: c in s.cases ==>
         && (s.cases[c].status == Recovered <==> c in s.verifications && s.verifications[c].actual)
         && (s.cases[c].status == Lost <==> c in s.verifications && !s.verifications[c].actual)
         && (c in s.verifications ==> VerdictOk(s, s.verifications[c], s.cases[c].payment))
  }

  ghost predicate VerdictOk(s: System, v: Verification, p: PaymentKey) {
    && p in s.payments
    && 0 <= v.creditedPaise <= (if s.payments[p].capture.Some? then s.payments[p].amountPaise else 0)
    && (v.actual ==> s.payments[p].capture.Some? && v.recoveredPaise == s.payments[p].amountPaise)
    && (v.attribution == Organic ==> v.creditedPaise == 0)
    && (v.attribution != Organic ==> v.creditedPaise == v.recoveredPaise)
  }

  ghost predicate Inv(judge: Judge, s: System) {
    PaymentsOk(s) && CasesOk(s) && DecisionsOk(judge, s) && ActionsOk(s) && VerificationsOk(s)
  }

  // ---- Each step keeps it ----

  /** Cases stay about their payment. */
  ghost predicate SameSubjects(s: System, next: System) {
    forall c :: c in s.cases ==> c in next.cases && next.cases[c].payment == s.cases[c].payment
  }

  lemma DecisionsCarry(judge: Judge, s: System, next: System)
    requires DecisionsOk(judge, s) && next.decisions == s.decisions && SameSubjects(s, next)
    ensures DecisionsOk(judge, next)
  {
    forall k | 0 <= k < |next.decisions|
      ensures RowOk(judge, next, next.decisions[k])
    {
      assert RowOk(judge, s, s.decisions[k]);
    }
    forall k | 0 <= k < |next.decisions| && next.decisions[k].resolves.Some?
      ensures Answers(next, k, next.decisions[k].resolves.value)
    {
      assert Answers(s, k, s.decisions[k].resolves.value);
    }
  }

  lemma TableEnds(from: PaymentState.State, kind: PaymentState.EventKind)
    requires PaymentState.Table(from, kind).Some?
    ensures var next := PaymentState.Table(from, kind).value;
            && (PaymentState.IsTerminal(from) ==> next == PaymentState.Refunded)
            && (next == PaymentState.Refunded ==> PaymentState.IsTerminal(from))
  {
  }

  lemma MoveKeepsInv(judge: Judge, s: System, p: PaymentKey, kind: PaymentState.EventKind, at: int,
                     ref: Option<Reference>)
    requires Inv(judge, s) && Enabled(judge, s, Move(p, kind, at, ref))
    ensures Inv(judge, Apply(judge, s, Move(p, kind, at, ref)))
  {
    hide DecisionsOk, ActionsOk, VerificationsOk;
    TableEnds(s.payments[p].state, kind);
    var next := MovePayment(s, p, PaymentState.Table(s.payments[p].state, kind).value, at, ref);
    DecisionsCarry(judge, s, next);
    ActionsCarry(s, next);
    VerificationsCarry(s, next);
  }

  /** Payments may come and be captured: verdicts already given stay true. */
  lemma VerificationsCarry(s: System, next: System)
    requires VerificationsOk(s) && next.cases == s.cases && next.verifications == s.verifications
    requires forall p :: p in s.payments ==>
               && p in next.payments && next.payments[p].amountPaise == s.payments[p].amountPaise
               && (s.payments[p].capture.Some? ==> next.payments[p].capture.Some?)
    ensures VerificationsOk(next)
  {
    forall c | c in next.cases && c in next.verifications
      ensures VerdictOk(next, next.verifications[c], next.cases[c].payment)
    {
      assert VerdictOk(s, s.verifications[c], s.cases[c].payment);
    }
  }

  lemma ArriveKeepsInv(judge: Judge, s: System, p: PaymentKey, amount: nat)
    requires Inv(judge, s) && p !in s.payments
    ensures Inv(judge, s.(payments := s.payments[p := PaymentRow(PaymentState.Created, amount, None)]))
  {
    hide DecisionsOk;
    var next := s.(payments := s.payments[p := PaymentRow(PaymentState.Created, amount, None)]);
    DecisionsCarry(judge, s, next);
    VerificationsCarry(s, next);
  }

  lemma OpenKeepsVerifications(s: System, next: System, c: CaseKey, row: CaseRow)
    requires VerificationsOk(s) && c !in s.cases && row.status == Open
    requires next.cases == s.cases[c := row] && next.payments == s.payments && next.verifications == s.verifications
    ensures VerificationsOk(next)
  {
    forall x | x in next.cases && x in next.verifications
      ensures VerdictOk(next, next.verifications[x], next.cases[x].payment)
    {
      assert VerdictOk(s, s.verifications[x], s.cases[x].payment);
    }
  }

  lemma OpenKeepsInv(judge: Judge, s: System, c: CaseKey, p: PaymentKey, strategy: Policy.Strategy, at: int)
    requires Inv(judge, s) && Enabled(judge, s, OpenCase(c, p, strategy, at))
    ensures Inv(judge, Apply(judge, s, OpenCase(c, p, strategy, at)))
  {
    hide DecisionsOk, ActionsOk, VerificationsOk;
    var row := CaseRow(p, Open, strategy, at);
    var next := s.(cases := s.cases[c := row]);
    DecisionsCarry(judge, s, next);
    ActionsCarry(s, next);
    OpenKeepsVerifications(s, next, c, row);
  }

  /** A case that changes without being closed. */
  lemma ChangeKeepsVerifications(s: System, next: System, c: CaseKey)
    requires VerificationsOk(s) && c in s.cases && next.cases.Keys == s.cases.Keys
    requires forall x :: x in s.cases && x != c ==> next.cases[x] == s.cases[x]
    requires next.cases[c].payment == s.cases[c].payment
    requires || next.cases[c].status == s.cases[c].status
             || (Live(s.cases[c].status) && next.cases[c].status in {Acting, AbandonedByPolicy})
    requires next.payments == s.payments && next.verifications == s.verifications
    ensures VerificationsOk(next)
  {
    forall x | x in next.cases && x in next.verifications
      ensures VerdictOk(next, next.verifications[x], next.cases[x].payment)
    {
      assert VerdictOk(s, s.verifications[x], s.cases[x].payment);
    }
  }

  lemma SetStrategyKeepsInv(judge: Judge, s: System, c: CaseKey, strategy: Policy.Strategy)
    requires Inv(judge, s) && c in s.cases
    ensures Inv(judge, SetStrategy(s, c, strategy))
  {
    hide DecisionsOk, ActionsOk, VerificationsOk;
    var next := SetStrategy(s, c, strategy);
    DecisionsCarry(judge, s, next);
    ActionsCarry(s, next);
    ChangeKeepsVerifications(s, next, c);
  }

  lemma StatusKeepsCases(s: System, next: System, c: CaseKey, status: CaseStatus)
    requires CasesOk(s) && c in s.cases && next.cases == SetStatus(s, c, status) && next.payments == s.payments
    ensures CasesOk(next)
  {
  }

  /** Decisions are only added, and a case that left OPEN does not return to it. */
  lemma ActionsCarry(s: System, next: System)
    requires ActionsOk(s) && s.decisions <= next.decisions && next.actions == s.actions && next.acted == s.acted
    requires forall c :: c in s.cases ==>
               c in next.cases && (s.cases[c].status != Open ==> next.cases[c].status != Open)
    ensures ActionsOk(next)
  {
  }

  /** A row that may follow the decisions made so far. */
  ghost predicate MayFollow(judge: Judge, s: System, d: DecisionRow) {
    && RowOk(judge, s, d)
    && (Cleared(d) ==> forall k :: 0 <= k < |s.decisions| && s.decisions[k].caseKey == d.caseKey ==>
                         !Cleared(s.decisions[k]))
    && (d.resolves.Some? ==>
          && d.resolves.value < |s.decisions| && s.decisions[d.resolves.value].caseKey == d.caseKey
          && s.decisions[d.resolves.value].verdict == Policy.RequireApproval
          && s.decisions[d.resolves.value].resolves == None
          && forall k :: 0 <= k < |s.decisions| && s.decisions[k].caseKey == d.caseKey ==>
               s.decisions[k].resolves.None?)
  }

  lemma AppendKeepsDecisions(judge: Judge, s: System, next: System, d: DecisionRow)
    requires DecisionsOk(judge, s) && MayFollow(judge, s, d)
    requires next.decisions == s.decisions + [d] && SameSubjects(s, next)
    ensures DecisionsOk(judge, next)
  {
    forall k | 0 <= k < |next.decisions|
      ensures RowOk(judge, next, next.decisions[k])
    {
      assert k < |s.decisions| ==> RowOk(judge, s, s.decisions[k]);
    }
    forall k | 0 <= k < |next.decisions| && next.decisions[k].resolves.Some?
      ensures Answers(next, k, next.decisions[k].resolves.value)
    {
      assert k < |s.decisions| ==> Answers(s, k, s.decisions[k].resolves.value);
    }
  }

  lemma PersistKeepsInv(judge: Judge, s: System, c: CaseKey, d: DecisionRow)
    requires Inv(judge, s) && OpenIn(s, c) && d.caseKey == c && MayFollow(judge, s, d)
    ensures Inv(judge, Persist(s, c, d))
  {
    hide DecisionsOk, MayFollow;
    hide VerificationsOk, ActionsOk;
    var next := Persist(s, c, d);
    AppendKeepsDecisions(judge, s, next, d);
    ActionsCarry(s, next);
    ChangeKeepsVerifications(s, next, c);
  }

  /** The gate judges a case only while nothing but deferrals is on record. */
  lemma GateMayFollow(judge: Judge, s: System, c: CaseKey, input: Policy.PolicyInput, at: int)
    requires DecisionsOk(judge, s) && Undecided(s, c, at) && InputFits(s, c, input)
    ensures MayFollow(judge, s, Judgement(judge, c, input, at))
  {
    forall k | 0 <= k < |s.decisions| && s.decisions[k].caseKey == c
      ensures !Cleared(s.decisions[k])
    {
      assert RowOk(judge, s, s.decisions[k]);
    }
  }

  /** A signature answers the one request there is, once. */
  lemma ApproveMayFollow(judge: Judge, s: System, c: CaseKey, k: nat, input: Policy.PolicyInput, at: int)
    requires DecisionsOk(judge, s) && Pending(s, c, k) && InputFits(s, c, input)
    ensures MayFollow(judge, s, HumanJudgement(judge, c, k, input, at))
  {
    assert RowOk(judge, s, s.decisions[k]);
    forall j | 0 <= j < |s.decisions| && s.decisions[j].caseKey == c
      ensures s.decisions[j].resolves.None?
    {
      if s.decisions[j].resolves.Some? {
        assert Answers(s, j, s.decisions[j].resolves.value);
        ClearedOnce(judge, s, s.decisions[j].resolves.value, k);
      }
    }
  }

  lemma ClearedOnce(judge: Judge, s: System, j: nat, k: nat)
    requires DecisionsOk(judge, s) && j < |s.decisions| && k < |s.decisions|
    requires s.decisions[j].caseKey == s.decisions[k].caseKey && Cleared(s.decisions[j]) && Cleared(s.decisions[k])
    ensures j == k
  {
  }

  lemma RejectKeepsInv(judge: Judge, s: System, c: CaseKey, at: int)
    requires Inv(judge, s) && c in s.cases && Live(s.cases[c].status)
    ensures Inv(judge, Reject(s, c, at))
  {
    hide DecisionsOk, VerificationsOk, ActionsOk;
    var next := Reject(s, c, at);
    AppendKeepsDecisions(judge, s, next, DecisionRow(c, Policy.Deny, None, None, false, None, at));
    ActionsCarry(s, next);
    ChangeKeepsVerifications(s, next, c);
    StatusKeepsCases(s, next, c, AbandonedByPolicy);
  }

  lemma SendKeepsActions(s: System, d: nat, status: ActionStatus, acts: bool, ref: Option<Reference>, at: int)
    requires ActionsOk(s) && d < |s.decisions| && d !in s.actions && s.decisions[d].verdict == Policy.Allow
    requires s.decisions[d].caseKey in s.cases
    requires (status == Succeeded ==> acts) && (status == Failed || status == Escalated ==> !acts)
    ensures ActionsOk(Send(s, d, status, acts, ref, at))
  {
  }

  lemma SendKeepsInv(judge: Judge, s: System, d: nat, status: ActionStatus, acts: bool, ref: Option<Reference>, at: int)
    requires Inv(judge, s) && Enabled(judge, s, Execute(d, status, acts, ref, at))
    ensures Inv(judge, Send(s, d, status, acts, ref, at))
  {
    hide DecisionsOk, VerificationsOk, ActionsOk, Reproduces, CasesOk;
    var next, c := Send(s, d, status, acts, ref, at), s.decisions[d].caseKey;
    DecisionsCarry(judge, s, next);
    SendKeepsActions(s, d, status, acts, ref, at);
    ChangeKeepsVerifications(s, next, c);
    if s.cases[c].status == Open {
      StatusKeepsCases(s, next, c, Acting);
    } else {
      SameCasesOk(s, next);
    }
  }

  lemma SameCasesOk(s: System, next: System)
    requires CasesOk(s) && next.cases == s.cases && next.payments == s.payments
    ensures CasesOk(next)
  {
  }

  lemma LateEffectKeepsInv(judge: Judge, s: System, d: nat)
    requires Inv(judge, s) && d in s.actions && !Settled(s.actions[d].status)
    ensures Inv(judge, s.(acted := s.acted + {d}))
  {
    hide DecisionsOk, VerificationsOk;
    var next := s.(acted := s.acted + {d});
    DecisionsCarry(judge, s, next);
    VerificationsCarry(s, next);
  }

  lemma CloseKeepsVerifications(s: System, c: CaseKey, v: Verification)
    requires VerificationsOk(s) && c in s.cases && Live(s.cases[c].status) && VerdictOk(s, v, s.cases[c].payment)
    ensures VerificationsOk(Close(s, c, v))
  {
    var next := Close(s, c, v);
    forall x | x in next.cases && x in next.verifications
      ensures VerdictOk(next, next.verifications[x], next.cases[x].payment)
    {
      assert x != c ==> VerdictOk(s, s.verifications[x], s.cases[x].payment);
      assert VerdictOk(s, v, s.cases[c].payment);
    }
  }

  lemma CloseKeepsInv(judge: Judge, s: System, c: CaseKey, v: Verification)
    requires Inv(judge, s) && c in s.cases && Live(s.cases[c].status) && VerdictOk(s, v, s.cases[c].payment)
    ensures Inv(judge, Close(s, c, v))
  {
    hide DecisionsOk, VerificationsOk, ActionsOk, VerdictOk;
    var next := Close(s, c, v);
    DecisionsCarry(judge, s, next);
    ActionsCarry(s, next);
    CloseKeepsVerifications(s, c, v);
    StatusKeepsCases(s, next, c, if v.actual then Recovered else Lost);
  }

  lemma StepKeepsInv(judge: Judge, s: System, step: Step)
    requires Inv(judge, s) && Enabled(judge, s, step)
    ensures Inv(judge, Apply(judge, s, step))
  {
    hide PaymentsOk, DecisionsOk, ActionsOk, VerificationsOk, Reproduces;
    match step
    case Arrive(p, amount) => ArriveKeepsInv(judge, s, p, amount);
    case Move(p, kind, at, ref) => MoveKeepsInv(judge, s, p, kind, at, ref);
    case OpenCase(c, p, strategy, at) => OpenKeepsInv(judge, s, c, p, strategy, at);
    case Propose(c, strategy) => ProposeKeepsInv(judge, s, c, strategy);
    case Rescore(c, strategy) => SetStrategyKeepsInv(judge, s, c, strategy);
    case Gate(c, input, at) =>
      GateMayFollow(judge, s, c, input, at);
      PersistKeepsInv(judge, s, c, Judgement(judge, c, input, at));
    case ApproveCase(c, k, input, at) =>
      ApproveMayFollow(judge, s, c, k, input, at);
      PersistKeepsInv(judge, s, c, HumanJudgement(judge, c, k, input, at));
    case RejectCase(c, at) => RejectKeepsInv(judge, s, c, at);
    case Execute(d, status, acts, ref, at) => SendKeepsInv(judge, s, d, status, acts, ref, at);
    case LateEffect(d) => LateEffectKeepsInv(judge, s, d);
    case VerifyCaptured(c, action) => CloseKeepsInv(judge, s, c, Credit(s, c, action));
    case VerifyLost(c, _) => CloseKeepsInv(judge, s, c, Verification(Organic, 0, 0, false));
  }

  lemma ProposeKeepsInv(judge: Judge, s: System, c: CaseKey, strategy: Policy.Strategy)
    requires Inv(judge, s) && c in s.cases
    ensures Inv(judge, SetStrategy(s, c, strategy).(proposed := s.proposed + {c}))
  {
    hide DecisionsOk;
    SetStrategyKeepsInv(judge, s, c, strategy);
    var mid := SetStrategy(s, c, strategy);
    var next := mid.(proposed := s.proposed + {c});
    DecisionsCarry(judge, mid, next);
    VerificationsCarry(mid, next);
  }

  /** Every state of every run keeps the invariant. */
  lemma {:induction false} EveryRunKeepsInv(judge: Judge, states: seq<System>, steps: seq<Step>, n: nat)
    requires IsRun(judge, states, steps) && n < |states|
    ensures Inv(judge, states[n])
  {
    if n > 0 {
      hide Inv, Enabled, Apply;
      EveryRunKeepsInv(judge, states, steps, n - 1);
      StepKeepsInv(judge, states[n-1], steps[n-1]);
    }
  }
}
