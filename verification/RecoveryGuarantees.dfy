/**
 * What the recovery protocol guarantees in every state of every run: one recovery per payment,
 * every action backed by a judgement that can be made again, cases closed once, and no more
 * credit than money captured.
 */
module RecoveryGuarantees {
  import opened Wrappers
  import PaymentState
  import opened Execution
  import opened Executor
  import Gateway
  import Projection
  import Policy
  import opened RecoveryProtocol

  /** The payment a decision is about. */
  function PaymentOf(s: System, d: nat): PaymentKey
    requires d < |s.decisions| && s.decisions[d].caseKey in s.cases
  {
    s.cases[s.decisions[d].caseKey].payment
  }

  lemma ActionHasCase(judge: Judge, s: System, d: nat)
    requires Inv(judge, s) && d in s.actions
    ensures d < |s.decisions| && s.decisions[d].caseKey in s.cases && s.decisions[d].verdict == Policy.Allow
    ensures RowOk(judge, s, s.decisions[d]) && s.actions[d].caseKey == s.decisions[d].caseKey
  {
  }

  lemma AllowOnce(judge: Judge, s: System, i: nat, j: nat)
    requires Inv(judge, s) && i < |s.decisions| && j < |s.decisions|
    requires s.decisions[i].verdict == s.decisions[j].verdict == Policy.Allow
    requires s.decisions[i].caseKey == s.decisions[j].caseKey
    ensures i == j
  {
    if s.decisions[i].resolves.Some? != s.decisions[j].resolves.Some? {
      var signed, plain :=
          if s.decisions[i].resolves.Some? then i else j, if s.decisions[i].resolves.Some? then j else i;
      var asked := s.decisions[signed].resolves.value;
      assert Answers(s, signed, asked);
      ClearedOnce(judge, s, asked, plain);
    } else if s.decisions[i].resolves.None? {
      ClearedOnce(judge, s, i, j);
    }
  }

  /**
   * A payment has at most one case, a case at most one ALLOW, and so a payment at most one action
   * and at most one effect at the gateway, whatever the gate, humans, crashes and late effects do.
   */
  lemma NeverActTwiceOnOnePayment(judge: Judge, states: seq<System>, steps: seq<Step>, n: nat, i: nat, j: nat)
    requires IsRun(judge, states, steps) && n < |states|
    requires i in states[n].actions && j in states[n].actions
    ensures states[n].acted <= states[n].actions.Keys
    ensures i < |states[n].decisions| && states[n].decisions[i].caseKey in states[n].cases
    ensures j < |states[n].decisions| && states[n].decisions[j].caseKey in states[n].cases
    ensures PaymentOf(states[n], i) == PaymentOf(states[n], j) ==> i == j
  {
    EveryRunKeepsInv(judge, states, steps, n);
    ActionHasCase(judge, states[n], i);
    ActionHasCase(judge, states[n], j);
    if PaymentOf(states[n], i) == PaymentOf(states[n], j) {
      AllowOnce(judge, states[n], i, j);
    }
  }

  /** The judge of the protocol is the policy engine. */
  ghost predicate IsPolicy(judge: Judge, parse: Policy.DateParse) {
    forall i :: judge(i) == Policy.EvaluatePolicy(parse, i)
  }

  /** `Approves` is what approve() answers about the input a decision was made on. */
  lemma ApprovesIsApprove(parse: Policy.DateParse, i: Policy.PolicyInput, human: bool)
    ensures Approves(Policy.EvaluatePolicy(parse, i), human)
        <==> Policy.Approve(i, Policy.EvaluatePolicy(parse, i), human).Some?
  {
    hide Policy.HashInput, Policy.VerdictOf, Policy.Reasons;
  }

  lemma JudgementMeans(judge: Judge, parse: Policy.DateParse, i: Policy.PolicyInput)
    requires IsPolicy(judge, parse)
    ensures judge(i).verdict != Policy.Deny ==> Policy.Eligible(i) && Policy.WithinCapacity(parse, i)
    ensures judge(i).verdict == Policy.RequireApproval ==> Policy.NeedsSignature(i)
    ensures judge(i).verdict == Policy.Allow ==> !Policy.NeedsSignature(i)
    ensures judge(i).inputHash == Policy.HashInput(i)
  {
    hide Policy.HashInput, Policy.VerdictOf, Policy.Reasons, Policy.Eligible, Policy.WithinCapacity;
    hide Policy.NeedsSignature, Policy.IsDeferrable;
    Policy.VerdictMeans(parse, i);
  }

  /**
   * Every action traces to a stored input about its own case and payment, whose hash is the one
   * decided on, and which the policy engine clears again; if it needs a signature, an earlier
   * request for one is on record, the action's decision answers it, and no other decision does.
   */
  lemma EveryActionTraces(judge: Judge, parse: Policy.DateParse, states: seq<System>, steps: seq<Step>, n: nat, d: nat)
    requires IsPolicy(judge, parse) && IsRun(judge, states, steps) && n < |states| && d in states[n].actions
    ensures var s := states[n];
            && d < |s.decisions| && s.decisions[d].input.Some? && s.decisions[d].caseKey in s.cases
            && var i, row := s.decisions[d].input.value, s.decisions[d];
               && row.inputHash == Some(Policy.HashInput(i))
               && i.proposal.caseId == row.caseKey.text && i.payment.id == PaymentOf(s, d).text
               && Policy.Eligible(i) && Policy.WithinCapacity(parse, i)
               && (Policy.NeedsSignature(i) ==> row.resolves.Some?)
               && (row.resolves.Some? ==> Answers(s, d, row.resolves.value))
               && (row.resolves.Some? ==> forall k :: 0 <= k < |s.decisions| && k != d ==>
                     !(s.decisions[k].caseKey == row.caseKey && s.decisions[k].resolves.Some?))
  {
    hide Policy.EvaluatePolicy, Policy.HashInput, Policy.Eligible, Policy.WithinCapacity, Policy.NeedsSignature;
    EveryRunKeepsInv(judge, states, steps, n);
    ActionHasCase(judge, states[n], d);
    JudgementMeans(judge, parse, states[n].decisions[d].input.value);
    forall k | 0 <= k < |states[n].decisions| && states[n].decisions[d].resolves.Some?
               && states[n].decisions[k].caseKey == states[n].decisions[d].caseKey
               && states[n].decisions[k].resolves.Some?
      ensures k == d
    {
      assert RowOk(judge, states[n], states[n].decisions[k]);
      AllowOnce(judge, states[n], k, d);
    }
  }

  /**
   * Execution never skips: a stored ALLOW can be executed exactly while it has no action yet,
   * because what was stored always reproduces.
   */
  lemma StoredAllowReproduces(judge: Judge, states: seq<System>, steps: seq<Step>, n: nat, d: nat, at: int)
    requires IsRun(judge, states, steps) && n < |states| && d < |states[n].decisions|
    ensures Enabled(judge, states[n], Execute(d, Reserved, false, None, at))
       <==> states[n].decisions[d].verdict == Policy.Allow && d !in states[n].actions
  {
    EveryRunKeepsInv(judge, states, steps, n);
    assert RowOk(judge, states[n], states[n].decisions[d]);
  }

  /**
   * A rejection does not call an executor back. An abandoned case can gain an action exactly while
   * an ALLOW from before is on record without one; that action is then the only one of its case,
   * the case stays abandoned, and whatever it recovers is never verified.
   */
  lemma AbandonedCaseGainsAction(judge: Judge, states: seq<System>, steps: seq<Step>, n: nat, c: CaseKey, at: int)
    requires IsRun(judge, states, steps) && n < |states|
    requires c in states[n].cases && states[n].cases[c].status == AbandonedByPolicy
    ensures (exists d: nat :: ExecutesOn(judge, states[n], d, c, at))
       <==> exists d: nat :: AllowsOn(states[n], d, c) && d !in states[n].actions
    ensures forall d: nat :: ExecutesOn(judge, states[n], d, c, at) ==>
              StaysAbandoned(judge, Apply(judge, states[n], Execute(d, Reserved, false, None, at)), c, d)
  {
    hide IsRun, Enabled, Apply, StaysAbandoned;
    EveryRunKeepsInv(judge, states, steps, n);
    forall d: nat
      ensures ExecutesOn(judge, states[n], d, c, at) <==> AllowsOn(states[n], d, c) && d !in states[n].actions
    {
      if AllowsOn(states[n], d, c) {
        StoredAllowReproduces(judge, states, steps, n, d, at);
      }
    }
    forall d: nat | ExecutesOn(judge, states[n], d, c, at)
      ensures StaysAbandoned(judge, Apply(judge, states[n], Execute(d, Reserved, false, None, at)), c, d)
    {
      AbandonedSend(judge, states[n], d, c, at);
    }
  }

  lemma AbandonedSend(judge: Judge, s: System, d: nat, c: CaseKey, at: int)
    requires Inv(judge, s) && c in s.cases && s.cases[c].status == AbandonedByPolicy && ExecutesOn(judge, s, d, c, at)
    ensures StaysAbandoned(judge, Apply(judge, s, Execute(d, Reserved, false, None, at)), c, d)
  {
    hide Inv, Reproduces;
    forall x | x in s.actions && s.actions[x].caseKey == c
      ensures x == d
    {
      ActionHasCase(judge, s, x);
      AllowOnce(judge, s, x, d);
    }
  }

  /** An abandoned case whose one action is that of `d`, and which no verify step will close. */
  ghost predicate StaysAbandoned(judge: Judge, s: System, c: CaseKey, d: nat) {
    && c in s.cases && s.cases[c].status == AbandonedByPolicy
    && (forall x :: x in s.actions && s.actions[x].caseKey == c ==> x == d)
    && forall a :: !Enabled(judge, s, VerifyCaptured(c, a))
  }

  predicate AllowsOn(s: System, d: nat, c: CaseKey) {
    d < |s.decisions| && s.decisions[d].caseKey == c && s.decisions[d].verdict == Policy.Allow
  }

  predicate ExecutesOn(judge: Judge, s: System, d: nat, c: CaseKey, at: int) {
    AllowsOn(s, d, c) && Enabled(judge, s, Execute(d, Reserved, false, None, at))
  }

  /** A fresh execution by the executor's own loop is one of the executions of the protocol. */
  lemma ExecutorFits(judge: Judge, s: System, d: nat, g: Gateway.State, seeded: Gateway.Seeded, r: Gateway.Request,
                     worlds: nat -> Gateway.World)
    requires Gateway.Uniform(seeded) && r.key !in g.memory
    requires Enabled(judge, s, Execute(d, Reserved, false, None, r.now))
    ensures var (after, v) := Attempts(g, seeded, r, worlds);
            Enabled(judge, s, Execute(d, v.status, r.key in after.memory, None, r.now))
  {
    hide Attempts, Reproduces;
    ExecutionVerdict(g, seeded, r, worlds);
  }

  // ---- Cases close once ----

  predicate Closed(status: CaseStatus) {
    !Live(status)
  }

  lemma StepAbsorbs(judge: Judge, s: System, step: Step, c: CaseKey)
    requires Inv(judge, s) && Enabled(judge, s, step) && c in s.cases && Closed(s.cases[c].status)
    ensures var next := Apply(judge, s, step);
            && c in next.cases && next.cases[c].status == s.cases[c].status
            && (c in next.verifications <==> c in s.verifications)
            && (c in s.verifications ==> next.verifications[c] == s.verifications[c])
  {
    hide PaymentsOk, DecisionsOk, ActionsOk, VerificationsOk, Reproduces, Judgement, HumanJudgement, InputFits, Credit;
  }

  /** RECOVERED, LOST and ABANDONED_BY_POLICY absorb: neither the case nor its verdict changes again. */
  lemma {:induction false} ClosedForever(judge: Judge, states: seq<System>, steps: seq<Step>, i: nat, j: nat,
                                         c: CaseKey)
    requires IsRun(judge, states, steps) && i <= j < |states|
    requires c in states[i].cases && Closed(states[i].cases[c].status)
    ensures c in states[j].cases && states[j].cases[c].status == states[i].cases[c].status
    ensures c in states[j].verifications <==> c in states[i].verifications
    ensures c in states[i].verifications ==> states[j].verifications[c] == states[i].verifications[c]
  {
    hide Enabled, Apply, Inv;
    if i < j {
      ClosedForever(judge, states, steps, i, j - 1, c);
      EveryRunKeepsInv(judge, states, steps, j - 1);
      StepAbsorbs(judge, states[j-1], steps[j-1], c);
    }
  }

  // ---- Credit ----

  ghost function CreditOver(cs: set<CaseKey>, verifications: map<CaseKey, Verification>): int
    requires cs <= verifications.Keys
  {
    if cs == {} then 0
    else
      var c :| c in cs;
      verifications[c].creditedPaise + CreditOver(cs - {c}, verifications)
  }

  function CapturedPaise(p: PaymentRow): nat {
    if p.capture.Some? then p.amountPaise else 0
  }

  /** The money of a set of payments that was ever captured. */
  ghost function CapturedOver(ps: set<PaymentKey>, payments: map<PaymentKey, PaymentRow>): (total: nat)
    requires ps <= payments.Keys
  {
    if ps == {} then 0
    else
      var p :| p in ps;
      CapturedPaise(payments[p]) + CapturedOver(ps - {p}, payments)
  }

  lemma {:induction false} CapturedRemove(ps: set<PaymentKey>, x: PaymentKey, payments: map<PaymentKey, PaymentRow>)
    requires ps <= payments.Keys && x in ps
    ensures CapturedOver(ps, payments) == CapturedPaise(payments[x]) + CapturedOver(ps - {x}, payments)
  {
    var p :| p in ps && CapturedOver(ps, payments) == CapturedPaise(payments[p]) + CapturedOver(ps - {p}, payments);
    if p != x {
      CapturedRemove(ps - {p}, x, payments);
      CapturedRemove(ps - {x}, p, payments);
      assert ps - {p} - {x} == ps - {x} - {p};
    }
  }

  /** Verdicts of different cases draw on different payments. */
  lemma {:induction false} CreditFits(judge: Judge, s: System, cs: set<CaseKey>, ps: set<PaymentKey>)
    requires Inv(judge, s) && cs <= s.verifications.Keys && ps <= s.payments.Keys
    requires forall c :: c in cs ==> c in s.cases && s.cases[c].payment in ps
    ensures CreditOver(cs, s.verifications) <= CapturedOver(ps, s.payments)
    decreases cs
  {
    if cs != {} {
      var c :| c in cs && CreditOver(cs, s.verifications)
        == s.verifications[c].creditedPaise + CreditOver(cs - {c}, s.verifications);
      var p := s.cases[c].payment;
      assert VerdictOk(s, s.verifications[c], p);
      CreditFits(judge, s, cs - {c}, ps - {p});
      CapturedRemove(ps, p, s.payments);
    }
  }

  /** All credit ever claimed is money of payments that were captured, none of it counted twice. */
  lemma CreditIsCaptured(judge: Judge, states: seq<System>, steps: seq<Step>, n: nat)
    requires IsRun(judge, states, steps) && n < |states|
    ensures CreditOver(states[n].verifications.Keys, states[n].verifications)
         <= CapturedOver(states[n].payments.Keys, states[n].payments)
  {
    EveryRunKeepsInv(judge, states, steps, n);
    CreditFits(judge, states[n], states[n].verifications.Keys, states[n].payments.Keys);
  }

  /** A capture reported for our own action, under its reference and settle time, is credited in full. */
  lemma OwnCaptureIsCredited(judge: Judge, s: System, c: CaseKey, a: nat, kind: ActionKind, u: real)
    requires Enabled(judge, s, VerifyCaptured(c, Some(a))) && 0.0 <= u < 1.0
    requires s.actions[a].reference.Some?
    requires s.payments[s.cases[c].payment].capture
          == Some(Capture(s.actions[a].at + SettleDelayMinutes(kind, u) * 60_000, s.actions[a].reference))
    ensures var v := Apply(judge, s, VerifyCaptured(c, Some(a))).verifications[c];
            v.attribution == Direct && v.creditedPaise == v.recoveredPaise == s.payments[s.cases[c].payment].amountPaise
  {
    OwnCaptureIsDirect(kind, u, s.actions[a].at, s.actions[a].reference.value);
  }

  /**
   * The gateway's own effect: once the capture event of a call made under a successful action's
   * request has moved the payment, the case is verified direct and credited in full.
   */
  lemma GatewayCaptureIsCredited(judge: Judge, s: System, c: CaseKey, a: nat,
                                 g: Gateway.State, seeded: Gateway.Seeded, r: Gateway.Request, w: Gateway.World,
                                 e: Projection.Event)
    requires Gateway.Uniform(seeded) && Gateway.Recovers(g, r, w)
    requires Gateway.Acts(g, seeded, r, w) || Gateway.Leaks(g, seeded, r, w)
    requires Gateway.Call(g, seeded, r, w).0.emitted[|g.emitted|+1..] == [e]
    requires a in s.actions && s.actions[a].at == r.now && s.actions[a].reference == Some(Gateway.ReferenceFor(r))
    requires c in s.cases && s.cases[c].payment in s.payments
    requires var arrives := Move(s.cases[c].payment, e.kind, e.occurredAt, Some(Gateway.ReferenceFor(r)));
             Enabled(judge, s, arrives) && Enabled(judge, Apply(judge, s, arrives), VerifyCaptured(c, Some(a)))
    ensures var arrives := Move(s.cases[c].payment, e.kind, e.occurredAt, Some(Gateway.ReferenceFor(r)));
            var v := Apply(judge, Apply(judge, s, arrives), VerifyCaptured(c, Some(a))).verifications[c];
            v.attribution == Direct && v.creditedPaise == v.recoveredPaise == s.payments[s.cases[c].payment].amountPaise
  {
    hide Gateway.Call, Gateway.Acts, Gateway.Leaks, Gateway.Recovers, Attribute;
    Gateway.EffectEvents(g, seeded, r, w);
  }
}
