/**
 * The recovery protocol's functions as the application runs them, over rows updated in place:
 * the gate's loop with its counters, a human's approval and rejection with their refusals, the
 * executor's loop over pending decisions (apps/api/src/app/policy.ts:85-335), and the
 * verification sweep with its totals (apps/api/src/app/verify.ts:29-106).
 */
module RecoveryDesk {
  import opened Wrappers
  import PaymentState
  import opened Execution
  import opened Executor
  import Policy
  import opened RecoveryProtocol
  import opened RecoveryGuarantees

  datatype GateResult = GateResult(evaluated: nat, allow: nat, deny: nat, deferred: nat, requireApproval: nat)

  datatype ApproveResult =
    | NoPendingApproval
    | AlreadyApproved
    | CaseNotFound
    | CaseNotOpen
    | NothingToApprove
    | NoProposal
    | PolicyRefused(deferred: bool)
    | ApprovedAs(decision: nat)

  datatype ExecuteResult = ExecuteResult(
    executed: nat, succeeded: nat, failed: nat, escalated: nat, replayed: nat, skipped: nat)

  datatype VerifyResult = VerifyResult(
    recovered: nat, lost: nat, direct: nat, assisted: nat, organic: nat, creditedPaise: int, organicPaise: int)

  /** An input for a case, if one can be built. */
  type Builder = CaseKey -> Option<Policy.PolicyInput>

  /** No request for a signature on the case between two decisions. */
  predicate NoRequest(decisions: seq<DecisionRow>, c: CaseKey, from: nat, to: nat)
    requires to <= |decisions|
  {
    forall j :: from <= j < to && decisions[j].caseKey == c ==> decisions[j].verdict != Policy.RequireApproval
  }

  // ---- What the loops come to ----

  /** The cases a gate run loads: open, proposed on, undecided. */
  ghost predicate Candidate(s: System, c: CaseKey, at: int, build: Builder) {
    && OpenIn(s, c) && c in s.proposed && Undecided(s, c, at)
    && (build(c).Some? ==> InputFits(s, c, build(c).value))
  }

  predicate DistinctCases(cs: seq<CaseKey>) {
    forall i, j :: 0 <= i < j < |cs| ==> cs[i] != cs[j]
  }

  function GateOne(judge: Judge, s: System, c: CaseKey, build: Builder, at: int): System
    requires c in s.cases
  {
    if build(c).None? then s else Persist(s, c, Judgement(judge, c, build(c).value, at))
  }

  function GateAll(judge: Judge, s: System, cs: seq<CaseKey>, build: Builder, at: int): (after: System)
    requires forall c :: c in cs ==> c in s.cases
    ensures after.cases.Keys == s.cases.Keys
  {
    if cs == [] then s else GateOne(judge, GateAll(judge, s, cs[..|cs|-1], build, at), cs[|cs|-1], build, at)
  }

  function Tally(r: GateResult, d: DecisionRow): GateResult {
    match d.verdict
    case Allow => r.(evaluated := r.evaluated + 1, allow := r.allow + 1)
    case Deny =>
      r.(evaluated := r.evaluated + 1, deny := r.deny + 1, deferred := r.deferred + if d.deferred then 1 else 0)
    case RequireApproval => r.(evaluated := r.evaluated + 1, requireApproval := r.requireApproval + 1)
  }

  function TallyAll(judge: Judge, cs: seq<CaseKey>, build: Builder, at: int): GateResult {
    if cs == [] then GateResult(0, 0, 0, 0, 0)
    else
      var r, c := TallyAll(judge, cs[..|cs|-1], build, at), cs[|cs|-1];
      if build(c).None? then r else Tally(r, Judgement(judge, c, build(c).value, at))
  }

  /**
   * How the executor ends on one decision: it throws before its row is reserved, or leaves the row
   * with a status, returning or throwing. `acts` says whether the gateway acted on the key.
   */
  datatype Answer =
    | NotReserved
    | Left(status: ActionStatus, acts: bool, reference: Option<Reference>, threw: bool)

  datatype ExecuteFate = Skipped | Replayed | Executed(status: ActionStatus)

  /**
   * The executor settles a row as the gateway's memory has it, and settles it before it returns. A
   * throw leaves the row unsettled or, when announcing the outcome is what failed, settled.
   */
  predicate Honest(a: Answer) {
    a.Left? ==> (Settled(a.status) ==> (a.status == Succeeded <==> a.acts)) && (!a.threw ==> Settled(a.status))
  }

  /** A decision to execute: an ALLOW of an open case, with no action yet. */
  predicate Awaits(s: System, d: nat) {
    d < |s.decisions| && s.decisions[d].verdict == Policy.Allow && d !in s.actions && OpenIn(s, s.decisions[d].caseKey)
  }

  predicate OnRecord(s: System, d: nat) {
    d < |s.decisions| && s.decisions[d].caseKey in s.cases
  }

  predicate AllOnRecord(s: System, ds: seq<nat>) {
    forall i :: 0 <= i < |ds| ==> OnRecord(s, ds[i])
  }

  function FateOf(judge: Judge, s: System, d: nat, a: Answer): ExecuteFate
    requires OnRecord(s, d)
  {
    if !Reproduces(judge, s.decisions[d]) || a.NotReserved? then Skipped
    else if d in s.actions then Replayed
    else if a.threw then Skipped
    else Executed(a.status)
  }

  function ExecuteOne(judge: Judge, s: System, d: nat, a: Answer, at: int): System
    requires OnRecord(s, d)
  {
    if !Reproduces(judge, s.decisions[d]) || d in s.actions then s
    else
      match a
      case NotReserved => s
      case Left(status, acts, reference, _) => Send(s, d, status, acts, reference, at)
  }

  function ExecuteAll(judge: Judge, s: System, ds: seq<nat>, answers: nat -> Answer, at: int): (after: System)
    requires AllOnRecord(s, ds)
    ensures after.decisions == s.decisions && after.cases.Keys == s.cases.Keys
  {
    if ds == [] then s
    else ExecuteOne(judge, ExecuteAll(judge, s, ds[..|ds|-1], answers, at), ds[|ds|-1], answers(ds[|ds|-1]), at)
  }

  function CountFate(r: ExecuteResult, fate: ExecuteFate): ExecuteResult {
    match fate
    case Skipped => r.(skipped := r.skipped + 1)
    case Replayed => r.(executed := r.executed + 1, replayed := r.replayed + 1)
    case Executed(Succeeded) => r.(executed := r.executed + 1, succeeded := r.succeeded + 1)
    case Executed(Failed) => r.(executed := r.executed + 1, failed := r.failed + 1)
    case Executed(_) => r.(executed := r.executed + 1, escalated := r.escalated + 1)
  }

  function CountFates(judge: Judge, s: System, ds: seq<nat>, answers: nat -> Answer, at: int): ExecuteResult
    requires AllOnRecord(s, ds)
  {
    if ds == [] then ExecuteResult(0, 0, 0, 0, 0, 0)
    else
      var front, d := ds[..|ds|-1], ds[|ds|-1];
      CountFate(CountFates(judge, s, front, answers, at),
                FateOf(judge, ExecuteAll(judge, s, front, answers, at), d, answers(d)))
  }

  /** A verdict on a case, as the sweep computes it from the rows it loaded. */
  datatype Outcome = Outcome(c: CaseKey, verification: Verification)

  /** recordVerification: one verdict per case; it closes the case if that is still live. */
  function RecordOne(s: System, o: Outcome): System
    requires o.c in s.cases
  {
    if o.c in s.verifications then s
    else if Live(s.cases[o.c].status) then Close(s, o.c, o.verification)
    else s.(verifications := s.verifications[o.c := o.verification])
  }

  function RecordAll(s: System, list: seq<Outcome>): (after: System)
    requires OnFile(s, list)
    ensures after.cases.Keys == s.cases.Keys
  {
    if list == [] then s else RecordOne(RecordAll(s, list[..|list|-1]), list[|list|-1])
  }

  /** The sweep's own totals: a verdict already on record is not counted. */
  function Counted(r: VerifyResult, o: Outcome): VerifyResult {
    var v := o.verification;
    if !v.actual then r.(lost := r.lost + 1)
    else
      r.(recovered := r.recovered + 1,
         direct := r.direct + if v.attribution == Direct then 1 else 0,
         assisted := r.assisted + if v.attribution == Assisted then 1 else 0,
         organic := r.organic + if v.attribution == Organic then 1 else 0,
         creditedPaise := r.creditedPaise + v.creditedPaise,
         organicPaise := r.organicPaise + if v.attribution == Organic then v.recoveredPaise else 0)
  }

  function CountAll(s: System, list: seq<Outcome>): VerifyResult
    requires OnFile(s, list)
  {
    if list == [] then VerifyResult(0, 0, 0, 0, 0, 0, 0)
    else
      var r, o := CountAll(s, list[..|list|-1]), list[|list|-1];
      if o.c in RecordAll(s, list[..|list|-1]).verifications then r else Counted(r, o)
  }

  /** A row of the query for captures: a case and its latest successful action, if it has one. */
  datatype CapturedCase = CapturedCase(c: CaseKey, action: Option<nat>)

  predicate IsCaptured(s: System, row: CapturedCase) {
    && row.c in s.cases && s.cases[row.c].payment in s.payments && s.payments[s.cases[row.c].payment].capture.Some?
    && (row.action.Some? ==> row.action.value in s.actions)
  }

  predicate AllCaptured(s: System, rows: seq<CapturedCase>) {
    forall i :: 0 <= i < |rows| ==> IsCaptured(s, rows[i])
  }

  /** A capture is judged by when and under which reference it came, against our action. */
  function CapturedOutcome(s: System, row: CapturedCase): Outcome
    requires IsCaptured(s, row)
  {
    Outcome(row.c, Credit(s, row.c, row.action))
  }

  function CapturedOutcomes(s: System, rows: seq<CapturedCase>): (list: seq<Outcome>)
    requires AllCaptured(s, rows)
    ensures |list| == |rows| && forall i :: 0 <= i < |rows| ==> list[i] == CapturedOutcome(s, rows[i])
  {
    seq(|rows|, i requires 0 <= i < |rows| => CapturedOutcome(s, rows[i]))
  }

  /** A loss has no attribution to speak of, and credits nothing. */
  const LOSS := Verification(Organic, 0, 0, false)

  function LostOutcomes(lost: seq<CaseKey>): (list: seq<Outcome>)
    ensures |list| == |lost| && forall i :: 0 <= i < |lost| ==> list[i] == Outcome(lost[i], LOSS)
  {
    seq(|lost|, i requires 0 <= i < |lost| => Outcome(lost[i], LOSS))
  }

  predicate OnFile(s: System, list: seq<Outcome>) {
    forall i :: 0 <= i < |list| ==> list[i].c in s.cases
  }

  method AddOutcome(r: VerifyResult, o: Outcome) returns (next: VerifyResult)
    ensures next == Counted(r, o)
  {
    if !o.verification.actual {
      return r.(lost := r.lost + 1);
    }
    next := r.(recovered := r.recovered + 1, creditedPaise := r.creditedPaise + o.verification.creditedPaise);
    match o.verification.attribution
    case Direct => next := next.(direct := next.direct + 1);
    case Assisted => next := next.(assisted := next.assisted + 1);
    case Organic =>
      next := next.(organic := next.organic + 1, organicPaise := next.organicPaise + o.verification.recoveredPaise);
  }

  method AddFate(r: ExecuteResult, fate: ExecuteFate) returns (next: ExecuteResult)
    ensures next == CountFate(r, fate)
  {
    if fate == Skipped {
      return r.(skipped := r.skipped + 1);
    }
    next := r.(executed := r.executed + 1);
    match fate
    case Replayed => next := next.(replayed := next.replayed + 1);
    case Executed(status) =>
      if status == Succeeded {
        next := next.(succeeded := next.succeeded + 1);
      } else if status == Failed {
        next := next.(failed := next.failed + 1);
      } else {
        next := next.(escalated := next.escalated + 1);
      }
  }

  class Desk {
    const judge: Judge
    var payments: map<PaymentKey, PaymentRow>
    var cases: map<CaseKey, CaseRow>
    var proposed: set<CaseKey>
    var decisions: seq<DecisionRow>
    var actions: map<nat, SentAction>
    var acted: set<nat>
    var verifications: map<CaseKey, Verification>

    ghost function Contents(): System
      reads this
    {
      System(payments, cases, proposed, decisions, actions, acted, verifications)
    }

    constructor (judge: Judge)
      ensures this.judge == judge && Contents() == START
    {
      this.judge := judge;
      payments, cases, proposed, decisions, actions, acted, verifications := map[], map[], {}, [], map[], {}, map[];
    }

    method PersistDecision(c: CaseKey, d: DecisionRow)
      requires c in cases
      modifies this`decisions, this`cases
      ensures Contents() == Persist(old(Contents()), c, d)
    {
      decisions := decisions + [d];
      if d.verdict == Policy.Deny && !d.deferred {
        if cases[c].status == Open {
          cases := cases[c := cases[c].(status := AbandonedByPolicy)];
        }
      }
    }

    /** Judges every candidate and records each judgement, the refusals and the rest alike. */
    method GateOpenCases(candidates: seq<CaseKey>, build: Builder, at: int) returns (r: GateResult)
      requires forall c :: c in candidates ==> c in cases
      modifies this`decisions, this`cases
      ensures Contents() == GateAll(judge, old(Contents()), candidates, build, at)
      ensures r == TallyAll(judge, candidates, build, at)
    {
      r := GateResult(0, 0, 0, 0, 0);
      for i := 0 to |candidates|
        invariant cases.Keys == old(cases).Keys
        invariant Contents() == GateAll(judge, old(Contents()), candidates[..i], build, at)
        invariant r == TallyAll(judge, candidates[..i], build, at)
      {
        var c := candidates[i];
        assert candidates[..i+1][..i] == candidates[..i];
        assert c in candidates;
        var input := build(c);
        if input.Some? {
          var d := Judgement(judge, c, input.value, at);
          PersistDecision(c, d);
          r := r.(evaluated := r.evaluated + 1);
          if d.verdict == Policy.Allow {
            r := r.(allow := r.allow + 1);
          } else if d.verdict == Policy.Deny {
            r := r.(deny := r.deny + 1);
            if d.deferred {
              r := r.(deferred := r.deferred + 1);
            }
          } else {
            r := r.(requireApproval := r.requireApproval + 1);
          }
        }
      }
      assert candidates[..|candidates|] == candidates;
    }

    /** The latest request for a signature on a case. */
    method LastRequest(c: CaseKey) returns (k: Option<nat>)
      ensures k.None? ==> NoRequest(decisions, c, 0, |decisions|)
      ensures k.Some? ==>
                && k.value < |decisions| && decisions[k.value].caseKey == c
                && decisions[k.value].verdict == Policy.RequireApproval
                && NoRequest(decisions, c, k.value + 1, |decisions|)
    {
      k := None;
      for j := 0 to |decisions|
        invariant k.None? ==> NoRequest(decisions, c, 0, j)
        invariant k.Some? ==>
                    && k.value < j && decisions[k.value].caseKey == c
                    && decisions[k.value].verdict == Policy.RequireApproval
                    && NoRequest(decisions, c, k.value + 1, j)
      {
        if decisions[j].caseKey == c && decisions[j].verdict == Policy.RequireApproval {
          k := Some(j);
        }
      }
    }

    /**
     * A signature. It takes effect exactly when an unanswered request is on record, the case is
     * open with something to do, and the policy does not refuse it now; otherwise nothing changes
     * but the record of the refusal.
     */
    method ApproveOne(c: CaseKey, build: Builder, at: int) returns (r: ApproveResult)
      modifies this`decisions, this`cases
      ensures r.ApprovedAs? || r.PolicyRefused? <==>
                exists k: nat :: Pending(old(Contents()), c, k) && OpenIn(old(Contents()), c)
                                 && old(cases)[c].strategy != Policy.DoNothing && build(c).Some?
      ensures r.ApprovedAs? || r.PolicyRefused? ==>
                exists k: nat :: Pending(old(Contents()), c, k) && OpenIn(old(Contents()), c) && build(c).Some?
                                 && Contents()
                                    == Persist(old(Contents()), c, HumanJudgement(judge, c, k, build(c).value, at))
      ensures r.ApprovedAs? ==> judge(build(c).value).verdict != Policy.Deny
      ensures r.PolicyRefused? ==> judge(build(c).value).verdict == Policy.Deny
      ensures r.ApprovedAs? ==> r.decision == |old(decisions)|
      ensures !r.ApprovedAs? && !r.PolicyRefused? ==> Contents() == old(Contents())
    {
      var pending := LastRequest(c);
      if pending.None? {
        return NoPendingApproval;
      }
      var k := pending.value;
      if exists j :: 0 <= j < |decisions| && decisions[j].caseKey == c && decisions[j].resolves == Some(k) {
        OnePending(Contents(), c, k);
        return AlreadyApproved;
      }
      assert Pending(Contents(), c, k);
      if c !in cases {
        return CaseNotFound;
      }
      if cases[c].status != Open {
        return CaseNotOpen;
      }
      if cases[c].strategy == Policy.DoNothing {
        return NothingToApprove;
      }
      var input := build(c);
      if input.None? {
        return NoProposal;
      }
      var d := HumanJudgement(judge, c, k, input.value, at);
      PersistDecision(c, d);
      if d.verdict == Policy.Deny {
        return PolicyRefused(d.deferred);
      }
      return ApprovedAs(|decisions| - 1);
    }

    method RejectOne(c: CaseKey, at: int) returns (found: bool, rejected: bool)
      modifies this`decisions, this`cases
      ensures found == (c in old(cases)) && (rejected <==> found && Live(old(cases)[c].status))
      ensures rejected ==> Contents() == Reject(old(Contents()), c, at)
      ensures !rejected ==> Contents() == old(Contents())
    {
      if c !in cases {
        return false, false;
      }
      if !Live(cases[c].status) {
        return true, false;
      }
      decisions := decisions + [DecisionRow(c, Policy.Deny, None, None, false, None, at)];
      cases := cases[c := cases[c].(status := AbandonedByPolicy)];
      return true, true;
    }

    method SendAction(d: nat, status: ActionStatus, acts: bool, reference: Option<Reference>, at: int)
      requires OnRecord(Contents(), d)
      modifies this`actions, this`acted, this`cases
      ensures Contents() == Send(old(Contents()), d, status, acts, reference, at)
    {
      var c := decisions[d].caseKey;
      actions := actions[d := SentAction(c, status, at, if status == Succeeded then reference else None)];
      acted := if acts then acted + {d} else acted;
      if cases[c].status == Open {
        cases := cases[c := cases[c].(status := Acting)];
      }
    }

    /** One stored decision: judged again from its own input, then handed to the executor. */
    method ExecuteStored(d: nat, a: Answer, at: int) returns (fate: ExecuteFate)
      requires OnRecord(Contents(), d)
      modifies this`actions, this`acted, this`cases
      ensures Contents() == ExecuteOne(judge, old(Contents()), d, a, at)
      ensures fate == FateOf(judge, old(Contents()), d, a)
    {
      var row := decisions[d];
      if row.input.None? {
        return Skipped;
      }
      var again := judge(row.input.value);
      if Some(again.inputHash) != row.inputHash {
        return Skipped;
      }
      if !Approves(again, row.resolves.Some?) {
        return Skipped;
      }
      if a.NotReserved? {
        return Skipped;
      }
      if d in actions {
        return Replayed;
      }
      SendAction(d, a.status, a.acts, a.reference, at);
      return if a.threw then Skipped else Executed(a.status);
    }

    /** Executes the pending decisions one after another; one that throws does not stop the rest. */
    method ExecuteApproved(pending: seq<nat>, answers: nat -> Answer, at: int) returns (r: ExecuteResult)
      requires AllOnRecord(Contents(), pending)
      modifies this`actions, this`acted, this`cases
      ensures Contents() == ExecuteAll(judge, old(Contents()), pending, answers, at)
      ensures r == CountFates(judge, old(Contents()), pending, answers, at)
    {
      hide ExecuteOne, FateOf, CountFate, Awaits, Honest, Reproduces;
      r := ExecuteResult(0, 0, 0, 0, 0, 0);
      for i := 0 to |pending|
        invariant Contents() == ExecuteAll(judge, old(Contents()), pending[..i], answers, at)
        invariant r == CountFates(judge, old(Contents()), pending[..i], answers, at)
      {
        var d := pending[i];
        assert pending[..i+1][..i] == pending[..i];
        assert Contents().cases.Keys == old(cases).Keys && Contents().decisions == old(decisions);
        var fate := ExecuteStored(d, answers(d), at);
        r := AddFate(r, fate);
      }
      assert pending[..|pending|] == pending;
    }

    method RecordVerification(o: Outcome) returns (isNew: bool)
      requires o.c in cases
      modifies this`verifications, this`cases
      ensures isNew == (o.c !in old(verifications)) && Contents() == RecordOne(old(Contents()), o)
    {
      if o.c in verifications {
        return false;
      }
      verifications := verifications[o.c := o.verification];
      if Live(cases[o.c].status) {
        cases := cases[o.c := cases[o.c].(status := if o.verification.actual then Recovered else Lost)];
      }
      return true;
    }

    /** The verdict on a captured case: attributed from the capture and our action, and credited by that. */
    method JudgeCapture(row: CapturedCase) returns (o: Outcome)
      requires IsCaptured(Contents(), row)
      ensures o == CapturedOutcome(Contents(), row) && o.c == row.c
    {
      var p := payments[cases[row.c].payment];
      var ours := None;
      if row.action.Some? {
        ours := Some(OurAction(actions[row.action.value].at, actions[row.action.value].reference));
      }
      var attribution := Attribute(p.capture.value, ours);
      o := Outcome(row.c, Verification(attribution, p.amountPaise, CreditedPaise(attribution, p.amountPaise), true));
    }

    /** One verdict, counted if it is new. */
    method RecordAndCount(o: Outcome, r: VerifyResult, ghost s: System,
                          ghost list: seq<Outcome>) returns (next: VerifyResult)
      requires o.c in s.cases && OnFile(s, list) && Contents() == RecordAll(s, list) && r == CountAll(s, list)
      modifies this`verifications, this`cases
      ensures OnFile(s, list + [o]) && Contents() == RecordAll(s, list + [o]) && next == CountAll(s, list + [o])
    {
      hide RecordOne, Counted;
      assert (list + [o])[..|list|] == list;
      next := r;
      var isNew := RecordVerification(o);
      if isNew {
        next := AddOutcome(r, o);
      }
    }

    /** The verification sweep: the captured cases and then the lost ones, adding up what was new. */
    method VerifyOutcomes(captured: seq<CapturedCase>, lost: seq<CaseKey>) returns (r: VerifyResult)
      requires AllCaptured(Contents(), captured) && forall i :: 0 <= i < |lost| ==> lost[i] in cases
      modifies this`verifications, this`cases
      ensures var outcomes := CapturedOutcomes(old(Contents()), captured) + LostOutcomes(lost);
              && OnFile(old(Contents()), outcomes)
              && Contents() == RecordAll(old(Contents()), outcomes) && r == CountAll(old(Contents()), outcomes)
    {
      hide RecordAll, CountAll, CapturedOutcome, IsCaptured;
      ghost var s := Contents();
      ghost var list: seq<Outcome> := [];
      r := VerifyResult(0, 0, 0, 0, 0, 0, 0);
      NothingRecorded(s);
      for i := 0 to |captured|
        invariant list == CapturedOutcomes(s, captured)[..i] && OnFile(s, list)
        invariant Contents() == RecordAll(s, list) && r == CountAll(s, list)
      {
        RecordAllKeepsRows(s, list);
        SameRowsJudgeAlike(s, Contents(), captured[i]);
        var o := JudgeCapture(captured[i]);
        r := RecordAndCount(o, r, s, list);
        list := list + [o];
      }
      for i := 0 to |lost|
        invariant list == CapturedOutcomes(s, captured) + LostOutcomes(lost)[..i] && OnFile(s, list)
        invariant Contents() == RecordAll(s, list) && r == CountAll(s, list)
      {
        r := RecordAndCount(Outcome(lost[i], LOSS), r, s, list);
        list := list + [Outcome(lost[i], LOSS)];
      }
      assert list == CapturedOutcomes(s, captured) + LostOutcomes(lost);
    }
  }

  lemma NothingRecorded(s: System)
    ensures OnFile(s, []) && RecordAll(s, []) == s && CountAll(s, []) == VerifyResult(0, 0, 0, 0, 0, 0, 0)
  {
  }

  lemma {:induction false} RecordAllKeepsRows(s: System, list: seq<Outcome>)
    requires OnFile(s, list)
    ensures SameRows(s, RecordAll(s, list))
  {
    hide RecordOne;
    if list != [] {
      RecordAllKeepsRows(s, list[..|list|-1]);
      RecordKeepsRows(RecordAll(s, list[..|list|-1]), list[|list|-1]);
    }
  }

  /** What a judgement reads is as it was. */
  ghost predicate SameRows(s: System, next: System) {
    && next.payments == s.payments && next.actions == s.actions && next.cases.Keys == s.cases.Keys
    && forall c :: c in s.cases ==> next.cases[c].payment == s.cases[c].payment
  }

  lemma SameRowsJudgeAlike(s: System, next: System, row: CapturedCase)
    requires SameRows(s, next) && IsCaptured(s, row)
    ensures IsCaptured(next, row) && CapturedOutcome(next, row) == CapturedOutcome(s, row) && row.c in s.cases
  {
  }

  lemma RecordKeepsRows(s: System, o: Outcome)
    requires o.c in s.cases
    ensures SameRows(s, RecordOne(s, o))
  {
  }

  /** The latest request is the only one that can be pending. */
  lemma OnePending(s: System, c: CaseKey, k: nat)
    requires k < |s.decisions| && s.decisions[k].caseKey == c && s.decisions[k].verdict == Policy.RequireApproval
    requires NoRequest(s.decisions, c, k + 1, |s.decisions|)
    requires exists j :: 0 <= j < |s.decisions| && s.decisions[j].caseKey == c && s.decisions[j].resolves == Some(k)
    ensures forall i: nat :: !Pending(s, c, i)
  {
  }

  // ---- A gate run is a run of gate steps ----

  /** Judging one case leaves every other candidate a candidate. */
  lemma GateLeavesOthers(judge: Judge, s: System, c: CaseKey, x: CaseKey, build: Builder, at: int)
    requires c in s.cases && x != c && Candidate(s, x, at, build)
    ensures Candidate(GateOne(judge, s, c, build, at), x, at, build)
  {
    var next := GateOne(judge, s, c, build, at);
    forall k | 0 <= k < |next.decisions| && next.decisions[k].caseKey == x
      ensures next.decisions[k].deferred && next.decisions[k].at <= at - DEFERRAL_MS
    {
      assert next.decisions[k] == s.decisions[k];
    }
  }

  lemma {:induction false} GateAllLeavesOthers(judge: Judge, s: System, cs: seq<CaseKey>, x: CaseKey, build: Builder,
                                               at: int)
    requires (forall c :: c in cs ==> c in s.cases) && x !in cs && Candidate(s, x, at, build)
    ensures Candidate(GateAll(judge, s, cs, build, at), x, at, build)
  {
    hide Candidate, GateOne;
    if cs != [] {
      GateAllLeavesOthers(judge, s, cs[..|cs|-1], x, build, at);
      GateLeavesOthers(judge, GateAll(judge, s, cs[..|cs|-1], build, at), cs[|cs|-1], x, build, at);
    }
  }

  /** Each turn of the gate's loop is a gate step, so a gate run keeps the protocol's invariant. */
  lemma {:induction false} GateRunKeepsInv(judge: Judge, s: System, cs: seq<CaseKey>, build: Builder, at: int)
    requires Inv(judge, s) && DistinctCases(cs) && forall c :: c in cs ==> Candidate(s, c, at, build)
    ensures forall c :: c in cs ==> c in s.cases
    ensures Inv(judge, GateAll(judge, s, cs, build, at))
  {
    hide Inv;
    if cs != [] {
      var front, c := cs[..|cs|-1], cs[|cs|-1];
      GateRunKeepsInv(judge, s, front, build, at);
      GateAllLeavesOthers(judge, s, front, c, build, at);
      var mid := GateAll(judge, s, front, build, at);
      if build(c).Some? {
        assert Enabled(judge, mid, Gate(c, build(c).value, at));
        StepKeepsInv(judge, mid, Gate(c, build(c).value, at));
      }
    }
  }

  /** Every judgement of a gate run is counted under exactly one verdict. */
  lemma {:induction false} GateCounts(judge: Judge, cs: seq<CaseKey>, build: Builder, at: int)
    ensures var r := TallyAll(judge, cs, build, at);
            && r.evaluated == r.allow + r.deny + r.requireApproval <= |cs| && r.deferred <= r.deny
  {
    if cs != [] {
      GateCounts(judge, cs[..|cs|-1], build, at);
    }
  }

  // ---- An executor run is a run of execute steps ----

  /** Executing one decision leaves every other one waiting: two ALLOWs are never on one case. */
  lemma ExecuteLeavesOthers(judge: Judge, s: System, d: nat, x: nat, a: Answer, at: int)
    requires Inv(judge, s) && Awaits(s, d) && Awaits(s, x) && d != x
    ensures Awaits(ExecuteOne(judge, s, d, a, at), x)
  {
    hide Inv, Reproduces;
    if s.decisions[d].caseKey == s.decisions[x].caseKey {
      AllowOnce(judge, s, d, x);
    }
  }

  lemma AwaitingReproduces(judge: Judge, s: System, d: nat)
    requires Inv(judge, s) && Awaits(s, d)
    ensures Reproduces(judge, s.decisions[d])
  {
    assert RowOk(judge, s, s.decisions[d]);
  }

  /** What one turn does to the action rows, and what it counts as. */
  ghost predicate Turn(s: System, next: System, d: nat, a: Answer, fate: ExecuteFate) {
    && next.actions.Keys == s.actions.Keys + (if a.NotReserved? then {} else {d})
    && next.acted == s.acted + (if !a.NotReserved? && a.acts then {d} else {})
    && fate == (if a.Left? && !a.threw then Executed(a.status) else Skipped)
    && forall status :: With(next, status) == With(s, status) + (if a.Left? && a.status == status then {d} else {})
  }

  /** The action rows with a status. */
  function With(s: System, status: ActionStatus): set<nat> {
    set d | d in s.actions && s.actions[d].status == status
  }

  lemma ExecuteTurns(judge: Judge, s: System, d: nat, a: Answer, at: int)
    requires Awaits(s, d) && Honest(a) && Reproduces(judge, s.decisions[d])
    ensures Turn(s, ExecuteOne(judge, s, d, a, at), d, a, FateOf(judge, s, d, a))
  {
    hide Reproduces;
    var next := ExecuteOne(judge, s, d, a, at);
    assert forall x :: x in s.actions ==> x in next.actions && next.actions[x] == s.actions[x];
  }

  /** A waiting decision's turn is an execute step of the protocol. */
  lemma ExecuteIsStep(judge: Judge, s: System, d: nat, a: Answer, at: int)
    requires Inv(judge, s) && Awaits(s, d) && Honest(a)
    ensures Inv(judge, ExecuteOne(judge, s, d, a, at))
  {
    AwaitingReproduces(judge, s, d);
    hide Inv, Reproduces;
    if !a.NotReserved? {
      assert Enabled(judge, s, Execute(d, a.status, a.acts, a.reference, at));
      StepKeepsInv(judge, s, Execute(d, a.status, a.acts, a.reference, at));
    }
  }

  /** What the executor's loop loads: pending decisions, each once. */
  predicate Waiting(s: System, ds: seq<nat>, answers: nat -> Answer) {
    && (forall i, j :: 0 <= i < j < |ds| ==> ds[i] != ds[j])
    && forall i :: 0 <= i < |ds| ==> Awaits(s, ds[i]) && Honest(answers(ds[i]))
  }

  lemma WaitingIsOnRecord(s: System, ds: seq<nat>, answers: nat -> Answer)
    requires Waiting(s, ds, answers)
    ensures AllOnRecord(s, ds)
    ensures ds != [] ==>
              && Waiting(s, ds[..|ds|-1], answers) && ds[|ds|-1] !in ds[..|ds|-1]
              && Awaits(s, ds[|ds|-1]) && Honest(answers(ds[|ds|-1]))
  {
  }

  lemma {:induction false} ExecuteAllLeavesOthers(
      judge: Judge, s: System, ds: seq<nat>, x: nat, answers: nat -> Answer, at: int)
    requires Inv(judge, s) && Waiting(s, ds, answers)
    ensures AllOnRecord(s, ds)
    ensures var after := ExecuteAll(judge, s, ds, answers, at);
            Inv(judge, after) && (x !in ds && Awaits(s, x) ==> Awaits(after, x))
  {
    hide Inv, ExecuteOne, Honest, Awaits, Waiting;
    WaitingIsOnRecord(s, ds, answers);
    if ds != [] {
      var front, d := ds[..|ds|-1], ds[|ds|-1];
      ExecuteAllLeavesOthers(judge, s, front, d, answers, at);
      ExecuteAllLeavesOthers(judge, s, front, x, answers, at);
      var mid := ExecuteAll(judge, s, front, answers, at);
      ExecuteIsStep(judge, mid, d, answers(d), at);
      if x !in ds && Awaits(s, x) {
        ExecuteLeavesOthers(judge, mid, d, x, answers(d), at);
      }
    }
  }

  /** The executor's loop over pending decisions is a run of execute steps, so it keeps the invariant. */
  lemma ExecuteRunKeepsInv(judge: Judge, s: System, ds: seq<nat>, answers: nat -> Answer, at: int)
    requires Inv(judge, s) && Waiting(s, ds, answers)
    ensures AllOnRecord(s, ds) && Inv(judge, ExecuteAll(judge, s, ds, answers, at))
  {
    ExecuteAllLeavesOthers(judge, s, ds, 0, answers, at);
  }

  /** The last turn of a run, and the run before it. */
  lemma LastTurn(judge: Judge, s: System, ds: seq<nat>, answers: nat -> Answer, at: int)
    requires Inv(judge, s) && Waiting(s, ds, answers) && ds != []
    ensures var front, d := ds[..|ds|-1], ds[|ds|-1];
            && AllOnRecord(s, ds) && Waiting(s, front, answers) && d !in front && AllOnRecord(s, front)
            && var mid := ExecuteAll(judge, s, front, answers, at);
               && OnRecord(mid, d) && d !in mid.actions && Honest(answers(d))
               && Turn(mid, ExecuteAll(judge, s, ds, answers, at), d, answers(d), FateOf(judge, mid, d, answers(d)))
  {
    hide Inv, ExecuteOne, FateOf, Honest, Waiting, Turn;
    WaitingIsOnRecord(s, ds, answers);
    var front, d := ds[..|ds|-1], ds[|ds|-1];
    WaitingIsOnRecord(s, front, answers);
    ExecuteAllLeavesOthers(judge, s, front, d, answers, at);
    var mid := ExecuteAll(judge, s, front, answers, at);
    AwaitingReproduces(judge, mid, d);
    ExecuteTurns(judge, mid, d, answers(d), at);
  }

  /** The executor settled the row and then threw, so that the loop counts the decision as skipped. */
  predicate Unreported(a: Answer) {
    a.Left? && a.threw && Settled(a.status)
  }

  function CountUnreported(ds: seq<nat>, answers: nat -> Answer, status: ActionStatus): nat {
    if ds == [] then 0
    else
      CountUnreported(ds[..|ds|-1], answers, status)
      + if Unreported(answers(ds[|ds|-1])) && answers(ds[|ds|-1]).status == status then 1 else 0
  }

  /** An outcome counter and what went unreported are together the rows gained with that status. */
  ghost predicate Gained(s: System, after: System, counter: nat, unreported: nat, status: ActionStatus) {
    counter + unreported == |With(after, status)| - |With(s, status)|
  }

  function Counter(r: ExecuteResult, status: ActionStatus): nat {
    if status == Succeeded then r.succeeded else if status == Failed then r.failed else r.escalated
  }

  lemma TurnGrows(s: System, next: System, d: nat, a: Answer, fate: ExecuteFate, status: ActionStatus)
    requires Turn(s, next, d, a, fate) && d !in s.actions
    ensures |With(next, status)| == |With(s, status)| + (if a.Left? && a.status == status then 1 else 0)
  {
    assert d !in With(s, status);
    var kept, grown := With(s, status), With(next, status);
    hide With;
    assert grown == kept + (if a.Left? && a.status == status then {d} else {});
  }

  lemma TurnCounts(r: ExecuteResult, a: Answer, status: ActionStatus)
    requires Honest(a) && Settled(status)
    ensures var fate := if a.Left? && !a.threw then Executed(a.status) else Skipped;
            && Counter(CountFate(r, fate), status) + (if Unreported(a) && a.status == status then 1 else 0)
            == Counter(r, status) + (if a.Left? && a.status == status then 1 else 0)
            && CountFate(r, fate).replayed == r.replayed
            && CountFate(r, fate).executed + CountFate(r, fate).skipped == r.executed + r.skipped + 1
  {
  }

  /**
   * Over pending decisions the executor's loop replays nothing and accounts for every decision, and
   * each outcome counter falls short of the rows gained with its status by exactly the decisions
   * whose executor settled the row and then threw.
   */
  lemma {:induction false} ExecuteCounts(
      judge: Judge, s: System, ds: seq<nat>, answers: nat -> Answer, at: int, status: ActionStatus)
    requires Inv(judge, s) && Waiting(s, ds, answers) && Settled(status)
    ensures AllOnRecord(s, ds)
    ensures var r := CountFates(judge, s, ds, answers, at);
            && Gained(s, ExecuteAll(judge, s, ds, answers, at), Counter(r, status),
                      CountUnreported(ds, answers, status), status)
            && r.replayed == 0 && r.executed + r.skipped == |ds|
  {
    hide Inv, ExecuteOne, FateOf, Honest, Waiting, With, Turn, CountFate, Reproduces, Unreported;
    if ds != [] {
      LastTurn(judge, s, ds, answers, at);
      var front, d := ds[..|ds|-1], ds[|ds|-1];
      ExecuteCounts(judge, s, front, answers, at, status);
      var mid := ExecuteAll(judge, s, front, answers, at);
      var fate := FateOf(judge, mid, d, answers(d));
      TurnGrows(mid, ExecuteAll(judge, s, ds, answers, at), d, answers(d), fate, status);
      TurnFate(mid, ExecuteAll(judge, s, ds, answers, at), d, answers(d), fate);
      TurnCounts(CountFates(judge, s, front, answers, at), answers(d), status);
    }
  }

  lemma TurnFate(s: System, next: System, d: nat, a: Answer, fate: ExecuteFate)
    requires Turn(s, next, d, a, fate)
    ensures fate == if a.Left? && !a.threw then Executed(a.status) else Skipped
  {
  }

  lemma {:induction false} NoneUnreported(ds: seq<nat>, answers: nat -> Answer)
    ensures CountUnreported(ds, answers, Succeeded) == CountUnreported(ds, answers, Failed)
         == CountUnreported(ds, answers, Escalated) == 0
       <==> forall i :: 0 <= i < |ds| ==> !Unreported(answers(ds[i]))
  {
    if ds != [] {
      NoneUnreported(ds[..|ds|-1], answers);
      assert forall i :: 0 <= i < |ds| - 1 ==> ds[..|ds|-1][i] == ds[i];
    }
  }

  predicate CountsRows(s: System, after: System, r: ExecuteResult) {
    && r.succeeded == |With(after, Succeeded)| - |With(s, Succeeded)|
    && r.failed == |With(after, Failed)| - |With(s, Failed)|
    && r.escalated == |With(after, Escalated)| - |With(s, Escalated)|
  }

  /** The counters are the rows gained exactly when no executor threw after it had settled its row. */
  lemma CountersAreRowsGained(judge: Judge, s: System, ds: seq<nat>, answers: nat -> Answer, at: int)
    requires Inv(judge, s) && Waiting(s, ds, answers)
    ensures AllOnRecord(s, ds)
    ensures CountsRows(s, ExecuteAll(judge, s, ds, answers, at), CountFates(judge, s, ds, answers, at))
       <==> forall i :: 0 <= i < |ds| ==> !Unreported(answers(ds[i]))
  {
    hide Inv, ExecuteAll, CountFates, Waiting, With, Unreported, CountUnreported;
    ExecuteCounts(judge, s, ds, answers, at, Succeeded);
    ExecuteCounts(judge, s, ds, answers, at, Failed);
    ExecuteCounts(judge, s, ds, answers, at, Escalated);
    NoneUnreported(ds, answers);
  }

  /** One such answer: the action is SUCCEEDED and the gateway acted, and the loop says skipped. */
  lemma FailedAnnouncementIsSkipped(judge: Judge, s: System, d: nat, reference: Option<Reference>, at: int)
    requires Inv(judge, s) && Awaits(s, d)
    ensures var a := Left(Succeeded, true, reference, true);
            var next := ExecuteOne(judge, s, d, a, at);
            && Honest(a) && FateOf(judge, s, d, a) == Skipped
            && d in next.actions && next.actions[d].status == Succeeded && d in next.acted
  {
    hide Inv, Reproduces;
    AwaitingReproduces(judge, s, d);
  }

  /** The run reserves a row for a decision unless that failed, and the gateway acts where its answer says. */
  lemma {:induction false} ExecuteReserves(judge: Judge, s: System, ds: seq<nat>, answers: nat -> Answer, at: int)
    requires Inv(judge, s) && Waiting(s, ds, answers)
    ensures AllOnRecord(s, ds)
    ensures var after := ExecuteAll(judge, s, ds, answers, at);
            && (forall d :: d in after.actions <==> d in s.actions || (d in ds && !answers(d).NotReserved?))
            && (forall d :: d in after.acted <==>
                  d in s.acted || (d in ds && !answers(d).NotReserved? && answers(d).acts))
  {
    hide Inv, ExecuteOne, FateOf, Honest, Waiting;
    if ds != [] {
      LastTurn(judge, s, ds, answers, at);
      var front, d := ds[..|ds|-1], ds[|ds|-1];
      ExecuteReserves(judge, s, front, answers, at);
      assert ds == front + [d];
    }
  }

  // ---- The sweep's totals ----

  /** The credit of a verdict that counts as recovered: nothing that is lost is credited. */
  predicate Fair(o: Outcome) {
    !o.verification.actual ==> o.verification.creditedPaise == 0
  }

  lemma {:induction false} CreditInsert(cs: set<CaseKey>, v: map<CaseKey, Verification>, x: CaseKey)
    requires cs <= v.Keys && x in cs
    ensures CreditOver(cs, v) == v[x].creditedPaise + CreditOver(cs - {x}, v)
  {
    var c :| c in cs && CreditOver(cs, v) == v[c].creditedPaise + CreditOver(cs - {c}, v);
    if c != x {
      CreditInsert(cs - {c}, v, x);
      CreditInsert(cs - {x}, v, c);
      assert cs - {c} - {x} == cs - {x} - {c};
    }
  }

  lemma {:induction false} CreditFrame(cs: set<CaseKey>, v: map<CaseKey, Verification>, w: map<CaseKey, Verification>)
    requires cs <= v.Keys && cs <= w.Keys && forall c :: c in cs ==> v[c] == w[c]
    ensures CreditOver(cs, v) == CreditOver(cs, w)
  {
    if cs != {} {
      var x :| x in cs;
      CreditInsert(cs, v, x);
      CreditInsert(cs, w, x);
      CreditFrame(cs - {x}, v, w);
    }
  }

  lemma RecordCredits(s: System, o: Outcome)
    requires o.c in s.cases && o.c !in s.verifications
    ensures var after := RecordOne(s, o).verifications;
            CreditOver(after.Keys, after)
            == CreditOver(s.verifications.Keys, s.verifications) + o.verification.creditedPaise
  {
    var after := RecordOne(s, o).verifications;
    assert after == s.verifications[o.c := o.verification];
    CreditInsert(after.Keys, after, o.c);
    assert after.Keys - {o.c} == s.verifications.Keys;
    CreditFrame(s.verifications.Keys, after, s.verifications);
  }

  /** What a sweep reports as credited is what it added to the credit on record, however often it is repeated. */
  lemma {:induction false} TotalsAreCredit(s: System, list: seq<Outcome>)
    requires OnFile(s, list) && forall i :: 0 <= i < |list| ==> Fair(list[i])
    ensures var before, after := s.verifications, RecordAll(s, list).verifications;
            CountAll(s, list).creditedPaise == CreditOver(after.Keys, after) - CreditOver(before.Keys, before)
  {
    hide RecordOne;
    if list != [] {
      var front, o := list[..|list|-1], list[|list|-1];
      TotalsAreCredit(s, front);
      var mid := RecordAll(s, front);
      if o.c in mid.verifications {
        RecordTwice(mid, o);
      } else {
        RecordCredits(mid, o);
      }
    }
  }

  /** The protocol's steps that a sweep of these cases takes, in order. */
  function SweepSteps(captured: seq<CapturedCase>, lost: seq<CaseKey>, judgeAt: int): (steps: seq<Step>)
    ensures |steps| == |captured| + |lost|
    ensures forall i :: 0 <= i < |steps| ==>
              steps[i] == if i < |captured| then VerifyCaptured(captured[i].c, captured[i].action)
                          else VerifyLost(lost[i - |captured|], judgeAt)
  {
    seq(|captured|, i requires 0 <= i < |captured| => VerifyCaptured(captured[i].c, captured[i].action))
    + seq(|lost|, i requires 0 <= i < |lost| => VerifyLost(lost[i], judgeAt))
  }

  /** The sweep's queries: cases that a verify step is enabled for, each of them once. */
  ghost predicate Listed(judge: Judge, s: System, steps: seq<Step>) {
    && (forall i :: 0 <= i < |steps| ==>
          (steps[i].VerifyCaptured? || steps[i].VerifyLost?) && Enabled(judge, s, steps[i]))
    && forall i, j :: 0 <= i < j < |steps| ==> steps[i].c != steps[j].c
  }

  function OutcomeOf(judge: Judge, s: System, step: Step): Outcome
    requires (step.VerifyCaptured? || step.VerifyLost?) && Enabled(judge, s, step)
  {
    Outcome(step.c, if step.VerifyCaptured? then Credit(s, step.c, step.action) else LOSS)
  }

  function OutcomesOf(judge: Judge, s: System, steps: seq<Step>): (list: seq<Outcome>)
    requires Listed(judge, s, steps)
    ensures |list| == |steps| && forall i :: 0 <= i < |steps| ==> list[i] == OutcomeOf(judge, s, steps[i])
    ensures OnFile(s, list)
  {
    seq(|steps|, i requires 0 <= i < |steps| => OutcomeOf(judge, s, steps[i]))
  }

  /** They are the outcomes the sweep's loops record. */
  lemma SweepRecordsSteps(judge: Judge, s: System, captured: seq<CapturedCase>, lost: seq<CaseKey>, judgeAt: int)
    requires Listed(judge, s, SweepSteps(captured, lost, judgeAt))
    ensures AllCaptured(s, captured)
    ensures CapturedOutcomes(s, captured) + LostOutcomes(lost)
         == OutcomesOf(judge, s, SweepSteps(captured, lost, judgeAt))
  {
    hide Credit, RanOut, LatestSuccess;
    var steps := SweepSteps(captured, lost, judgeAt);
    forall i | 0 <= i < |captured|
      ensures IsCaptured(s, captured[i])
    {
      assert Enabled(judge, s, steps[i]);
      CaptureIsListed(judge, s, captured[i]);
    }
    forall i | 0 <= i < |steps|
      ensures (CapturedOutcomes(s, captured) + LostOutcomes(lost))[i] == OutcomesOf(judge, s, steps)[i]
    {
      assert Enabled(judge, s, steps[i]);
    }
  }

  lemma CaptureIsListed(judge: Judge, s: System, row: CapturedCase)
    requires Enabled(judge, s, VerifyCaptured(row.c, row.action))
    ensures IsCaptured(s, row)
  {
  }

  /** A verify step waits while verdicts on other cases are recorded, and then judges as it would have. */
  lemma VerifyStepWaits(judge: Judge, s: System, next: System, step: Step)
    requires (step.VerifyCaptured? || step.VerifyLost?) && Enabled(judge, s, step)
    requires SameRows(s, next) && next.decisions == s.decisions
    requires next.cases[step.c] == s.cases[step.c] && step.c !in next.verifications
    ensures Enabled(judge, next, step) && OutcomeOf(judge, next, step) == OutcomeOf(judge, s, step)
  {
  }

  /** Recording the outcome of a verify step is that step. */
  lemma RecordIsStep(judge: Judge, s: System, step: Step)
    requires (step.VerifyCaptured? || step.VerifyLost?) && Enabled(judge, s, step)
    ensures step.c in s.cases && RecordOne(s, OutcomeOf(judge, s, step)) == Apply(judge, s, step)
  {
  }

  /** What recording the first n outcomes leaves for the others. */
  ghost predicate OthersWait(s: System, next: System, steps: seq<Step>, n: nat)
    requires forall i :: 0 <= i < |steps| ==>
               (steps[i].VerifyCaptured? || steps[i].VerifyLost?) && steps[i].c in s.cases
  {
    && SameRows(s, next) && next.decisions == s.decisions
    && forall i :: n <= i < |steps| ==>
         next.cases[steps[i].c] == s.cases[steps[i].c] && steps[i].c !in next.verifications
  }

  lemma RecordOneElsewhere(s: System, o: Outcome)
    requires o.c in s.cases
    ensures var next := RecordOne(s, o);
            && SameRows(s, next) && next.decisions == s.decisions
            && forall c :: c in s.cases && c != o.c ==>
                 next.cases[c] == s.cases[c] && (c in next.verifications <==> c in s.verifications)
  {
  }

  lemma ListedOnFile(judge: Judge, s: System, steps: seq<Step>)
    requires Listed(judge, s, steps)
    ensures forall i :: 0 <= i < |steps| ==>
              && (steps[i].VerifyCaptured? || steps[i].VerifyLost?)
              && steps[i].c in s.cases && steps[i].c !in s.verifications
  {
  }

  /** A sweep of what its queries list is a run of verify steps, so it keeps the protocol's invariant. */
  lemma {:induction false} VerifyRunKeepsInv(judge: Judge, s: System, steps: seq<Step>, n: nat)
    requires Inv(judge, s) && Listed(judge, s, steps) && n <= |steps|
    ensures forall i :: 0 <= i < |steps| ==> (steps[i].VerifyCaptured? || steps[i].VerifyLost?) && steps[i].c in s.cases
    ensures OnFile(s, OutcomesOf(judge, s, steps)[..n])
    ensures var after := RecordAll(s, OutcomesOf(judge, s, steps)[..n]);
            Inv(judge, after) && OthersWait(s, after, steps, n)
  {
    hide Inv, Enabled, Apply, RecordOne, OutcomeOf, SameRows;
    ListedOnFile(judge, s, steps);
    var outcomes := OutcomesOf(judge, s, steps);
    if n == 0 {
      SameRowsAsItself(s);
    } else {
      VerifyRunKeepsInv(judge, s, steps, n - 1);
      var mid, step := RecordAll(s, outcomes[..n-1]), steps[n-1];
      assert outcomes[..n][..n-1] == outcomes[..n-1];
      VerifyStepWaits(judge, s, mid, step);
      RecordIsStep(judge, mid, step);
      StepKeepsInv(judge, mid, step);
      OutcomeIsOfCase(judge, s, step);
      RecordOneElsewhere(mid, outcomes[n-1]);
      SameRowsJoin(s, mid, RecordOne(mid, outcomes[n-1]));
    }
  }

  lemma OutcomeIsOfCase(judge: Judge, s: System, step: Step)
    requires (step.VerifyCaptured? || step.VerifyLost?) && Enabled(judge, s, step)
    ensures OutcomeOf(judge, s, step).c == step.c && step.c in s.cases
  {
  }

  lemma SameRowsAsItself(s: System)
    ensures SameRows(s, s)
  {
  }

  lemma SameRowsJoin(a: System, b: System, c: System)
    requires SameRows(a, b) && SameRows(b, c)
    ensures SameRows(a, c) && a.cases.Keys == b.cases.Keys == c.cases.Keys
  {
  }

  lemma RecordTwice(s: System, o: Outcome)
    requires o.c in s.cases && o.c in s.verifications
    ensures RecordOne(s, o) == s
  {
  }
}
