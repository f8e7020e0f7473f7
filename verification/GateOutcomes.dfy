/**
 * What a run of the policy gate does to the cases it judges, in the terms of the policy: who is
 * abandoned, who stays open, who is judged again and when (apps/api/src/app/policy.ts:92-179 and
 * the query for candidates, apps/api/src/db/queries.ts:975-1001).
 */
module GateOutcomes {
  import opened Wrappers
  import opened Executor
  import Policy
  import opened RecoveryProtocol
  import opened RecoveryGuarantees
  import opened RecoveryDesk

  // ---- The four ways a judgement can go ----

  predicate Refused(build: Builder, c: CaseKey) {
    build(c).Some? && !Policy.Eligible(build(c).value)
  }

  predicate PutOff(parse: Policy.DateParse, build: Builder, c: CaseKey) {
    build(c).Some? && Policy.Eligible(build(c).value) && !Policy.WithinCapacity(parse, build(c).value)
  }

  predicate Clears(parse: Policy.DateParse, build: Builder, c: CaseKey) {
    build(c).Some? && Policy.Eligible(build(c).value) && Policy.WithinCapacity(parse, build(c).value)
  }

  predicate AsksForSignature(parse: Policy.DateParse, build: Builder, c: CaseKey) {
    Clears(parse, build, c) && Policy.NeedsSignature(build(c).value)
  }

  /** A row that records the judgement of a case: refused for good, put off, signed for or allowed. */
  predicate Records(parse: Policy.DateParse, build: Builder, d: DecisionRow, c: CaseKey, at: int)
    requires build(c).Some?
  {
    && d.caseKey == c && d.at == at && d.resolves == None
    && d.input == build(c) && d.inputHash == Some(Policy.HashInput(build(c).value))
    && (d.verdict == Policy.Deny <==> Refused(build, c) || PutOff(parse, build, c))
    && (d.deferred <==> PutOff(parse, build, c))
    && (d.verdict == Policy.RequireApproval <==> AsksForSignature(parse, build, c))
  }

  lemma JudgementRecords(judge: Judge, parse: Policy.DateParse, build: Builder, c: CaseKey, at: int)
    requires IsPolicy(judge, parse) && build(c).Some?
    ensures Records(parse, build, Judgement(judge, c, build(c).value, at), c, at)
    ensures Judgement(judge, c, build(c).value, at).verdict == Policy.Allow
       <==> Clears(parse, build, c) && !AsksForSignature(parse, build, c)
  {
    hide Policy.HashInput, Policy.VerdictOf, Policy.Reasons, Policy.Eligible, Policy.WithinCapacity;
    hide Policy.NeedsSignature, Policy.IsDeferrable;
    Policy.VerdictMeans(parse, build(c).value);
  }

  // ---- A whole run ----

  /** A case as the run leaves it. */
  function AfterGate(s: System, cs: seq<CaseKey>, build: Builder, c: CaseKey): CaseRow
    requires c in s.cases
  {
    if c in cs && Refused(build, c) then s.cases[c].(status := AbandonedByPolicy) else s.cases[c]
  }

  /** The run abandons exactly the cases it refuses for good, and leaves everything else as it was. */
  ghost predicate AbandonsRefused(s: System, after: System, cs: seq<CaseKey>, build: Builder) {
    && after == s.(cases := after.cases, decisions := after.decisions)
    && after.cases.Keys == s.cases.Keys
    && forall c :: c in s.cases ==> after.cases[c] == AfterGate(s, cs, build, c)
  }

  /** The run adds one record for each case it judges, and no other. */
  ghost predicate RecordsEach(parse: Policy.DateParse, s: System, after: System, cs: seq<CaseKey>, build: Builder,
                              at: int)
  {
    && s.decisions <= after.decisions
    && (forall k :: |s.decisions| <= k < |after.decisions| ==>
          RecordsCase(parse, build, after.decisions[k], cs, at))
    && (forall c :: c in cs && build(c).Some? ==>
          exists k :: |s.decisions| <= k < |after.decisions| && after.decisions[k].caseKey == c)
    && (forall j, k :: |s.decisions| <= j < k < |after.decisions| ==>
          after.decisions[j].caseKey != after.decisions[k].caseKey)
  }

  predicate RecordsCase(parse: Policy.DateParse, build: Builder, d: DecisionRow, cs: seq<CaseKey>, at: int) {
    d.caseKey in cs && build(d.caseKey).Some? && Records(parse, build, d, d.caseKey, at)
  }

  lemma RefusedForGood(judge: Judge, parse: Policy.DateParse, build: Builder, c: CaseKey, at: int)
    requires IsPolicy(judge, parse) && build(c).Some?
    ensures var d := Judgement(judge, c, build(c).value, at);
            d.verdict == Policy.Deny && !d.deferred <==> Refused(build, c)
    ensures RecordsCase(parse, build, Judgement(judge, c, build(c).value, at), [c], at)
  {
    hide IsPolicy, Policy.Eligible, Policy.WithinCapacity;
    JudgementRecords(judge, parse, build, c, at);
  }

  /** One turn of the loop closes an open case that is refused for good, and no other. */
  lemma TurnAbandons(judge: Judge, parse: Policy.DateParse, s: System, c: CaseKey, build: Builder, at: int)
    requires IsPolicy(judge, parse) && OpenIn(s, c)
    ensures var after := GateOne(judge, s, c, build, at);
            && after == s.(cases := after.cases, decisions := after.decisions)
            && after.cases == if Refused(build, c) then s.cases[c := s.cases[c].(status := AbandonedByPolicy)]
                              else s.cases
  {
    hide IsPolicy, Judgement, Policy.Eligible;
    if build(c).Some? {
      RefusedForGood(judge, parse, build, c, at);
    }
  }

  lemma AbandonsOneMore(judge: Judge, parse: Policy.DateParse, s: System, mid: System, front: seq<CaseKey>, c: CaseKey,
                        build: Builder, at: int)
    requires IsPolicy(judge, parse) && AbandonsRefused(s, mid, front, build) && OpenIn(s, c) && c !in front
    ensures AbandonsRefused(s, GateOne(judge, mid, c, build, at), front + [c], build)
  {
    hide IsPolicy, GateOne, Refused;
    assert mid.cases[c] == s.cases[c];
    TurnAbandons(judge, parse, mid, c, build, at);
    forall x | x in s.cases
      ensures GateOne(judge, mid, c, build, at).cases[x] == AfterGate(s, front + [c], build, x)
    {
      assert mid.cases[x] == AfterGate(s, front, build, x);
    }
  }

  lemma RecordsOneMore(judge: Judge, parse: Policy.DateParse, s: System, mid: System, front: seq<CaseKey>, c: CaseKey,
                       build: Builder, at: int)
    requires IsPolicy(judge, parse) && RecordsEach(parse, s, mid, front, build, at) && c in mid.cases && c !in front
    ensures RecordsEach(parse, s, GateOne(judge, mid, c, build, at), front + [c], build, at)
  {
    hide IsPolicy, Records;
    var after := GateOne(judge, mid, c, build, at);
    if build(c).Some? {
      RefusedForGood(judge, parse, build, c, at);
      assert after.decisions[|mid.decisions|].caseKey == c;
    }
    forall k | |s.decisions| <= k < |after.decisions|
      ensures RecordsCase(parse, build, after.decisions[k], front + [c], at)
      ensures k < |mid.decisions| ==> after.decisions[k].caseKey in front
    {
      assert k < |mid.decisions| ==> RecordsCase(parse, build, mid.decisions[k], front, at);
    }
    forall x | x in front && build(x).Some?
      ensures exists k :: |s.decisions| <= k < |after.decisions| && after.decisions[k].caseKey == x
    {
      var k :| |s.decisions| <= k < |mid.decisions| && mid.decisions[k].caseKey == x;
      assert after.decisions[k] == mid.decisions[k];
    }
  }

  /**
   * A whole run: the cases refused for good are abandoned and every other one stays as it was, and
   * each case judged has one more record, of what the policy says about it.
   */
  lemma {:induction false} GateRunMeans(judge: Judge, parse: Policy.DateParse, s: System, cs: seq<CaseKey>,
                                        build: Builder, at: int)
    requires IsPolicy(judge, parse) && DistinctCases(cs) && forall c :: c in cs ==> OpenIn(s, c)
    ensures forall c :: c in cs ==> c in s.cases
    ensures AbandonsRefused(s, GateAll(judge, s, cs, build, at), cs, build)
    ensures RecordsEach(parse, s, GateAll(judge, s, cs, build, at), cs, build, at)
  {
    hide IsPolicy, AbandonsRefused, RecordsEach, GateOne;
    if cs == [] {
      NothingJudged(parse, s, build, at);
    } else {
      var front, c := cs[..|cs|-1], cs[|cs|-1];
      GateRunMeans(judge, parse, s, front, build, at);
      var mid := GateAll(judge, s, front, build, at);
      AbandonsOneMore(judge, parse, s, mid, front, c, build, at);
      RecordsOneMore(judge, parse, s, mid, front, c, build, at);
      assert front + [c] == cs;
    }
  }

  lemma NothingJudged(parse: Policy.DateParse, s: System, build: Builder, at: int)
    ensures AbandonsRefused(s, s, [], build) && RecordsEach(parse, s, s, [], build, at)
  {
  }

  /**
   * A candidate the run has judged is abandoned exactly when the policy finds it not eligible, and
   * can be judged again exactly when it was put off, from one hour on.
   */
  lemma JudgedAgain(judge: Judge, parse: Policy.DateParse, s: System, cs: seq<CaseKey>, build: Builder, at: int,
                    c: CaseKey, later: int)
    requires IsPolicy(judge, parse) && DistinctCases(cs) && forall x :: x in cs ==> Candidate(s, x, at, build)
    requires c in cs && build(c).Some?
    ensures forall x :: x in cs ==> x in s.cases
    ensures var after, i := GateAll(judge, s, cs, build, at), build(c).value;
            && c in after.cases
            && (after.cases[c].status == AbandonedByPolicy <==> !Policy.Eligible(i))
            && (after.cases[c].status == Open <==> Policy.Eligible(i))
            && (Enabled(judge, after, Gate(c, i, later)) <==>
                Policy.Eligible(i) && !Policy.WithinCapacity(parse, i) && later >= at + 3_600_000)
  {
    hide IsPolicy, Policy.Eligible, Policy.WithinCapacity, GateAll, Undecided, Policy.ActionKindFor;
    GateRunMeans(judge, parse, s, cs, build, at);
    var after := GateAll(judge, s, cs, build, at);
    assert AfterGate(s, cs, build, c) == after.cases[c];
    UndecidedAgain(parse, s, after, cs, build, at, c, later);
    assert after.payments == s.payments && after.proposed == s.proposed;
  }

  /** Once judged, a case is undecided again exactly when it was put off an hour ago. */
  lemma UndecidedAgain(parse: Policy.DateParse, s: System, after: System, cs: seq<CaseKey>, build: Builder, at: int,
                       c: CaseKey, later: int)
    requires RecordsEach(parse, s, after, cs, build, at) && Undecided(s, c, at) && c in cs && build(c).Some?
    ensures Undecided(after, c, later) <==> PutOff(parse, build, c) && later >= at + 3_600_000
  {
    hide PutOff, Refused, Clears;
    var k :| |s.decisions| <= k < |after.decisions| && after.decisions[k].caseKey == c;
    assert RecordsCase(parse, build, after.decisions[k], cs, at);
    if PutOff(parse, build, c) && later >= at + 3_600_000 {
      forall j | 0 <= j < |after.decisions| && after.decisions[j].caseKey == c
        ensures after.decisions[j].deferred && after.decisions[j].at <= later - DEFERRAL_MS
      {
        assert j < |s.decisions| ==> after.decisions[j] == s.decisions[j];
      }
    }
  }

  // ---- The counters ----

  function HowMany(cs: seq<CaseKey>, p: CaseKey -> bool): nat {
    if cs == [] then 0 else HowMany(cs[..|cs|-1], p) + if p(cs[|cs|-1]) then 1 else 0
  }

  /** Each counter of a gate run is the number of cases that went that way. */
  lemma {:induction false} TallyMeans(judge: Judge, parse: Policy.DateParse, cs: seq<CaseKey>, build: Builder, at: int)
    requires IsPolicy(judge, parse)
    ensures var r := TallyAll(judge, cs, build, at);
            && r.deny == HowMany(cs, c => Refused(build, c)) + r.deferred
            && r.deferred == HowMany(cs, c => PutOff(parse, build, c))
            && r.requireApproval == HowMany(cs, c => AsksForSignature(parse, build, c))
            && r.allow == HowMany(cs, c => Clears(parse, build, c) && !AsksForSignature(parse, build, c))
            && r.evaluated == r.allow + r.deny + r.requireApproval
  {
    hide IsPolicy, Policy.Eligible, Policy.WithinCapacity, Judgement;
    if cs != [] {
      TallyMeans(judge, parse, cs[..|cs|-1], build, at);
      if build(cs[|cs|-1]).Some? {
        JudgementRecords(judge, parse, build, cs[|cs|-1], at);
      }
    }
  }

  // ---- A signature, and a rejection ----

  /**
   * What a signature on the pending request `k` comes to: a case the policy finds not eligible is
   * abandoned, one without room is put off with the request still pending, and any other is allowed.
   */
  lemma SignatureMeans(judge: Judge, parse: Policy.DateParse, s: System, c: CaseKey, k: nat, build: Builder, at: int)
    requires IsPolicy(judge, parse) && OpenIn(s, c) && build(c).Some? && Pending(s, c, k)
    ensures var after := Persist(s, c, HumanJudgement(judge, c, k, build(c).value, at));
            && after == s.(cases := after.cases, decisions := after.decisions)
            && after.cases == (if Refused(build, c) then s.cases[c := s.cases[c].(status := AbandonedByPolicy)]
                               else s.cases)
            && |after.decisions| == |s.decisions| + 1 && s.decisions <= after.decisions
            && var d := after.decisions[|s.decisions|];
               && d.caseKey == c && d.at == at && d.input == build(c)
               && d.inputHash == Some(Policy.HashInput(build(c).value))
               && (d.deferred <==> PutOff(parse, build, c))
               && d.verdict == (if Clears(parse, build, c) then Policy.Allow else Policy.Deny)
               && d.resolves == (if Clears(parse, build, c) then Some(k) else None)
               && (OpenIn(after, c) && Pending(after, c, k) <==> PutOff(parse, build, c))
  {
    hide IsPolicy, Policy.Eligible, Policy.WithinCapacity;
    JudgementRecords(judge, parse, build, c, at);
    RefusedForGood(judge, parse, build, c, at);
    hide Judgement;
  }

  /** A rejected case is abandoned, and no judge, signature or verification can follow. */
  lemma RejectMeans(judge: Judge, s: System, c: CaseKey, at: int)
    requires c in s.cases && Live(s.cases[c].status)
    ensures var after := Reject(s, c, at);
            && after == s.(cases := s.cases[c := s.cases[c].(status := AbandonedByPolicy)],
                           decisions := after.decisions)
            && |after.decisions| == |s.decisions| + 1 && s.decisions <= after.decisions
            && after.decisions[|s.decisions|].caseKey == c && after.decisions[|s.decisions|].verdict == Policy.Deny
            && (forall i, t :: !Enabled(judge, after, Gate(c, i, t)))
            && (forall k, i, t :: !Enabled(judge, after, ApproveCase(c, k, i, t)))
            && (forall a :: !Enabled(judge, after, VerifyCaptured(c, a)))
            && (forall t :: !Enabled(judge, after, VerifyLost(c, t)) && !Enabled(judge, after, RejectCase(c, t)))
  {
  }
}
