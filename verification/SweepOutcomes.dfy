/**
 * What the executor's and the verification sweep's turns leave behind, in milliseconds and paise:
 * the action rows, the verdicts and whom they credit, the sweep's totals, and what giving a case up
 * costs (apps/api/src/app/verify.ts:29-106, apps/api/src/domain/attribution.ts:36-86).
 */
module SweepOutcomes {
  import opened Wrappers
  import PaymentState
  import opened Execution
  import opened Executor
  import Policy
  import opened RecoveryProtocol
  import opened RecoveryGuarantees
  import opened RecoveryDesk

  // ---- One action ----

  /** An execution leaves one row for its decision, with a reference exactly on success, and moves an open case on. */
  lemma ExecuteLeaves(judge: Judge, s: System, d: nat, status: ActionStatus, acts: bool, reference: Option<Reference>,
                      at: int)
    requires Enabled(judge, s, Execute(d, status, acts, reference, at))
    ensures var after, c := Apply(judge, s, Execute(d, status, acts, reference, at)), s.decisions[d].caseKey;
            && after == s.(actions := after.actions, acted := after.acted, cases := after.cases)
            && after.actions.Keys == s.actions.Keys + {d}
            && (forall x :: x in s.actions ==> after.actions[x] == s.actions[x])
            && after.actions[d].caseKey == c && after.actions[d].status == status && after.actions[d].at == at
            && after.actions[d].reference == (if status == Succeeded then reference else None)
            && (forall x :: x in after.acted <==> x in s.acted || (x == d && acts))
            && after.cases.Keys == s.cases.Keys
            && forall x :: x in s.cases ==>
                 after.cases[x] == if x == c && s.cases[x].status == Open then s.cases[x].(status := Acting)
                                   else s.cases[x]
  {
    hide Reproduces;
  }

  /** Handing the loop decisions that have their action already sends nothing and counts each as replayed. */
  lemma {:induction false} RepeatedRunReplays(judge: Judge, s: System, ds: seq<nat>, answers: nat -> Answer, at: int)
    requires forall i :: 0 <= i < |ds| ==>
               && OnRecord(s, ds[i]) && Reproduces(judge, s.decisions[ds[i]]) && ds[i] in s.actions
               && answers(ds[i]).Left?
    ensures AllOnRecord(s, ds) && ExecuteAll(judge, s, ds, answers, at) == s
    ensures CountFates(judge, s, ds, answers, at) == ExecuteResult(|ds|, 0, 0, 0, |ds|, 0)
  {
    hide Reproduces;
    if ds != [] {
      RepeatedRunReplays(judge, s, ds[..|ds|-1], answers, at);
    }
  }

  // ---- One verdict ----

  /** What a capture is credited as, told by the gap between the action and the capture. */
  lemma CapturedMeans(s: System, row: CapturedCase)
    requires IsCaptured(s, row)
    ensures var p, v := s.payments[s.cases[row.c].payment], CapturedOutcome(s, row).verification;
            && CapturedOutcome(s, row).c == row.c && v.actual && v.recoveredPaise == p.amountPaise
            && (row.action.None? ==> v.attribution == Organic)
            && (row.action.Some? ==>
                  var a := s.actions[row.action.value];
                  var gap := p.capture.value.capturedAt - a.at;
                  && (v.attribution == Organic <==> gap < 0 || gap > 21_600_000)
                  && (v.attribution == Direct <==> 0 <= gap <= 1_800_000 && a.reference.Some?
                                                   && p.capture.value.reference == a.reference))
            && v.creditedPaise == (if v.attribution == Organic then 0 else p.amountPaise)
  {
    hide Attribute;
    if row.action.Some? {
      var a := s.actions[row.action.value];
      AttributionMeans(s.payments[s.cases[row.c].payment].capture.value, OurAction(a.at, a.reference));
    } else {
      AttributionMeans(s.payments[s.cases[row.c].payment].capture.value, OurAction(0, None));
    }
  }

  /** The action a capture is judged against is the successful one of the case, and there is at most one action. */
  lemma JudgedAgainstTheAction(judge: Judge, s: System, c: CaseKey, action: Option<nat>, d: nat)
    requires Inv(judge, s) && Enabled(judge, s, VerifyCaptured(c, action))
    requires d in s.actions && s.actions[d].caseKey == c
    ensures action == if s.actions[d].status == Succeeded then Some(d) else None
  {
    hide Inv;
    ActionHasCase(judge, s, d);
    if action.Some? {
      ActionHasCase(judge, s, action.value);
      AllowOnce(judge, s, d, action.value);
    }
  }

  /** No capture after `judgeAt`, under whatever reference, would be credited to an action of the case. */
  ghost predicate NothingToCome(s: System, c: CaseKey, judgeAt: int) {
    forall d, at, reference :: d in s.actions && s.actions[d].caseKey == c && at > judgeAt ==>
      Attribute(Capture(at, reference), Some(OurAction(s.actions[d].at, s.actions[d].reference))) == Organic
  }

  /**
   * Giving a case up forgoes nothing, and waiting longer gains nothing: once its actions are settled
   * a case under way can be judged lost exactly when no later capture could be credited to them.
   */
  lemma GivingUpForgoesNothing(judge: Judge, s: System, c: CaseKey, judgeAt: int)
    requires Inv(judge, s) && c in s.cases && s.cases[c].status == Acting && c !in s.verifications
    requires s.cases[c].payment in s.payments && s.payments[s.cases[c].payment].state != PaymentState.Captured
    requires exists d :: d in s.actions && s.actions[d].caseKey == c
    requires forall d :: d in s.actions && s.actions[d].caseKey == c ==> Settled(s.actions[d].status)
    ensures Enabled(judge, s, VerifyLost(c, judgeAt)) <==> NothingToCome(s, c, judgeAt)
  {
    hide Inv, Attribute;
    forall d, at, reference | d in s.actions && s.actions[d].caseKey == c && at > judgeAt
      ensures Attribute(Capture(at, reference), Some(OurAction(s.actions[d].at, s.actions[d].reference))) == Organic
         <==> at - s.actions[d].at < 0 || at - s.actions[d].at > 21_600_000
    {
      AttributionMeans(Capture(at, reference), OurAction(s.actions[d].at, s.actions[d].reference));
    }
    forall d | d in s.actions && s.actions[d].caseKey == c && NothingToCome(s, c, judgeAt)
      ensures s.actions[d].at <= judgeAt - ASSIST_WINDOW_MS
    {
      var at := if s.actions[d].at > judgeAt then s.actions[d].at else judgeAt + 1;
      assert Attribute(Capture(at, None), Some(OurAction(s.actions[d].at, s.actions[d].reference))) == Organic;
    }
  }

  /** A case left open has no action to credit; it is given up exactly when nothing was to be done, six hours on. */
  lemma UnactedCaseIsGivenUp(judge: Judge, s: System, c: CaseKey, judgeAt: int)
    requires Inv(judge, s) && OpenIn(s, c) && c !in s.verifications
    requires s.cases[c].payment in s.payments && s.payments[s.cases[c].payment].state != PaymentState.Captured
    ensures forall d :: d in s.actions ==> s.actions[d].caseKey != c
    ensures Enabled(judge, s, VerifyLost(c, judgeAt))
       <==> s.cases[c].strategy == Policy.DoNothing && judgeAt - s.cases[c].openedAt >= 21_600_000
  {
    hide DecisionsOk, VerificationsOk, CasesOk, PaymentsOk;
  }

  // ---- A whole sweep ----

  /** The first outcome about a case, if any. */
  function FirstOf(list: seq<Outcome>, c: CaseKey): Option<Verification> {
    if list == [] then None
    else if FirstOf(list[..|list|-1], c).Some? then FirstOf(list[..|list|-1], c)
    else if list[|list|-1].c == c then Some(list[|list|-1].verification) else None
  }

  /**
   * A verdict on record stands; a case without one gets the first the sweep has for it, and is closed
   * by it if it was live: recovered if the money came back, lost if not.
   */
  lemma {:induction false} FirstVerdictStands(s: System, list: seq<Outcome>, c: CaseKey)
    requires OnFile(s, list) && c in s.cases
    ensures var after, first := RecordAll(s, list), FirstOf(list, c);
            && after == s.(cases := after.cases, verifications := after.verifications)
            && (c in s.verifications ==> c in after.verifications && after.verifications[c] == s.verifications[c])
            && (c !in s.verifications ==>
                  && (c in after.verifications <==> first.Some?)
                  && (first.Some? ==> after.verifications[c] == first.value))
            && after.cases[c] == (if c !in s.verifications && first.Some? && Live(s.cases[c].status)
                                  then s.cases[c].(status := if first.value.actual then Recovered else Lost)
                                  else s.cases[c])
  {
    if list != [] {
      FirstVerdictStands(s, list[..|list|-1], c);
    }
  }

  type Verdicts = map<CaseKey, Verification>

  /** The cases that have got a verdict of some kind since. */
  ghost function NewVerdicts(before: Verdicts, after: Verdicts, kind: Verification -> bool): set<CaseKey> {
    set c | c in after && c !in before && kind(after[c])
  }

  lemma OneMoreVerdict(before: Verdicts, mid: Verdicts, c: CaseKey, v: Verification, kind: Verification -> bool)
    requires c !in mid && before.Keys <= mid.Keys
    ensures |NewVerdicts(before, mid[c := v], kind)| == |NewVerdicts(before, mid, kind)| + if kind(v) then 1 else 0
  {
    var some, more := NewVerdicts(before, mid, kind), NewVerdicts(before, mid[c := v], kind);
    assert c !in before && c !in some;
    if kind(v) {
      assert more == some + {c};
    } else {
      assert more == some;
    }
  }

  function IsLoss(): Verification -> bool { (v: Verification) => !v.actual }
  function IsGain(): Verification -> bool { (v: Verification) => v.actual }
  function IsBy(a: Attribution): Verification -> bool { (v: Verification) => v.actual && v.attribution == a }

  lemma {:induction false} RecordOnlyAdds(s: System, list: seq<Outcome>)
    requires OnFile(s, list)
    ensures s.verifications.Keys <= RecordAll(s, list).verifications.Keys
  {
    if list != [] {
      RecordOnlyAdds(s, list[..|list|-1]);
    }
  }

  /** Each counter of a sweep is the number of cases that got such a verdict in it. */
  ghost predicate CountsVerdicts(r: VerifyResult, before: Verdicts, after: Verdicts) {
    && r.lost == |NewVerdicts(before, after, IsLoss())| && r.recovered == |NewVerdicts(before, after, IsGain())|
    && r.direct == |NewVerdicts(before, after, IsBy(Direct))|
    && r.assisted == |NewVerdicts(before, after, IsBy(Assisted))|
    && r.organic == |NewVerdicts(before, after, IsBy(Organic))|
  }

  lemma CountedOneMore(r: VerifyResult, before: Verdicts, mid: Verdicts, o: Outcome)
    requires CountsVerdicts(r, before, mid) && o.c !in mid && before.Keys <= mid.Keys
    ensures CountsVerdicts(Counted(r, o), before, mid[o.c := o.verification])
  {
    hide NewVerdicts;
    OneMoreVerdict(before, mid, o.c, o.verification, IsLoss());
    OneMoreVerdict(before, mid, o.c, o.verification, IsGain());
    OneMoreVerdict(before, mid, o.c, o.verification, IsBy(Direct));
    OneMoreVerdict(before, mid, o.c, o.verification, IsBy(Assisted));
    OneMoreVerdict(before, mid, o.c, o.verification, IsBy(Organic));
  }

  lemma NoNewVerdicts(v: Verdicts, kind: Verification -> bool)
    ensures NewVerdicts(v, v, kind) == {}
  {
  }

  lemma NothingCounted(v: Verdicts)
    ensures CountsVerdicts(VerifyResult(0, 0, 0, 0, 0, 0, 0), v, v)
  {
    hide NewVerdicts;
    NoNewVerdicts(v, IsLoss());
    NoNewVerdicts(v, IsGain());
    NoNewVerdicts(v, IsBy(Direct));
    NoNewVerdicts(v, IsBy(Assisted));
    NoNewVerdicts(v, IsBy(Organic));
  }

  lemma {:induction false} CountsAreVerdicts(s: System, list: seq<Outcome>)
    requires OnFile(s, list)
    ensures CountsVerdicts(CountAll(s, list), s.verifications, RecordAll(s, list).verifications)
  {
    hide CountsVerdicts, Counted;
    if list == [] {
      NothingCounted(s.verifications);
    } else {
      var front, o := list[..|list|-1], list[|list|-1];
      CountsAreVerdicts(s, front);
      RecordOnlyAdds(s, front);
      if o.c !in RecordAll(s, front).verifications {
        CountedOneMore(CountAll(s, front), s.verifications, RecordAll(s, front).verifications, o);
      }
    }
  }

  /** The money of a verdict that came back without us, where the credit stands. */
  function OrganicMoney(v: Verdicts): Verdicts {
    map c | c in v ::
      v[c].(creditedPaise := if v[c].actual && v[c].attribution == Organic then v[c].recoveredPaise else 0)
  }

  /** What a sweep reports as organic is the money of the organic verdicts it added. */
  lemma {:induction false} OrganicIsMoney(s: System, list: seq<Outcome>)
    requires OnFile(s, list)
    ensures var before, after := OrganicMoney(s.verifications), OrganicMoney(RecordAll(s, list).verifications);
            CountAll(s, list).organicPaise == CreditOver(after.Keys, after) - CreditOver(before.Keys, before)
  {
    hide RecordOne;
    if list != [] {
      var front, o := list[..|list|-1], list[|list|-1];
      OrganicIsMoney(s, front);
      var mid := RecordAll(s, front);
      if o.c in mid.verifications {
        RecordTwice(mid, o);
      } else {
        OrganicOneMore(mid, o);
      }
    }
  }

  lemma OrganicOneMore(s: System, o: Outcome)
    requires o.c in s.cases && o.c !in s.verifications
    ensures var before, after := OrganicMoney(s.verifications), OrganicMoney(RecordOne(s, o).verifications);
            CreditOver(after.Keys, after)
            == CreditOver(before.Keys, before)
               + if o.verification.actual && o.verification.attribution == Organic then o.verification.recoveredPaise
                 else 0
  {
    var before, after := OrganicMoney(s.verifications), OrganicMoney(RecordOne(s, o).verifications);
    assert RecordOne(s, o).verifications == s.verifications[o.c := o.verification];
    CreditInsert(after.Keys, after, o.c);
    assert after.Keys - {o.c} == before.Keys;
    CreditFrame(before.Keys, after, before);
  }
}
