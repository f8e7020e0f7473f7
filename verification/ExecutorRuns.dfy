/**
 * Any number of executors at once, on any decisions, against one action table and one
 * gateway: every await of apps/api/src/app/executor.ts is a step boundary, the gateway's
 * own check-then-act included, and an executor may crash at any of them.
 */
module ExecutorRuns {
  import opened Wrappers
  import opened Execution
  import opened Gateway
  import opened Executor

  /** Where an executor stands; `n` is the number of the current attempt. */
  datatype Phase =
    | Starting
    | Marking(n: nat)
    | Calling(n: nat)
    | InCall(n: nat, late: bool, settle: real)
    | Back(n: nat, outcome: CallOutcome)
    | Finishing(verdict: Verdict)
    | Done(verdict: Verdict)
    | Replayed

  datatype Process = Process(approved: Approved, phase: Phase, alive: bool)
  {
    function Key(): Key { approved.request.key }

    /** Between its own reservation and its own completion, or after it. */
    predicate Owns() { !phase.Starting? && !phase.Replayed? }
  }

  /**
   * `owner`, `calls` and `acted` record the run: who reserved a key, how often it was sent, and each
   * time its events went into the log, whether the gateway learned of it or not.
   */
  datatype System = System(
    store: Tables,
    gateway: State,
    procs: map<nat, Process>,
    owner: map<Key, nat>,
    calls: map<Key, nat>,
    acted: seq<Key>)

  datatype Step =
    | Spawn(e: nat, approved: Approved)
    | Advance(e: nat)
    | Act(e: nat, world: World)
    | Crash(e: nat)
    | Inject(fault: Fault)

  predicate Enabled(s: System, step: Step) {
    match step
    case Spawn(e, _) => e !in s.procs
    case Advance(e) => e in s.procs && s.procs[e].alive
                       && !s.procs[e].phase.InCall? && !s.procs[e].phase.Done? && !s.procs[e].phase.Replayed?
    // The gateway is another system: it finishes a call whether or not its caller still lives.
    case Act(e, _) => e in s.procs && s.procs[e].phase.InCall?
    case Crash(e) => e in s.procs
    case Inject(_) => true
  }

  function Calls(s: System, k: Key): nat {
    if k in s.calls then s.calls[k] else 0
  }

  function SetPhase(s: System, e: nat, phase: Phase): map<nat, Process>
    requires e in s.procs
  {
    s.procs[e := s.procs[e].(phase := phase)]
  }

  function AdvanceReserve(s: System, e: nat): System
    requires e in s.procs
  {
    var a := s.procs[e].approved;
    var (store, isNew) := Reserve(s.store, a);
    if !isNew then s.(procs := SetPhase(s, e, Replayed))
    else s.(store := store, owner := s.owner[a.request.key := e],
            procs := SetPhase(s, e, if a.request.kind == Escalate
                                    then Finishing(Verdict(Escalated, 0, None, Some(NeedsHuman), false))
                                    else Marking(1)))
  }

  function UpdateRow(s: System, k: Key, row: ActionRow): Tables {
    s.store.(actions := s.store.actions[k := row])
  }

  function AdvanceMark(s: System, e: nat, n: nat): System
    requires e in s.procs && s.procs[e].Key() in s.store.actions
  {
    var k := s.procs[e].Key();
    s.(store := UpdateRow(s, k, s.store.actions[k].(status := Sent, attempts := n)),
       procs := SetPhase(s, e, Calling(n)))
  }

  function AdvanceCall(s: System, seeded: Seeded, e: nat, n: nat): System
    requires e in s.procs
  {
    var k := s.procs[e].Key();
    var (after, admission) := Admit(s.gateway, seeded, s.procs[e].approved.request);
    s.(gateway := after, calls := s.calls[k := Calls(s, k) + 1],
       procs := SetPhase(s, e, match admission
                               case Decided(outcome) => Back(n, outcome)
                               case WillAct(late, settle) => InCall(n, late, settle)))
  }

  function AdvanceJudge(s: System, e: nat, n: nat, outcome: CallOutcome): System
    requires e in s.procs
  {
    s.(procs := SetPhase(s, e, match Judge(outcome, Remembered(s.gateway, s.procs[e].Key()), n)
                               case Again => Marking(n + 1)
                               case Over(v) => Finishing(v)))
  }

  function AdvanceFinish(s: System, e: nat, v: Verdict): System
    requires e in s.procs && s.procs[e].Key() in s.store.actions
  {
    var k := s.procs[e].Key();
    s.(store := UpdateRow(s, k, Completed(s.store.actions[k], v, s.procs[e].approved.request.now)),
       procs := SetPhase(s, e, Done(v)))
  }

  /** The gateway reaches the payment; a key is recorded as acted each time its events commit. */
  function FinishCall(s: System, e: nat, world: World): System
    requires e in s.procs && s.procs[e].phase.InCall? && 0.0 <= s.procs[e].phase.settle < 1.0
  {
    var p := s.procs[e];
    var (after, outcome) := Effect(s.gateway, p.approved.request, world, p.phase.settle);
    s.(gateway := after, procs := SetPhase(s, e, Back(p.phase.n, Reported(p.phase.late, outcome))),
       acted := if Reaches(p.approved.request, world) || Slips(p.approved.request, world) then s.acted + [p.Key()]
                else s.acted)
  }

  function AdvanceOne(s: System, seeded: Seeded, e: nat): System
    requires Enabled(s, Advance(e)) && (s.procs[e].Owns() ==> s.procs[e].Key() in s.store.actions)
  {
    match s.procs[e].phase
    case Starting => AdvanceReserve(s, e)
    case Marking(n) => AdvanceMark(s, e, n)
    case Calling(n) => AdvanceCall(s, seeded, e, n)
    case Back(n, outcome) => AdvanceJudge(s, e, n, outcome)
    case Finishing(v) => AdvanceFinish(s, e, v)
  }

  ghost predicate Follows(s: System, seeded: Seeded, step: Step, next: System)
    requires Uniform(seeded)
  {
    && Enabled(s, step)
    && match step
       case Spawn(e, a) => next == s.(procs := s.procs[e := Process(a, Starting, true)])
       case Advance(e) =>
         && (s.procs[e].Owns() ==> s.procs[e].Key() in s.store.actions)
         && next == AdvanceOne(s, seeded, e)
       case Act(e, world) =>
         && 0.0 <= s.procs[e].phase.settle < 1.0
         && next == FinishCall(s, e, world)
       case Crash(e) => next == s.(procs := s.procs[e := s.procs[e].(alive := false)])
       case Inject(fault) => next == s.(gateway := s.gateway.(queued := s.gateway.queued + [fault]))
  }

  // ---- The invariant, key by key ----

  /** What the owner's phase says about the gateway and about its own row. */
  ghost predicate PhaseOk(phase: Phase, row: ActionRow, memory: Option<GatewayResult>, calls: nat, acted: bool) {
    (memory.Some? ==> acted) &&
    match phase
    case Starting => false
    case Replayed => false
    case Marking(n) => 1 <= n <= MAX_ATTEMPTS && calls == n - 1 && !acted && row.status in {Reserved, Sent}
    case Calling(n) => 1 <= n <= MAX_ATTEMPTS && calls == n - 1 && !acted && row.status == Sent
    case InCall(n, late, settle) =>
      && 1 <= n <= MAX_ATTEMPTS && calls == n && !acted && row.status == Sent && 0.0 <= settle < 1.0
    case Back(n, outcome) =>
      && 1 <= n <= MAX_ATTEMPTS && calls == n && row.status == Sent
      && (outcome.Answered? ==> memory == Some(outcome.result))
      && (outcome.Threw? ==> memory == None)
      && (acted && memory == None ==> outcome == Threw(None))
    case Finishing(v) => VerdictOk(v, memory, calls, acted) && row.status in {Reserved, Sent}
    case Done(v) =>
      && VerdictOk(v, memory, calls, acted)
      && row.status == v.status && row.attempts == v.attempts && row.errorClass == v.errorClass
      && row.reference == (if v.result.Some? then Some(v.result.value.reference) else None)
  }

  /** SUCCEEDED exactly when the gateway remembers the key; what slipped past it goes to a person. */
  ghost predicate VerdictOk(v: Verdict, memory: Option<GatewayResult>, calls: nat, acted: bool) {
    && v.status in {Succeeded, Failed, Escalated}
    && v.attempts == calls <= MAX_ATTEMPTS
    && (v.status == Succeeded <==> memory.Some?)
    && v.result == memory
    && (acted && memory == None ==> v.status == Escalated && v.errorClass == Some(NeedsHuman))
  }

  ghost predicate KeyOk(s: System, k: Key) {
    if k !in s.store.actions then k !in s.owner && Remembered(s.gateway, k) == None && Calls(s, k) == 0 && k !in s.acted
    else
      && k in s.owner && s.owner[k] in s.procs && s.procs[s.owner[k]].Key() == k
      && PhaseOk(s.procs[s.owner[k]].phase, s.store.actions[k], Remembered(s.gateway, k), Calls(s, k), k in s.acted)
  }

  /** Only the executor that reserved a key works on it. */
  ghost predicate ProcOk(s: System, e: nat)
    requires e in s.procs
  {
    s.procs[e].Owns() ==>
      s.procs[e].Key() in s.store.actions && s.procs[e].Key() in s.owner && s.owner[s.procs[e].Key()] == e
  }

  ghost predicate NoRepeat(s: seq<Key>) {
    forall i, j :: 0 <= i < j < |s| ==> s[i] != s[j]
  }

  ghost predicate Inv(s: System) {
    && (forall k :: KeyOk(s, k))
    && (forall e :: e in s.procs ==> ProcOk(s, e))
    && NoRepeat(s.acted)
  }

  ghost predicate Initial(s: System) {
    && s.store.actions == map[] && s.gateway.memory == map[]
    && s.procs == map[] && s.owner == map[] && s.calls == map[] && s.acted == []
  }

  ghost predicate IsRun(seeded: Seeded, states: seq<System>, steps: seq<Step>)
    requires Uniform(seeded)
  {
    && |states| == |steps| + 1 && Initial(states[0])
    && forall i :: 0 <= i < |steps| ==> Follows(states[i], seeded, steps[i], states[i+1])
  }

  // ---- Each step keeps it ----

  /**
   * A step of the executor that owns `k` disturbs no other key, nor any other executor.
   */
  lemma OwnerStepKeepsInv(s: System, next: System, e: nat, k: Key)
    requires Inv(s) && e in s.procs && s.procs[e].Key() == k && next.procs.Keys == s.procs.Keys
    requires forall x :: x in s.procs && x != e ==> next.procs[x] == s.procs[x]
    requires next.procs[e].Key() == k && next.procs[e].Owns()
    requires forall x :: x != k ==>
               && (x in next.store.actions <==> x in s.store.actions)
               && (x in s.store.actions ==> next.store.actions[x] == s.store.actions[x])
               && (x in next.owner <==> x in s.owner) && (x in s.owner ==> next.owner[x] == s.owner[x])
               && Remembered(next.gateway, x) == Remembered(s.gateway, x) && Calls(next, x) == Calls(s, x)
               && (x in next.acted <==> x in s.acted)
    requires k in next.store.actions && k in next.owner && next.owner[k] == e
    requires s.procs[e].Owns() || k !in s.store.actions
    requires KeyOk(next, k)
    requires NoRepeat(next.acted)
    ensures Inv(next)
  {
    forall x
      ensures KeyOk(next, x)
    {
      assert KeyOk(s, x);
      assert ProcOk(s, e);
    }
    forall x | x in next.procs
      ensures ProcOk(next, x)
    {
      assert ProcOk(s, x);
    }
  }

  lemma ReserveKeepsInv(s: System, e: nat)
    requires Inv(s) && e in s.procs && s.procs[e].phase.Starting?
    ensures Inv(AdvanceReserve(s, e))
  {
    var next, k := AdvanceReserve(s, e), s.procs[e].Key();
    assert KeyOk(s, k);
    if k in s.store.actions {
      BystanderKeepsInv(s, next, e);
    } else {
      OwnerStepKeepsInv(s, next, e, k);
    }
  }

  /** A change of an executor that owns nothing, before and after. */
  lemma BystanderKeepsInv(s: System, next: System, e: nat)
    requires Inv(s) && e in next.procs && next == s.(procs := s.procs[e := next.procs[e]])
    requires !next.procs[e].Owns() && (e in s.procs ==> !s.procs[e].Owns())
    ensures Inv(next)
  {
    forall x
      ensures KeyOk(next, x)
    {
      assert KeyOk(s, x);
    }
    forall x | x in next.procs
      ensures ProcOk(next, x)
    {
      assert x != e ==> ProcOk(s, x);
    }
  }

  lemma MarkKeepsInv(s: System, e: nat, n: nat)
    requires Inv(s) && e in s.procs && s.procs[e].phase == Marking(n) && s.procs[e].Key() in s.store.actions
    ensures Inv(AdvanceMark(s, e, n))
  {
    assert ProcOk(s, e) && KeyOk(s, s.procs[e].Key());
    OwnerStepKeepsInv(s, AdvanceMark(s, e, n), e, s.procs[e].Key());
  }

  lemma CallKeepsInv(s: System, seeded: Seeded, e: nat, n: nat)
    requires Uniform(seeded) && Inv(s) && e in s.procs && s.procs[e].phase == Calling(n)
    ensures Inv(AdvanceCall(s, seeded, e, n))
  {
    hide Admit, Reaches;
    assert ProcOk(s, e) && KeyOk(s, s.procs[e].Key());
    AdmitMeans(s.gateway, seeded, s.procs[e].approved.request);
    var next, k := AdvanceCall(s, seeded, e, n), s.procs[e].Key();
    var admission := Admit(s.gateway, seeded, s.procs[e].approved.request).1;
    assert admission.Decided? ==> next.procs[e].phase == Back(n, admission.outcome);
    assert admission.WillAct? ==> next.procs[e].phase == InCall(n, admission.late, admission.settle);
    assert PhaseOk(next.procs[e].phase, next.store.actions[k], Remembered(next.gateway, k), Calls(next, k),
                   k in next.acted);
    OwnerStepKeepsInv(s, next, e, k);
  }

  lemma JudgeKeepsInv(s: System, e: nat, n: nat, outcome: CallOutcome)
    requires Inv(s) && e in s.procs && s.procs[e].phase == Back(n, outcome)
    ensures Inv(AdvanceJudge(s, e, n, outcome))
  {
    assert ProcOk(s, e) && KeyOk(s, s.procs[e].Key());
    OwnerStepKeepsInv(s, AdvanceJudge(s, e, n, outcome), e, s.procs[e].Key());
  }

  lemma FinishKeepsInv(s: System, e: nat, v: Verdict)
    requires Inv(s) && e in s.procs && s.procs[e].phase == Finishing(v) && s.procs[e].Key() in s.store.actions
    ensures Inv(AdvanceFinish(s, e, v))
  {
    assert ProcOk(s, e) && KeyOk(s, s.procs[e].Key());
    OwnerStepKeepsInv(s, AdvanceFinish(s, e, v), e, s.procs[e].Key());
  }

  /** The effect of a call in flight is the first one of its key: nobody else can be calling under it. */
  lemma ActKeepsInv(s: System, e: nat, world: World)
    requires Inv(s) && e in s.procs && s.procs[e].phase.InCall? && 0.0 <= s.procs[e].phase.settle < 1.0
    ensures Inv(FinishCall(s, e, world))
  {
    hide Effect, Routed, ResultFor, EventsFor, Recovers;
    var p := s.procs[e];
    var next := FinishCall(s, e, world);
    assert ProcOk(s, e) && KeyOk(s, p.Key());
    EffectMeans(s.gateway, p.approved.request, world, p.phase.settle);
    assert p.Key() !in s.acted;
    OwnerStepKeepsInv(s, next, e, p.Key());
  }

  lemma CrashKeepsInv(s: System, e: nat)
    requires Inv(s) && e in s.procs
    ensures Inv(s.(procs := s.procs[e := s.procs[e].(alive := false)]))
  {
    var next := s.(procs := s.procs[e := s.procs[e].(alive := false)]);
    forall x
      ensures KeyOk(next, x)
    {
      assert KeyOk(s, x);
    }
    forall x | x in next.procs
      ensures ProcOk(next, x)
    {
      assert ProcOk(s, x);
    }
  }

  lemma InjectKeepsInv(s: System, fault: Fault)
    requires Inv(s)
    ensures Inv(s.(gateway := s.gateway.(queued := s.gateway.queued + [fault])))
  {
    var next := s.(gateway := s.gateway.(queued := s.gateway.queued + [fault]));
    forall x
      ensures KeyOk(next, x)
    {
      assert KeyOk(s, x);
    }
    forall x | x in next.procs
      ensures ProcOk(next, x)
    {
      assert ProcOk(s, x);
    }
  }

  lemma StepKeepsInv(s: System, seeded: Seeded, step: Step, next: System)
    requires Uniform(seeded) && Inv(s) && Follows(s, seeded, step, next)
    ensures Inv(next)
  {
    hide AdvanceReserve, AdvanceMark, AdvanceCall, AdvanceJudge, AdvanceFinish, FinishCall, Inv;
    match step
    case Spawn(e, a) => SpawnKeepsInv(s, e, a);
    case Advance(e) =>
      match s.procs[e].phase {
        case Starting => ReserveKeepsInv(s, e);
        case Marking(n) => MarkKeepsInv(s, e, n);
        case Calling(n) => CallKeepsInv(s, seeded, e, n);
        case Back(n, outcome) => JudgeKeepsInv(s, e, n, outcome);
        case Finishing(v) => FinishKeepsInv(s, e, v);
      }
    case Act(e, world) => ActKeepsInv(s, e, world);
    case Crash(e) => CrashKeepsInv(s, e);
    case Inject(fault) => InjectKeepsInv(s, fault);
  }

  lemma SpawnKeepsInv(s: System, e: nat, a: Approved)
    requires Inv(s) && e !in s.procs
    ensures Inv(s.(procs := s.procs[e := Process(a, Starting, true)]))
  {
    BystanderKeepsInv(s, s.(procs := s.procs[e := Process(a, Starting, true)]), e);
  }

  lemma {:induction false} EveryRunKeepsInv(seeded: Seeded, states: seq<System>, steps: seq<Step>, n: nat)
    requires Uniform(seeded) && IsRun(seeded, states, steps) && n < |states|
    ensures Inv(states[n])
  {
    if n == 0 {
      assert forall k :: KeyOk(states[0], k);
    } else {
      EveryRunKeepsInv(seeded, states, steps, n - 1);
      StepKeepsInv(states[n-1], seeded, steps[n-1], states[n]);
    }
  }

  /**
   * Never twice on one key. In any state of any run a key has at most one action row, was sent
   * at most three times and acted at most once, events that slipped past the gateway included; a
   * completed row says SUCCEEDED exactly when the gateway remembers having acted, and carries the
   * gateway's own reference; if the key acted and it does not remember, the row is with a person;
   * and every executor that came second sent nothing.
   */
  lemma NeverTwice(seeded: Seeded, states: seq<System>, steps: seq<Step>, n: nat, k: Key)
    requires Uniform(seeded) && IsRun(seeded, states, steps) && n < |states|
    ensures var s := states[n];
            && Calls(s, k) <= MAX_ATTEMPTS
            && multiset(s.acted)[k] == (if k in s.acted then 1 else 0)
            && (k in s.gateway.memory ==> k in s.acted) && (k in s.acted ==> k in s.store.actions)
            && (k in s.store.actions && s.store.actions[k].status in {Succeeded, Failed, Escalated} ==>
                  var row := s.store.actions[k];
                  && (row.status == Succeeded <==> k in s.gateway.memory)
                  && (k in s.acted && k !in s.gateway.memory ==>
                        row.status == Escalated && row.errorClass == Some(NeedsHuman))
                  && row.attempts == Calls(s, k)
                  && row.reference == (if k in s.gateway.memory then Some(s.gateway.memory[k].reference) else None))
            && (forall e, f :: e in s.procs && f in s.procs && e != f && s.procs[e].Key() == s.procs[f].Key() ==>
                  !s.procs[e].Owns() || !s.procs[f].Owns())
  {
    EveryRunKeepsInv(seeded, states, steps, n);
    var s := states[n];
    assert KeyOk(s, k);
    AtMostOnce(s.acted, k);
    forall e, f | e in s.procs && f in s.procs && e != f && s.procs[e].Key() == s.procs[f].Key()
      ensures !s.procs[e].Owns() || !s.procs[f].Owns()
    {
      assert ProcOk(s, e) && ProcOk(s, f);
    }
  }

  lemma {:induction false} AtMostOnce(s: seq<Key>, k: Key)
    requires NoRepeat(s)
    ensures multiset(s)[k] == (if k in s then 1 else 0)
  {
    if s != [] {
      assert s == s[..|s|-1] + [s[|s|-1]];
      AtMostOnce(s[..|s|-1], k);
    }
  }
}
