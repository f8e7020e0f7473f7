/**
 * The executor (apps/api/src/app/executor.ts) and the action rows it keeps
 * (apps/api/src/db/queries.ts): reserve the key, call with bounded retries,
 * reconcile timeouts by reference, complete.
 */
module Executor {
  import opened Wrappers
  import opened Execution
  import opened Gateway

  datatype ActionStatus = Reserved | Sent | Succeeded | Failed | Escalated

  datatype CaseId = CaseId(text: string)

  datatype CaseStatus = Open | Acting | Recovered | Lost | AbandonedByPolicy

  /** One row of recovery_actions; the table is keyed by the idempotency key. */
  datatype ActionRow = ActionRow(
    caseId: CaseId,
    kind: ActionKind,
    status: ActionStatus,
    attempts: nat,
    costPaise: int,
    reference: Option<Reference>,
    errorClass: Option<ErrorClass>,
    createdAt: int,
    completedAt: Option<int>)

  datatype Tables = Tables(actions: map<Key, ActionRow>, cases: map<CaseId, CaseStatus>)

  /** An approved action, as the executor is given it. */
  datatype Approved = Approved(caseId: CaseId, costPaise: int, request: Request)

  function NewAction(a: Approved): ActionRow {
    ActionRow(a.caseId, a.request.kind, Reserved, 0, a.costPaise, None, None, a.request.now, None)
  }

  /** INSERT ... ON CONFLICT DO NOTHING; a fresh row also moves an open case to ACTING. */
  function Reserve(t: Tables, a: Approved): (Tables, bool) {
    if a.request.key in t.actions then (t, false)
    else
      (Tables(t.actions[a.request.key := NewAction(a)],
              if a.caseId in t.cases && t.cases[a.caseId] == Open then t.cases[a.caseId := Acting] else t.cases),
       true)
  }

  /** How the loop ends: what `finish` is told. */
  datatype Verdict = Verdict(
    status: ActionStatus,
    attempts: nat,
    result: Option<GatewayResult>,
    errorClass: Option<ErrorClass>,
    reconciled: bool)

  function Completed(row: ActionRow, v: Verdict, at: int): ActionRow {
    row.(status := v.status, attempts := v.attempts, errorClass := v.errorClass, completedAt := Some(at),
         reference := if v.result.Some? then Some(v.result.value.reference) else None)
  }

  /** The row of an action that came to the verdict `v`. */
  predicate RowTells(row: ActionRow, a: Approved, v: Verdict) {
    && row.caseId == a.caseId && row.kind == a.request.kind && row.costPaise == a.costPaise
    && row.status == v.status && row.attempts == v.attempts && row.errorClass == v.errorClass
    && row.createdAt == a.request.now && row.completedAt == Some(a.request.now)
    && (v.result.Some? ==> row.reference == Some(v.result.value.reference))
    && (v.result.None? ==> row.reference == None)
  }

  /** What one attempt leads to: another attempt, or the end. */
  datatype Turn = Again | Over(verdict: Verdict)

  /**
   * A timeout is never retried blind: `found` is what the gateway answers for our reference.
   * Everything else is judged by its class alone.
   */
  function Judge(outcome: CallOutcome, found: Option<GatewayResult>, attempt: nat): Turn {
    if outcome.Answered? then Over(Verdict(Succeeded, attempt, Some(outcome.result), None, false))
    else if outcome.TimedOut? && found.Some? then Over(Verdict(Succeeded, attempt, found, None, true))
    else
      var cls := if outcome.TimedOut? then Retryable else Classify(outcome.cls);
      match NextStep(cls, attempt)
      case Retry => Again
      case Fail => Over(Verdict(Failed, attempt, None, Some(Terminal), false))
      case EscalateNow => Over(Verdict(Escalated, attempt, None, Some(cls), false))
  }

  function Remembered(g: State, key: Key): Option<GatewayResult> {
    if key in g.memory then Some(g.memory[key]) else None
  }

  /** One attempt: the call, and the question asked after a timeout. */
  function Try(g: State, seeded: Seeded, r: Request, w: World, attempt: nat): (State, Turn)
    requires Uniform(seeded)
  {
    var (after, outcome) := Call(g, seeded, r, w);
    (after, Judge(outcome, Remembered(after, r.key), attempt))
  }

  /** The retry loop from attempt number `attempt` on; `worlds` is what each attempt finds. */
  function RunAttempts(g: State, seeded: Seeded, r: Request, worlds: nat -> World, attempt: nat): (State, Verdict)
    requires Uniform(seeded)
    decreases MAX_ATTEMPTS - attempt
  {
    var (after, turn) := Try(g, seeded, r, worlds(attempt), attempt);
    match turn
    case Over(v) => (after, v)
    case Again =>
      AgainIsEarly(g, seeded, r, worlds(attempt), attempt);
      RunAttempts(after, seeded, r, worlds, attempt + 1)
  }

  lemma AgainIsEarly(g: State, seeded: Seeded, r: Request, w: World, attempt: nat)
    requires Uniform(seeded) && Try(g, seeded, r, w, attempt).1.Again?
    ensures attempt < MAX_ATTEMPTS
  {
  }

  /** The whole of `execute` after a fresh reservation. */
  function Attempts(g: State, seeded: Seeded, r: Request, worlds: nat -> World): (State, Verdict)
    requires Uniform(seeded)
  {
    if r.kind == Escalate then (g, Verdict(Escalated, 0, None, Some(NeedsHuman), false))
    else RunAttempts(g, seeded, r, worlds, 1)
  }

  class ActionStore {
    var actions: map<Key, ActionRow>
    var cases: map<CaseId, CaseStatus>

    ghost function Contents(): Tables
      reads this
    {
      Tables(actions, cases)
    }

    constructor (cases: map<CaseId, CaseStatus>)
      ensures Contents() == Tables(map[], cases)
    {
      this.actions, this.cases := map[], cases;
    }

    method ReserveAction(a: Approved) returns (isNew: bool)
      modifies this
      ensures (Contents(), isNew) == Reserve(old(Contents()), a)
      ensures a.request.key in actions
    {
      if a.request.key in actions {
        return false;
      }
      actions := actions[a.request.key := NewAction(a)];
      if a.caseId in cases && cases[a.caseId] == Open {
        cases := cases[a.caseId := Acting];
      }
      return true;
    }

    method MarkActionSent(key: Key, attempts: nat)
      requires key in actions
      modifies this`actions
      ensures actions == old(actions)[key := old(actions)[key].(status := Sent, attempts := attempts)]
    {
      actions := actions[key := actions[key].(status := Sent, attempts := attempts)];
    }

    method CompleteAction(key: Key, v: Verdict, at: int)
      requires key in actions
      modifies this`actions
      ensures actions == old(actions)[key := Completed(old(actions)[key], v, at)]
    {
      actions := actions[key := Completed(actions[key], v, at)];
    }
  }

  /** One turn of the loop: mark the row sent, call, ask after a timeout. */
  method AttemptOnce(store: ActionStore, gateway: SimulatedGateway, r: Request, w: World,
                     attempt: nat) returns (turn: Turn)
    requires gateway.Valid() && r.key in store.actions
    modifies store`actions, gateway
    ensures (gateway.Contents(), turn) == Try(old(gateway.Contents()), gateway.seeded, r, w, attempt)
    ensures turn.Again? ==> attempt < MAX_ATTEMPTS
    ensures store.actions
         == old(store.actions)[r.key := old(store.actions)[r.key].(status := Sent, attempts := attempt)]
  {
    store.MarkActionSent(r.key, attempt);
    var outcome := gateway.ExecuteAction(r, w);
    var found: Option<GatewayResult> := None;
    if outcome.TimedOut? {
      found := gateway.Lookup(r.key);
    }
    return Judge(outcome, found, attempt);
  }

  /** The retry loop on a reserved row, up to and including its completion. */
  method RunLoop(store: ActionStore, gateway: SimulatedGateway, r: Request, worlds: nat -> World, jitter: nat -> real)
    returns (v: Verdict)
    requires gateway.Valid() && r.key in store.actions
    requires forall n :: 0.0 <= jitter(n) < 1.0
    modifies store`actions, gateway
    ensures (gateway.Contents(), v) == RunAttempts(old(gateway.Contents()), gateway.seeded, r, worlds, 1)
    ensures EndsAs(old(gateway.Contents()), gateway.seeded, r, worlds, gateway.Contents(), v)
    ensures store.actions == old(store.actions)[r.key := Completed(old(store.actions)[r.key], v, r.now)]
  {
    hide Call;
    LoopEndsAs(gateway.Contents(), gateway.seeded, r, worlds, 0);
    var attempt: nat := 0;
    var turn := Again;
    while turn.Again?
      invariant attempt <= MAX_ATTEMPTS && (turn.Again? ==> attempt < MAX_ATTEMPTS)
      invariant r.key in store.actions
      invariant store.actions == old(store.actions)[r.key := store.actions[r.key]]
      invariant store.actions[r.key].(status := Reserved, attempts := 0)
             == old(store.actions)[r.key].(status := Reserved, attempts := 0)
      invariant RunAttempts(old(gateway.Contents()), gateway.seeded, r, worlds, 1)
             == if turn.Again? then RunAttempts(gateway.Contents(), gateway.seeded, r, worlds, attempt + 1)
                else (gateway.Contents(), turn.verdict)
      decreases turn.Again?, MAX_ATTEMPTS - attempt
    {
      attempt := attempt + 1;
      turn := AttemptOnce(store, gateway, r, worlds(attempt), attempt);
      if turn.Again? {
        var wait := BackoffMs(attempt, jitter(attempt));
      }
    }
    v := turn.verdict;
    store.CompleteAction(r.key, v, r.now);
  }

  /** A fresh key runs to a verdict and is completed with it; a key already reserved sends nothing. */
  method Execute(store: ActionStore, gateway: SimulatedGateway, a: Approved, worlds: nat -> World, jitter: nat -> real)
    returns (verdict: Option<Verdict>)
    requires gateway.Valid()
    requires forall n :: 0.0 <= jitter(n) < 1.0
    modifies store, gateway
    ensures a.request.key in old(store.actions) ==>
              && verdict == None
              && store.Contents() == old(store.Contents()) && gateway.Contents() == old(gateway.Contents())
    ensures a.request.key !in old(store.actions) ==>
              var (after, v) := Attempts(old(gateway.Contents()), gateway.seeded, a.request, worlds);
              && verdict == Some(v) && gateway.Contents() == after
              && (a.request.kind != Escalate ==>
                    EndsAs(old(gateway.Contents()), gateway.seeded, a.request, worlds, after, v))
              && store.cases == Reserve(old(store.Contents()), a).0.cases
              && store.actions == old(store.actions)[a.request.key := Completed(NewAction(a), v, a.request.now)]
    ensures a.request.key !in old(store.actions) ==>
              && verdict.Some? && a.request.key in store.actions
              && RowTells(store.actions[a.request.key], a, verdict.value)
              && store.cases.Keys == old(store.cases).Keys
              && forall c :: c in store.cases ==>
                   && (c == a.caseId && old(store.cases)[c] == Open ==> store.cases[c] == Acting)
                   && (c != a.caseId || old(store.cases)[c] != Open ==> store.cases[c] == old(store.cases)[c])
  {
    hide EndsAs, RunAttempts;
    var isNew := store.ReserveAction(a);
    if !isNew {
      return None;
    }
    var v: Verdict;
    if a.request.kind == Escalate {
      v := Verdict(Escalated, 0, None, Some(NeedsHuman), false);
      store.CompleteAction(a.request.key, v, a.request.now);
    } else {
      v := RunLoop(store, gateway, a.request, worlds, jitter);
    }
    return Some(v);
  }

  // ---- What a run of the loop means ----

  /** What one call leaves behind, told without the gateway's own workings. */
  ghost predicate CallMeans(g: State, after: State, outcome: CallOutcome, key: Key, leaked: bool) {
    && after.stats.calls == g.stats.calls + 1
    && (forall k :: k != key ==> Remembered(after, k) == Remembered(g, k))
    && (key in g.memory ==> outcome == Answered(g.memory[key]) && after.memory == g.memory)
    && after.stats.effects == g.stats.effects + (if key in after.memory && key !in g.memory then 1 else 0)
    && |after.emitted| == |g.emitted| + (if (key in after.memory && key !in g.memory) || leaked then 2 else 0)
    && (leaked ==> outcome == Threw(None))
    && (outcome.Answered? ==> Remembered(after, key) == Some(outcome.result))
    && (outcome.Threw? ==> key !in after.memory)
  }

  lemma CallHasMeaning(g: State, seeded: Seeded, r: Request, w: World)
    requires Uniform(seeded)
    ensures CallMeans(g, Call(g, seeded, r, w).0, Call(g, seeded, r, w).1, r.key, Leaks(g, seeded, r, w))
  {
    CallActsAtMostOnce(g, seeded, r, w);
  }

  /**
   * What a loop that starts at attempt number `attempt` and ends in `v` has done: SUCCEEDED
   * exactly when the memory holds the key, one effect and two events if it acted and none if
   * not, a reference exactly on success, and no other key touched. Events that slipped past the
   * gateway end the loop with a person.
   */
  ghost predicate LoopMeans(g: State, after: State, v: Verdict, key: Key, attempt: nat, leaked: bool) {
    && attempt <= v.attempts <= MAX_ATTEMPTS
    && after.stats.calls == g.stats.calls + (v.attempts - attempt + 1)
    && (v.status == Succeeded <==> key in after.memory)
    && (key in g.memory ==> v.attempts == attempt && after.memory == g.memory)
    && after.stats.effects == g.stats.effects + (if key in after.memory && key !in g.memory then 1 else 0)
    && |after.emitted| == |g.emitted| + (if (key in after.memory && key !in g.memory) || leaked then 2 else 0)
    && (leaked ==> v.status == Escalated && v.errorClass == Some(NeedsHuman))
    && v.result == Remembered(after, key)
    && (forall k :: k != key ==> Remembered(after, k) == Remembered(g, k))
    && (v.status == Succeeded <==> v.errorClass == None)
    && (v.status == Failed <==> v.errorClass == Some(Terminal))
    && (v.errorClass == Some(Retryable) ==> v.attempts == MAX_ATTEMPTS)
    && v.status in {Succeeded, Failed, Escalated}
  }

  /** Some attempt of the loop puts events in the log that the gateway does not remember. */
  ghost predicate LoopLeaks(g: State, seeded: Seeded, r: Request, worlds: nat -> World, attempt: nat)
    requires Uniform(seeded)
    decreases MAX_ATTEMPTS - attempt
  {
    || Leaks(g, seeded, r, worlds(attempt))
    || (Try(g, seeded, r, worlds(attempt), attempt).1.Again?
        && (AgainIsEarly(g, seeded, r, worlds(attempt), attempt);
            LoopLeaks(Try(g, seeded, r, worlds(attempt), attempt).0, seeded, r, worlds, attempt + 1)))
  }

  lemma LastTurn(g: State, after: State, outcome: CallOutcome, key: Key, attempt: nat, leaked: bool)
    requires CallMeans(g, after, outcome, key, leaked) && attempt <= MAX_ATTEMPTS
    requires Judge(outcome, Remembered(after, key), attempt).Over?
    ensures LoopMeans(g, after, Judge(outcome, Remembered(after, key), attempt).verdict, key, attempt, leaked)
  {
  }

  /** A call that is retried has not acted, and nothing slipped past it. */
  lemma EarlierTurn(g: State, mid: State, outcome: CallOutcome, after: State, v: Verdict, key: Key, attempt: nat,
                    leaked: bool, later: bool)
    requires CallMeans(g, mid, outcome, key, leaked) && Judge(outcome, Remembered(mid, key), attempt).Again?
    requires LoopMeans(mid, after, v, key, attempt + 1, later)
    ensures key !in mid.memory && !leaked && LoopMeans(g, after, v, key, attempt, later)
  {
  }

  lemma {:induction false} LoopVerdict(g: State, seeded: Seeded, r: Request, worlds: nat -> World, attempt: nat)
    requires Uniform(seeded) && 1 <= attempt <= MAX_ATTEMPTS
    ensures var (after, v) := RunAttempts(g, seeded, r, worlds, attempt);
            LoopMeans(g, after, v, r.key, attempt, LoopLeaks(g, seeded, r, worlds, attempt))
    decreases MAX_ATTEMPTS - attempt
  {
    hide Call, Leaks;
    CallHasMeaning(g, seeded, r, worlds(attempt));
    var (mid, outcome) := Call(g, seeded, r, worlds(attempt));
    var leaked := Leaks(g, seeded, r, worlds(attempt));
    if Judge(outcome, Remembered(mid, r.key), attempt).Again? {
      LoopVerdict(mid, seeded, r, worlds, attempt + 1);
      var (after, v) := RunAttempts(mid, seeded, r, worlds, attempt + 1);
      EarlierTurn(g, mid, outcome, after, v, r.key, attempt, leaked, LoopLeaks(mid, seeded, r, worlds, attempt + 1));
    } else {
      LastTurn(g, mid, outcome, r.key, attempt, leaked);
    }
  }

  /**
   * A whole execution of a key the gateway does not know: SUCCEEDED exactly when it remembers having
   * acted, at most three calls, and none at all for `escalate`. The payment is acted on, by two
   * events, exactly when the execution succeeds or leaks; so SUCCEEDED says whether it was acted on
   * exactly when nothing slipped past the gateway.
   */
  lemma ExecutionVerdict(g: State, seeded: Seeded, r: Request, worlds: nat -> World)
    requires Uniform(seeded) && r.key !in g.memory
    ensures var (after, v) := Attempts(g, seeded, r, worlds);
            && v.attempts <= MAX_ATTEMPTS && after.stats.calls == g.stats.calls + v.attempts
            && (v.status == Succeeded <==> r.key in after.memory)
            && after.stats.effects - g.stats.effects == (if r.key in after.memory then 1 else 0)
            && (v.attempts == 0 <==> r.kind == Escalate)
            && (r.kind == Escalate ==> after == g && v.status == Escalated && v.errorClass == Some(NeedsHuman))
            && var leaks := r.kind != Escalate && LoopLeaks(g, seeded, r, worlds, 1);
               && |after.emitted| == |g.emitted| + (if v.status == Succeeded || leaks then 2 else 0)
               && ((v.status == Succeeded <==> |after.emitted| > |g.emitted|) <==> !leaks)
               && (leaks ==> v.status == Escalated && v.errorClass == Some(NeedsHuman))
  {
    if r.kind != Escalate {
      LoopVerdict(g, seeded, r, worlds, 1);
    }
  }

  // ---- A run of the loop, told by its calls ----

  /** The gateway after `n` calls of an action, one after the other. */
  function AfterCalls(g: State, seeded: Seeded, r: Request, worlds: nat -> World, n: nat): State
    requires Uniform(seeded)
  {
    if n == 0 then g else Call(AfterCalls(g, seeded, r, worlds, n - 1), seeded, r, worlds(n)).0
  }

  /** What the call numbered `n`, from 1 on, comes to. */
  function OutcomeOf(g: State, seeded: Seeded, r: Request, worlds: nat -> World, n: nat): CallOutcome
    requires Uniform(seeded) && n >= 1
  {
    Call(AfterCalls(g, seeded, r, worlds, n - 1), seeded, r, worlds(n)).1
  }

  /** The call numbered `n` threw RETRYABLE, or timed out and the gateway remembers nothing of it. */
  predicate InVain(g: State, seeded: Seeded, r: Request, worlds: nat -> World, n: nat)
    requires Uniform(seeded) && n >= 1
  {
    || OutcomeOf(g, seeded, r, worlds, n) == Threw(Some(Retryable))
    || (OutcomeOf(g, seeded, r, worlds, n).TimedOut? && r.key !in AfterCalls(g, seeded, r, worlds, n).memory)
  }

  /**
   * How a loop of the calls 1, 2, ... ends: it makes at most three calls, goes on exactly while they
   * were in vain, and its verdict is read off the last of them.
   */
  ghost predicate EndsAs(g: State, seeded: Seeded, r: Request, worlds: nat -> World, after: State, v: Verdict)
    requires Uniform(seeded)
  {
    && 1 <= v.attempts <= 3
    && after == AfterCalls(g, seeded, r, worlds, v.attempts)
    && (forall k :: 1 <= k < v.attempts ==> InVain(g, seeded, r, worlds, k))
    && var last := OutcomeOf(g, seeded, r, worlds, v.attempts);
       && (InVain(g, seeded, r, worlds, v.attempts) ==> v.attempts == 3)
       && (v.status == Failed <==> last == Threw(Some(Terminal)))
       && (v.status == Escalated && v.errorClass == Some(Retryable) <==> InVain(g, seeded, r, worlds, v.attempts))
       && (v.status == Escalated && v.errorClass == Some(NeedsHuman)
           <==> last in {Threw(None), Threw(Some(NeedsHuman))})
       && (v.status == Succeeded <==> last.Answered? || (last.TimedOut? && r.key in after.memory))
       && (v.reconciled <==> last.TimedOut? && r.key in after.memory)
       && (last.Answered? ==> v.result == Some(last.result))
       && (v.reconciled ==> r.key in after.memory && v.result == Some(after.memory[r.key]))
       && (v.status != Succeeded ==> v.result == None)
       && (v.status == Failed ==> v.errorClass == Some(Terminal))
       && (v.status == Succeeded ==> v.errorClass == None)
       && v.status in {Succeeded, Failed, Escalated}
  }

  lemma {:induction false} LoopEndsAs(g: State, seeded: Seeded, r: Request, worlds: nat -> World, n: nat)
    requires Uniform(seeded) && n < 3 && forall k :: 1 <= k <= n ==> InVain(g, seeded, r, worlds, k)
    ensures var (after, v) := RunAttempts(AfterCalls(g, seeded, r, worlds, n), seeded, r, worlds, n + 1);
            EndsAs(g, seeded, r, worlds, after, v)
    decreases 3 - n
  {
    hide Call, Uniform;
    var mid := AfterCalls(g, seeded, r, worlds, n);
    assert Call(mid, seeded, r, worlds(n + 1))
        == (AfterCalls(g, seeded, r, worlds, n + 1), OutcomeOf(g, seeded, r, worlds, n + 1));
    if Try(mid, seeded, r, worlds(n + 1), n + 1).1.Again? {
      assert InVain(g, seeded, r, worlds, n + 1);
      AgainIsEarly(mid, seeded, r, worlds(n + 1), n + 1);
      LoopEndsAs(g, seeded, r, worlds, n + 1);
    }
  }

  /**
   * A whole execution, told by the outcomes of its calls: SUCCEEDED, FAILED and ESCALATED are read
   * off the last call, and there is a next one, up to three, exactly when a call was in vain.
   */
  lemma ExecutionEndsAs(g: State, seeded: Seeded, r: Request, worlds: nat -> World)
    requires Uniform(seeded)
    ensures var (after, v) := Attempts(g, seeded, r, worlds);
            if r.kind == Escalate
            then after == g && v == Verdict(Escalated, 0, None, Some(NeedsHuman), false)
            else EndsAs(g, seeded, r, worlds, after, v)
  {
    if r.kind != Escalate {
      LoopEndsAs(g, seeded, r, worlds, 0);
    }
  }
}
