/**
 * Crash-replay stability: with one live execution per run, recorded results are never changed, and every
 * execution's locals are what replaying the recorded results gives.
 */
module Replay {
  import opened WorkflowTypes
  import opened EditSafety
  import opened Machine
  import opened Control
  import opened Frames
  import opened Systems
  import opened Soundness
  import opened Leases

  type Steps = map<StepKey, Value>

  /** The plan leads to the analysis phase. */
  predicate NeedsData(profile: Option<Doc>, plan: RoutePlan) {
    !plan.responseType.ClarificationType? && plan.requiresData && profile.Some?
  }

  predicate Failed(e: Execution) {
    !e.ok && e.error.Some?
  }

  predicate IsRecorded(steps: Steps, k: StepKey, v: Value) {
    k in steps && steps[k] == v
  }

  predicate RecordedFailure(steps: Steps) {
    InitialStep in steps && steps[InitialStep].ExecutionV? && Failed(steps[InitialStep].execution)
  }

  /** The locals at a point are those that a replay of the recorded results produces. */
  ghost predicate Follows(p: Point, steps: Steps) {
    match p
    case AtStart => true
    case HasContext(ctx) => IsRecorded(steps, ContextStep, ContextV(ctx))
    case HasProfile(ctx, profile) => FollowsProfile(ctx, profile, steps)
    case HasRoute(ctx, profile, plan) => FollowsRoute(ctx, profile, plan, steps)
    case HasInitial(ctx, profile, plan, e) =>
      FollowsRoute(ctx, profile, plan, steps) && NeedsData(profile, plan) && IsRecorded(steps, InitialStep, ExecutionV(e))
    case HasRepairCode(ctx, profile, plan, e, code) =>
      && FollowsRoute(ctx, profile, plan, steps) && NeedsData(profile, plan)
      && IsRecorded(steps, InitialStep, ExecutionV(e)) && Failed(e) && IsRecorded(steps, RepairCodeStep, CodeV(code))
    case HasExecution(ctx, profile, plan, e) =>
      && FollowsRoute(ctx, profile, plan, steps) && NeedsData(profile, plan) && RecordedFailure(steps)
      && RepairCodeStep in steps && steps[RepairCodeStep].CodeV? && IsRecorded(steps, RepairRunStep, ExecutionV(e))
    case HasAnalysis(ctx, profile, plan, analysis) => FollowsAnalysis(ctx, profile, plan, analysis, steps)
    case HasResponse(ctx, profile, plan, analysis, final) =>
      FollowsAnalysis(ctx, profile, plan, analysis, steps) && IsRecorded(steps, SynthesisStep, ResponseV(final))
  }

  ghost predicate FollowsProfile(ctx: RunContext, profile: Option<Doc>, steps: Steps) {
    && IsRecorded(steps, ContextStep, ContextV(ctx)) && Preflight(ctx).None?
    && if |ctx.assets| == 0 then profile.None? else profile.Some? && IsRecorded(steps, ProfileStep, ArtifactV(profile.value))
  }

  ghost predicate FollowsRoute(ctx: RunContext, profile: Option<Doc>, plan: RoutePlan, steps: Steps) {
    FollowsProfile(ctx, profile, steps) && IsRecorded(steps, RouteStep, PlanV(plan))
  }

  ghost predicate FollowsAnalysis(ctx: RunContext, profile: Option<Doc>, plan: RoutePlan, analysis: Option<Doc>, steps: Steps) {
    && FollowsRoute(ctx, profile, plan, steps) && !plan.responseType.ClarificationType?
    && if plan.requiresData then
         profile.Some? && analysis.Some? && IsRecorded(steps, AnalysisStep, ArtifactV(analysis.value))
       else analysis.None?
  }

  /** The decision at the point that led to the step. */
  predicate Chosen(p: Point, k: StepKey) {
    match p
    case HasContext(ctx) => k.ProfileStep? ==> Preflight(ctx).None? && |ctx.assets| > 0
    case HasRoute(ctx, profile, plan) => NeedsData(profile, plan)
    case HasInitial(ctx, profile, plan, e) => if k.RepairCodeStep? then Failed(e) else e.ok && e.result.Some?
    case HasExecution(ctx, profile, plan, e) => e.ok && e.result.Some?
    case _ => true
  }

  /** The step an execution is in, or about to enter. */
  function CurrentKey(x: Exec): Option<StepKey> {
    match x.pc
    case Loading(_, k) => Some(k)
    case Probing(k) => Some(k)
    case CapacityBegin(purpose) => Some(KeyFor(purpose))
    case CapacityAcquire(purpose) => Some(KeyFor(purpose))
    case CapacityRecord(purpose) => Some(KeyFor(purpose))
    case CapacityBusy(purpose, _) => Some(KeyFor(purpose))
    case CapacitySleep(purpose, _) => Some(KeyFor(purpose))
    case CapacityActive(purpose) => Some(KeyFor(purpose))
    case Deadline(k) => Some(k)
    case Active(k) => Some(k)
    case Lookup(k) => Some(k)
    case Starting(k) => Some(k)
    case Working(k, _) => Some(k)
    case Rechecking(k, _) => Some(k)
    case Completing(k, _) => Some(k)
    case _ => None
  }

  function KeyFor(purpose: Purpose): StepKey {
    if purpose.ForProfile? then ProfileStep else InitialStep
  }

  /** The look-up of the current step found nothing. */
  predicate Executing(pc: Pc) {
    pc.Starting? || pc.Working? || pc.Rechecking? || pc.Completing?
  }

  /** Between the claim and the last status change. */
  predicate Driving(pc: Pc) {
    !pc.Claiming? && !pc.Cleanup? && !pc.Releasing? && !pc.Returned? && !Doomed(pc)
  }

  /** A failure is being handled; if it is a commit whose reply was lost, the run may be over already. */
  predicate Doomed(pc: Pc) {
    (pc.Handling? && pc.error.Failure?) || pc.Terminating?
  }

  predicate AnalysisOpen(x: Exec) {
    !Leaving(x.pc) && (InAnalysis(x.point) || (x.point.HasRoute? && CurrentKey(x) == Some(InitialStep)))
  }

  /** What ties the only live execution of a run to the run's durable state. */
  ghost predicate Tied(d: Durable, x: Exec) {
    && Follows(x.point, d.steps)
    && (CurrentKey(x).Some? ==> Chosen(x.point, CurrentKey(x).value))
    && (Executing(x.pc) ==> CurrentKey(x).value !in d.steps)
    && (AnalysisOpen(x) ==> AnalysisStep !in d.steps)
    && (Driving(x.pc) ==> d.status.Running? || d.status.Cancelling?)
    && (x.point.HasResponse? ==> SafeResponse(x.point.ctx, x.point.plan, x.point.final))
  }

  /** What holds of a run's durable state by itself. */
  ghost predicate DurableOk(d: Durable) {
    && (SynthesisStep in d.steps ==> exists p: Point :: RecordedSafely(p, d.steps))
    && (d.response.Some? ==>
          || d.response.value.ClarificationRequest?
          || IsRecorded(d.steps, SynthesisStep, ResponseV(d.response.value)))
    && AnalysisIsResult(d.steps)
  }

  /** The last execution of the analysis code, as far as it is recorded. */
  function LastExecution(steps: Steps): Option<Execution> {
    if RepairRunStep in steps && steps[RepairRunStep].ExecutionV? then Some(steps[RepairRunStep].execution)
    else if InitialStep in steps && steps[InitialStep].ExecutionV? then Some(steps[InitialStep].execution)
    else None
  }

  /** The recorded analysis is the result of the last execution, which succeeded; only a failure was repaired. */
  predicate AnalysisIsResult(steps: Steps) {
    && (AnalysisStep in steps ==>
          var e := LastExecution(steps);
          e.Some? && e.value.ok && e.value.result.Some? && steps[AnalysisStep] == ArtifactV(e.value.result.value))
    && (RepairRunStep in steps ==> RecordedFailure(steps))
  }

  ghost predicate RecordedSafely(p: Point, steps: Steps) {
    p.HasResponse? && Follows(p, steps) && SafeResponse(p.ctx, p.plan, p.final)
  }

  /** More results, none of them changed. */
  predicate Grows(before: Steps, after: Steps) {
    forall k :: k in before ==> k in after && after[k] == before[k]
  }

  lemma FollowsGrows(p: Point, before: Steps, after: Steps)
    requires Follows(p, before) && Grows(before, after)
    ensures Follows(p, after)
  {
  }

  /** Replaying is deterministic: two executions at the same stage of the same results have the same locals. */
  lemma FollowsIsUnique(p: Point, q: Point, steps: Steps)
    requires Follows(p, steps) && Follows(q, steps) && SameStage(p, q)
    ensures p == q
  {
    hide Preflight;
  }

  predicate SameStage(p: Point, q: Point) {
    match p
    case AtStart => q.AtStart?
    case HasContext(_) => q.HasContext?
    case HasProfile(_, _) => q.HasProfile?
    case HasRoute(_, _, _) => q.HasRoute?
    case HasInitial(_, _, _, _) => q.HasInitial?
    case HasRepairCode(_, _, _, _, _) => q.HasRepairCode?
    case HasExecution(_, _, _, _) => q.HasExecution?
    case HasAnalysis(_, _, _, _) => q.HasAnalysis?
    case HasResponse(_, _, _, _, _) => q.HasResponse?
  }

  // ---------------------------------------------------------------- one step

  /** The point after a step follows, once the step's value is recorded. */
  lemma AdvanceFollows(p: Point, k: StepKey, v: Value, steps: Steps)
    requires Follows(p, steps) && IsRecorded(steps, k, v) && Chosen(p, k) && Advance(p, k, v).Some?
    ensures Follows(Advance(p, k, v).value, steps)
  {
    hide Preflight;
  }

  ghost predicate TiedStep(d: Durable, x: Exec, f: Effects) {
    Tied(f.d, f.x) && Grows(d.steps, f.d.steps)
  }

  lemma TiedOpening(d: Durable, leases: set<Lease>, now: Time, x: Exec, a: Answer)
    requires Fits(x) && StepsOk(d.steps) && Tied(d, x)
    requires x.pc.Claiming? || x.pc.ReadingStart? || x.pc.Loading?
    ensures TiedStep(d, x, Act(d, leases, now, x, a))
  {
    hide SafeResponse, ValidateContext, SchemaContext, ValidResponse, ValidPlan, Preflight, DurableOk, Follows;
  }

  lemma TiedDeciding(d: Durable, x: Exec)
    requires Tied(d, x) && x.pc.Deciding? && !HasPlan(x.point)
    ensures Tied(d, Go(x, Decide(x.point)))
  {
    hide SafeResponse, Preflight;
  }

  lemma TiedPlanned(d: Durable, x: Exec)
    requires Tied(d, x) && x.pc.Deciding? && HasPlan(x.point)
    ensures Tied(d, Go(x, Decide(x.point)))
  {
    hide SafeResponse, Preflight;
  }

  /** Moving on within a step, or out of `execute`, keeps the tie. */
  lemma TiedMove(d: Durable, x: Exec, pc: Pc)
    requires Tied(d, x)
    requires var y := To(x, pc);
             && (CurrentKey(y).None? || CurrentKey(y) == CurrentKey(x))
             && (Executing(pc) ==> Executing(x.pc))
             && (Leaving(pc) || !Leaving(x.pc))
             && (InAnalysis(x.point) || CurrentKey(y).None? || CurrentKey(y) == CurrentKey(x))
             && (Driving(pc) ==> Driving(x.pc))
    ensures Tied(d, To(x, pc))
  {
    hide Follows, SafeResponse, Chosen;
  }

  lemma TiedWaiting(d: Durable, leases: set<Lease>, now: Time, x: Exec, a: Answer)
    requires Tied(d, x)
    requires x.pc.CapacityBegin? || x.pc.CapacityAcquire? || x.pc.CapacityBusy? || x.pc.CapacitySleep? || x.pc.CapacityActive?
    ensures TiedStep(d, x, Act(d, leases, now, x, a))
  {
    hide Tied;
    TiedMove(d, x, Act(d, leases, now, x, a).x.pc);
  }

  lemma TiedHolding(d: Durable, leases: set<Lease>, now: Time, x: Exec, a: Answer)
    requires Fits(x) && StepsOk(d.steps) && Tied(d, x)
    requires x.pc.CapacityRecord? || x.pc.Starting?
    ensures TiedStep(d, x, Act(d, leases, now, x, a))
  {
    hide SafeResponse, ValidateContext, SchemaContext, ValidResponse, ValidPlan, Preflight, DurableOk, Follows;
  }

  lemma TiedStepping(d: Durable, leases: set<Lease>, now: Time, x: Exec, a: Answer)
    requires Tied(d, x)
    requires x.pc.Deadline? || x.pc.Active? || x.pc.Rechecking?
    ensures TiedStep(d, x, Act(d, leases, now, x, a))
  {
    hide Tied;
    TiedMove(d, x, Act(d, leases, now, x, a).x.pc);
  }

  /** The effect of a step stays within the step. */
  ghost predicate StayStep(d: Durable, x: Exec, f: Effects) {
    x.pc.Working? && StaysIn(x.point, Move(f.x.point, f.x.pc), x.pc.key) && f.d.steps == d.steps && f.d.status == d.status
  }

  lemma SandboxStays(d: Durable, leases: set<Lease>, now: Time, x: Exec, a: Answer)
    requires x.pc.Working? && !HasCall(x.pc.work)
    ensures StayStep(d, x, Act(d, leases, now, x, a))
  {
    hide ActSandbox, ActFetchContext, ActReserve, ActInvoke;
  }

  lemma CallStays(d: Durable, leases: set<Lease>, now: Time, x: Exec, a: Answer)
    requires x.pc.Working? && HasCall(x.pc.work)
    ensures StayStep(d, x, Act(d, leases, now, x, a))
  {
    hide AfterFailedAttempt, Deliver, ActiveFault, ActCount;
  }

  lemma TiedWorking(d: Durable, leases: set<Lease>, now: Time, x: Exec, a: Answer)
    requires Tied(d, x) && x.pc.Working?
    ensures TiedStep(d, x, Act(d, leases, now, x, a))
  {
    hide Act, Follows, SafeResponse;
    if HasCall(x.pc.work) {
      CallStays(d, leases, now, x, a);
    } else {
      SandboxStays(d, leases, now, x, a);
    }
  }

  lemma ProbingFits(x: Exec)
    requires Fits(x) && x.pc.Probing?
    ensures if x.pc.key.ProfileStep? then x.point.HasContext? else x.pc.key.AnalysisStep? && x.point.HasRoute?
  {
  }

  /** Moving on with the recorded result of the current step leads to the point that a replay gives. */
  lemma ArriveIsTied(d: Durable, x: Exec, k: StepKey)
    requires CurrentKey(x) == Some(k) && k in d.steps
    requires Follows(x.point, d.steps) && Chosen(x.point, k)
    requires AnalysisOpen(x) && !k.AnalysisStep? ==> AnalysisStep !in d.steps
    requires d.status.Running? || d.status.Cancelling?
    requires var q := Advance(x.point, k, d.steps[k]);
             q.Some? && q.value.HasResponse? ==> SafeResponse(q.value.ctx, q.value.plan, q.value.final)
    requires x.point.HasResponse? ==> SafeResponse(x.point.ctx, x.point.plan, x.point.final)
    ensures Tied(d, Go(x, Arrive(x.point, k, d.steps[k])))
  {
    hide Fits, SafeResponse, Preflight, Follows;
    if Advance(x.point, k, d.steps[k]).Some? {
      AdvanceFollows(x.point, k, d.steps[k], d.steps);
    }
  }

  lemma ReplayedIsSafe(d: Durable, x: Exec, k: StepKey)
    requires Tied(d, x) && DurableOk(d) && k in d.steps && CurrentKey(x) == Some(k)
    ensures var q := Advance(x.point, k, d.steps[k]);
            q.Some? && q.value.HasResponse? ==> SafeResponse(q.value.ctx, q.value.plan, q.value.final)
  {
    hide Fits, SafeResponse, Preflight, Follows, DurableOk;
    var q := Advance(x.point, k, d.steps[k]);
    if q.Some? && q.value.HasResponse? {
      AdvanceFollows(x.point, k, d.steps[k], d.steps);
      RecordedIsSafe(d, q.value);
    }
  }

  lemma TiedProbing(d: Durable, leases: set<Lease>, now: Time, x: Exec, a: Answer)
    requires Fits(x) && Tied(d, x) && DurableOk(d) && x.pc.Probing?
    ensures TiedStep(d, x, Act(d, leases, now, x, a))
  {
    hide Fits, SafeResponse, Preflight, DurableOk, Follows, Arrive;
    ProbingFits(x);
    if x.pc.key in d.steps {
      ReplayedIsSafe(d, x, x.pc.key);
      ArriveIsTied(d, x, x.pc.key);
    }
  }

  lemma TiedLookup(d: Durable, leases: set<Lease>, now: Time, x: Exec, a: Answer)
    requires Tied(d, x) && DurableOk(d) && x.pc.Lookup?
    ensures TiedStep(d, x, Act(d, leases, now, x, a))
  {
    hide Fits, SafeResponse, Preflight, DurableOk, Follows, Arrive;
    if x.pc.key in d.steps {
      ReplayedIsSafe(d, x, x.pc.key);
      ArriveIsTied(d, x, x.pc.key);
    }
  }

  /** A recorded response that a replay reaches is safe. */
  lemma RecordedIsSafe(d: Durable, q: Point)
    requires DurableOk(d) && SynthesisStep in d.steps && q.HasResponse? && Follows(q, d.steps)
    ensures SafeResponse(q.ctx, q.plan, q.final)
  {
    hide Follows, SafeResponse;
    var p: Point :| RecordedSafely(p, d.steps);
    FollowsIsUnique(p, q, d.steps);
  }

  lemma CompletingFits(x: Exec)
    requires Fits(x) && x.pc.Completing?
    ensures KeyFits(x.point, x.pc.key) && ValueFits(x.point, x.pc.key, x.pc.value)
  {
  }

  lemma TiedCompleting(d: Durable, leases: set<Lease>, now: Time, x: Exec, a: Answer)
    requires Fits(x) && Tied(d, x) && x.pc.Completing?
    ensures TiedStep(d, x, Act(d, leases, now, x, a))
  {
    hide Fits, Tied, Arrive;
    if a.Throws? && !a.late {
      TiedMove(d, x, Handling(Failure(a.fault)));
    } else {
      RecordingIsTied(d, x, if a.Throws? then Failure(a.fault) else Yield(0));
    }
  }

  lemma RecordingIsTied(d: Durable, x: Exec, error: Error)
    requires Fits(x) && Tied(d, x) && x.pc.Completing?
    ensures var k, v := x.pc.key, x.pc.value;
            var after, counted := d.(steps := d.steps[k := v]), x.(completed := x.completed + 1);
            && Grows(d.steps, after.steps)
            && Tied(after, Go(counted, Arrive(x.point, k, v)))
            && Tied(after, To(counted, Handling(error)))
            && Tied(after, To(x, Handling(error)))
  {
    hide Fits, SafeResponse, ValueOk, Preflight, Follows, Arrive;
    var k, v := x.pc.key, x.pc.value;
    CompletingFits(x);
    FollowsGrows(x.point, d.steps, d.steps[k := v]);
    ArriveIsTied(d.(steps := d.steps[k := v]), x.(completed := x.completed + 1), k);
  }

  lemma TiedFinishing(d: Durable, leases: set<Lease>, now: Time, x: Exec, a: Answer)
    requires Tied(d, x) && (x.pc.FinishActive? || x.pc.FinishPut?)
    ensures TiedStep(d, x, Act(d, leases, now, x, a))
  {
    hide Tied;
    TiedMove(d, x, Act(d, leases, now, x, a).x.pc);
  }

  lemma TiedCommitting(d: Durable, leases: set<Lease>, now: Time, x: Exec, a: Answer)
    requires Tied(d, x) && x.pc.FinishCommit?
    ensures TiedStep(d, x, Act(d, leases, now, x, a))
  {
    hide Follows, SafeResponse, Chosen;
  }

  lemma TiedHandling(d: Durable, leases: set<Lease>, now: Time, x: Exec, a: Answer)
    requires Tied(d, x) && (x.pc.Handling? || x.pc.Cleanup?)
    ensures TiedStep(d, x, Act(d, leases, now, x, a))
  {
    hide Tied;
    TiedMove(d, x, Act(d, leases, now, x, a).x.pc);
  }

  lemma TiedLeaving(d: Durable, leases: set<Lease>, now: Time, x: Exec, a: Answer)
    requires Tied(d, x) && (x.pc.Terminating? || x.pc.Releasing?)
    ensures TiedStep(d, x, Act(d, leases, now, x, a))
  {
    hide SafeResponse, Chosen, Follows;
  }

  lemma ActTied(d: Durable, leases: set<Lease>, now: Time, x: Exec, a: Answer)
    requires Fits(x) && StepsOk(d.steps) && Tied(d, x) && DurableOk(d) && !x.pc.Returned?
    ensures TiedStep(d, x, Act(d, leases, now, x, a))
  {
    hide Fits, StepsOk, Tied, DurableOk, TiedStep, Act;
    if x.pc.Claiming? || x.pc.ReadingStart? || x.pc.Loading? {
      TiedOpening(d, leases, now, x, a);
    } else if x.pc.Deciding? {
      DecidingStep(d, leases, now, x, a);
    } else if x.pc.CapacityBegin? || x.pc.CapacityAcquire? || x.pc.CapacityBusy? || x.pc.CapacitySleep? || x.pc.CapacityActive? {
      TiedWaiting(d, leases, now, x, a);
    } else if x.pc.CapacityRecord? || x.pc.Starting? {
      TiedHolding(d, leases, now, x, a);
    } else if x.pc.Deadline? || x.pc.Active? || x.pc.Rechecking? {
      TiedStepping(d, leases, now, x, a);
    } else if x.pc.Working? {
      TiedWorking(d, leases, now, x, a);
    } else if x.pc.Probing? {
      TiedProbing(d, leases, now, x, a);
    } else if x.pc.Lookup? {
      TiedLookup(d, leases, now, x, a);
    } else if x.pc.Completing? {
      TiedCompleting(d, leases, now, x, a);
    } else if x.pc.FinishActive? || x.pc.FinishPut? {
      TiedFinishing(d, leases, now, x, a);
    } else if x.pc.FinishCommit? {
      TiedCommitting(d, leases, now, x, a);
    } else if x.pc.Handling? || x.pc.Cleanup? {
      TiedHandling(d, leases, now, x, a);
    } else {
      TiedLeaving(d, leases, now, x, a);
    }
  }

  lemma DecidingStep(d: Durable, leases: set<Lease>, now: Time, x: Exec, a: Answer)
    requires Tied(d, x) && x.pc.Deciding?
    ensures TiedStep(d, x, Act(d, leases, now, x, a))
  {
    hide Tied, Decide;
    if HasPlan(x.point) {
      TiedPlanned(d, x);
    } else {
      TiedDeciding(d, x);
    }
  }

  // ---------------------------------------------------------------- the run's own invariant

  lemma RecordingKeepsDurable(d: Durable, x: Exec)
    requires Fits(x) && Tied(d, x) && DurableOk(d) && x.pc.Completing?
    ensures DurableOk(d.(steps := d.steps[x.pc.key := x.pc.value]))
  {
    hide Fits, SafeResponse, ValueOk, Preflight, Follows, AnalysisIsResult;
    var k, v := x.pc.key, x.pc.value;
    var steps := d.steps[k := v];
    CompletingFits(x);
    RecordingKeepsAnalysis(d, x);
    if k.SynthesisStep? {
      ValueShape(k, v);
      var q := HasResponse(x.point.ctx, x.point.profile, x.point.plan, x.point.analysis, v.response);
      FollowsGrows(x.point, d.steps, steps);
      AdvanceFollows(x.point, k, v, steps);
      assert RecordedSafely(q, steps);
    } else if SynthesisStep in d.steps {
      var p: Point :| RecordedSafely(p, d.steps);
      FollowsGrows(p, d.steps, steps);
      assert RecordedSafely(p, steps);
    }
  }

  lemma RecordingKeepsAnalysis(d: Durable, x: Exec)
    requires Fits(x) && Tied(d, x) && AnalysisIsResult(d.steps) && x.pc.Completing?
    ensures AnalysisIsResult(d.steps[x.pc.key := x.pc.value])
  {
    hide PointOk, SafeResponse, ValueOk, Preflight;
  }

  lemma ValueShape(k: StepKey, v: Value)
    requires ValueOk(k, v) && k.SynthesisStep?
    ensures v.ResponseV?
  {
  }

  lemma CommitKeepsDurable(d: Durable, leases: set<Lease>, now: Time, x: Exec, a: Answer)
    requires Fits(x) && Tied(d, x) && DurableOk(d) && x.pc.FinishCommit?
    ensures DurableOk(Act(d, leases, now, x, a).d)
  {
    hide PointOk, SafeResponse, Preflight, FollowsAnalysis, RecordedSafely, ValidResponse;
  }

  lemma CompletingKeepsDurable(d: Durable, leases: set<Lease>, now: Time, x: Exec, a: Answer)
    requires Fits(x) && Tied(d, x) && DurableOk(d) && x.pc.Completing?
    ensures DurableOk(Act(d, leases, now, x, a).d)
  {
    hide Fits, Tied, DurableOk, Arrive;
    RecordingKeepsDurable(d, x);
  }

  lemma ActDurable(d: Durable, leases: set<Lease>, now: Time, x: Exec, a: Answer)
    requires Fits(x) && Tied(d, x) && DurableOk(d) && !x.pc.Returned?
    ensures DurableOk(Act(d, leases, now, x, a).d)
  {
    hide Act, Fits, Tied, RecordedSafely;
    if x.pc.Completing? {
      CompletingKeepsDurable(d, leases, now, x, a);
    } else if x.pc.FinishCommit? {
      CommitKeepsDurable(d, leases, now, x, a);
    } else {
      ActKeeps(d, leases, now, x, a);
    }
  }

  // ---------------------------------------------------------------- the system

  ghost predicate AllTied(s: System) {
    && (forall e :: LiveOn(s, e) && s.execs[e].run in s.runs ==> Tied(s.runs[s.execs[e].run], s.execs[e]))
    && (forall r :: r in s.runs ==> DurableOk(s.runs[r]))
  }

  lemma FreshIsTied(d: Durable, r: RunId, claimant: nat, maxSteps: Option<nat>, yieldOnWait: bool)
    ensures Tied(d, Fresh(r, claimant, maxSteps, yieldOnWait))
  {
  }

  lemma OutsideKeepsTied(d: Durable, d': Durable, x: Exec)
    requires d' == CancelRun(d) || d' == d.(active := false)
    ensures Tied(d, x) ==> Tied(d', x)
    ensures DurableOk(d) ==> DurableOk(d')
  {
    hide Follows, SafeResponse, RecordedSafely;
  }

  lemma OutsideStep(s: System, act: Action, r: RunId)
    requires Can(s, act, true) && Sound(s) && AllTied(s) && (act == Cancel(r) || act == Supersede(r))
    ensures AllTied(Do(s, act))
  {
    hide Act, Fits, StepsOk, Tied, DurableOk, CancelRun;
    var s' := Do(s, act);
    forall e | LiveOn(s', e)
      ensures Tied(s'.runs[s'.execs[e].run], s'.execs[e])
    {
      assert LiveOn(s, e);
      if s.execs[e].run == r {
        OutsideKeepsTied(s.runs[r], s'.runs[r], s.execs[e]);
      }
    }
    OutsideKeepsTied(s.runs[r], s'.runs[r], Fresh(r, 0, None, false));
  }

  lemma TiedExecStep(s: System, e: ExecId, a: Answer)
    requires Can(s, Step(e, a), true) && Sound(s) && OneLive(s) && AllTied(s)
    ensures AllTied(Do(s, Step(e, a)))
    ensures Grows(s.runs[s.execs[e].run].steps, Do(s, Step(e, a)).runs[s.execs[e].run].steps)
  {
    hide Act, Fits, StepsOk, Tied, DurableOk;
    var x, s' := s.execs[e], Do(s, Step(e, a));
    assert LiveOn(s, e);
    ActTied(s.runs[x.run], s.leases, s.now, x, a);
    ActDurable(s.runs[x.run], s.leases, s.now, x, a);
    ActKeeps(s.runs[x.run], s.leases, s.now, x, a);
    assert forall g :: LiveOn(s', g) && g != e ==> LiveOn(s, g) && s.execs[g].run != x.run;
  }

  lemma TiedSystemStep(s: System, act: Action)
    requires Can(s, act, true) && Sound(s) && OneLive(s) && AllTied(s)
    ensures AllTied(Do(s, act))
    ensures forall r :: r in s.runs ==> r in Do(s, act).runs && Grows(s.runs[r].steps, Do(s, act).runs[r].steps)
  {
    hide Act, Fits, StepsOk, Tied, DurableOk;
    var s' := Do(s, act);
    if !act.Step? {
      CancelKeepsSteps(s, act);
    }
    match act {
      case Begin(e, r, claimant, maxSteps, yieldOnWait) =>
        FreshIsTied(s.runs[r], r, claimant, maxSteps, yieldOnWait);
        assert forall g :: LiveOn(s', g) && g != e ==> LiveOn(s, g);
      case Step(e, a) =>
        TiedExecStep(s, e, a);
      case Cancel(r) =>
        OutsideStep(s, act, r);
      case Supersede(r) =>
        OutsideStep(s, act, r);
      case _ =>
        assert forall g :: LiveOn(s', g) ==> LiveOn(s, g);
    }
  }

  lemma CancelKeepsSteps(s: System, act: Action)
    requires Can(s, act, false) && !act.Step?
    ensures forall r :: r in s.runs ==> r in Do(s, act).runs && Do(s, act).runs[r].steps == s.runs[r].steps
  {
  }

  lemma InitialIsTied(s: System)
    requires Initial(s)
    ensures AllTied(s) && OneLive(s)
  {
  }

  lemma {:induction false} TiedAlways(states: seq<System>, acts: seq<Action>, i: nat)
    requires Behavior(states, acts, true) && i < |states|
    ensures Sound(states[i]) && OneLive(states[i]) && AllTied(states[i])
  {
    hide Do, Initial, Can, AllTied, OneLive, Sound;
    SoundAlways(states, acts, true, i);
    if i == 0 {
      InitialIsTied(states[0]);
    } else {
      TiedAlways(states, acts, i - 1);
      assert Moves(states[i - 1], acts[i - 1], states[i - 1 + 1], true);
      OneLiveStep(states[i - 1], acts[i - 1]);
      TiedSystemStep(states[i - 1], acts[i - 1]);
    }
  }

  /**
   * Through any crashes, yields and resumes with one live execution per run, the recorded results only grow and no
   * recorded value ever changes, although the store is only assumed to overwrite.
   */
  lemma {:induction false} ResultsOnlyGrow(states: seq<System>, acts: seq<Action>, i: nat, j: nat, r: RunId)
    requires Behavior(states, acts, true) && i <= j < |states| && r in states[i].runs
    ensures r in states[j].runs && Grows(states[i].runs[r].steps, states[j].runs[r].steps)
    decreases j - i
  {
    hide Do, Initial, Can, AllTied, OneLive, Sound;
    if i == j {
    } else {
      ResultsOnlyGrow(states, acts, i, j - 1, r);
      assert Moves(states[j - 1], acts[j - 1], states[j - 1 + 1], true);
      TiedAlways(states, acts, j - 1);
      TiedSystemStep(states[j - 1], acts[j - 1]);
    }
  }

  /**
   * Whenever two executions of a run, before and after any number of crashes and resumes, are at the same stage of
   * `execute`, they see the same context, profile, plan and analysis.
   */
  lemma ResumedExecutionsAgree(states: seq<System>, acts: seq<Action>, i: nat, j: nat, e: ExecId, f: ExecId)
    requires Behavior(states, acts, true) && i <= j < |states|
    requires LiveOn(states[i], e) && LiveOn(states[j], f) && states[i].execs[e].run == states[j].execs[f].run
    requires SameStage(states[i].execs[e].point, states[j].execs[f].point)
    ensures states[i].execs[e].point == states[j].execs[f].point
  {
    hide Do, Initial, Can, Fits, StepsOk, Follows, DurableOk, SafeResponse;
    var x, y := states[i].execs[e], states[j].execs[f];
    TiedAlways(states, acts, i);
    TiedAlways(states, acts, j);
    ResultsOnlyGrow(states, acts, i, j, x.run);
    FollowsGrows(x.point, states[i].runs[x.run].steps, states[j].runs[x.run].steps);
    FollowsIsUnique(x.point, y.point, states[j].runs[x.run].steps);
  }

  /**
   * Whatever the provider answered, every delivered response that is not a question is safe for the context and the
   * plan that the run recorded: of the planned type, without overlaps unless it is the original, and for an edit
   * within its frame.
   */
  lemma DeliveredResponseIsSafe(states: seq<System>, acts: seq<Action>, i: nat, r: RunId)
    requires Behavior(states, acts, true) && i < |states| && r in states[i].runs
    requires states[i].runs[r].response.Some? && !states[i].runs[r].response.value.ClarificationRequest?
    ensures var d := states[i].runs[r];
            && ContextStep in d.steps && d.steps[ContextStep].ContextV?
            && RouteStep in d.steps && d.steps[RouteStep].PlanV?
            && SafeResponse(d.steps[ContextStep].context, d.steps[RouteStep].plan, d.response.value)
  {
    hide Do, Initial, Can, Fits, StepsOk, Tied, SafeResponse;
    TiedAlways(states, acts, i);
    var d := states[i].runs[r];
    var p: Point :| RecordedSafely(p, d.steps);
    assert FollowsAnalysis(p.ctx, p.profile, p.plan, p.analysis, d.steps);
  }

  /** Edit safety of the whole engine: a delivered chart modification keeps the frame of the recorded edit. */
  lemma DeliveredEditIsSafe(states: seq<System>, acts: seq<Action>, i: nat, r: RunId)
    requires Behavior(states, acts, true) && i < |states| && r in states[i].runs
    requires states[i].runs[r].response.Some? && states[i].runs[r].response.value.ChartModification?
    ensures var d := states[i].runs[r];
            && ContextStep in d.steps && d.steps[ContextStep].ContextV?
            && var ctx := d.steps[ContextStep].context;
               && ctx.existingDashboard.Some? && ctx.editTarget.Some?
               && KeepsFrame(ctx.existingDashboard.value, d.response.value.dashboard, Targets(ctx.editTarget.value))
  {
    hide Behavior, KeepsFrame;
    DeliveredResponseIsSafe(states, acts, i, r);
  }

  /**
   * The recorded analysis is what the last execution of the analysis code returned, the repaired one if there was
   * one, and that execution succeeded; and code is only ever repaired after it failed.
   */
  lemma AnalysisIsTheResult(states: seq<System>, acts: seq<Action>, i: nat, r: RunId)
    requires Behavior(states, acts, true) && i < |states| && r in states[i].runs
    ensures var steps := states[i].runs[r].steps;
            && (AnalysisStep in steps ==>
                  && InitialStep in steps && steps[InitialStep].ExecutionV?
                  && (RepairRunStep in steps ==> steps[RepairRunStep].ExecutionV?)
                  && var e := if RepairRunStep in steps then steps[RepairRunStep].execution else steps[InitialStep].execution;
                     e.ok && e.result.Some? && steps[AnalysisStep] == ArtifactV(e.result.value))
            && (RepairRunStep in steps ==>
                  InitialStep in steps && steps[InitialStep].ExecutionV? && !steps[InitialStep].execution.ok)
  {
    hide Do, Initial, Can, Tied, Fits, ValueOk;
    TiedAlways(states, acts, i);
    ExecutionsAreOk(states[i].runs[r].steps);
  }

  lemma ExecutionsAreOk(steps: Steps)
    requires StepsOk(steps)
    ensures InitialStep in steps ==> steps[InitialStep].ExecutionV?
    ensures RepairRunStep in steps ==> steps[RepairRunStep].ExecutionV?
  {
  }
}
