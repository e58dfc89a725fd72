/** What holds of every execution by itself, wherever it is and whatever other executions do. */
module Control {
  import opened Dashboards
  import opened RunStatuses
  import opened WorkflowTypes
  import opened EditSafety
  import opened Machine

  /** The steps that belong to each point. */
  predicate KeyFits(p: Point, k: StepKey) {
    match k
    case ContextStep => p.AtStart?
    case ProfileStep => p.HasContext?
    case RouteStep => p.HasProfile?
    case InitialStep => p.HasRoute?
    case RepairCodeStep => p.HasInitial?
    case RepairRunStep => p.HasRepairCode?
    case AnalysisStep => p.HasInitial? || p.HasExecution?
    case SynthesisStep => p.HasAnalysis?
  }

  predicate HasPlan(p: Point) {
    !p.AtStart? && !p.HasContext? && !p.HasProfile?
  }

  ghost predicate PointOk(p: Point) {
    && (!p.AtStart? ==> SchemaContext(p.ctx))
    && (HasPlan(p) ==> ValidPlan(p.plan))
    && (p.HasResponse? ==> ValidResponse(p.final))
  }

  /** A recorded value has the shape, and passed the checks, of its step. */
  ghost predicate ValueOk(k: StepKey, v: Value) {
    match k
    case ContextStep => v.ContextV? && ValidateContext(v.context).None?
    case ProfileStep => v.ArtifactV?
    case RouteStep => v.PlanV? && ValidPlan(v.plan)
    case InitialStep => v.ExecutionV?
    case RepairCodeStep => v.CodeV?
    case RepairRunStep => v.ExecutionV?
    case AnalysisStep => v.ArtifactV?
    case SynthesisStep => v.ResponseV? && ValidResponse(v.response)
  }

  ghost predicate StepsOk(steps: map<StepKey, Value>) {
    forall k :: k in steps ==> ValueOk(k, steps[k])
  }

  /** A synthesised value about to be recorded is safe for the context and plan it was made from. */
  ghost predicate ValueFits(p: Point, k: StepKey, v: Value) {
    && ValueOk(k, v)
    && (k.SynthesisStep? && p.HasAnalysis? ==> SafeResponse(p.ctx, p.plan, v.response))
    && (k.AnalysisStep? ==> v == ArtifactV(ResultOf(p)))
  }

  predicate NeedsSandbox(k: StepKey) {
    k.ProfileStep? || k.InitialStep? || k.RepairRunStep?
  }

  predicate NeedsLease(k: StepKey) {
    NeedsSandbox(k) || k.RepairCodeStep? || k.AnalysisStep?
  }

  predicate InAnalysis(p: Point) {
    p.HasInitial? || p.HasRepairCode? || p.HasExecution?
  }

  predicate CallFits(k: StepKey, c: Call) {
    && 1 <= c.attempt <= MaxAttempts(c.op)
    && match c.op
       case Route => k.RouteStep?
       case RepairCode => k.RepairCodeStep?
       case Synthesize => k.SynthesisStep?
       case RepairSynthesis => k.SynthesisStep?
  }

  predicate HasCall(w: Work) {
    w.CallDeadline? || w.CallActive? || w.CallReserve? || w.CallInvoke? || w.CallSleep?
  }

  predicate WorkFits(p: Point, k: StepKey, w: Work) {
    match w
    case FetchContext => k.ContextStep?
    case CountCommand => NeedsSandbox(k)
    case InSandbox => NeedsSandbox(k)
    case PutArtifact(doc) => k.ProfileStep? || (k.AnalysisStep? && doc == ResultOf(p))
    case CallDeadline(c) => CallFits(k, c)
    case CallActive(c) => CallFits(k, c)
    case CallReserve(c) => CallFits(k, c)
    case CallInvoke(c) => CallFits(k, c)
    case CallSleep(c, wake) => CallFits(k, c)
  }

  predicate PurposeFits(p: Point, purpose: Purpose) {
    match purpose
    case ForProfile => p.HasContext?
    case ForAnalysis => p.HasRoute? && p.plan.requiresData
  }

  /** A synthesis repair is asked only to repair an answer that is not acceptable. */
  ghost predicate RepairsRejected(p: Point, c: Call) {
    c.op.RepairSynthesis? && p.HasAnalysis? ==> !c.rejected.Oversized? && !Acceptable(p.ctx, p.plan, c.rejected)
  }

  /** The answer and the status a run may be finished with. */
  ghost predicate AnswerFits(p: Point, answer: Response, status: RunStatus) {
    && ValidResponse(answer)
    && match status
       case Completed => p.HasResponse? && answer == p.final
       case AwaitingUserInput => answer.ClarificationRequest?
       case _ => false
  }

  /** The commands an execution that reached the point can have spent. */
  function Spent(p: Point): nat {
    match p
    case AtStart => 0
    case HasContext(_) => 0
    case HasProfile(_, _) => 1
    case HasRoute(_, _, _) => 1
    case HasInitial(_, _, _, _) => 2
    case HasRepairCode(_, _, _, _, _) => 2
    case HasExecution(_, _, _, _) => 3
    case HasAnalysis(_, _, _, _) => 3
    case HasResponse(_, _, _, _, _) => 3
  }

  /** The sandbox command of the current step was already issued. */
  predicate AfterCommand(pc: Pc, k: StepKey) {
    match pc
    case Working(key, w) => key == k && (w.InSandbox? || w.PutArtifact?)
    case Rechecking(key, _) => key == k
    case Completing(key, _) => key == k
    case _ => false
  }

  predicate AfterItsCommand(pc: Pc) {
    AfterCommand(pc, ProfileStep) || AfterCommand(pc, InitialStep) || AfterCommand(pc, RepairRunStep)
  }

  /** The execution is on its way out. */
  predicate Leaving(pc: Pc) {
    pc.Handling? || pc.Terminating? || pc.Cleanup? || pc.Releasing? || pc.Returned?
  }

  ghost predicate PcFits(x: Exec) {
    match x.pc
    case Claiming => x.point.AtStart? && x.lease.None?
    case ReadingStart => x.point.AtStart? && x.lease.None?
    case Deciding => true
    case Loading(_, next) => KeyFits(x.point, next) && !NeedsLease(next) && !next.ContextStep?
    case Probing(k) =>
      || (k.ProfileStep? && x.point.HasContext? && x.lease.None?)
      || (k.AnalysisStep? && PurposeFits(x.point, ForAnalysis))
    case CapacityBegin(purpose) => PurposeFits(x.point, purpose) && x.lease.None?
    case CapacityAcquire(purpose) => PurposeFits(x.point, purpose) && x.lease.None?
    case CapacityRecord(purpose) => PurposeFits(x.point, purpose) && x.lease.None?
    case CapacityBusy(purpose, _) => PurposeFits(x.point, purpose) && x.lease.None?
    case CapacitySleep(purpose, _) => PurposeFits(x.point, purpose) && x.lease.None?
    case CapacityActive(purpose) => PurposeFits(x.point, purpose) && x.lease.None?
    case Deadline(k) => KeyFits(x.point, k) && (NeedsLease(k) ==> x.lease.Some?)
    case Active(k) => KeyFits(x.point, k) && (NeedsLease(k) ==> x.lease.Some?)
    case Lookup(k) => KeyFits(x.point, k) && (NeedsLease(k) ==> x.lease.Some?)
    case Starting(k) => KeyFits(x.point, k) && (NeedsLease(k) ==> x.lease.Some?)
    case Working(k, w) =>
      && KeyFits(x.point, k) && (NeedsLease(k) ==> x.lease.Some?) && WorkFits(x.point, k, w)
      && (HasCall(w) ==> RepairsRejected(x.point, w.call))
    case Rechecking(k, v) => KeyFits(x.point, k) && (NeedsLease(k) ==> x.lease.Some?) && ValueFits(x.point, k, v)
    case Completing(k, v) => KeyFits(x.point, k) && (NeedsLease(k) ==> x.lease.Some?) && ValueFits(x.point, k, v)
    case FinishActive(answer, status) => AnswerFits(x.point, answer, status)
    case FinishPut(answer, status) => AnswerFits(x.point, answer, status)
    case FinishCommit(answer, status) => AnswerFits(x.point, answer, status)
    case Handling(_) => true
    case Terminating(_) => true
    case Cleanup(_) => true
    case Releasing(_) => true
    case Returned(_) => x.lease.None?
  }

  /** The control invariant of an execution. */
  ghost predicate Fits(x: Exec) {
    && PointOk(x.point)
    && PcFits(x)
    && (x.lease.Some? ==> x.lease.value.run == x.run)
    && (x.point.AtStart? || (x.point.HasContext? && x.pc.Deciding?) ==> x.lease.None?)
    && (InAnalysis(x.point) && !Leaving(x.pc) ==> x.lease.Some?)
    && (!Leaving(x.pc) ==> x.commands <= Spent(x.point) + if AfterItsCommand(x.pc) then 1 else 0)
  }

  lemma FitsOpening(d: Durable, leases: set<Lease>, now: Time, x: Exec, a: Answer)
    requires Fits(x) && StepsOk(d.steps)
    requires x.pc.Claiming? || x.pc.ReadingStart? || x.pc.Loading? || x.pc.Probing?
    ensures Fits(Act(d, leases, now, x, a).x)
  {
    hide SchemaContext, ValidResponse, ValidPlan, SafeResponse, ValidateContext, ValidateSynthesisOutput, Fallback;
  }

  lemma FitsDeciding(d: Durable, leases: set<Lease>, now: Time, x: Exec, a: Answer)
    requires Fits(x) && x.pc.Deciding?
    ensures Fits(Act(d, leases, now, x, a).x)
  {
    hide SchemaContext, ValidDashboard, ValidPlan, SafeResponse, ValidateContext, ValidateSynthesisOutput, Fallback, Preflight;
  }

  lemma FitsWaiting(d: Durable, leases: set<Lease>, now: Time, x: Exec, a: Answer)
    requires Fits(x)
    requires x.pc.CapacityBegin? || x.pc.CapacityAcquire? || x.pc.CapacityRecord? || x.pc.CapacityBusy? ||
             x.pc.CapacitySleep? || x.pc.CapacityActive?
    ensures Fits(Act(d, leases, now, x, a).x)
  {
    hide SchemaContext, ValidResponse, ValidPlan, SafeResponse, ValidateContext, ValidateSynthesisOutput, Fallback;
  }

  /** Where a result of a step leads. */
  lemma AdvanceFits(p: Point, k: StepKey, v: Value)
    requires PointOk(p) && KeyFits(p, k) && ValueOk(k, v)
    ensures Advance(p, k, v).Some?
    ensures var q := Advance(p, k, v).value;
            && PointOk(q) && !q.AtStart? && (q.HasContext? ==> k.ContextStep?) && (InAnalysis(q) ==> NeedsLease(k))
            && Spent(q) >= Spent(p) + if NeedsSandbox(k) then 1 else 0
  {
    hide SchemaContext, ValidResponse, ValidPlan;
    if k.ContextStep? {
      ValidatedIsSchema(v.context);
    }
  }

  lemma ValidatedIsSchema(ctx: RunContext)
    requires ValidateContext(ctx).None?
    ensures SchemaContext(ctx)
  {
    hide SchemaContext;
  }

  lemma FitsStepping(d: Durable, leases: set<Lease>, now: Time, x: Exec, a: Answer)
    requires Fits(x) && StepsOk(d.steps)
    requires x.pc.Deadline? || x.pc.Active? || x.pc.Lookup?
    ensures Fits(Act(d, leases, now, x, a).x)
  {
    hide SchemaContext, ValidResponse, ValidPlan, SafeResponse, ValidateContext, ValidateSynthesisOutput, Fallback;
  }

  lemma FitsAround(d: Durable, leases: set<Lease>, now: Time, x: Exec, a: Answer)
    requires Fits(x) && (x.pc.Starting? || x.pc.Rechecking?)
    ensures Fits(Act(d, leases, now, x, a).x)
  {
    hide SchemaContext, ValidResponse, ValidPlan, SafeResponse, ValidateContext, ValidateSynthesisOutput, Fallback;
  }

  lemma FitsCompleting(d: Durable, leases: set<Lease>, now: Time, x: Exec, a: Answer)
    requires Fits(x) && StepsOk(d.steps) && x.pc.Completing?
    ensures Fits(Act(d, leases, now, x, a).x)
  {
    hide PointOk, ValueOk, Advance, SafeResponse, ResultOf;
    AdvanceFits(x.point, x.pc.key, x.pc.value);
  }

  lemma StepsStayOk(d: Durable, leases: set<Lease>, now: Time, x: Exec, a: Answer)
    requires Fits(x) && StepsOk(d.steps) && x.pc.Completing?
    ensures StepsOk(Act(d, leases, now, x, a).d.steps)
  {
    hide PointOk, ValueOk, Arrive;
  }

  lemma FitsSandbox(d: Durable, leases: set<Lease>, now: Time, x: Exec, a: Answer)
    requires Fits(x) && x.pc.Working?
    requires x.pc.work.FetchContext? || x.pc.work.CountCommand? || x.pc.work.InSandbox? || x.pc.work.PutArtifact?
    ensures Fits(Act(d, leases, now, x, a).x)
  {
    hide SchemaContext, ValidResponse, ValidPlan, SafeResponse, ValidateContext, ValidateSynthesisOutput, Fallback;
  }

  lemma FitsCall(d: Durable, leases: set<Lease>, now: Time, x: Exec, a: Answer)
    requires Fits(x) && x.pc.Working?
    requires x.pc.work.CallDeadline? || x.pc.work.CallActive? || x.pc.work.CallSleep?
    ensures Fits(Act(d, leases, now, x, a).x)
  {
    hide PointOk, ValueOk;
  }

  lemma FitsReserve(d: Durable, leases: set<Lease>, now: Time, x: Exec, a: Answer)
    requires Fits(x) && x.pc.Working? && x.pc.work.CallReserve?
    ensures Fits(Act(d, leases, now, x, a).x)
  {
    hide PointOk, ValueOk, Acceptable;
  }

  lemma FitsInvoke(d: Durable, leases: set<Lease>, now: Time, x: Exec, a: Answer)
    requires Fits(x) && x.pc.Working? && x.pc.work.CallInvoke?
    ensures Fits(Act(d, leases, now, x, a).x)
  {
    hide SchemaContext, ValidResponse, ValidPlan, SafeResponse, ValidateContext, ValidateSynthesisOutput, Fallback,
      Acceptable;
    var raw := if a.Says? then a.raw else Garbage;
    if x.point.HasAnalysis? {
      var ctx, plan := x.point.ctx, x.point.plan;
      AcceptanceIsExact(ctx, plan, raw);
      if ValidateSynthesisOutput(ctx, plan, raw).Accepted? {
        AcceptedIsSafe(ctx, plan, raw);
      } else if Fallback(ctx, plan).Some? {
        FallbackIsSafe(ctx, plan);
      }
    }
  }

  lemma FitsFinish(d: Durable, leases: set<Lease>, now: Time, x: Exec, a: Answer)
    requires Fits(x) && (x.pc.FinishActive? || x.pc.FinishPut? || x.pc.FinishCommit?)
    ensures Fits(Act(d, leases, now, x, a).x)
  {
    hide PointOk, ValueOk, ValidResponse;
  }

  lemma FitsLeaving(d: Durable, leases: set<Lease>, now: Time, x: Exec, a: Answer)
    requires Fits(x)
    requires x.pc.Handling? || x.pc.Terminating? || x.pc.Cleanup? || x.pc.Releasing? || x.pc.Returned?
    ensures Fits(Act(d, leases, now, x, a).x)
  {
    hide PointOk, ValueOk, ValidResponse;
  }

  /** Every step keeps the control invariant, and only `Completing` touches the recorded results. */
  lemma ActFits(d: Durable, leases: set<Lease>, now: Time, x: Exec, a: Answer)
    requires Fits(x) && StepsOk(d.steps)
    ensures Fits(Act(d, leases, now, x, a).x)
  {
    hide *;
    if x.pc.Claiming? || x.pc.ReadingStart? || x.pc.Loading? || x.pc.Probing? {
      FitsOpening(d, leases, now, x, a);
    } else if x.pc.Deciding? {
      FitsDeciding(d, leases, now, x, a);
    } else if x.pc.CapacityBegin? || x.pc.CapacityAcquire? || x.pc.CapacityRecord? || x.pc.CapacityBusy? ||
              x.pc.CapacitySleep? || x.pc.CapacityActive? {
      FitsWaiting(d, leases, now, x, a);
    } else if x.pc.Deadline? || x.pc.Active? || x.pc.Lookup? {
      FitsStepping(d, leases, now, x, a);
    } else if x.pc.Starting? || x.pc.Rechecking? {
      FitsAround(d, leases, now, x, a);
    } else if x.pc.Completing? {
      FitsCompleting(d, leases, now, x, a);
    } else if x.pc.Working? {
      if x.pc.work.CallInvoke? {
        FitsInvoke(d, leases, now, x, a);
      } else if x.pc.work.CallReserve? {
        FitsReserve(d, leases, now, x, a);
      } else if x.pc.work.CallDeadline? || x.pc.work.CallActive? || x.pc.work.CallSleep? {
        FitsCall(d, leases, now, x, a);
      } else {
        FitsSandbox(d, leases, now, x, a);
      }
    } else if x.pc.FinishActive? || x.pc.FinishPut? || x.pc.FinishCommit? {
      FitsFinish(d, leases, now, x, a);
    } else {
      FitsLeaving(d, leases, now, x, a);
    }
  }
}
