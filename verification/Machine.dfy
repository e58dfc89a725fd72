/**
 * The workflow engine as a state machine whose atomic steps are its port calls.
 *
 * A run's `Durable` part survives a crash; an `Exec` is one call of `execute`, holding the engine's fields, the
 * live locals (`Point`) and a program counter. A port call may throw; between any two steps another execution,
 * the clock, a cancellation or a crash may intervene (`Systems`).
 */
module Machine {
  import opened RunStatuses
  import opened WorkflowTypes
  import opened EditSafety

  type RunId = nat
  type Time = int
  type Doc = string

  const WORKFLOW_DEADLINE_MS := 20 * 60_000
  const CAPACITY_WAIT_MS := 10 * 60_000
  const CAPACITY_BACKOFF_MS := 15_000
  const MAX_RETRY_DELAY_MS := 60_000
  const MAX_SANDBOX_COMMANDS := 3
  const MAX_PROVIDER_CALLS := 5
  const SANDBOX_SLOTS := 2
  const MAX_PROFILE_BYTES := 256 * 1024
  const MAX_ANALYSIS_BYTES := 512 * 1024

  // ---------------------------------------------------------------- step keys, calls and values

  datatype StepKey =
    | ContextStep | ProfileStep | RouteStep | InitialStep | RepairCodeStep | RepairRunStep | AnalysisStep | SynthesisStep

  datatype Op = Route | RepairCode | Synthesize | RepairSynthesis

  function MaxAttempts(op: Op): nat {
    if op.Route? then 2 else 1
  }

  datatype CallKey = CallKey(op: Op, attempt: nat)

  /** A sandbox result: `error` carries the code of the failure it reports. */
  datatype Execution = Execution(ok: bool, result: Option<Doc>, error: Option<string>)

  /** An artifact is immutable and addressed by its content, so a reference is modelled as the content. */
  datatype Value =
    | ContextV(context: RunContext)
    | ArtifactV(doc: Doc)
    | PlanV(plan: RoutePlan)
    | ExecutionV(execution: Execution)
    | CodeV(code: string)
    | ResponseV(response: Response)

  datatype FaultCode =
    | CANCELLED | CAPACITY_BUSY | WORKFLOW_DEADLINE_EXCEEDED | PROVIDER_CALL_OUTCOME_UNKNOWN
    | PROVIDER_CALL_BUDGET_EXCEEDED | SANDBOX_COMMAND_BUDGET_EXCEEDED | MODEL_OUTPUT_INVALID | INVALID_CONTEXT
    | INPUT_TOO_LARGE | DUPLICATE_ASSET | PROFILE_TOO_LARGE | PROFILE_REQUIRED | ANALYSIS_CODE_MISSING
    | SANDBOX_INVALID_RESULT | ANALYSIS_FAILED | ANALYSIS_RESULT_TOO_LARGE | INTERNAL_ERROR | OTHER(name: string)

  datatype Fault = Fault(code: FaultCode, retryable: bool, retryAfter: Option<nat>)

  function Fatal(code: FaultCode): Fault {
    Fault(code, false, None)
  }

  /** The internal yield is thrown like an error but is not a fault. */
  datatype Error = Yield(retryAfter: nat) | Failure(fault: Fault)

  // ---------------------------------------------------------------- durable state and executions

  datatype Purpose = ForProfile | ForAnalysis

  datatype Lease = Lease(run: RunId, purpose: Purpose)

  datatype Durable = Durable(
    status: RunStatus,
    cancelRequested: bool,
    active: bool,
    claimedBy: Option<nat>,
    createdAt: Time,
    startedAt: Option<Time>,
    steps: map<StepKey, Value>,
    marks: set<Purpose>,
    reserved: set<CallKey>,
    response: Option<Response>)

  /** The points between two steps of `execute`, each with the locals that are in scope and used again. */
  datatype Point =
    | AtStart
    | HasContext(ctx: RunContext)
    | HasProfile(ctx: RunContext, profile: Option<Doc>)
    | HasRoute(ctx: RunContext, profile: Option<Doc>, plan: RoutePlan)
    | HasInitial(ctx: RunContext, profile: Option<Doc>, plan: RoutePlan, execution: Execution)
    | HasRepairCode(ctx: RunContext, profile: Option<Doc>, plan: RoutePlan, execution: Execution, code: string)
    | HasExecution(ctx: RunContext, profile: Option<Doc>, plan: RoutePlan, execution: Execution)
    | HasAnalysis(ctx: RunContext, profile: Option<Doc>, plan: RoutePlan, analysis: Option<Doc>)
    | HasResponse(ctx: RunContext, profile: Option<Doc>, plan: RoutePlan, analysis: Option<Doc>, final: Response)

  /** One attempt of a provider call; `rejected` is the answer a synthesis repair is asked to repair. */
  datatype Call = Call(op: Op, attempt: nat, rejected: Raw)

  function KeyOf(c: Call): CallKey {
    CallKey(c.op, c.attempt)
  }

  /** Where the effect of a step is. */
  datatype Work =
    | FetchContext
    | CountCommand
    | InSandbox
    | PutArtifact(doc: Doc)
    | CallDeadline(call: Call)
    | CallActive(call: Call)
    | CallReserve(call: Call)
    | CallInvoke(call: Call)
    | CallSleep(call: Call, wake: Time)

  datatype Outcome =
    | Ignored
    | Replayed(response: Option<Response>)
    | Committed(committed: Response)
    | Paused(retryAfter: nat)
    | Ended(status: RunStatus)
    | Thrown

  datatype Pc =
    | Claiming
    | ReadingStart
    | Deciding
    | Loading(doc: Doc, next: StepKey)
    | Probing(key: StepKey)
    | CapacityBegin(purpose: Purpose)
    | CapacityAcquire(purpose: Purpose)
    | CapacityRecord(purpose: Purpose)
    | CapacityBusy(purpose: Purpose, busy: Fault)
    | CapacitySleep(purpose: Purpose, wake: Time)
    | CapacityActive(purpose: Purpose)
    | Deadline(key: StepKey)
    | Active(key: StepKey)
    | Lookup(key: StepKey)
    | Starting(key: StepKey)
    | Working(key: StepKey, work: Work)
    | Rechecking(key: StepKey, value: Value)
    | Completing(key: StepKey, value: Value)
    | FinishActive(answer: Response, status: RunStatus)
    | FinishPut(answer: Response, status: RunStatus)
    | FinishCommit(answer: Response, status: RunStatus)
    | Handling(error: Error)
    | Terminating(fault: Fault)
    | Cleanup(outcome: Outcome)
    | Releasing(outcome: Outcome)
    | Returned(outcome: Outcome)

  datatype Exec = Exec(
    run: RunId,
    claimant: nat,
    maxSteps: Option<nat>,
    yieldOnWait: bool,
    pc: Pc,
    point: Point,
    lease: Option<Lease>,
    startedAt: Time,
    commands: nat,
    completed: nat)

  /**
   * What a port answers: it throws, or it succeeds and returns whatever the engine asked for. A call that throws
   * `late` took its effect before its reply was lost.
   */
  datatype Answer = Throws(fault: Fault, late: bool) | Gives(value: Value) | Says(raw: Raw) | Done

  datatype Event =
    | Silent
    | Invoked(call: CallKey)
    | Commanded(key: StepKey)
    | Recorded(key: StepKey)
    | Delivered(response: Response)
    | Held(lease: Lease)
    | Released(lease: Lease)

  datatype Effects = Effects(d: Durable, leases: set<Lease>, x: Exec, event: Event)

  // ---------------------------------------------------------------- pure decisions of the engine

  /** A provider call or a sandbox command is under way. */
  predicate Issued(pc: Pc) {
    pc.Working? && (pc.work.InSandbox? || pc.work.CallInvoke?)
  }

  /** Where an execution goes next: its locals and its program counter. */
  datatype Move = Move(point: Point, pc: Pc)

  function Go(x: Exec, m: Move): Exec {
    x.(point := m.point, pc := m.pc)
  }

  /** No call is under way there and no lease was just granted. */
  predicate Plain(m: Move) {
    !Issued(m.pc) && !m.pc.CapacityRecord?
  }

  /** Not on the way out of `execute`, except by an error. */
  predicate Underway(m: Move) {
    !m.pc.Cleanup? && !m.pc.Releasing? && !m.pc.Returned?
  }

  /** Only the program counter and the locals differ. */
  predicate Moved(x: Exec, next: Exec) {
    next == Go(x, Move(next.point, next.pc)) && Plain(Move(next.point, next.pc))
  }

  /** Still at the effect of the step, done with it, or failed. */
  predicate StaysIn(p: Point, m: Move, k: StepKey) {
    && m.point == p
    && ((m.pc.Working? && m.pc.key == k) || (m.pc.Rechecking? && m.pc.key == k) || (m.pc.Handling? && m.pc.error.Failure?))
  }

  function FailAt(p: Point, fault: Fault): Move {
    Move(p, Handling(Failure(fault)))
  }

  function To(x: Exec, pc: Pc): Exec {
    x.(pc := pc)
  }

  function Raise(x: Exec, fault: Fault): Exec {
    x.(pc := Handling(Failure(fault)))
  }

  function Preflight(ctx: RunContext): (question: Option<Response>)
    ensures question.Some? ==> question.value.ClarificationRequest? && |ctx.assets| >= 2
  {
    if |ctx.assets| < 2 || ctx.promptNamesAsset || ctx.promptCombines then None
    else
      Some(ClarificationRequest(
             "Which data source should I analyze?", "asset-" + ctx.runId, "asset",
             seq(|ctx.assets|, i requires 0 <= i < |ctx.assets| => Choice(ctx.assets[i].id, ctx.assets[i].fileName))))
  }

  function ValidateContext(ctx: RunContext): (fault: Option<Fault>)
    ensures fault.None? ==> SchemaContext(ctx)
  {
    if !SchemaContext(ctx) then Some(Fatal(INVALID_CONTEXT))
    else if TotalBytes(ctx.assets) > MAX_AGGREGATE_BYTES then Some(Fatal(INPUT_TOO_LARGE))
    else if |set a | a in ctx.assets :: a.id| != |ctx.assets| then Some(Fatal(DUPLICATE_ASSET))
    else None
  }

  function ClarificationOf(c: Clarification): Response {
    ClarificationRequest(c.question, c.id, c.reason, c.options)
  }

  /** The engine compares codes as text, so a sandbox that reports this code is taken for a cancellation. */
  function CodeNamed(name: string): FaultCode {
    if name == "CANCELLED" then CANCELLED else OTHER(name)
  }

  /** After the analysis ran, or ran again repaired. */
  function Conclude(p: Point, e: Execution): (m: Move)
    ensures Plain(m) && Underway(m)
  {
    if !e.ok || e.result.None? then
      FailAt(p, Fatal(if e.error.Some? then CodeNamed(e.error.value) else ANALYSIS_FAILED))
    else if |e.result.value| > MAX_ANALYSIS_BYTES then FailAt(p, Fatal(ANALYSIS_RESULT_TOO_LARGE))
    else Move(p, Deadline(AnalysisStep))
  }

  /** What `execute` does next, from the locals alone. */
  function Decide(p: Point): (m: Move)
    ensures Plain(m) && Underway(m)
  {
    match p
    case AtStart => Move(p, Deadline(ContextStep))
    case HasContext(ctx) =>
      var question := Preflight(ctx);
      if question.Some? then Move(p, FinishActive(question.value, AwaitingUserInput))
      else if |ctx.assets| > 0 then Move(p, Probing(ProfileStep))
      else Move(HasProfile(ctx, None), Deciding)
    case HasProfile(ctx, profile) =>
      if profile.Some? then Move(p, Loading(profile.value, RouteStep)) else Move(p, Deadline(RouteStep))
    case HasRoute(ctx, profile, plan) =>
      if plan.responseType.ClarificationType? then
        if plan.clarification.None? then FailAt(p, Fatal(MODEL_OUTPUT_INVALID))
        else Move(p, FinishActive(ClarificationOf(plan.clarification.value), AwaitingUserInput))
      else if plan.requiresData then
        if profile.None? then FailAt(p, Fatal(PROFILE_REQUIRED)) else Move(p, Probing(AnalysisStep))
      else Move(HasAnalysis(ctx, profile, plan, None), Deciding)
    case HasInitial(ctx, profile, plan, e) =>
      if e.ok then Conclude(p, e)
      else if e.error.None? then FailAt(p, Fatal(SANDBOX_INVALID_RESULT))
      else Move(p, Deadline(RepairCodeStep))
    case HasRepairCode(ctx, profile, plan, e, code) => Move(p, Deadline(RepairRunStep))
    case HasExecution(ctx, profile, plan, e) => Conclude(p, e)
    case HasAnalysis(ctx, profile, plan, analysis) =>
      if analysis.Some? then Move(p, Loading(analysis.value, SynthesisStep)) else Move(p, Deadline(SynthesisStep))
    case HasResponse(ctx, profile, plan, analysis, final) => Move(p, FinishActive(final, Completed))
  }

  /** The entry of the analysis phase, once a lease is held. */
  function EnterAnalysis(p: Point): (m: Move)
    ensures Plain(m) && Underway(m)
  {
    if p.HasRoute? && !HasCode(p.plan) then FailAt(p, Fatal(ANALYSIS_CODE_MISSING))
    else Move(p, Deadline(InitialStep))
  }

  /** The locals after a step returned `v`; a value of another shape is of no use to the code that reads it. */
  function Advance(p: Point, k: StepKey, v: Value): Option<Point> {
    match (k, p, v)
    case (ContextStep, AtStart, ContextV(ctx)) => Some(HasContext(ctx))
    case (ProfileStep, HasContext(ctx), ArtifactV(doc)) => Some(HasProfile(ctx, Some(doc)))
    case (RouteStep, HasProfile(ctx, profile), PlanV(plan)) => Some(HasRoute(ctx, profile, plan))
    case (InitialStep, HasRoute(ctx, profile, plan), ExecutionV(e)) => Some(HasInitial(ctx, profile, plan, e))
    case (RepairCodeStep, HasInitial(ctx, profile, plan, e), CodeV(code)) =>
      Some(HasRepairCode(ctx, profile, plan, e, code))
    case (RepairRunStep, HasRepairCode(ctx, profile, plan, e, code), ExecutionV(again)) =>
      Some(HasExecution(ctx, profile, plan, again))
    case (AnalysisStep, HasInitial(ctx, profile, plan, e), ArtifactV(doc)) =>
      Some(HasAnalysis(ctx, profile, plan, Some(doc)))
    case (AnalysisStep, HasExecution(ctx, profile, plan, e), ArtifactV(doc)) =>
      Some(HasAnalysis(ctx, profile, plan, Some(doc)))
    case (AnalysisStep, HasRoute(ctx, profile, plan), ArtifactV(doc)) =>
      Some(HasAnalysis(ctx, profile, plan, Some(doc)))
    case (SynthesisStep, HasAnalysis(ctx, profile, plan, analysis), ResponseV(r)) =>
      Some(HasResponse(ctx, profile, plan, analysis, r))
    case _ => None
  }

  function Arrive(p: Point, k: StepKey, v: Value): (m: Move)
    ensures Plain(m) && Underway(m)
  {
    var q := Advance(p, k, v);
    if q.Some? then Move(q.value, Deciding) else FailAt(p, Fatal(INTERNAL_ERROR))
  }

  /** The result the analysis step persists. */
  function ResultOf(p: Point): Doc {
    if (p.HasInitial? || p.HasExecution?) && p.execution.result.Some? then p.execution.result.value else ""
  }

  function FirstWork(p: Point, k: StepKey): (w: Work)
    ensures !w.InSandbox? && !w.CallInvoke?
  {
    match k
    case ContextStep => FetchContext
    case ProfileStep => CountCommand
    case RouteStep => CallDeadline(Call(Route, 1, Garbage))
    case InitialStep => CountCommand
    case RepairCodeStep => CallDeadline(Call(RepairCode, 1, Garbage))
    case RepairRunStep => CountCommand
    case AnalysisStep => PutArtifact(ResultOf(p))
    case SynthesisStep => CallDeadline(Call(Synthesize, 1, Garbage))
  }

  // ---------------------------------------------------------------- atomic steps

  /** The check that the run may go on: it fails on an abort, a requested cancellation or a terminal status. */
  function ActiveFault(d: Durable, a: Answer): Option<Fault> {
    if a.Throws? then Some(a.fault)
    else if d.cancelRequested || d.status.Cancelling? || IsTerminal(d.status) then Some(Fatal(CANCELLED))
    else None
  }

  function Check(d: Durable, x: Exec, a: Answer, next: Pc): Exec {
    var fault := ActiveFault(d, a);
    if fault.Some? then Raise(x, fault.value) else To(x, next)
  }

  function CheckDeadline(now: Time, x: Exec, next: Pc): Exec {
    if now - x.startedAt >= WORKFLOW_DEADLINE_MS then Raise(x, Fault(WORKFLOW_DEADLINE_EXCEEDED, true, None))
    else To(x, next)
  }

  /** A call that only has to succeed. */
  function Pass(x: Exec, a: Answer, next: Pc): Exec {
    if a.Throws? then Raise(x, a.fault) else To(x, next)
  }

  function Claimed(d: Durable, now: Time, claimant: nat): Durable {
    d.(status := Running, claimedBy := Some(claimant), startedAt := Some(now))
  }

  function ActClaim(d: Durable, leases: set<Lease>, now: Time, x: Exec, a: Answer): Effects {
    if a.Throws? then
      Effects(if a.late && d.status.Queued? then Claimed(d, now, x.claimant) else d, leases, To(x, Returned(Thrown)),
              Silent)
    else if IsTerminal(d.status) then Effects(d, leases, To(x, Returned(Replayed(d.response))), Silent)
    else if d.status.Queued? then Effects(Claimed(d, now, x.claimant), leases, To(x, ReadingStart), Silent)
    else if d.claimedBy == Some(x.claimant) then Effects(d, leases, To(x, ReadingStart), Silent)
    else Effects(d, leases, To(x, Returned(Ignored)), Silent)
  }

  function ActReadStart(d: Durable, x: Exec, a: Answer): Exec {
    if a.Throws? then To(x, Returned(Thrown))
    else x.(startedAt := if d.startedAt.Some? then d.startedAt.value else d.createdAt, pc := Deciding)
  }

  /** The two early look-ups that decide whether a lease is needed at all. */
  function ActProbe(d: Durable, x: Exec, k: StepKey, a: Answer): Exec {
    if a.Throws? then Raise(x, a.fault)
    else if k in d.steps then Go(x, Arrive(x.point, k, d.steps[k]))
    else if k.ProfileStep? then To(x, CapacityBegin(ForProfile))
    else if x.lease.Some? then Go(x, EnterAnalysis(x.point))
    else To(x, CapacityBegin(ForAnalysis))
  }

  const CAPACITY_FAULT := Fault(CAPACITY_BUSY, true, None)

  /** An error caught inside the capacity loop. */
  function CaughtInCapacity(x: Exec, purpose: Purpose, fault: Fault): Exec {
    if !fault.retryable || fault.code != CAPACITY_BUSY then Raise(x, fault) else To(x, CapacityBusy(purpose, fault))
  }

  function ActCapacityAcquire(d: Durable, leases: set<Lease>, now: Time, x: Exec, purpose: Purpose, a: Answer): Effects {
    var lease := Lease(x.run, purpose);
    var granted := lease in leases || |leases| < SANDBOX_SLOTS;
    if now - x.startedAt >= CAPACITY_WAIT_MS then Effects(d, leases, Raise(x, CAPACITY_FAULT), Silent)
    else if a.Throws? then
      Effects(d, if a.late && granted then leases + {lease} else leases, CaughtInCapacity(x, purpose, a.fault), Silent)
    else if granted then
      Effects(d, leases + {lease}, To(x, CapacityRecord(purpose)), Silent)
    else
      Effects(d, leases, CaughtInCapacity(x, purpose, Fault(CAPACITY_BUSY, true, Some(CAPACITY_BACKOFF_MS))), Silent)
  }

  function ActCapacityRecord(d: Durable, leases: set<Lease>, x: Exec, purpose: Purpose, a: Answer): Effects {
    if a.Throws? then
      Effects(if a.late then d.(marks := d.marks + {purpose}) else d, leases, CaughtInCapacity(x, purpose, a.fault),
              Silent)
    else
      var held := x.(lease := Some(Lease(x.run, purpose)));
      Effects(d.(marks := d.marks + {purpose}), leases,
              if purpose.ForProfile? then To(held, Deadline(ProfileStep)) else Go(held, EnterAnalysis(x.point)),
              Held(held.lease.value))
  }

  function Min(a: int, b: int): int {
    if a < b then a else b
  }

  function ActCapacityBusy(now: Time, x: Exec, purpose: Purpose, busy: Fault): Exec {
    var remaining := CAPACITY_WAIT_MS - (now - x.startedAt);
    if remaining <= 0 then Raise(x, CAPACITY_FAULT)
    else
      var delay := Min(if busy.retryAfter.Some? then busy.retryAfter.value else CAPACITY_BACKOFF_MS, remaining);
      if x.yieldOnWait then To(x, Handling(Yield(delay))) else To(x, CapacitySleep(purpose, now + delay))
  }

  function ActLookup(d: Durable, x: Exec, k: StepKey, a: Answer): Exec {
    if a.Throws? then Raise(x, a.fault)
    else if k in d.steps then Go(x, Arrive(x.point, k, d.steps[k]))
    else To(x, Starting(k))
  }

  function ActComplete(d: Durable, leases: set<Lease>, x: Exec, k: StepKey, v: Value, a: Answer): Effects {
    if a.Throws? && !a.late then Effects(d, leases, Raise(x, a.fault), Silent)
    else if a.Throws? then Effects(d.(steps := d.steps[k := v]), leases, Raise(x, a.fault), Recorded(k))
    else
      var counted := x.(completed := x.completed + 1);
      Effects(d.(steps := d.steps[k := v]), leases,
              if x.maxSteps.Some? && counted.completed >= x.maxSteps.value then To(counted, Handling(Yield(0)))
              else Go(counted, Arrive(x.point, k, v)),
              Recorded(k))
  }

  /** The executed code and the profile each cost one command of the execution's budget. */
  function ActCount(d: Durable, leases: set<Lease>, x: Exec, k: StepKey): Effects {
    var counted := x.(commands := x.commands + 1);
    if counted.commands > MAX_SANDBOX_COMMANDS then
      Effects(d, leases, Raise(counted, Fatal(SANDBOX_COMMAND_BUDGET_EXCEEDED)), Silent)
    else Effects(d, leases, To(counted, Working(k, InSandbox)), Commanded(k))
  }

  function ActSandbox(p: Point, k: StepKey, a: Answer): (m: Move)
    ensures Plain(m)
    ensures m.pc.Working? ==> m.pc.work.PutArtifact?
    ensures StaysIn(p, m, k)
  {
    if a.Throws? then FailAt(p, a.fault)
    else if k.ProfileStep? && a.Gives? && a.value.ArtifactV? then
      if |a.value.doc| > MAX_PROFILE_BYTES then FailAt(p, Fatal(PROFILE_TOO_LARGE))
      else Move(p, Working(k, PutArtifact(a.value.doc)))
    else if !k.ProfileStep? && a.Gives? && a.value.ExecutionV? then Move(p, Rechecking(k, a.value))
    else FailAt(p, Fatal(INTERNAL_ERROR))
  }

  function ActFetchContext(p: Point, k: StepKey, a: Answer): (m: Move)
    ensures Plain(m)
    ensures StaysIn(p, m, k)
  {
    if a.Throws? then FailAt(p, a.fault)
    else if !a.Gives? || !a.value.ContextV? then FailAt(p, Fatal(INVALID_CONTEXT))
    else
      var fault := ValidateContext(a.value.context);
      if fault.Some? then FailAt(p, fault.value) else Move(p, Rechecking(k, a.value))
  }

  /** A failed attempt: give up, or sleep and try again. */
  function AfterFailedAttempt(now: Time, p: Point, k: StepKey, c: Call, fault: Fault): (m: Move)
    ensures Plain(m)
    ensures StaysIn(p, m, k)
  {
    if !fault.retryable || c.attempt >= MaxAttempts(c.op) then FailAt(p, fault)
    else
      var fallback := if c.attempt <= 1 then 2_000 else 8_000;
      var delay := Min(if fault.retryAfter.Some? then fault.retryAfter.value else fallback, MAX_RETRY_DELAY_MS);
      Move(p, Working(k, CallSleep(c.(attempt := c.attempt + 1), now + delay)))
  }

  function ActReserve(d: Durable, leases: set<Lease>, now: Time, x: Exec, k: StepKey, c: Call, a: Answer): Effects {
    var free := KeyOf(c) !in d.reserved && |d.reserved| < MAX_PROVIDER_CALLS;
    if a.Throws? then
      Effects(if a.late && free then d.(reserved := d.reserved + {KeyOf(c)}) else d, leases,
              Go(x, AfterFailedAttempt(now, x.point, k, c, a.fault)), Silent)
    else if KeyOf(c) in d.reserved then
      Effects(d, leases, Go(x, AfterFailedAttempt(now, x.point, k, c, Fatal(PROVIDER_CALL_OUTCOME_UNKNOWN))), Silent)
    else if |d.reserved| >= MAX_PROVIDER_CALLS then
      Effects(d, leases, Go(x, AfterFailedAttempt(now, x.point, k, c, Fatal(PROVIDER_CALL_BUDGET_EXCEEDED))), Silent)
    else
      Effects(d.(reserved := d.reserved + {KeyOf(c)}), leases, To(x, Working(k, CallInvoke(c))), Silent)
  }

  function Deliver(p: Point, k: StepKey, c: Call, raw: Raw): (m: Move)
    ensures Plain(m)
    ensures m.pc.Working? ==> c.op.Synthesize? && m.pc.work == CallDeadline(Call(RepairSynthesis, 1, raw))
    ensures StaysIn(p, m, k)
  {
    match c.op
    case Route =>
      if raw.PlanShaped? && ValidPlan(raw.plan) then Move(p, Rechecking(k, PlanV(raw.plan)))
      else FailAt(p, Fatal(MODEL_OUTPUT_INVALID))
    case RepairCode =>
      if raw.CodeText? && |raw.code| <= MAX_CODE_CHARACTERS then Move(p, Rechecking(k, CodeV(raw.code)))
      else FailAt(p, Fatal(MODEL_OUTPUT_INVALID))
    case Synthesize =>
      if raw.Oversized? || !p.HasAnalysis? then FailAt(p, Fatal(MODEL_OUTPUT_INVALID))
      else
        var first := ValidateSynthesisOutput(p.ctx, p.plan, raw);
        if first.Accepted? then Move(p, Rechecking(k, ResponseV(first.response)))
        else Move(p, Working(k, CallDeadline(Call(RepairSynthesis, 1, raw))))
    case RepairSynthesis =>
      if raw.Oversized? || !p.HasAnalysis? then FailAt(p, Fatal(MODEL_OUTPUT_INVALID))
      else
        var second := ValidateSynthesisOutput(p.ctx, p.plan, raw);
        if second.Accepted? then Move(p, Rechecking(k, ResponseV(second.response)))
        else
          var kept := Fallback(p.ctx, p.plan);
          if kept.Some? then Move(p, Rechecking(k, ResponseV(kept.value))) else FailAt(p, Fatal(MODEL_OUTPUT_INVALID))
  }

  function ActInvoke(d: Durable, leases: set<Lease>, now: Time, x: Exec, k: StepKey, c: Call, a: Answer): Effects {
    Effects(d, leases,
            if a.Throws? then Go(x, AfterFailedAttempt(now, x.point, k, c, a.fault))
            else Go(x, Deliver(x.point, k, c, if a.Says? then a.raw else Garbage)),
            Invoked(KeyOf(c)))
  }

  function ActWork(d: Durable, leases: set<Lease>, now: Time, x: Exec, k: StepKey, w: Work, a: Answer): Effects {
    match w
    case FetchContext => Effects(d, leases, Go(x, ActFetchContext(x.point, k, a)), Silent)
    case CountCommand => ActCount(d, leases, x, k)
    case InSandbox => Effects(d, leases, Go(x, ActSandbox(x.point, k, a)), Silent)
    case PutArtifact(doc) => Effects(d, leases, Pass(x, a, Rechecking(k, ArtifactV(doc))), Silent)
    case CallDeadline(c) => Effects(d, leases, CheckDeadline(now, x, Working(k, CallActive(c))), Silent)
    case CallActive(c) => Effects(d, leases, Check(d, x, a, Working(k, CallReserve(c))), Silent)
    case CallReserve(c) => ActReserve(d, leases, now, x, k, c, a)
    case CallInvoke(c) => ActInvoke(d, leases, now, x, k, c, a)
    case CallSleep(c, wake) => Effects(d, leases, if now < wake then x else To(x, Working(k, CallDeadline(c))), Silent)
  }

  predicate MayCommit(d: Durable) {
    d.active && !d.cancelRequested && d.status.Running?
  }

  /** The guarded, single persistence of the answer. */
  function ActCommit(d: Durable, leases: set<Lease>, x: Exec, answer: Response, status: RunStatus, a: Answer): Effects {
    var committed := d.(status := status, response := Some(answer));
    if a.Throws? && a.late && MayCommit(d) then Effects(committed, leases, Raise(x, a.fault), Delivered(answer))
    else if a.Throws? then Effects(d, leases, Raise(x, a.fault), Silent)
    else if IsTerminal(d.status) then Effects(d, leases, To(x, Cleanup(Committed(answer))), Silent)
    else if !MayCommit(d) then Effects(d, leases, Raise(x, Fatal(CANCELLED)), Silent)
    else Effects(committed, leases, To(x, Cleanup(Committed(answer))), Delivered(answer))
  }

  /** The first call of the `catch` block: suspend on a yield, cancel the sandbox on a cancellation. */
  function ActHandle(x: Exec, error: Error, a: Answer): Exec {
    match error
    case Yield(ms) => if a.Throws? then To(x, Cleanup(Thrown)) else To(x, Releasing(Paused(ms)))
    case Failure(fault) => To(x, Terminating(fault))
  }

  /** How a fault ends a run. */
  function StatusFor(fault: Fault): RunStatus {
    if fault.code == CANCELLED then Cancelled else Failed
  }

  /** The transition the `catch` block requests: from any open status to cancelled or failed. */
  function ActTerminate(d: Durable, leases: set<Lease>, x: Exec, fault: Fault, a: Answer): Effects {
    var status := StatusFor(fault);
    if d.status != status && d.status !in OPEN then Effects(d, leases, To(x, Cleanup(Thrown)), Silent)
    else if a.Throws? then
      Effects(if a.late then d.(status := status) else d, leases, To(x, Cleanup(Thrown)), Silent)
    else Effects(d.(status := status), leases, To(x, Cleanup(Ended(status))), Silent)
  }

  /** Errors of `release` are swallowed: the lease then stays with the port until it expires. */
  function ActRelease(d: Durable, leases: set<Lease>, x: Exec, outcome: Outcome, a: Answer): Effects {
    var next := x.(lease := None, pc := Returned(outcome));
    if x.lease.None? then Effects(d, leases, next, Silent)
    else Effects(d, if a.Throws? && !a.late then leases else leases - {x.lease.value}, next, Released(x.lease.value))
  }

  /** One atomic step of an execution. */
  function Act(d: Durable, leases: set<Lease>, now: Time, x: Exec, a: Answer): Effects {
    match x.pc
    case Claiming => ActClaim(d, leases, now, x, a)
    case ReadingStart => Effects(d, leases, ActReadStart(d, x, a), Silent)
    case Deciding => Effects(d, leases, Go(x, Decide(x.point)), Silent)
    case Loading(doc, next) => Effects(d, leases, Pass(x, a, Deadline(next)), Silent)
    case Probing(k) => Effects(d, leases, ActProbe(d, x, k, a), Silent)
    case CapacityBegin(purpose) => Effects(d, leases, Pass(x, a, CapacityAcquire(purpose)), Silent)
    case CapacityAcquire(purpose) => ActCapacityAcquire(d, leases, now, x, purpose, a)
    case CapacityRecord(purpose) => ActCapacityRecord(d, leases, x, purpose, a)
    case CapacityBusy(purpose, busy) => Effects(d, leases, ActCapacityBusy(now, x, purpose, busy), Silent)
    case CapacitySleep(purpose, wake) =>
      Effects(d, leases, if now < wake then x else To(x, CapacityActive(purpose)), Silent)
    case CapacityActive(purpose) => Effects(d, leases, Check(d, x, a, CapacityAcquire(purpose)), Silent)
    case Deadline(k) => Effects(d, leases, CheckDeadline(now, x, Active(k)), Silent)
    case Active(k) => Effects(d, leases, Check(d, x, a, Lookup(k)), Silent)
    case Lookup(k) => Effects(d, leases, ActLookup(d, x, k, a), Silent)
    case Starting(k) => Effects(d, leases, Pass(x, a, Working(k, FirstWork(x.point, k))), Silent)
    case Working(k, w) => ActWork(d, leases, now, x, k, w, a)
    case Rechecking(k, v) => Effects(d, leases, Check(d, x, a, Completing(k, v)), Silent)
    case Completing(k, v) => ActComplete(d, leases, x, k, v, a)
    case FinishActive(answer, status) => Effects(d, leases, Check(d, x, a, FinishPut(answer, status)), Silent)
    case FinishPut(answer, status) => Effects(d, leases, Pass(x, a, FinishCommit(answer, status)), Silent)
    case FinishCommit(answer, status) => ActCommit(d, leases, x, answer, status, a)
    case Handling(error) => Effects(d, leases, ActHandle(x, error, a), Silent)
    case Terminating(fault) => ActTerminate(d, leases, x, fault, a)
    case Cleanup(outcome) => Effects(d, leases, To(x, Releasing(outcome)), Silent)
    case Releasing(outcome) => ActRelease(d, leases, x, outcome, a)
    case Returned(outcome) => Effects(d, leases, x, Silent)
  }
}
