/**
 * How a run ends if nothing interrupts it: one execution in direct style, against ports that are deterministic in
 * their arguments. Replaying recorded results leads it back to where they were recorded.
 */
module Settling {
  import opened RunStatuses
  import opened WorkflowTypes
  import opened EditSafety
  import opened Machine
  import opened Control
  import opened Replay

  /** Ports that are deterministic in their arguments: the locals, the step and, for a provider, the attempt. */
  type Oracle = (Point, StepKey, Work) -> Answer

  // ---------------------------------------------------------------- one uninterrupted execution

  /** What a run leaves behind. */
  datatype Final = Final(steps: Steps, reserved: set<CallKey>, status: RunStatus, response: Option<Response>)

  function Broken(steps: Steps, reserved: set<CallKey>, fault: Fault): Final {
    Final(steps, reserved, StatusFor(fault), None)
  }

  datatype Performed = Made(reserved: set<CallKey>, value: Value) | Broke(reserved: set<CallKey>, fault: Fault)

  function WorkRank(w: Work): nat {
    match w
    case FetchContext => 0
    case PutArtifact(_) => 0
    case InSandbox => 1
    case CountCommand => 2
    case CallInvoke(c) => CallRank(c)
    case CallDeadline(c) => CallRank(c) + 1
    case CallActive(c) => CallRank(c) + 1
    case CallReserve(c) => CallRank(c) + 1
    case CallSleep(c, _) => CallRank(c) + 1
  }

  function CallRank(c: Call): nat {
    (if c.op.Synthesize? then 10 else 0) + (if c.attempt < MaxAttempts(c.op) then 2 * (MaxAttempts(c.op) - c.attempt) else 0)
  }

  /** The move that ends an effect, read as its result. */
  function Read(m: Move, reserved: set<CallKey>): Performed {
    match m.pc
    case Rechecking(_, v) => Made(reserved, v)
    case Handling(Failure(fault)) => Broke(reserved, fault)
    case _ => Broke(reserved, Fatal(INTERNAL_ERROR))
  }

  /** The effect of a step, from any place inside it to its end. */
  ghost function Perform(ask: Oracle, p: Point, k: StepKey, w: Work, reserved: set<CallKey>): Performed
    decreases WorkRank(w), 0
  {
    match w
    case FetchContext => Read(ActFetchContext(p, k, ask(p, k, w)), reserved)
    case CountCommand => Perform(ask, p, k, InSandbox, reserved)
    case InSandbox =>
      var m := ActSandbox(p, k, ask(p, k, w));
      if m.pc.Working? then Made(reserved, ArtifactV(m.pc.work.doc)) else Read(m, reserved)
    case PutArtifact(doc) => Made(reserved, ArtifactV(doc))
    case CallDeadline(c) => Attempt(ask, p, k, c, reserved)
    case CallActive(c) => Attempt(ask, p, k, c, reserved)
    case CallReserve(c) => Attempt(ask, p, k, c, reserved)
    case CallSleep(c, _) => Attempt(ask, p, k, c, reserved)
    case CallInvoke(c) =>
      var a := ask(p, k, w);
      if a.Throws? then
        if !a.fault.retryable || c.attempt >= MaxAttempts(c.op) then Broke(reserved, a.fault)
        else Attempt(ask, p, k, c.(attempt := c.attempt + 1), reserved)
      else
        var m := Deliver(p, k, c, if a.Says? then a.raw else Garbage);
        if m.pc.Working? then Perform(ask, p, k, m.pc.work, reserved) else Read(m, reserved)
  }

  ghost function Attempt(ask: Oracle, p: Point, k: StepKey, c: Call, reserved: set<CallKey>): Performed
    decreases CallRank(c), 1
  {
    if KeyOf(c) in reserved then Broke(reserved, Fatal(PROVIDER_CALL_OUTCOME_UNKNOWN))
    else if |reserved| >= MAX_PROVIDER_CALLS then Broke(reserved, Fatal(PROVIDER_CALL_BUDGET_EXCEEDED))
    else Perform(ask, p, k, CallInvoke(c), reserved + {KeyOf(c)})
  }

  function Rank(p: Point): nat {
    match p
    case AtStart => 0
    case HasContext(_) => 1
    case HasProfile(_, _) => 2
    case HasRoute(_, _, _) => 3
    case HasInitial(_, _, _, _) => 4
    case HasRepairCode(_, _, _, _, _) => 5
    case HasExecution(_, _, _, _) => 6
    case HasAnalysis(_, _, _, _) => 7
    case HasResponse(_, _, _, _, _) => 8
  }

  function PcRank(pc: Pc): nat {
    match pc
    case Deciding => 9
    case Loading(_, _) => 8
    case Probing(_) => 8
    case CapacityBegin(_) => 7
    case CapacityAcquire(_) => 7
    case CapacityRecord(_) => 7
    case CapacityBusy(_, _) => 7
    case CapacitySleep(_, _) => 7
    case CapacityActive(_) => 7
    case Deadline(_) => 6
    case Active(_) => 6
    case Lookup(_) => 6
    case Starting(_) => 5
    case Working(_, _) => 4
    case Rechecking(_, _) => 3
    case Completing(_, _) => 3
    case _ => 0
  }

  lemma DecideDescends(p: Point)
    ensures var m := Decide(p); Rank(m.point) > Rank(p) || (m.point == p && PcRank(m.pc) < PcRank(Deciding))
  {
    hide Preflight;
  }

  lemma ArriveDescends(p: Point, k: StepKey, v: Value)
    ensures var m := Arrive(p, k, v); Rank(m.point) > Rank(p) || (m.point == p && PcRank(m.pc) == 0)
  {
  }

  /**
   * One uninterrupted execution, from any place: no yield, no check fails, the clock and the lease pool play no
   * part. A result that is recorded already is used instead of being made again.
   */
  ghost function Settle(ask: Oracle, steps: Steps, reserved: set<CallKey>, m: Move): Final
    decreases 8 - Rank(m.point), PcRank(m.pc), 0
  {
    var p := m.point;
    match m.pc
    case Deciding =>
      DecideDescends(p);
      Settle(ask, steps, reserved, Decide(p))
    case Loading(_, k) => Settle(ask, steps, reserved, Move(p, Deadline(k)))
    case Probing(k) =>
      if k in steps then Resume(ask, steps, reserved, p, k, steps[k])
      else if k.ProfileStep? then Settle(ask, steps, reserved, Move(p, Deadline(ProfileStep)))
      else Settle(ask, steps, reserved, EnterAnalysis(p))
    case CapacityBegin(purpose) => Leased(ask, steps, reserved, p, purpose)
    case CapacityAcquire(purpose) => Leased(ask, steps, reserved, p, purpose)
    case CapacityRecord(purpose) => Leased(ask, steps, reserved, p, purpose)
    case CapacityBusy(purpose, _) => Leased(ask, steps, reserved, p, purpose)
    case CapacitySleep(purpose, _) => Leased(ask, steps, reserved, p, purpose)
    case CapacityActive(purpose) => Leased(ask, steps, reserved, p, purpose)
    case Deadline(k) => Enter(ask, steps, reserved, p, k)
    case Active(k) => Enter(ask, steps, reserved, p, k)
    case Lookup(k) => Enter(ask, steps, reserved, p, k)
    case Starting(k) => Settle(ask, steps, reserved, Move(p, Working(k, FirstWork(p, k))))
    case Working(k, w) =>
      (match Perform(ask, p, k, w, reserved)
       case Made(after, v) => Resume(ask, steps[k := v], after, p, k, v)
       case Broke(after, fault) => Broken(steps, after, fault))
    case Rechecking(k, v) => Resume(ask, steps[k := v], reserved, p, k, v)
    case Completing(k, v) => Resume(ask, steps[k := v], reserved, p, k, v)
    case FinishActive(answer, status) => Final(steps, reserved, status, Some(answer))
    case FinishPut(answer, status) => Final(steps, reserved, status, Some(answer))
    case FinishCommit(answer, status) => Final(steps, reserved, status, Some(answer))
    case Handling(Failure(fault)) => Broken(steps, reserved, fault)
    case Terminating(fault) => Broken(steps, reserved, fault)
    case _ => Broken(steps, reserved, Fatal(INTERNAL_ERROR))
  }

  ghost function Resume(ask: Oracle, steps: Steps, reserved: set<CallKey>, p: Point, k: StepKey, v: Value): Final
    decreases 8 - Rank(p), 2, 0
  {
    ArriveDescends(p, k, v);
    Settle(ask, steps, reserved, Arrive(p, k, v))
  }

  ghost function Enter(ask: Oracle, steps: Steps, reserved: set<CallKey>, p: Point, k: StepKey): Final
    decreases 8 - Rank(p), 5, 0
  {
    if k in steps then Resume(ask, steps, reserved, p, k, steps[k])
    else Settle(ask, steps, reserved, Move(p, Working(k, FirstWork(p, k))))
  }

  ghost function Leased(ask: Oracle, steps: Steps, reserved: set<CallKey>, p: Point, purpose: Purpose): Final
    decreases 8 - Rank(p), 6, 1
  {
    if purpose.ForProfile? then Settle(ask, steps, reserved, Move(p, Deadline(ProfileStep)))
    else Settle(ask, steps, reserved, EnterAnalysis(p))
  }

  const START := Move(AtStart, Deciding)

  /** The whole run in one go. */
  ghost function Uninterrupted(ask: Oracle): Final {
    Settle(ask, map[], {}, START)
  }

  // ---------------------------------------------------------------- replay

  lemma SettleDecides(ask: Oracle, steps: Steps, reserved: set<CallKey>, p: Point)
    ensures Settle(ask, steps, reserved, Move(p, Deciding)) == Settle(ask, steps, reserved, Decide(p))
  {
    hide Decide, Perform, Resume, Enter, Leased, EnterAnalysis, FirstWork;
  }

  /** A recorded step is skipped. */
  lemma SettleSkips(ask: Oracle, steps: Steps, reserved: set<CallKey>, p: Point, k: StepKey, v: Value, q: Point)
    requires IsRecorded(steps, k, v) && Advance(p, k, v) == Some(q)
    ensures Settle(ask, steps, reserved, Move(p, Deadline(k))) == Settle(ask, steps, reserved, Move(q, Deciding))
    ensures Settle(ask, steps, reserved, Move(p, Probing(k))) == Settle(ask, steps, reserved, Move(q, Deciding))
  {
    hide Settle, Enter, Resume, Advance;
    ResumeArrives(ask, steps, reserved, p, k, v);
    EnterResumes(ask, steps, reserved, p, k);
  }

  lemma ResumeArrives(ask: Oracle, steps: Steps, reserved: set<CallKey>, p: Point, k: StepKey, v: Value)
    ensures Resume(ask, steps, reserved, p, k, v) == Settle(ask, steps, reserved, Arrive(p, k, v))
  {
    hide Settle, Arrive;
  }

  lemma EnterResumes(ask: Oracle, steps: Steps, reserved: set<CallKey>, p: Point, k: StepKey)
    requires k in steps
    ensures Settle(ask, steps, reserved, Move(p, Deadline(k))) == Resume(ask, steps, reserved, p, k, steps[k])
    ensures Settle(ask, steps, reserved, Move(p, Probing(k))) == Resume(ask, steps, reserved, p, k, steps[k])
  {
    hide Arrive, Decide, Perform, Leased, EnterAnalysis, FirstWork, Resume;
    assert Settle(ask, steps, reserved, Move(p, Deadline(k))) == Enter(ask, steps, reserved, p, k);
  }

  lemma SettleLoads(ask: Oracle, steps: Steps, reserved: set<CallKey>, p: Point, doc: Doc, k: StepKey)
    ensures Settle(ask, steps, reserved, Move(p, Loading(doc, k))) == Settle(ask, steps, reserved, Move(p, Deadline(k)))
  {
    hide Decide, Perform, Resume, Enter, Leased, EnterAnalysis, FirstWork;
  }

  /** Probing for an analysis that is not recorded leads into the analysis phase. */
  lemma SettleProbes(ask: Oracle, steps: Steps, reserved: set<CallKey>, p: Point)
    requires AnalysisStep !in steps
    ensures Settle(ask, steps, reserved, Move(p, Probing(AnalysisStep))) == Settle(ask, steps, reserved, EnterAnalysis(p))
  {
    hide Decide, Perform, Resume, Enter, Leased, EnterAnalysis, FirstWork;
  }

  ghost predicate Same(ask: Oracle, steps: Steps, reserved: set<CallKey>, m: Move, n: Move) {
    Settle(ask, steps, reserved, m) == Settle(ask, steps, reserved, n)
  }

  lemma ReplayContext(ask: Oracle, steps: Steps, reserved: set<CallKey>, p: Point)
    requires Follows(p, steps) && p.HasContext?
    ensures Same(ask, steps, reserved, START, Move(p, Deciding))
  {
    hide Settle;
    SettleDecides(ask, steps, reserved, AtStart);
    SettleSkips(ask, steps, reserved, AtStart, ContextStep, ContextV(p.ctx), p);
  }

  lemma ReplayProfile(ask: Oracle, steps: Steps, reserved: set<CallKey>, p: Point)
    requires Follows(p, steps) && p.HasProfile?
    ensures Same(ask, steps, reserved, START, Move(p, Deciding))
  {
    hide Settle, Preflight;
    var before := HasContext(p.ctx);
    ReplayContext(ask, steps, reserved, before);
    SettleDecides(ask, steps, reserved, before);
    if p.profile.Some? {
      SettleSkips(ask, steps, reserved, before, ProfileStep, ArtifactV(p.profile.value), p);
    }
  }

  lemma ReplayRoute(ask: Oracle, steps: Steps, reserved: set<CallKey>, p: Point)
    requires Follows(p, steps) && p.HasRoute?
    ensures Same(ask, steps, reserved, START, Move(p, Deciding))
  {
    hide Settle, Preflight;
    var before := HasProfile(p.ctx, p.profile);
    ReplayProfile(ask, steps, reserved, before);
    SettleDecides(ask, steps, reserved, before);
    if p.profile.Some? {
      SettleLoads(ask, steps, reserved, before, p.profile.value, RouteStep);
    }
    SettleSkips(ask, steps, reserved, before, RouteStep, PlanV(p.plan), p);
  }

  lemma ReplayInitial(ask: Oracle, steps: Steps, reserved: set<CallKey>, p: Point)
    requires Follows(p, steps) && p.HasInitial? && AnalysisStep !in steps && HasCode(p.plan)
    ensures Same(ask, steps, reserved, START, Move(p, Deciding))
  {
    hide Settle, Preflight, HasCode;
    var before := HasRoute(p.ctx, p.profile, p.plan);
    ReplayRoute(ask, steps, reserved, before);
    SettleDecides(ask, steps, reserved, before);
    SettleProbes(ask, steps, reserved, before);
    SettleSkips(ask, steps, reserved, before, InitialStep, ExecutionV(p.execution), p);
  }

  lemma ReplayRepairCode(ask: Oracle, steps: Steps, reserved: set<CallKey>, p: Point)
    requires Follows(p, steps) && p.HasRepairCode? && AnalysisStep !in steps && HasCode(p.plan)
    ensures Same(ask, steps, reserved, START, Move(p, Deciding))
  {
    hide Settle, Preflight, HasCode;
    var before := HasInitial(p.ctx, p.profile, p.plan, p.execution);
    ReplayInitial(ask, steps, reserved, before);
    SettleDecides(ask, steps, reserved, before);
    SettleSkips(ask, steps, reserved, before, RepairCodeStep, CodeV(p.code), p);
  }

  lemma ReplayExecution(ask: Oracle, steps: Steps, reserved: set<CallKey>, p: Point)
    requires Follows(p, steps) && p.HasExecution? && AnalysisStep !in steps && HasCode(p.plan)
    ensures Same(ask, steps, reserved, START, Move(p, Deciding))
  {
    hide Settle, Preflight, HasCode;
    var first, code := steps[InitialStep].execution, steps[RepairCodeStep].code;
    var before := HasRepairCode(p.ctx, p.profile, p.plan, first, code);
    ReplayRepairCode(ask, steps, reserved, before);
    SettleDecides(ask, steps, reserved, before);
    SettleSkips(ask, steps, reserved, before, RepairRunStep, ExecutionV(p.execution), p);
  }

  lemma ReplayAnalysis(ask: Oracle, steps: Steps, reserved: set<CallKey>, p: Point)
    requires Follows(p, steps) && p.HasAnalysis?
    ensures Same(ask, steps, reserved, START, Move(p, Deciding))
  {
    hide Settle, Preflight;
    var before := HasRoute(p.ctx, p.profile, p.plan);
    ReplayRoute(ask, steps, reserved, before);
    SettleDecides(ask, steps, reserved, before);
    if p.plan.requiresData {
      SettleSkips(ask, steps, reserved, before, AnalysisStep, ArtifactV(p.analysis.value), p);
    }
  }

  lemma ReplayResponse(ask: Oracle, steps: Steps, reserved: set<CallKey>, p: Point)
    requires Follows(p, steps) && p.HasResponse?
    ensures Same(ask, steps, reserved, START, Move(p, Deciding))
  {
    hide Settle, Preflight;
    var before := HasAnalysis(p.ctx, p.profile, p.plan, p.analysis);
    ReplayAnalysis(ask, steps, reserved, before);
    SettleDecides(ask, steps, reserved, before);
    if p.analysis.Some? {
      SettleLoads(ask, steps, reserved, before, p.analysis.value, SynthesisStep);
    }
    SettleSkips(ask, steps, reserved, before, SynthesisStep, ResponseV(p.final), p);
  }

  /** Starting over with the recorded results leads back to where the results were recorded. */
  lemma ReplayReaches(ask: Oracle, steps: Steps, reserved: set<CallKey>, p: Point)
    requires Follows(p, steps)
    requires InAnalysis(p) ==> AnalysisStep !in steps && HasCode(p.plan)
    ensures Same(ask, steps, reserved, START, Move(p, Deciding))
  {
    hide Settle, Follows, HasCode;
    match p {
      case AtStart =>
      case HasContext(_) => ReplayContext(ask, steps, reserved, p);
      case HasProfile(_, _) => ReplayProfile(ask, steps, reserved, p);
      case HasRoute(_, _, _) => ReplayRoute(ask, steps, reserved, p);
      case HasInitial(_, _, _, _) => ReplayInitial(ask, steps, reserved, p);
      case HasRepairCode(_, _, _, _, _) => ReplayRepairCode(ask, steps, reserved, p);
      case HasExecution(_, _, _, _) => ReplayExecution(ask, steps, reserved, p);
      case HasAnalysis(_, _, _, _) => ReplayAnalysis(ask, steps, reserved, p);
      case HasResponse(_, _, _, _, _) => ReplayResponse(ask, steps, reserved, p);
    }
  }

  // ---------------------------------------------------------------- what each place leads to

  lemma SettleEarly(ask: Oracle, steps: Steps, reserved: set<CallKey>, p: Point, k: StepKey)
    ensures k in steps ==>
              Settle(ask, steps, reserved, Move(p, Probing(k))) == Settle(ask, steps, reserved, Arrive(p, k, steps[k]))
    ensures k !in steps ==>
              Settle(ask, steps, reserved, Move(p, Probing(k))) ==
              Leased(ask, steps, reserved, p, if k.ProfileStep? then ForProfile else ForAnalysis)
  {
    hide Decide, Perform, Arrive, EnterAnalysis, FirstWork;
  }

  predicate Waits(pc: Pc) {
    pc.CapacityBegin? || pc.CapacityAcquire? || pc.CapacityRecord? || pc.CapacityBusy? || pc.CapacitySleep? || pc.CapacityActive?
  }

  lemma SettleWaits(ask: Oracle, steps: Steps, reserved: set<CallKey>, p: Point, pc: Pc)
    requires Waits(pc)
    ensures Settle(ask, steps, reserved, Move(p, pc)) == Leased(ask, steps, reserved, p, pc.purpose)
  {
    hide Decide, Perform, Resume, Enter, Leased, EnterAnalysis, FirstWork;
  }

  lemma SettleLeased(ask: Oracle, steps: Steps, reserved: set<CallKey>, p: Point, purpose: Purpose)
    ensures Leased(ask, steps, reserved, p, purpose) ==
            Settle(ask, steps, reserved, if purpose.ForProfile? then Move(p, Deadline(ProfileStep)) else EnterAnalysis(p))
  {
    hide Decide, Perform, Resume, Enter, EnterAnalysis, FirstWork;
  }

  lemma SettleStarts(ask: Oracle, steps: Steps, reserved: set<CallKey>, p: Point, k: StepKey)
    ensures Settle(ask, steps, reserved, Move(p, Starting(k))) ==
            Settle(ask, steps, reserved, Move(p, Working(k, FirstWork(p, k))))
  {
    hide Decide, Perform, Resume, Enter, Leased, EnterAnalysis, FirstWork;
  }

  lemma SettleEnters(ask: Oracle, steps: Steps, reserved: set<CallKey>, p: Point, pc: Pc)
    requires pc.Deadline? || pc.Active? || pc.Lookup?
    ensures Settle(ask, steps, reserved, Move(p, pc)) ==
            if pc.key in steps then Settle(ask, steps, reserved, Arrive(p, pc.key, steps[pc.key]))
            else Settle(ask, steps, reserved, Move(p, Starting(pc.key)))
  {
    hide Decide, Perform, Leased, EnterAnalysis, FirstWork, Arrive;
    assert Settle(ask, steps, reserved, Move(p, pc)) == Enter(ask, steps, reserved, p, pc.key);
    SettleStarts(ask, steps, reserved, p, pc.key);
    if pc.key in steps {
      assert Enter(ask, steps, reserved, p, pc.key) == Resume(ask, steps, reserved, p, pc.key, steps[pc.key]);
    }
  }

  /** What the end of an effect leads to. */
  ghost function Ends(ask: Oracle, steps: Steps, p: Point, k: StepKey, made: Performed): Final {
    match made
    case Made(reserved, v) => Settle(ask, steps[k := v], reserved, Arrive(p, k, v))
    case Broke(reserved, fault) => Broken(steps, reserved, fault)
  }

  lemma SettleWorks(ask: Oracle, steps: Steps, reserved: set<CallKey>, p: Point, k: StepKey, w: Work)
    ensures Settle(ask, steps, reserved, Move(p, Working(k, w))) == Ends(ask, steps, p, k, Perform(ask, p, k, w, reserved))
  {
    hide Decide, Perform, Enter, Leased, EnterAnalysis, FirstWork, Arrive;
  }

  lemma SettleRecords(ask: Oracle, steps: Steps, reserved: set<CallKey>, p: Point, k: StepKey, v: Value)
    ensures Settle(ask, steps, reserved, Move(p, Rechecking(k, v))) == Ends(ask, steps, p, k, Made(reserved, v))
    ensures Settle(ask, steps, reserved, Move(p, Completing(k, v))) == Ends(ask, steps, p, k, Made(reserved, v))
  {
    hide Decide, Perform, Enter, Leased, EnterAnalysis, FirstWork, Arrive;
  }

  lemma SettleFails(ask: Oracle, steps: Steps, reserved: set<CallKey>, p: Point, fault: Fault)
    ensures Settle(ask, steps, reserved, Move(p, Handling(Failure(fault)))) == Broken(steps, reserved, fault)
    ensures Settle(ask, steps, reserved, Move(p, Terminating(fault))) == Broken(steps, reserved, fault)
  {
    hide Decide, Perform, Resume, Enter, Leased, EnterAnalysis, FirstWork, Arrive;
  }

  lemma SettleFinishes(ask: Oracle, steps: Steps, reserved: set<CallKey>, p: Point, pc: Pc)
    requires pc.FinishActive? || pc.FinishPut? || pc.FinishCommit?
    ensures Settle(ask, steps, reserved, Move(p, pc)) == Final(steps, reserved, pc.status, Some(pc.answer))
  {
    hide Decide, Perform, Resume, Enter, Leased, EnterAnalysis, FirstWork, Arrive;
  }

  /** The move that ends an effect leads where its reading does. */
  lemma SettleReads(ask: Oracle, steps: Steps, reserved: set<CallKey>, p: Point, k: StepKey, m: Move)
    requires m.point == p && ((m.pc.Rechecking? && m.pc.key == k) || (m.pc.Handling? && m.pc.error.Failure?))
    ensures Settle(ask, steps, reserved, m) == Ends(ask, steps, p, k, Read(m, reserved))
  {
    hide Settle, Arrive;
    if m.pc.Rechecking? {
      SettleRecords(ask, steps, reserved, p, k, m.pc.value);
    } else {
      SettleFails(ask, steps, reserved, p, m.pc.error.fault);
    }
  }

  /** A step that is not recorded yet is performed. */
  lemma SettlePerforms(ask: Oracle, steps: Steps, reserved: set<CallKey>, p: Point, k: StepKey)
    requires k !in steps
    ensures Settle(ask, steps, reserved, Move(p, Deadline(k))) ==
            Ends(ask, steps, p, k, Perform(ask, p, k, FirstWork(p, k), reserved))
  {
    hide Settle, Perform, Ends, FirstWork;
    SettleEnters(ask, steps, reserved, p, Deadline(k));
    SettleStarts(ask, steps, reserved, p, k);
    SettleWorks(ask, steps, reserved, p, k, FirstWork(p, k));
  }

  /** A call that is neither reserved nor out of budget is made. */
  lemma CallIsMade(ask: Oracle, p: Point, k: StepKey, c: Call, reserved: set<CallKey>)
    requires KeyOf(c) !in reserved && |reserved| < MAX_PROVIDER_CALLS
    ensures Perform(ask, p, k, CallDeadline(c), reserved) == Perform(ask, p, k, CallInvoke(c), reserved + {KeyOf(c)})
    ensures Attempt(ask, p, k, c, reserved) == Perform(ask, p, k, CallInvoke(c), reserved + {KeyOf(c)})
  {
    hide Deliver, ActSandbox, ActFetchContext;
  }

  lemma CallAnswers(ask: Oracle, p: Point, k: StepKey, c: Call, reserved: set<CallKey>)
    ensures var a := ask(p, k, CallInvoke(c));
            Perform(ask, p, k, CallInvoke(c), reserved) ==
            if a.Throws? && a.fault.retryable && c.attempt < MaxAttempts(c.op) then
              Attempt(ask, p, k, c.(attempt := c.attempt + 1), reserved)
            else if a.Throws? then Broke(reserved, a.fault)
            else
              var m := Deliver(p, k, c, if a.Says? then a.raw else Garbage);
              if m.pc.Working? then Perform(ask, p, k, m.pc.work, reserved) else Read(m, reserved)
  {
    hide Deliver, ActSandbox, ActFetchContext, Attempt;
  }
}
