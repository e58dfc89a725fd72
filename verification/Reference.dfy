/**
 * What one run does, told straight from the beginning to the end, without the machine: which ports it asks in which
 * order, what it checks, what it records and how it ends. An uninterrupted execution does exactly this.
 */
module Reference {
  import opened RunStatuses
  import opened WorkflowTypes
  import opened EditSafety
  import opened Layouts
  import opened Machine
  import opened Replay
  import opened Settling
  import opened Systems
  import opened Slicing

  // ---------------------------------------------------------------- the story of a run

  function Over(steps: Steps, reserved: set<CallKey>, fault: Fault): Final {
    Final(steps, reserved, if fault.code == CANCELLED then Cancelled else RunStatus.Failed, None)
  }

  function Refused(steps: Steps, reserved: set<CallKey>, code: FaultCode): Final {
    Over(steps, reserved, Fault(code, false, None))
  }

  ghost predicate DistinctAssets(assets: seq<Asset>) {
    forall i, j :: 0 <= i < j < |assets| ==> assets[i].id != assets[j].id
  }

  /** Several data sources, and a prompt that neither names one nor asks to combine them. */
  predicate NeedsChoice(ctx: RunContext) {
    |ctx.assets| >= 2 && !ctx.promptNamesAsset && !ctx.promptCombines
  }

  function Choices(assets: seq<Asset>): seq<Choice> {
    if assets == [] then [] else [Choice(assets[0].id, assets[0].fileName)] + Choices(assets[1..])
  }

  ghost function Story(ask: Oracle): Final {
    match ask(AtStart, ContextStep, FetchContext)
    case Throws(fault, _) => Over(map[], {}, fault)
    case Gives(ContextV(ctx)) =>
      if !SchemaContext(ctx) then Refused(map[], {}, INVALID_CONTEXT)
      else if TotalBytes(ctx.assets) > 25 * 1024 * 1024 then Refused(map[], {}, INPUT_TOO_LARGE)
      else if !DistinctAssets(ctx.assets) then Refused(map[], {}, DUPLICATE_ASSET)
      else FromContext(ask, ctx, map[ContextStep := ContextV(ctx)])
    case _ => Refused(map[], {}, INVALID_CONTEXT)
  }

  ghost function FromContext(ask: Oracle, ctx: RunContext, steps: Steps): Final {
    if NeedsChoice(ctx) then
      Final(steps, {}, AwaitingUserInput,
            Some(ClarificationRequest("Which data source should I analyze?", "asset-" + ctx.runId, "asset",
                                      Choices(ctx.assets))))
    else if ctx.assets == [] then FromProfile(ask, ctx, None, steps)
    else
      match ask(HasContext(ctx), ProfileStep, InSandbox)
      case Throws(fault, _) => Over(steps, {}, fault)
      case Gives(ArtifactV(profile)) =>
        if |profile| > 256 * 1024 then Refused(steps, {}, PROFILE_TOO_LARGE)
        else FromProfile(ask, ctx, Some(profile), steps[ProfileStep := ArtifactV(profile)])
      case _ => Refused(steps, {}, INTERNAL_ERROR)
  }

  /** The route is asked for once, and once more after a failure worth repeating. */
  ghost function FromProfile(ask: Oracle, ctx: RunContext, profile: Option<Doc>, steps: Steps): Final {
    var p := HasProfile(ctx, profile);
    var first := ask(p, RouteStep, CallInvoke(Call(Route, 1, Garbage)));
    if first.Throws? && first.fault.retryable then
      FromRouting(ctx, profile, ask, steps, {CallKey(Route, 1), CallKey(Route, 2)},
                  ask(p, RouteStep, CallInvoke(Call(Route, 2, Garbage))))
    else FromRouting(ctx, profile, ask, steps, {CallKey(Route, 1)}, first)
  }

  ghost function FromRouting(
    ctx: RunContext, profile: Option<Doc>, ask: Oracle, steps: Steps, reserved: set<CallKey>, answer: Answer): Final
  {
    match answer
    case Throws(fault, _) => Over(steps, reserved, fault)
    case Says(PlanShaped(plan)) =>
      if !ValidPlan(plan) then Refused(steps, reserved, MODEL_OUTPUT_INVALID)
      else FromPlan(ask, ctx, profile, plan, steps[RouteStep := PlanV(plan)], reserved)
    case _ => Refused(steps, reserved, MODEL_OUTPUT_INVALID)
  }

  ghost function FromPlan(
    ask: Oracle, ctx: RunContext, profile: Option<Doc>, plan: RoutePlan, steps: Steps, reserved: set<CallKey>): Final
    requires ValidPlan(plan)
  {
    if plan.responseType == ClarificationType then
      var c := plan.clarification.value;
      Final(steps, reserved, AwaitingUserInput, Some(ClarificationRequest(c.question, c.id, c.reason, c.options)))
    else if plan.requiresData && profile.None? then Refused(steps, reserved, PROFILE_REQUIRED)
    else if plan.requiresData then
      match ask(HasRoute(ctx, profile, plan), InitialStep, InSandbox)
      case Throws(fault, _) => Over(steps, reserved, fault)
      case Gives(ExecutionV(e)) => FromExecution(ask, ctx, profile, plan, e, steps[InitialStep := ExecutionV(e)], reserved)
      case _ => Refused(steps, reserved, INTERNAL_ERROR)
    else FromAnalysis(ask, ctx, profile, plan, None, steps, reserved)
  }

  /** A failed execution gets one repaired program and one more execution. */
  ghost function FromExecution(
    ask: Oracle, ctx: RunContext, profile: Option<Doc>, plan: RoutePlan, e: Execution, steps: Steps,
    reserved: set<CallKey>): Final
  {
    if e.ok then FromResult(ask, ctx, profile, plan, e, steps, reserved)
    else if e.error.None? then Refused(steps, reserved, SANDBOX_INVALID_RESULT)
    else
      var after := reserved + {CallKey(RepairCode, 1)};
      match ask(HasInitial(ctx, profile, plan, e), RepairCodeStep, CallInvoke(Call(RepairCode, 1, Garbage)))
      case Throws(fault, _) => Over(steps, after, fault)
      case Says(CodeText(code)) =>
        if |code| > 12 * 1024 then Refused(steps, after, MODEL_OUTPUT_INVALID)
        else FromCode(ask, ctx, profile, plan, e, code, steps[RepairCodeStep := CodeV(code)], after)
      case _ => Refused(steps, after, MODEL_OUTPUT_INVALID)
  }

  ghost function FromCode(
    ask: Oracle, ctx: RunContext, profile: Option<Doc>, plan: RoutePlan, e: Execution, code: string, steps: Steps,
    reserved: set<CallKey>): Final
  {
    match ask(HasRepairCode(ctx, profile, plan, e, code), RepairRunStep, InSandbox)
    case Throws(fault, _) => Over(steps, reserved, fault)
    case Gives(ExecutionV(again)) =>
      FromResult(ask, ctx, profile, plan, again, steps[RepairRunStep := ExecutionV(again)], reserved)
    case _ => Refused(steps, reserved, INTERNAL_ERROR)
  }

  /** The result of the last execution becomes the analysis. */
  ghost function FromResult(
    ask: Oracle, ctx: RunContext, profile: Option<Doc>, plan: RoutePlan, e: Execution, steps: Steps,
    reserved: set<CallKey>): Final
  {
    if e.ok && e.result.Some? then
      if |e.result.value| > 512 * 1024 then Refused(steps, reserved, ANALYSIS_RESULT_TOO_LARGE)
      else FromAnalysis(ask, ctx, profile, plan, e.result, steps[AnalysisStep := ArtifactV(e.result.value)], reserved)
    else if e.error.None? then Refused(steps, reserved, ANALYSIS_FAILED)
    else Refused(steps, reserved, if e.error.value == "CANCELLED" then CANCELLED else OTHER(e.error.value))
  }

  function Said(answer: Answer): Raw {
    if answer.Says? then answer.raw else Garbage
  }

  /** The first answer if it is acceptable, else its repair if that is, else the untouched dashboard of an edit. */
  ghost function FromAnalysis(
    ask: Oracle, ctx: RunContext, profile: Option<Doc>, plan: RoutePlan, analysis: Option<Doc>, steps: Steps,
    reserved: set<CallKey>): Final
  {
    var p := HasAnalysis(ctx, profile, plan, analysis);
    var first := ask(p, SynthesisStep, CallInvoke(Call(Synthesize, 1, Garbage)));
    var once := reserved + {CallKey(Synthesize, 1)};
    if first.Throws? then Over(steps, once, first.fault)
    else if Said(first).Oversized? then Refused(steps, once, MODEL_OUTPUT_INVALID)
    else if Acceptable(ctx, plan, Said(first)) then Delivered(steps, once, Said(first).response)
    else
      var second := ask(p, SynthesisStep, CallInvoke(Call(RepairSynthesis, 1, Said(first))));
      var twice := once + {CallKey(RepairSynthesis, 1)};
      if second.Throws? then Over(steps, twice, second.fault)
      else if Said(second).Oversized? then Refused(steps, twice, MODEL_OUTPUT_INVALID)
      else if Acceptable(ctx, plan, Said(second)) then Delivered(steps, twice, Said(second).response)
      else if plan.responseType == ModificationType && ctx.existingDashboard.Some? && ctx.editTarget.Some? then
        Delivered(steps, twice, ChartModification(PRESERVED_CONTENT, ctx.existingDashboard.value, Some(PRESERVED_NOTE)))
      else Refused(steps, twice, MODEL_OUTPUT_INVALID)
  }

  function Delivered(steps: Steps, reserved: set<CallKey>, answer: Response): Final {
    Final(steps[SynthesisStep := ResponseV(answer)], reserved, Completed, Some(answer))
  }

  // ---------------------------------------------------------------- the machine tells the same story

  lemma ChoicesListed(assets: seq<Asset>)
    ensures Choices(assets) == seq(|assets|, i requires 0 <= i < |assets| => Choice(assets[i].id, assets[i].fileName))
  {
    if assets == [] {
    } else {
      ChoicesListed(assets[1..]);
    }
  }

  /** When the user is asked to choose, and between what. */
  lemma PreflightTold(ctx: RunContext)
    ensures Preflight(ctx).Some? <==> NeedsChoice(ctx)
    ensures NeedsChoice(ctx) ==>
              Preflight(ctx) == Some(ClarificationRequest("Which data source should I analyze?", "asset-" + ctx.runId,
                                                          "asset", Choices(ctx.assets)))
  {
    hide Choices;
    ChoicesListed(ctx.assets);
    if NeedsChoice(ctx) {
      assert Preflight(ctx).value.options == Choices(ctx.assets);
    }
  }

  lemma {:induction false} AssetIds(assets: seq<Asset>)
    ensures |set a | a in assets :: a.id| == |assets| <==> DistinctAssets(assets)
    ensures |set a | a in assets :: a.id| <= |assets|
  {
    if assets == [] {
      assert (set a | a in assets :: a.id) == {};
    } else {
      var n := |assets| - 1;
      var before, last := assets[..n], assets[n];
      AssetIds(before);
      assert assets == before + [last];
      assert (set a | a in assets :: a.id) == (set a | a in before :: a.id) + {last.id};
      AssetIdsExtend(before, last);
    }
  }

  lemma AssetIdsExtend(before: seq<Asset>, last: Asset)
    ensures DistinctAssets(before + [last]) <==> DistinctAssets(before) && last.id !in (set a | a in before :: a.id)
  {
    var assets := before + [last];
    if DistinctAssets(assets) {
      forall i, j | 0 <= i < j < |before|
        ensures before[i].id != before[j].id
      {
        assert assets[i].id != assets[j].id;
      }
      forall a | a in before
        ensures a.id != last.id
      {
        var i :| 0 <= i < |before| && before[i] == a;
        assert assets[i].id != assets[|before|].id;
      }
    }
  }

  /** Which contexts are accepted, and how the others are refused. */
  lemma ContextTold(ctx: RunContext)
    ensures !SchemaContext(ctx) ==> ValidateContext(ctx) == Some(Fault(INVALID_CONTEXT, false, None))
    ensures SchemaContext(ctx) && TotalBytes(ctx.assets) > 25 * 1024 * 1024 ==>
              ValidateContext(ctx) == Some(Fault(INPUT_TOO_LARGE, false, None))
    ensures SchemaContext(ctx) && TotalBytes(ctx.assets) <= 25 * 1024 * 1024 && !DistinctAssets(ctx.assets) ==>
              ValidateContext(ctx) == Some(Fault(DUPLICATE_ASSET, false, None))
    ensures SchemaContext(ctx) && TotalBytes(ctx.assets) <= 25 * 1024 * 1024 && DistinctAssets(ctx.assets) <==>
              ValidateContext(ctx).None?
  {
    AssetIds(ctx.assets);
  }

  lemma BrokenIsOver(steps: Steps, reserved: set<CallKey>, fault: Fault)
    ensures Broken(steps, reserved, fault) == Over(steps, reserved, fault)
  {
  }

  lemma DeliveredTold(ask: Oracle, ctx: RunContext, profile: Option<Doc>, plan: RoutePlan, analysis: Option<Doc>,
                      steps: Steps, reserved: set<CallKey>, answer: Response)
    ensures Ends(ask, steps, HasAnalysis(ctx, profile, plan, analysis), SynthesisStep, Made(reserved, ResponseV(answer))) ==
            Delivered(steps, reserved, answer)
  {
    hide Settle, Decide;
    var p, q := HasAnalysis(ctx, profile, plan, analysis), HasResponse(ctx, profile, plan, analysis, answer);
    var after := steps[SynthesisStep := ResponseV(answer)];
    assert Arrive(p, SynthesisStep, ResponseV(answer)) == Move(q, Deciding);
    SettleDecides(ask, after, reserved, q);
    assert Decide(q) == Move(q, FinishActive(answer, Completed)) by {
      FinishesWith(q);
    }
    SettleFinishes(ask, after, reserved, q, FinishActive(answer, Completed));
  }

  lemma FinishesWith(q: Point)
    requires q.HasResponse?
    ensures Decide(q) == Move(q, FinishActive(q.final, Completed))
  {
  }

  /** The synthesis as a whole: the answer, its repair, or what is kept. */
  ghost function Synthesis(ask: Oracle, p: Point, reserved: set<CallKey>): Performed
    requires p.HasAnalysis?
  {
    var invalid := Fault(MODEL_OUTPUT_INVALID, false, None);
    var first := ask(p, SynthesisStep, CallInvoke(Call(Synthesize, 1, Garbage)));
    var once := reserved + {CallKey(Synthesize, 1)};
    if first.Throws? then Broke(once, first.fault)
    else if Said(first).Oversized? then Broke(once, invalid)
    else if Acceptable(p.ctx, p.plan, Said(first)) then Made(once, ResponseV(Said(first).response))
    else
      var second := ask(p, SynthesisStep, CallInvoke(Call(RepairSynthesis, 1, Said(first))));
      var twice := once + {CallKey(RepairSynthesis, 1)};
      if second.Throws? then Broke(twice, second.fault)
      else if Said(second).Oversized? then Broke(twice, invalid)
      else if Acceptable(p.ctx, p.plan, Said(second)) then Made(twice, ResponseV(Said(second).response))
      else if p.plan.responseType == ModificationType && p.ctx.existingDashboard.Some? && p.ctx.editTarget.Some? then
        Made(twice, ResponseV(ChartModification(PRESERVED_CONTENT, p.ctx.existingDashboard.value, Some(PRESERVED_NOTE))))
      else Broke(twice, invalid)
  }

  /** What the first and the second answer lead to. */
  lemma SynthesisDelivers(p: Point, raw: Raw, c: Call)
    requires p.HasAnalysis? && SchemaContext(p.ctx) && (c.op.Synthesize? || c.op.RepairSynthesis?)
    ensures var m := Deliver(p, SynthesisStep, c, raw);
            && m.point == p
            && (raw.Oversized? ==> m.pc == Handling(Failure(Fault(MODEL_OUTPUT_INVALID, false, None))))
            && (!raw.Oversized? && Acceptable(p.ctx, p.plan, raw) ==>
                  m.pc == Rechecking(SynthesisStep, ResponseV(raw.response)))
            && (!raw.Oversized? && !Acceptable(p.ctx, p.plan, raw) && c.op.Synthesize? ==>
                  m.pc == Working(SynthesisStep, CallDeadline(Call(RepairSynthesis, 1, raw))))
            && (!raw.Oversized? && !Acceptable(p.ctx, p.plan, raw) && c.op.RepairSynthesis? ==>
                  m.pc == if p.plan.responseType == ModificationType && p.ctx.existingDashboard.Some? && p.ctx.editTarget.Some?
                          then Rechecking(SynthesisStep, ResponseV(ChartModification(
                                 PRESERVED_CONTENT, p.ctx.existingDashboard.value, Some(PRESERVED_NOTE))))
                          else Handling(Failure(Fault(MODEL_OUTPUT_INVALID, false, None))))
  {
    hide ValidateSynthesisOutput, Acceptable, SchemaContext;
    AcceptanceIsExact(p.ctx, p.plan, raw);
  }

  lemma RepairPerforms(ask: Oracle, p: Point, reserved: set<CallKey>, rejected: Raw)
    requires |reserved| <= 4 && CallKey(RepairSynthesis, 1) !in reserved
    requires p.HasAnalysis? && SchemaContext(p.ctx)
    ensures var c := Call(RepairSynthesis, 1, rejected);
            var second, twice := ask(p, SynthesisStep, CallInvoke(c)), reserved + {CallKey(RepairSynthesis, 1)};
            Perform(ask, p, SynthesisStep, CallDeadline(c), reserved) ==
            if second.Throws? then Broke(twice, second.fault) else Read(Deliver(p, SynthesisStep, c, Said(second)), twice)
  {
    hide Perform, Attempt, Deliver, Acceptable, SchemaContext;
    var c := Call(RepairSynthesis, 1, rejected);
    CallIsMade(ask, p, SynthesisStep, c, reserved);
    CallAnswers(ask, p, SynthesisStep, c, reserved + {CallKey(RepairSynthesis, 1)});
    SynthesisDelivers(p, Said(ask(p, SynthesisStep, CallInvoke(c))), c);
  }

  lemma SynthesisPerforms(ask: Oracle, p: Point, reserved: set<CallKey>)
    requires p.HasAnalysis? && SchemaContext(p.ctx) && |reserved| <= 3
    requires CallKey(Synthesize, 1) !in reserved && CallKey(RepairSynthesis, 1) !in reserved
    ensures Perform(ask, p, SynthesisStep, FirstWork(p, SynthesisStep), reserved) == Synthesis(ask, p, reserved)
  {
    hide Perform, Attempt, Deliver, Acceptable, SchemaContext;
    var c := Call(Synthesize, 1, Garbage);
    var first := ask(p, SynthesisStep, CallInvoke(c));
    var once := reserved + {CallKey(Synthesize, 1)};
    CallIsMade(ask, p, SynthesisStep, c, reserved);
    CallAnswers(ask, p, SynthesisStep, c, once);
    if !first.Throws? {
      SynthesisDelivers(p, Said(first), c);
      if !Said(first).Oversized? && !Acceptable(p.ctx, p.plan, Said(first)) {
        var again := Call(RepairSynthesis, 1, Said(first));
        RepairPerforms(ask, p, once, Said(first));
        SynthesisDelivers(p, Said(ask(p, SynthesisStep, CallInvoke(again))), again);
      }
    }
  }

  lemma AnalysisTold(ask: Oracle, ctx: RunContext, profile: Option<Doc>, plan: RoutePlan, analysis: Option<Doc>,
                     steps: Steps, reserved: set<CallKey>)
    requires SchemaContext(ctx) && SynthesisStep !in steps && |reserved| <= 3
    requires CallKey(Synthesize, 1) !in reserved && CallKey(RepairSynthesis, 1) !in reserved
    ensures Settle(ask, steps, reserved, Move(HasAnalysis(ctx, profile, plan, analysis), Deciding)) ==
            FromAnalysis(ask, ctx, profile, plan, analysis, steps, reserved)
  {
    hide Settle, Perform, Acceptable, SchemaContext, Ends, FirstWork;
    var p := HasAnalysis(ctx, profile, plan, analysis);
    SettleDecides(ask, steps, reserved, p);
    if analysis.Some? {
      SettleLoads(ask, steps, reserved, p, analysis.value, SynthesisStep);
    }
    SettlePerforms(ask, steps, reserved, p, SynthesisStep);
    SynthesisPerforms(ask, p, reserved);
    match Synthesis(ask, p, reserved) {
      case Made(after, v) =>
        DeliveredTold(ask, ctx, profile, plan, analysis, steps, after, v.response);
      case Broke(after, fault) =>
        EndsBroken(ask, steps, p, SynthesisStep, after, fault);
    }
  }

  lemma EndsBroken(ask: Oracle, steps: Steps, p: Point, k: StepKey, reserved: set<CallKey>, fault: Fault)
    ensures Ends(ask, steps, p, k, Broke(reserved, fault)) == Over(steps, reserved, fault)
  {
    hide Settle;
  }

  // ---------------------------------------------------------------- the analysis

  lemma ResultTold(ask: Oracle, p: Point, steps: Steps, reserved: set<CallKey>)
    requires (p.HasInitial? || p.HasExecution?) && SchemaContext(p.ctx)
    requires AnalysisStep !in steps && SynthesisStep !in steps && |reserved| <= 3
    requires CallKey(Synthesize, 1) !in reserved && CallKey(RepairSynthesis, 1) !in reserved
    ensures Settle(ask, steps, reserved, Conclude(p, p.execution)) ==
            FromResult(ask, p.ctx, p.profile, p.plan, p.execution, steps, reserved)
  {
    hide Settle, SchemaContext, FromAnalysis;
    var e := p.execution;
    if e.ok && e.result.Some? && |e.result.value| <= 512 * 1024 {
      var v := ArtifactV(e.result.value);
      SettlePerforms(ask, steps, reserved, p, AnalysisStep);
      StoresResult(ask, p, reserved);
      AnalysisTold(ask, p.ctx, p.profile, p.plan, e.result, steps[AnalysisStep := v], reserved);
    } else {
      var fault := Conclude(p, e).pc.error.fault;
      SettleFails(ask, steps, reserved, p, fault);
      BrokenIsOver(steps, reserved, fault);
    }
  }

  lemma StoresResult(ask: Oracle, p: Point, reserved: set<CallKey>)
    requires (p.HasInitial? || p.HasExecution?) && p.execution.result.Some?
    ensures Perform(ask, p, AnalysisStep, FirstWork(p, AnalysisStep), reserved) ==
            Made(reserved, ArtifactV(p.execution.result.value))
  {
  }

  /** A sandbox execution as a step. */
  ghost function Executed(answer: Answer, reserved: set<CallKey>): Performed {
    match answer
    case Throws(fault, _) => Broke(reserved, fault)
    case Gives(ExecutionV(e)) => Made(reserved, ExecutionV(e))
    case _ => Broke(reserved, Fault(INTERNAL_ERROR, false, None))
  }

  lemma ExecutesCode(ask: Oracle, p: Point, k: StepKey, reserved: set<CallKey>)
    requires k.InitialStep? || k.RepairRunStep?
    ensures Perform(ask, p, k, FirstWork(p, k), reserved) == Executed(ask(p, k, InSandbox), reserved)
  {
    hide ValidateContext, Deliver, Attempt;
    assert Perform(ask, p, k, CountCommand, reserved) == Perform(ask, p, k, InSandbox, reserved);
  }

  lemma CodeTold(ask: Oracle, p: Point, steps: Steps, reserved: set<CallKey>)
    requires p.HasRepairCode? && SchemaContext(p.ctx)
    requires RepairRunStep !in steps && AnalysisStep !in steps && SynthesisStep !in steps && |reserved| <= 3
    requires CallKey(Synthesize, 1) !in reserved && CallKey(RepairSynthesis, 1) !in reserved
    ensures Settle(ask, steps, reserved, Move(p, Deciding)) ==
            FromCode(ask, p.ctx, p.profile, p.plan, p.execution, p.code, steps, reserved)
  {
    hide Settle, SchemaContext, FromResult, Perform, FirstWork, Conclude;
    SettleDecides(ask, steps, reserved, p);
    SettlePerforms(ask, steps, reserved, p, RepairRunStep);
    ExecutesCode(ask, p, RepairRunStep, reserved);
    var answer := ask(p, RepairRunStep, InSandbox);
    if answer.Gives? && answer.value.ExecutionV? {
      var again := answer.value.execution;
      var q := HasExecution(p.ctx, p.profile, p.plan, again);
      SettleDecides(ask, steps[RepairRunStep := answer.value], reserved, q);
      ResultTold(ask, q, steps[RepairRunStep := answer.value], reserved);
    }
  }

  /** The repaired program as a step. */
  ghost function Coded(answer: Answer, reserved: set<CallKey>): Performed {
    match answer
    case Throws(fault, _) => Broke(reserved, fault)
    case Says(CodeText(code)) =>
      if |code| > 12 * 1024 then Broke(reserved, Fault(MODEL_OUTPUT_INVALID, false, None)) else Made(reserved, CodeV(code))
    case _ => Broke(reserved, Fault(MODEL_OUTPUT_INVALID, false, None))
  }

  lemma RepairsCode(ask: Oracle, p: Point, reserved: set<CallKey>)
    requires |reserved| <= 4 && CallKey(RepairCode, 1) !in reserved
    ensures Perform(ask, p, RepairCodeStep, FirstWork(p, RepairCodeStep), reserved) ==
            Coded(ask(p, RepairCodeStep, CallInvoke(Call(RepairCode, 1, Garbage))), reserved + {CallKey(RepairCode, 1)})
  {
    hide Perform, Attempt;
    var c := Call(RepairCode, 1, Garbage);
    CallIsMade(ask, p, RepairCodeStep, c, reserved);
    CallAnswers(ask, p, RepairCodeStep, c, reserved + {CallKey(RepairCode, 1)});
  }

  lemma ExecutionTold(ask: Oracle, p: Point, steps: Steps, reserved: set<CallKey>)
    requires p.HasInitial? && SchemaContext(p.ctx)
    requires RepairCodeStep !in steps && RepairRunStep !in steps && AnalysisStep !in steps && SynthesisStep !in steps
    requires |reserved| <= 2 && CallKey(RepairCode, 1) !in reserved
    requires CallKey(Synthesize, 1) !in reserved && CallKey(RepairSynthesis, 1) !in reserved
    ensures Settle(ask, steps, reserved, Move(p, Deciding)) ==
            FromExecution(ask, p.ctx, p.profile, p.plan, p.execution, steps, reserved)
  {
    hide Settle, SchemaContext, FromResult, FromCode, Perform, FirstWork, Conclude;
    var e := p.execution;
    SettleDecides(ask, steps, reserved, p);
    if e.ok {
      ResultTold(ask, p, steps, reserved);
    } else if e.error.None? {
      SettleFails(ask, steps, reserved, p, Fatal(SANDBOX_INVALID_RESULT));
      BrokenIsOver(steps, reserved, Fatal(SANDBOX_INVALID_RESULT));
    } else {
      var after := reserved + {CallKey(RepairCode, 1)};
      SettlePerforms(ask, steps, reserved, p, RepairCodeStep);
      RepairsCode(ask, p, reserved);
      match Coded(ask(p, RepairCodeStep, CallInvoke(Call(RepairCode, 1, Garbage))), after) {
        case Made(_, v) =>
          CodeTold(ask, HasRepairCode(p.ctx, p.profile, p.plan, e, v.code), steps[RepairCodeStep := v], after);
        case Broke(_, fault) =>
          EndsBroken(ask, steps, p, RepairCodeStep, after, fault);
      }
    }
  }

  lemma PlanTold(ask: Oracle, p: Point, steps: Steps, reserved: set<CallKey>)
    requires p.HasRoute? && SchemaContext(p.ctx) && ValidPlan(p.plan)
    requires steps.Keys <= {ContextStep, ProfileStep, RouteStep}
    requires |reserved| <= 2 && CallKey(RepairCode, 1) !in reserved
    requires CallKey(Synthesize, 1) !in reserved && CallKey(RepairSynthesis, 1) !in reserved
    ensures Settle(ask, steps, reserved, Move(p, Deciding)) ==
            FromPlan(ask, p.ctx, p.profile, p.plan, steps, reserved)
  {
    hide Settle, SchemaContext, FromExecution, FromAnalysis, Perform, FirstWork;
    SettleDecides(ask, steps, reserved, p);
    if p.plan.responseType == ClarificationType {
      SettleFinishes(ask, steps, reserved, p,
                     FinishActive(ClarificationOf(p.plan.clarification.value), AwaitingUserInput));
    } else if p.plan.requiresData && p.profile.None? {
      SettleFails(ask, steps, reserved, p, Fatal(PROFILE_REQUIRED));
      BrokenIsOver(steps, reserved, Fatal(PROFILE_REQUIRED));
    } else if p.plan.requiresData {
      SettleProbes(ask, steps, reserved, p);
      SettlePerforms(ask, steps, reserved, p, InitialStep);
      ExecutesCode(ask, p, InitialStep, reserved);
      var answer := ask(p, InitialStep, InSandbox);
      if answer.Gives? && answer.value.ExecutionV? {
        var q := HasInitial(p.ctx, p.profile, p.plan, answer.value.execution);
        ExecutionTold(ask, q, steps[InitialStep := answer.value], reserved);
      }
    } else {
      SettleDecides(ask, steps, reserved, HasAnalysis(p.ctx, p.profile, p.plan, None));
      AnalysisTold(ask, p.ctx, p.profile, p.plan, None, steps, reserved);
    }
  }

  // ---------------------------------------------------------------- from the start

  /** The routing as a step, after its last attempt. */
  ghost function Planned(answer: Answer, reserved: set<CallKey>): Performed {
    match answer
    case Throws(fault, _) => Broke(reserved, fault)
    case Says(PlanShaped(plan)) =>
      if ValidPlan(plan) then Made(reserved, PlanV(plan)) else Broke(reserved, Fault(MODEL_OUTPUT_INVALID, false, None))
    case _ => Broke(reserved, Fault(MODEL_OUTPUT_INVALID, false, None))
  }

  lemma PlanDelivers(p: Point, raw: Raw, c: Call, reserved: set<CallKey>)
    requires c.op.Route?
    ensures !Deliver(p, RouteStep, c, raw).pc.Working?
    ensures Read(Deliver(p, RouteStep, c, raw), reserved) == Planned(Says(raw), reserved)
  {
    hide ValidPlan;
  }

  lemma RoutesOnce(ask: Oracle, p: Point)
    ensures var first := ask(p, RouteStep, CallInvoke(Call(Route, 1, Garbage)));
            !(first.Throws? && first.fault.retryable) ==>
              Perform(ask, p, RouteStep, FirstWork(p, RouteStep), {}) == Planned(first, {CallKey(Route, 1)})
  {
    hide Perform, Attempt, Deliver, ValidPlan;
    var c := Call(Route, 1, Garbage);
    CallIsMade(ask, p, RouteStep, c, {});
    assert {} + {KeyOf(c)} == {CallKey(Route, 1)};
    CallAnswers(ask, p, RouteStep, c, {CallKey(Route, 1)});
    PlanDelivers(p, Said(ask(p, RouteStep, CallInvoke(c))), c, {CallKey(Route, 1)});
  }

  lemma RoutesTwice(ask: Oracle, p: Point)
    ensures var first := ask(p, RouteStep, CallInvoke(Call(Route, 1, Garbage)));
            first.Throws? && first.fault.retryable ==>
              Perform(ask, p, RouteStep, FirstWork(p, RouteStep), {}) ==
              Planned(ask(p, RouteStep, CallInvoke(Call(Route, 2, Garbage))), {CallKey(Route, 1), CallKey(Route, 2)})
  {
    hide Perform, Attempt, Deliver, ValidPlan;
    var c, again := Call(Route, 1, Garbage), Call(Route, 2, Garbage);
    CallIsMade(ask, p, RouteStep, c, {});
    assert {} + {KeyOf(c)} == {CallKey(Route, 1)};
    CallAnswers(ask, p, RouteStep, c, {CallKey(Route, 1)});
    CallIsMade(ask, p, RouteStep, again, {CallKey(Route, 1)});
    assert {CallKey(Route, 1)} + {KeyOf(again)} == {CallKey(Route, 1), CallKey(Route, 2)};
    CallAnswers(ask, p, RouteStep, again, {CallKey(Route, 1), CallKey(Route, 2)});
    PlanDelivers(p, Said(ask(p, RouteStep, CallInvoke(again))), again, {CallKey(Route, 1), CallKey(Route, 2)});
  }

  lemma RoutingTold(ask: Oracle, p: Point, steps: Steps, reserved: set<CallKey>, answer: Answer)
    requires p.HasProfile? && SchemaContext(p.ctx) && steps.Keys <= {ContextStep, ProfileStep}
    requires reserved <= {CallKey(Route, 1), CallKey(Route, 2)} && |reserved| <= 2
    ensures Ends(ask, steps, p, RouteStep, Planned(answer, reserved)) ==
            FromRouting(p.ctx, p.profile, ask, steps, reserved, answer)
  {
    hide Settle, SchemaContext, FromPlan, ValidPlan, Ends, Advance;
    match Planned(answer, reserved) {
      case Made(_, v) =>
        RouteEnds(ask, steps, p, reserved, v.plan);
        PlanTold(ask, HasRoute(p.ctx, p.profile, v.plan), steps[RouteStep := v], reserved);
      case Broke(_, fault) =>
        EndsBroken(ask, steps, p, RouteStep, reserved, fault);
    }
  }

  lemma RouteEnds(ask: Oracle, steps: Steps, p: Point, reserved: set<CallKey>, plan: RoutePlan)
    requires p.HasProfile?
    ensures Ends(ask, steps, p, RouteStep, Made(reserved, PlanV(plan))) ==
            Settle(ask, steps[RouteStep := PlanV(plan)], reserved, Move(HasRoute(p.ctx, p.profile, plan), Deciding))
  {
    hide Settle;
  }

  lemma ProfileTold(ask: Oracle, p: Point, steps: Steps)
    requires p.HasProfile? && SchemaContext(p.ctx) && steps.Keys <= {ContextStep, ProfileStep}
    ensures Settle(ask, steps, {}, Move(p, Deciding)) == FromProfile(ask, p.ctx, p.profile, steps)
  {
    hide Settle, SchemaContext, FromRouting, Planned, Perform, Ends, FirstWork;
    SettleDecides(ask, steps, {}, p);
    if p.profile.Some? {
      SettleLoads(ask, steps, {}, p, p.profile.value, RouteStep);
    }
    SettlePerforms(ask, steps, {}, p, RouteStep);
    var first := ask(p, RouteStep, CallInvoke(Call(Route, 1, Garbage)));
    if first.Throws? && first.fault.retryable {
      RoutesTwice(ask, p);
      RoutingTold(ask, p, steps, {CallKey(Route, 1), CallKey(Route, 2)},
                  ask(p, RouteStep, CallInvoke(Call(Route, 2, Garbage))));
    } else {
      RoutesOnce(ask, p);
      RoutingTold(ask, p, steps, {CallKey(Route, 1)}, first);
    }
  }

  /** The profile as a step. */
  ghost function Profiled(answer: Answer): Performed {
    match answer
    case Throws(fault, _) => Broke({}, fault)
    case Gives(ArtifactV(doc)) =>
      if |doc| > 256 * 1024 then Broke({}, Fault(PROFILE_TOO_LARGE, false, None)) else Made({}, ArtifactV(doc))
    case _ => Broke({}, Fault(INTERNAL_ERROR, false, None))
  }

  lemma ProfilesData(ask: Oracle, p: Point)
    ensures Perform(ask, p, ProfileStep, FirstWork(p, ProfileStep), {}) == Profiled(ask(p, ProfileStep, InSandbox))
  {
    hide ValidateContext, Deliver, Attempt;
    assert Perform(ask, p, ProfileStep, CountCommand, {}) == Perform(ask, p, ProfileStep, InSandbox, {});
  }

  lemma ContextsTold(ask: Oracle, p: Point, steps: Steps)
    requires p.HasContext? && SchemaContext(p.ctx) && steps.Keys <= {ContextStep}
    ensures Settle(ask, steps, {}, Move(p, Deciding)) == FromContext(ask, p.ctx, steps)
  {
    hide Settle, SchemaContext, FromProfile, Perform, FirstWork, Choices, Preflight, Leased, Ends;
    SettleDecides(ask, steps, {}, p);
    PreflightTold(p.ctx);
    if NeedsChoice(p.ctx) {
      SettleFinishes(ask, steps, {}, p, FinishActive(Preflight(p.ctx).value, AwaitingUserInput));
    } else if p.ctx.assets == [] {
      ProfileTold(ask, HasProfile(p.ctx, None), steps);
    } else {
      SettleEarly(ask, steps, {}, p, ProfileStep);
      SettleLeased(ask, steps, {}, p, ForProfile);
      SettlePerforms(ask, steps, {}, p, ProfileStep);
      ProfilesData(ask, p);
      match Profiled(ask(p, ProfileStep, InSandbox)) {
        case Made(_, v) =>
          ProfileEnds(ask, steps, p, v.doc);
          ProfileTold(ask, HasProfile(p.ctx, Some(v.doc)), steps[ProfileStep := v]);
        case Broke(_, fault) =>
          EndsBroken(ask, steps, p, ProfileStep, {}, fault);
      }
    }
  }

  lemma ProfileEnds(ask: Oracle, steps: Steps, p: Point, doc: Doc)
    requires p.HasContext?
    ensures Ends(ask, steps, p, ProfileStep, Made({}, ArtifactV(doc))) ==
            Settle(ask, steps[ProfileStep := ArtifactV(doc)], {}, Move(HasProfile(p.ctx, Some(doc)), Deciding))
  {
    hide Settle;
  }

  lemma FetchTold(ask: Oracle)
    ensures var answer := ask(AtStart, ContextStep, FetchContext);
            Perform(ask, AtStart, ContextStep, FirstWork(AtStart, ContextStep), {}) ==
            Read(ActFetchContext(AtStart, ContextStep, answer), {})
  {
    hide ActFetchContext, Deliver, ActSandbox, Attempt;
  }

  lemma ContextEnds(ask: Oracle, ctx: RunContext)
    ensures Ends(ask, map[], AtStart, ContextStep, Made({}, ContextV(ctx))) ==
            Settle(ask, map[ContextStep := ContextV(ctx)], {}, Move(HasContext(ctx), Deciding))
  {
    hide Settle;
    assert map[][ContextStep := ContextV(ctx)] == map[ContextStep := ContextV(ctx)];
  }

  /**
   * One uninterrupted execution, which the machine is shown to end as however it is sliced, does exactly what the
   * story tells, for all answers of the ports.
   */
  lemma UninterruptedIsStory(ask: Oracle)
    ensures Uninterrupted(ask) == Story(ask)
  {
    hide Settle, SchemaContext, FromContext, Perform, FirstWork, DistinctAssets, TotalBytes, ValidateContext, Ends;
    var answer := ask(AtStart, ContextStep, FetchContext);
    SettleDecides(ask, map[], {}, AtStart);
    SettlePerforms(ask, map[], {}, AtStart, ContextStep);
    FetchTold(ask);
    if answer.Gives? && answer.value.ContextV? {
      var ctx := answer.value.context;
      ContextTold(ctx);
      if ValidateContext(ctx).None? {
        ContextEnds(ask, ctx);
        ContextsTold(ask, HasContext(ctx), map[ContextStep := ContextV(ctx)]);
      } else {
        EndsBroken(ask, map[], AtStart, ContextStep, {}, ValidateContext(ctx).value);
      }
    } else {
      EndsBroken(ask, map[], AtStart, ContextStep, {}, if answer.Throws? then answer.fault else Fatal(INVALID_CONTEXT));
    }
  }

  /** However a run is sliced, once it is over it has left exactly what the story tells. */
  lemma SlicedIsStory(ask: Oracle, states: seq<System>, acts: seq<Action>, r: RunId, i: nat)
    requires QuietBehavior(ask, states, acts, r) && i < |states|
    ensures r in states[i].runs
    ensures IsTerminal(states[i].runs[r].status) ==> Left(states[i].runs[r]) == Story(ask)
  {
    hide QuietBehavior, Uninterrupted, Story;
    SlicingIsInvisible(ask, states, acts, r, i);
    SlicingIsInvisible(ask, states, acts, r, i);
    UninterruptedIsStory(ask);
  }

  /** The byte limit is on the sum of all assets. */
  lemma {:induction false} BytesAddUp(a: seq<Asset>, b: seq<Asset>)
    ensures TotalBytes(a + b) == TotalBytes(a) + TotalBytes(b)
    ensures |a| == 1 ==> TotalBytes(a) == a[0].bytes
  {
    if a == [] {
      assert a + b == b;
    } else {
      assert (a + b)[1..] == a[1..] + b;
      BytesAddUp(a[1..], b);
    }
  }
}
