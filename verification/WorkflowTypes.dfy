/** The values the workflow engine passes between its steps, as far as its control flow and checks look at them. */
module WorkflowTypes {
  import opened Dashboards

  const MAX_ASSETS := 3
  const MAX_AGGREGATE_BYTES := 25 * 1024 * 1024
  const MAX_CODE_CHARACTERS := 12 * 1024

  datatype Option<+T> = None | Some(value: T)

  datatype ResponseType = MessageType | VisualType | DashboardType | ModificationType | ClarificationType

  datatype Choice = Choice(id: string, text: string)

  datatype Response =
    | Message(content: string)
    | AnswerWithVisual(content: string, artifacts: string)
    | DashboardConfig(content: string, dashboard: Dashboard)
    | ChartModification(content: string, dashboard: Dashboard, editNote: Option<string>)
    | ClarificationRequest(content: string, clarificationId: string, reason: string, options: seq<Choice>)

  function TypeOf(r: Response): ResponseType {
    match r
    case Message(_) => MessageType
    case AnswerWithVisual(_, _) => VisualType
    case DashboardConfig(_, _) => DashboardType
    case ChartModification(_, _, _) => ModificationType
    case ClarificationRequest(_, _, _, _) => ClarificationType
  }

  /** The part of the response schema that later code relies on. */
  predicate ValidResponse(r: Response) {
    r.DashboardConfig? || r.ChartModification? ==> ValidDashboard(r.dashboard)
  }

  datatype EditTarget = EditTarget(dashboardId: string, componentIds: seq<string>)

  datatype Asset = Asset(id: string, fileName: string, bytes: nat)

  /**
   * `promptNamesAsset` and `promptCombines` are the outcomes of the two text tests on the prompt; `rest` stands
   * for the fields the engine only passes on.
   */
  datatype RunContext = RunContext(
    runId: string,
    assets: seq<Asset>,
    promptNamesAsset: bool,
    promptCombines: bool,
    existingDashboard: Option<Dashboard>,
    editTarget: Option<EditTarget>,
    rest: string)

  predicate SchemaContext(c: RunContext) {
    && |c.assets| <= MAX_ASSETS
    && (c.existingDashboard.Some? ==> ValidDashboard(c.existingDashboard.value))
    && (c.editTarget.Some? ==> 1 <= |c.editTarget.value.componentIds| <= 16)
  }

  function TotalBytes(assets: seq<Asset>): nat {
    if assets == [] then 0 else assets[0].bytes + TotalBytes(assets[1..])
  }

  datatype Clarification = Clarification(id: string, reason: string, question: string, options: seq<Choice>)

  datatype RoutePlan = RoutePlan(
    responseType: ResponseType,
    requiresData: bool,
    analysisCode: Option<string>,
    clarification: Option<Clarification>)

  /** An absent and an empty program are both missing. */
  predicate HasCode(plan: RoutePlan) {
    plan.analysisCode.Some? && plan.analysisCode.value != ""
  }

  predicate ValidPlan(plan: RoutePlan) {
    && (plan.responseType.ClarificationType? <==> plan.clarification.Some?)
    && (plan.requiresData ==> HasCode(plan))
    && (plan.analysisCode.Some? ==> |plan.analysisCode.value| <= MAX_CODE_CHARACTERS)
  }
}
