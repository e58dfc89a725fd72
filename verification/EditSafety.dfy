/** What the checks on an edited dashboard guarantee, for every model output. */
module EditSafety {
  import opened Dashboards
  import opened Layouts
  import opened WorkflowTypes

  datatype EditError = NoTarget | IdentityChanged | TargetRemoved | ComponentsChanged | UntargetedChanged | ShellChanged

  /** The id-indexed view of a component list; a later component replaces an earlier one with the same id. */
  function ById(components: seq<Component>): map<string, Component> {
    if components == [] then map[]
    else
      var n := |components| - 1;
      ById(components[..n])[components[n].id := components[n]]
  }

  function AllIdentifiers(components: seq<Component>): set<string> {
    set c, id | c in components && id in Identifiers(c) :: id
  }

  function Targets(target: EditTarget): set<string> {
    set id | id in target.componentIds
  }

  /** The edit check, branch by branch. */
  function EditDashboardError(context: RunContext, response: Response): Option<EditError> {
    if !response.ChartModification? then None
    else if context.editTarget.None? || context.existingDashboard.None? then Some(NoTarget)
    else
      var original, edited := context.existingDashboard.value, response.dashboard;
      var targets := Targets(context.editTarget.value);
      var originalById, editedById := ById(original.components), ById(edited.components);
      if edited.id != original.id then Some(IdentityChanged)
      else if exists id :: id in targets && id !in AllIdentifiers(edited.components) then Some(TargetRemoved)
      else if |originalById| != |editedById| || exists id :: id in originalById && id !in editedById then
        Some(ComponentsChanged)
      else if exists id :: id in originalById && Identifiers(originalById[id]) !! targets &&
                           originalById[id] != editedById[id] then
        Some(UntargetedChanged)
      else if original.shell != edited.shell then Some(ShellChanged)
      else None
  }

  /** What an edit of `targets` must leave alone. */
  ghost predicate KeepsFrame(original: Dashboard, edited: Dashboard, targets: set<string>) {
    && edited.id == original.id
    && edited.shell == original.shell
    && Ids(edited.components) == Ids(original.components)
    && forall c :: c in original.components && Identifiers(c) !! targets ==> c in edited.components
  }

  lemma {:induction false} ByIdIsUnique(components: seq<Component>)
    requires UniqueIds(components)
    ensures ById(components).Keys == Ids(components)
    ensures forall c :: c in components ==> ById(components)[c.id] == c
  {
    if components == [] {
    } else {
      var n := |components| - 1;
      var before := components[..n];
      assert components == before + [components[n]];
      UniqueIdsExtends(before, components[n]);
      ByIdIsUnique(before);
    }
  }

  /** Inclusion between sets of the same size is equality. */
  lemma {:induction false} SameSizeSubset<T>(small: set<T>, large: set<T>)
    requires small <= large && |small| == |large|
    ensures small == large
  {
    if small != large {
      var x :| x in large && x !in small;
      SubsetSize(small, large - {x});
    }
  }

  /** Id-indexed views agree on a component exactly when the other list contains it. */
  lemma SameEntry(c: Component, edited: seq<Component>)
    requires UniqueIds(edited)
    ensures c in edited <==> c.id in ById(edited) && ById(edited)[c.id] == c
  {
    ByIdIsUnique(edited);
    if c.id in ById(edited) && ById(edited)[c.id] == c {
      var e :| e in edited && e.id == c.id;
    }
  }

  lemma CheckKeepsFrame(context: RunContext, response: Response)
    requires SchemaContext(context) && ValidResponse(response) && response.ChartModification?
    requires EditDashboardError(context, response).None?
    ensures context.editTarget.Some? && context.existingDashboard.Some?
    ensures KeepsFrame(context.existingDashboard.value, response.dashboard, Targets(context.editTarget.value))
  {
    var original, edited := context.existingDashboard.value, response.dashboard;
    var before, after := ById(original.components), ById(edited.components);
    ByIdIsUnique(original.components);
    ByIdIsUnique(edited.components);
    assert |before| == |before.Keys| && |after| == |after.Keys|;
    SameSizeSubset(before.Keys, after.Keys);
    forall c | c in original.components && Identifiers(c) !! Targets(context.editTarget.value)
      ensures c in edited.components
    {
      assert c.id in before && before[c.id] == c;
      SameEntry(c, edited.components);
    }
  }

  lemma FramePassesCheck(context: RunContext, response: Response)
    requires SchemaContext(context) && ValidResponse(response) && response.ChartModification?
    requires context.editTarget.Some? && context.existingDashboard.Some?
    requires KeepsFrame(context.existingDashboard.value, response.dashboard, Targets(context.editTarget.value))
    requires Targets(context.editTarget.value) <= AllIdentifiers(response.dashboard.components)
    ensures EditDashboardError(context, response).None?
  {
    hide ById, CountKind, WithinCounts;
    var original, edited := context.existingDashboard.value, response.dashboard;
    var before, after := ById(original.components), ById(edited.components);
    ByIdIsUnique(original.components);
    ByIdIsUnique(edited.components);
    assert before.Keys == after.Keys;
    assert |before| == |before.Keys| && |after| == |after.Keys|;
    assert !exists id :: id in before && id !in after;
    forall id | id in before && Identifiers(before[id]) !! Targets(context.editTarget.value)
      ensures before[id] == after[id]
    {
      var c :| c in original.components && c.id == id;
      SameEntry(c, edited.components);
    }
  }

  /**
   * The check passes a chart modification exactly when there is a target, the frame is kept and no targeted
   * identifier disappeared.
   */
  lemma EditCheckIsExact(context: RunContext, response: Response)
    requires SchemaContext(context) && ValidResponse(response) && response.ChartModification?
    ensures EditDashboardError(context, response).None? <==>
            && context.editTarget.Some?
            && context.existingDashboard.Some?
            && KeepsFrame(context.existingDashboard.value, response.dashboard, Targets(context.editTarget.value))
            && Targets(context.editTarget.value) <= AllIdentifiers(response.dashboard.components)
  {
    if EditDashboardError(context, response).None? {
      CheckKeepsFrame(context, response);
    } else if context.editTarget.Some? && context.existingDashboard.Some? &&
              KeepsFrame(context.existingDashboard.value, response.dashboard, Targets(context.editTarget.value)) &&
              Targets(context.editTarget.value) <= AllIdentifiers(response.dashboard.components) {
      FramePassesCheck(context, response);
      assert false;
    }
  }

  /** A component outside the target set is still the only one with its id. */
  lemma UntargetedIsUnchanged(original: Dashboard, edited: Dashboard, targets: set<string>, c: Component, e: Component)
    requires KeepsFrame(original, edited, targets) && UniqueIds(edited.components)
    requires c in original.components && Identifiers(c) !! targets
    requires e in edited.components && e.id == c.id
    ensures e == c
  {
    ByIdIsUnique(edited.components);
    assert c in edited.components;
  }

  function Union(targets: seq<set<string>>): set<string> {
    if targets == [] then {} else Union(targets[..|targets| - 1]) + targets[|targets| - 1]
  }

  /** Through any chain of accepted edits the frame of the union of their target sets is kept. */
  lemma {:induction false} ChainKeepsFrame(dashboards: seq<Dashboard>, targets: seq<set<string>>)
    requires |dashboards| == |targets| + 1
    requires forall i :: 0 <= i < |targets| ==> KeepsFrame(dashboards[i], dashboards[i + 1], targets[i])
    ensures KeepsFrame(dashboards[0], dashboards[|targets|], Union(targets))
  {
    if targets == [] {
    } else {
      var n := |targets| - 1;
      ChainKeepsFrame(dashboards[..n + 1], targets[..n]);
      assert KeepsFrame(dashboards[n], dashboards[n + 1], targets[n]);
    }
  }

  /** A model answer as it comes back from a provider. */
  datatype Raw =
    | Oversized
    | CodeText(code: string)
    | PlanShaped(plan: RoutePlan)
    | ResponseShaped(response: Response)
    | Garbage

  datatype OutputError = SchemaError | WrongType | Overlapping | BadEdit(error: EditError)

  datatype Checked = Accepted(response: Response) | Rejected(error: OutputError)

  function LayoutError(response: Response): bool {
    (response.DashboardConfig? || response.ChartModification?) && AnyOverlap(response.dashboard.components)
  }

  function ValidateSynthesisOutput(context: RunContext, plan: RoutePlan, raw: Raw): Checked {
    if !raw.ResponseShaped? || !ValidResponse(raw.response) then Rejected(SchemaError)
    else if TypeOf(raw.response) != plan.responseType then Rejected(WrongType)
    else if LayoutError(raw.response) then Rejected(Overlapping)
    else
      match EditDashboardError(context, raw.response)
      case Some(error) => Rejected(BadEdit(error))
      case None => Accepted(raw.response)
  }

  const PRESERVED_CONTENT := "I could not verify the requested edit, so the original dashboard was preserved."
  const PRESERVED_NOTE := "No changes were saved because the repaired edit still failed validation."

  /** What is kept when the repaired answer fails as well: the original dashboard, or nothing. */
  function Fallback(context: RunContext, plan: RoutePlan): Option<Response> {
    if plan.responseType.ModificationType? && context.existingDashboard.Some? && context.editTarget.Some? then
      Some(ChartModification(PRESERVED_CONTENT, context.existingDashboard.value, Some(PRESERVED_NOTE)))
    else None
  }

  /** What the rest of the system may rely on about a synthesised response. */
  ghost predicate SafeResponse(context: RunContext, plan: RoutePlan, response: Response) {
    && ValidResponse(response)
    && TypeOf(response) == plan.responseType
    && (response.DashboardConfig? ==> Disjoint(response.dashboard.components))
    && (response.ChartModification? ==>
          && context.existingDashboard.Some?
          && context.editTarget.Some?
          && KeepsFrame(context.existingDashboard.value, response.dashboard, Targets(context.editTarget.value))
          && (Disjoint(response.dashboard.components) || response.dashboard == context.existingDashboard.value))
  }

  /** The response is of the planned type. */
  predicate IsOfType(planned: ResponseType, response: Response) {
    match planned
    case MessageType => response.Message?
    case VisualType => response.AnswerWithVisual?
    case DashboardType => response.DashboardConfig?
    case ModificationType => response.ChartModification?
    case ClarificationType => response.ClarificationRequest?
  }

  /** An edit that names existing components, leaves its frame alone and loses none of its targets. */
  ghost predicate EditsOnlyTargets(context: RunContext, edited: Dashboard) {
    && context.editTarget.Some? && context.existingDashboard.Some?
    && KeepsFrame(context.existingDashboard.value, edited, Targets(context.editTarget.value))
    && Targets(context.editTarget.value) <= AllIdentifiers(edited.components)
  }

  /** What a provider has to answer. */
  ghost predicate Acceptable(context: RunContext, plan: RoutePlan, raw: Raw) {
    && raw.ResponseShaped?
    && ValidResponse(raw.response)
    && IsOfType(plan.responseType, raw.response)
    && (raw.response.DashboardConfig? || raw.response.ChartModification? ==> Disjoint(raw.response.dashboard.components))
    && (raw.response.ChartModification? ==> EditsOnlyTargets(context, raw.response.dashboard))
  }

  /** Exactly the acceptable answers pass the validation, and they pass as they are. */
  lemma AcceptanceIsExact(context: RunContext, plan: RoutePlan, raw: Raw)
    requires SchemaContext(context)
    ensures Acceptable(context, plan, raw) ==> ValidateSynthesisOutput(context, plan, raw) == Accepted(raw.response)
    ensures !Acceptable(context, plan, raw) ==> ValidateSynthesisOutput(context, plan, raw).Rejected?
  {
    hide EditDashboardError, Disjoint, AnyOverlap, KeepsFrame, AllIdentifiers, Targets, ValidDashboard, SchemaContext;
    if raw.ResponseShaped? && ValidResponse(raw.response) {
      var response := raw.response;
      if response.DashboardConfig? || response.ChartModification? {
        ValidPositions(response);
        AnyOverlapIsNotDisjoint(response.dashboard.components);
      }
      if response.ChartModification? {
        EditCheckIsExact(context, response);
      } else {
        NothingToEdit(context, response);
      }
    }
  }

  lemma NothingToEdit(context: RunContext, response: Response)
    requires !response.ChartModification?
    ensures EditDashboardError(context, response).None?
  {
  }

  lemma ValidPositions(response: Response)
    requires ValidResponse(response) && (response.DashboardConfig? || response.ChartModification?)
    ensures forall c :: c in response.dashboard.components ==> ValidPosition(c.position)
  {
  }

  /** There is something to fall back to exactly for a planned edit of an existing dashboard. */
  lemma FallbackIsExact(context: RunContext, plan: RoutePlan)
    ensures Fallback(context, plan).Some? <==>
              plan.responseType == ModificationType && context.existingDashboard.Some? && context.editTarget.Some?
    ensures Fallback(context, plan).Some? ==>
              && Fallback(context, plan).value.ChartModification?
              && Fallback(context, plan).value.dashboard == context.existingDashboard.value
  {
  }

  /** Whatever the provider answers, the first time or after the repair, an accepted answer is safe. */
  lemma AcceptedIsSafe(context: RunContext, plan: RoutePlan, raw: Raw)
    requires SchemaContext(context)
    requires ValidateSynthesisOutput(context, plan, raw).Accepted?
    ensures SafeResponse(context, plan, ValidateSynthesisOutput(context, plan, raw).response)
    ensures ValidResponse(ValidateSynthesisOutput(context, plan, raw).response)
  {
    var response := raw.response;
    if response.DashboardConfig? || response.ChartModification? {
      AnyOverlapIsNotDisjoint(response.dashboard.components);
    }
    if response.ChartModification? {
      EditCheckIsExact(context, response);
    }
  }

  /** The fallback is a safe answer too: it changes nothing at all. */
  lemma FallbackIsSafe(context: RunContext, plan: RoutePlan)
    requires SchemaContext(context) && Fallback(context, plan).Some?
    ensures SafeResponse(context, plan, Fallback(context, plan).value)
    ensures ValidResponse(Fallback(context, plan).value)
    ensures Fallback(context, plan).value.dashboard == context.existingDashboard.value
  {
  }
}
