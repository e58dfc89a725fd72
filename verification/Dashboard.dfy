/** Dashboards as the contract describes them, and the cross-field checks on a configuration. */
module Dashboards {

  const GRID_COLUMNS := 24
  const MAX_CHARTS := 8
  const MAX_METRICS := 8
  const MAX_TABLES := 2

  datatype Position = Position(x: int, y: int, width: int, height: int)

  predicate ValidPosition(p: Position) {
    && 0 <= p.x <= 23
    && 0 <= p.y <= 10_000
    && 1 <= p.width <= 24
    && 1 <= p.height <= 100
    && p.x + p.width <= GRID_COLUMNS
  }

  datatype ComponentKind = Chart | Metric | Table

  /** `configId` is the id inside the component's own configuration; `rest` stands for its other content. */
  datatype Component = Component(id: string, kind: ComponentKind, configId: string, position: Position, rest: string)

  function Identifiers(c: Component): set<string> {
    {c.id, c.configId}
  }

  /** Everything a dashboard holds besides its id and its components. */
  datatype Shell = Shell(title: string, description: string, themeId: string, layout: string, metadata: string)

  datatype Dashboard = Dashboard(id: string, shell: Shell, components: seq<Component>)

  function Ids(components: seq<Component>): set<string> {
    set c | c in components :: c.id
  }

  predicate UniqueIds(components: seq<Component>) {
    forall i, j :: 0 <= i < j < |components| ==> components[i].id != components[j].id
  }

  function CountKind(components: seq<Component>, kind: ComponentKind): nat {
    if components == [] then 0
    else CountKind(components[..|components| - 1], kind) + (if components[|components| - 1].kind == kind then 1 else 0)
  }

  predicate WithinCounts(components: seq<Component>) {
    && CountKind(components, Chart) <= MAX_CHARTS
    && CountKind(components, Metric) <= MAX_METRICS
    && CountKind(components, Table) <= MAX_TABLES
  }

  predicate ValidDashboard(d: Dashboard) {
    && |d.components| <= MAX_CHARTS + MAX_METRICS + MAX_TABLES
    && (forall c :: c in d.components ==> ValidPosition(c.position))
    && UniqueIds(d.components)
    && WithinCounts(d.components)
  }

  datatype Issue = DuplicateId(id: string) | TooManyCharts | TooManyMetrics | TooManyTables

  /** One issue for each component, in order, whose id an earlier component already uses. */
  function DuplicateIssues(components: seq<Component>): seq<Issue> {
    if components == [] then []
    else
      var before, c := components[..|components| - 1], components[|components| - 1];
      DuplicateIssues(before) + (if c.id in Ids(before) then [DuplicateId(c.id)] else [])
  }

  function CountIssues(charts: nat, metrics: nat, tables: nat): seq<Issue> {
    (if charts > MAX_CHARTS then [TooManyCharts] else []) +
    (if metrics > MAX_METRICS then [TooManyMetrics] else []) +
    (if tables > MAX_TABLES then [TooManyTables] else [])
  }

  /** The cross-field refinement of a configuration, with the set and the counters it threads through the loop. */
  method RefineConfiguration(components: seq<Component>) returns (issues: seq<Issue>)
    ensures issues == DuplicateIssues(components) +
                      CountIssues(CountKind(components, Chart), CountKind(components, Metric), CountKind(components, Table))
    ensures issues == [] <==> UniqueIds(components) && WithinCounts(components)
  {
    issues := [];
    var ids: set<string> := {};
    var charts, metrics, tables := 0, 0, 0;
    for n := 0 to |components|
      invariant ids == Ids(components[..n])
      invariant charts == CountKind(components[..n], Chart)
      invariant metrics == CountKind(components[..n], Metric)
      invariant tables == CountKind(components[..n], Table)
      invariant issues == DuplicateIssues(components[..n])
    {
      var c := components[n];
      assert components[..n + 1] == components[..n] + [c];
      match c.kind {
        case Chart => charts := charts + 1;
        case Metric => metrics := metrics + 1;
        case Table => tables := tables + 1;
      }
      if c.id in ids {
        issues := issues + [DuplicateId(c.id)];
      }
      ids := ids + {c.id};
    }
    assert components[..|components|] == components;
    DuplicatesCount(components);
    issues := issues + CountIssues(charts, metrics, tables);
  }

  /**
   * The reported duplicates are as many as the components that add no new id, so there is none exactly when the
   * ids are pairwise distinct, and exactly then the id set is as large as the component list.
   */
  lemma {:induction false} DuplicatesCount(components: seq<Component>)
    ensures |DuplicateIssues(components)| == |components| - |Ids(components)|
    ensures DuplicateIssues(components) == [] <==> UniqueIds(components)
  {
    if components == [] {
    } else {
      var n := |components| - 1;
      var before, c := components[..n], components[n];
      DuplicatesCount(before);
      assert components == before + [c];
      assert Ids(components) == Ids(before) + {c.id};
      UniqueIdsExtends(before, c);
    }
  }

  lemma UniqueIdsExtends(before: seq<Component>, c: Component)
    ensures UniqueIds(before + [c]) <==> UniqueIds(before) && c.id !in Ids(before)
  {
    var after := before + [c];
    if UniqueIds(after) {
      forall i, j | 0 <= i < j < |before|
        ensures before[i].id != before[j].id
      {
        assert after[i].id != after[j].id;
      }
      forall b | b in before
        ensures b.id != c.id
      {
        var i :| 0 <= i < |before| && before[i] == b;
        assert after[i].id != after[|before|].id;
      }
    }
  }

  function IndicesOf(components: seq<Component>, kind: ComponentKind): set<nat> {
    set i: nat | i < |components| && components[i].kind == kind
  }

  /** The counters count the components of a kind. */
  lemma {:induction false} CountKindCounts(components: seq<Component>, kind: ComponentKind)
    ensures CountKind(components, kind) == |IndicesOf(components, kind)|
  {
    if components == [] {
      assert IndicesOf(components, kind) == {};
    } else {
      var n := |components| - 1;
      CountKindCounts(components[..n], kind);
      assert IndicesOf(components, kind) ==
             IndicesOf(components[..n], kind) + if components[n].kind == kind then {n} else {};
    }
  }
}
