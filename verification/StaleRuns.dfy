/** The counters that keep results of superseded chat runs and dashboard clicks from winning, under all interleavings. */
module StaleRuns {
  import opened WorkflowTypes

  // ---------------------------------------------------------------- workflow runs

  datatype Runs = Runs(issued: nat, active: Option<nat>)

  datatype RunOp = Begin | Finish(id: nat) | Invalidate

  function ApplyRun(s: Runs, op: RunOp): Runs {
    match op
    case Begin => Runs(s.issued + 1, Some(s.issued + 1))
    case Finish(id) => if s.active == Some(id) then Runs(s.issued, None) else s
    case Invalidate => Runs(s.issued + 1, None)
  }

  /** The state after any interleaving of the operations of any number of runs. */
  function After(ops: seq<RunOp>): Runs {
    if ops == [] then Runs(0, None) else ApplyRun(After(ops[..|ops| - 1]), ops[|ops| - 1])
  }

  /** The run was given its id by the `i`th operation. */
  ghost predicate BegunAt(ops: seq<RunOp>, i: nat, id: nat) {
    i < |ops| && ops[i].Begin? && id == After(ops[..i]).issued + 1
  }

  /** Since then other runs, at most, were finished. */
  ghost predicate Undisturbed(ops: seq<RunOp>, i: nat, id: nat) {
    forall j :: i < j < |ops| ==> ops[j].Finish? && ops[j].id != id
  }

  /** The run was begun and nothing but other runs' ends happened since. */
  ghost predicate PassesGuard(ops: seq<RunOp>, id: nat) {
    exists i: nat :: BegunAt(ops, i, id) && Undisturbed(ops, i, id)
  }

  lemma Extends(ops: seq<RunOp>, op: RunOp)
    ensures After(ops + [op]) == ApplyRun(After(ops), op)
  {
    assert (ops + [op])[..|ops|] == ops;
  }

  lemma {:induction false} IssuedGrows(ops: seq<RunOp>, i: nat)
    requires i <= |ops|
    ensures After(ops[..i]).issued <= After(ops).issued
    ensures After(ops).active.Some? ==> After(ops).active.value <= After(ops).issued
  {
    if i == |ops| {
      assert ops[..i] == ops;
      if ops != [] {
        IssuedGrows(ops[..|ops| - 1], |ops| - 1);
      }
    } else {
      IssuedGrows(ops[..|ops| - 1], i);
      assert ops[..|ops| - 1][..i] == ops[..i];
    }
  }

  /** No two runs ever have the same id. */
  lemma IdsAreDistinct(ops: seq<RunOp>, i: nat, j: nat, id: nat)
    requires BegunAt(ops, i, id) && BegunAt(ops, j, id)
    ensures i == j
  {
    if i < j {
      LaterIdIsLarger(ops, i, j, id);
    } else if j < i {
      LaterIdIsLarger(ops, j, i, id);
    }
  }

  lemma LaterIdIsLarger(ops: seq<RunOp>, i: nat, j: nat, id: nat)
    requires BegunAt(ops, i, id) && i < j <= |ops|
    ensures id <= After(ops[..j]).issued
  {
    IssuedGrows(ops[..j], i + 1);
    assert ops[..j][..i + 1] == ops[..i + 1] && ops[..i + 1][..i] == ops[..i];
  }

  lemma {:induction false} ActiveWasBegun(ops: seq<RunOp>, id: nat)
    requires After(ops).active == Some(id)
    ensures PassesGuard(ops, id)
  {
    var n := |ops| - 1;
    var before := ops[..n];
    if ops[n].Begin? {
      assert BegunAt(ops, n, id) && Undisturbed(ops, n, id);
    } else {
      ActiveWasBegun(before, id);
      var i: nat :| BegunAt(before, i, id) && Undisturbed(before, i, id);
      assert ops[..i] == before[..i];
      assert BegunAt(ops, i, id) && Undisturbed(ops, i, id);
    }
  }

  lemma {:induction false} BegunIsActive(ops: seq<RunOp>, i: nat, id: nat)
    requires BegunAt(ops, i, id) && Undisturbed(ops, i, id)
    ensures After(ops).active == Some(id)
  {
    var n := |ops| - 1;
    if i == n {
    } else {
      assert ops[..n][..i] == ops[..i];
      BegunIsActive(ops[..n], i, id);
    }
  }

  /**
   * Exactly which run passes the active guard after any interleaving: the one begun last, unless it was finished or
   * all runs were invalidated since. So at most one run passes.
   */
  lemma ActiveExactly(ops: seq<RunOp>, id: nat)
    ensures After(ops).active == Some(id) <==> PassesGuard(ops, id)
  {
    if After(ops).active == Some(id) {
      ActiveWasBegun(ops, id);
    } else if PassesGuard(ops, id) {
      var i: nat :| BegunAt(ops, i, id) && Undisturbed(ops, i, id);
      BegunIsActive(ops, i, id);
    }
  }

  /** The module's counters; `ops` is the history of the calls. */
  class WorkflowRuns {
    var workflowRunSeq: nat
    var activeWorkflowRunId: Option<nat>
    ghost var ops: seq<RunOp>

    /** The counters are what the calls so far have made of them. */
    ghost predicate Valid()
      reads this
    {
      Runs(workflowRunSeq, activeWorkflowRunId) == After(ops)
    }

    constructor ()
      ensures Valid() && ops == []
    {
      workflowRunSeq, activeWorkflowRunId, ops := 0, None, [];
    }

    method BeginWorkflowRun() returns (id: nat)
      requires Valid()
      modifies this
      ensures Valid() && ops == old(ops) + [Begin]
      ensures BegunAt(ops, |old(ops)|, id)
    {
      workflowRunSeq := workflowRunSeq + 1;
      activeWorkflowRunId := Some(workflowRunSeq);
      Extends(ops, Begin);
      ops := ops + [Begin];
      return workflowRunSeq;
    }

    method InvalidateWorkflowRuns()
      requires Valid()
      modifies this
      ensures Valid() && ops == old(ops) + [Invalidate]
      ensures forall id :: !PassesGuard(ops, id)
    {
      workflowRunSeq := workflowRunSeq + 1;
      activeWorkflowRunId := None;
      Extends(ops, Invalidate);
      ops := ops + [Invalidate];
      forall id
        ensures !PassesGuard(ops, id)
      {
        ActiveExactly(ops, id);
      }
    }

    method IsWorkflowRunActive(runId: nat) returns (active: bool)
      requires Valid()
      ensures active <==> PassesGuard(ops, runId)
    {
      ActiveExactly(ops, runId);
      return activeWorkflowRunId == Some(runId);
    }

    method FinishWorkflowRun(runId: nat)
      requires Valid()
      modifies this
      ensures Valid() && ops == old(ops) + [Finish(runId)]
      ensures forall id :: PassesGuard(ops, id) <==> PassesGuard(old(ops), id) && id != runId
    {
      if activeWorkflowRunId == Some(runId) {
        activeWorkflowRunId := None;
      }
      Extends(ops, Finish(runId));
      ops := ops + [Finish(runId)];
      forall id
        ensures PassesGuard(ops, id) <==> PassesGuard(old(ops), id) && id != runId
      {
        ActiveExactly(ops, id);
        ActiveExactly(old(ops), id);
      }
    }
  }

  /** Once another run began or all were invalidated, a run never passes again and its `finish` changes nothing. */
  lemma {:induction false} StaleForever(ops: seq<RunOp>, i: nat, j: nat, id: nat)
    requires BegunAt(ops, i, id) && i < j < |ops| && !ops[j].Finish?
    ensures After(ops).active != Some(id)
    ensures ApplyRun(After(ops), Finish(id)) == After(ops)
  {
    if After(ops).active == Some(id) {
      ActiveWasBegun(ops, id);
      var k: nat :| BegunAt(ops, k, id) && Undisturbed(ops, k, id);
      IdsAreDistinct(ops, i, k, id);
    }
  }

  // ---------------------------------------------------------------- dashboard selection

  /** What came of a fetch: data, no data, an error, or a view that has moved on to another conversation. */
  datatype Fetched = Data(dashboard: string) | NoData | Error | OtherContext

  /** `shown` is the request whose data was applied last, with its dashboard. */
  datatype Selection = Selection(issued: nat, switching: bool, shown: Option<(nat, string)>)

  datatype SelectOp = Click | Resolve(request: nat, fetched: Fetched)

  function ApplySelect(s: Selection, op: SelectOp): Selection {
    match op
    case Click => s.(issued := s.issued + 1, switching := true)
    case Resolve(request, fetched) =>
      if request != s.issued then s
      else s.(switching := false, shown := if fetched.Data? then Some((request, fetched.dashboard)) else s.shown)
  }

  function Selected(ops: seq<SelectOp>): Selection {
    if ops == [] then Selection(0, false, None) else ApplySelect(Selected(ops[..|ops| - 1]), ops[|ops| - 1])
  }

  lemma ExtendsSelect(ops: seq<SelectOp>, op: SelectOp)
    ensures Selected(ops + [op]) == ApplySelect(Selected(ops), op)
  {
    assert (ops + [op])[..|ops|] == ops;
  }

  /** A click came after the request had been made. */
  ghost predicate Superseded(ops: seq<SelectOp>, request: nat) {
    exists i: nat :: i < |ops| && NewerClick(ops, i, request)
  }

  ghost predicate NewerClick(ops: seq<SelectOp>, i: nat, request: nat)
    requires i < |ops|
  {
    ops[i].Click? && request <= Selected(ops[..i]).issued
  }

  lemma SupersededIsOld(ops: seq<SelectOp>, request: nat)
    requires Superseded(ops, request)
    ensures request < Selected(ops).issued
  {
    var i: nat :| i < |ops| && NewerClick(ops, i, request);
    ClicksGrow(ops, i + 1);
    assert ops[..i + 1][..i] == ops[..i];
  }

  /** The `i`th operation was the last click. */
  ghost predicate LastClick(ops: seq<SelectOp>, i: nat) {
    i < |ops| && ops[i].Click? && forall j :: i < j < |ops| ==> ops[j].Resolve?
  }

  /** The reply of the last click has arrived. */
  ghost predicate Arrived(ops: seq<SelectOp>, i: nat) {
    exists j :: i < j < |ops| && ops[j].Resolve? && ops[j].request == Selected(ops).issued
  }

  /**
   * The spinner spins exactly as long as the latest click waits for its reply: no stale reply stops it, and none
   * leaves it on.
   */
  lemma {:induction false} SpinnerExactly(ops: seq<SelectOp>, i: nat)
    requires LastClick(ops, i)
    ensures Selected(ops).switching <==> !Arrived(ops, i)
    ensures Selected(ops).issued == Selected(ops[..i + 1]).issued
  {
    var n := |ops| - 1;
    if i == n {
      assert ops[..i + 1] == ops;
    } else {
      var before := ops[..n];
      assert before[..i + 1] == ops[..i + 1];
      SpinnerExactly(before, i);
      if ops[n].request == Selected(ops).issued {
        assert Arrived(ops, i);
      } else if Arrived(before, i) {
        var j :| i < j < |before| && before[j].Resolve? && before[j].request == Selected(before).issued;
        assert ops[j].Resolve? && ops[j].request == Selected(ops).issued;
      } else {
        assert forall j :: i < j < n ==> before[j] == ops[j];
      }
    }
  }

  /** Data is only ever applied for the request that is the latest when its reply arrives. */
  lemma {:induction false} ShownWasLatest(ops: seq<SelectOp>)
    requires Selected(ops).shown.Some?
    ensures exists j :: 0 <= j < |ops| && AppliesAt(ops, j, Selected(ops).shown.value)
  {
    var n := |ops| - 1;
    var before := ops[..n];
    if Selected(before).shown == Selected(ops).shown {
      ShownWasLatest(before);
      var j :| 0 <= j < |before| && AppliesAt(before, j, Selected(before).shown.value);
      assert before[..j] == ops[..j];
      assert AppliesAt(ops, j, Selected(ops).shown.value);
    } else {
      assert AppliesAt(ops, n, Selected(ops).shown.value);
    }
  }

  ghost predicate AppliesAt(ops: seq<SelectOp>, j: nat, shown: (nat, string)) {
    && j < |ops|
    && ops[j] == Resolve(shown.0, Data(shown.1))
    && Selected(ops[..j]).issued == shown.0
  }

  lemma {:induction false} ClicksGrow(ops: seq<SelectOp>, i: nat)
    requires i <= |ops|
    ensures Selected(ops[..i]).issued <= Selected(ops).issued
  {
    if i == |ops| {
      assert ops[..i] == ops;
    } else {
      ClicksGrow(ops[..|ops| - 1], i);
      assert ops[..|ops| - 1][..i] == ops[..i];
    }
  }

  /** After a newer click no reply of an older request shows anything or stops the spinner. */
  lemma StaleReplyIsIgnored(ops: seq<SelectOp>, request: nat, fetched: Fetched)
    requires Superseded(ops, request)
    ensures Selected(ops + [Resolve(request, fetched)]) == Selected(ops)
  {
    SupersededIsOld(ops, request);
    ExtendsSelect(ops, Resolve(request, fetched));
  }

  /** When the latest click's data has arrived, it is what is shown, in whatever order the replies came. */
  lemma {:induction false} LatestWins(ops: seq<SelectOp>, i: nat, j: nat, dashboard: string)
    requires LastClick(ops, i) && i < j < |ops|
    requires ops[j] == Resolve(Selected(ops[..i + 1]).issued, Data(dashboard))
    requires forall k :: i < k < |ops| && k != j ==> ops[k].request != Selected(ops[..i + 1]).issued
    ensures Selected(ops).shown == Some((Selected(ops[..i + 1]).issued, dashboard)) && !Selected(ops).switching
  {
    var n := |ops| - 1;
    SpinnerExactly(ops, i);
    assert ops[..n][..i + 1] == ops[..i + 1];
    SpinnerExactly(ops[..n], i);
    if j == n {
    } else {
      LatestWins(ops[..n], i, j, dashboard);
    }
    assert Arrived(ops, i);
  }

  /** The sequence guard with the state it protects; `ops` is the history of clicks and replies. */
  class DashboardSelection {
    var selectDashboardSeq: nat
    var isSwitchingDashboard: bool
    var shown: Option<(nat, string)>
    ghost var ops: seq<SelectOp>

    ghost predicate Valid()
      reads this
    {
      Selection(selectDashboardSeq, isSwitchingDashboard, shown) == Selected(ops)
    }

    constructor ()
      ensures Valid() && ops == []
    {
      selectDashboardSeq, isSwitchingDashboard, shown, ops := 0, false, None, [];
    }

    /** Up to the fetch. */
    method SelectDashboard() returns (myReq: nat)
      requires Valid()
      modifies this
      ensures Valid() && ops == old(ops) + [Click]
      ensures LastClick(ops, |old(ops)|) && myReq == Selected(ops).issued
      ensures isSwitchingDashboard && shown == old(shown)
    {
      selectDashboardSeq := selectDashboardSeq + 1;
      myReq := selectDashboardSeq;
      isSwitchingDashboard := true;
      ExtendsSelect(ops, Click);
      ops := ops + [Click];
    }

    /** From the fetch's reply to the end of the `finally` block. */
    method Resume(myReq: nat, fetched: Fetched)
      requires Valid()
      modifies this
      ensures Valid() && ops == old(ops) + [Resolve(myReq, fetched)]
      ensures Superseded(old(ops), myReq) ==> isSwitchingDashboard == old(isSwitchingDashboard) && shown == old(shown)
      ensures shown != old(shown) ==> fetched.Data? && shown == Some((myReq, fetched.dashboard))
    {
      hide Selected, Superseded, LastClick;
      if !fetched.Error? && myReq == selectDashboardSeq && !fetched.OtherContext? {
        if fetched.Data? {
          shown := Some((myReq, fetched.dashboard));
        }
      }
      if myReq == selectDashboardSeq {
        isSwitchingDashboard := false;
      }
      ExtendsSelect(ops, Resolve(myReq, fetched));
      if Superseded(ops, myReq) {
        SupersededIsOld(ops, myReq);
      }
      ops := ops + [Resolve(myReq, fetched)];
    }
  }
}
