/** The durable loop that runs a workflow slice by slice, and why its budget of slices is never used up. */
module Driver {
  import opened RunStatuses
  import opened WorkflowTypes
  import opened Machine
  import opened Control
  import opened Systems
  import opened Replay
  import opened Ports
  import opened Histories
  import opened Engine
  import opened Progress
  import opened Outcomes

  const MAX_DURABLE_SLICES := 64
  const MAX_STEP_RETRIES := 2

  datatype DriverResult = Finished(outcome: Outcome) | RunFailed | StepFailed | BudgetExceeded

  /** The durable timer of the workflow runtime. */
  class Runtime {
    /** How long each rest between two slices was asked to take. */
    ghost var rests: seq<nat>

    constructor ()
      ensures rests == []
    {
      rests := [];
    }

    method Sleep(ports: Ports, ms: nat)
      modifies this, ports
      ensures Rely(old(ports.world), ports.world) && ports.world.now >= old(ports.world.now) + ms
      ensures rests == old(rests) + [ms]
    {
      ports.Sleep(ms);
      rests := rests + [ms];
    }
  }

  /** What a slice that began between two slices leaves behind. */
  lemma SliceEnds(from: World, engine: Workflow, claimant: nat, maxSteps: Option<nat>, yieldOnWait: bool)
    requires Between(from) && engine.Told() && engine.x.pc.Returned?
    requires engine.start == Moment(from, Fresh(engine.ports.run, claimant, maxSteps, yieldOnWait))
    ensures Between(engine.ports.world)
    ensures Advances(from, Moment(engine.ports.world, engine.x))
    ensures PausesLeft(engine.ports.world) <= PausesLeft(from)
  {
    hide Fits, StepsOk, Tied, DurableOk, Lawful, Act, PausesLeft;
    StartAdvances(from, engine.ports.run, claimant, maxSteps, yieldOnWait);
    HistoryAdvances(engine.history, |engine.history| - 1);
    CrashKeepsPauses(engine.history, |engine.history| - 1, engine.ports.run, claimant, maxSteps, yieldOnWait);
  }

  /** What the outcome of a slice says, and how long it pauses. */
  lemma SliceSays(from: World, engine: Workflow, claimant: nat, maxSteps: Option<nat>, yieldOnWait: bool)
    requires Between(from) && engine.Told() && engine.x.pc.Returned?
    requires engine.start == Moment(from, Fresh(engine.ports.run, claimant, maxSteps, yieldOnWait))
    ensures IsSo(engine.ports.world.d, claimant, engine.x.pc.outcome)
    ensures engine.x.pc.outcome.Paused? ==> RestFits(from, engine.x.pc.outcome.retryAfter)
  {
    hide Between, Lawful, Advances, Sane;
    var n := |engine.history| - 1;
    StartAdvances(from, engine.ports.run, claimant, maxSteps, yieldOnWait);
    OutcomesAreSo(engine.history, n);
    if engine.x.pc.outcome.Paused? {
      PauseFits(engine.history, n);
    }
  }

  /** A rest for capacity ends, at the latest, with the time that a run may wait. */
  predicate RestFits(from: World, ms: nat) {
    ms == 0 || Elapsed(from) + ms <= CAPACITY_WAIT_MS
  }

  lemma RelyKeepsBetween(w: World, next: World)
    requires Between(w) && Rely(w, next)
    ensures Between(next) && PausesLeft(next) <= PausesLeft(w) && Elapsed(next) >= Elapsed(w)
  {
    hide StepsOk, DurableOk, Tied;
    RelyKeepsTied(w.d, next.d, Fresh(0, 0, None, false));
    BackoffsShrink(Elapsed(w), Elapsed(next));
  }

  /** What a slice leaves: a run between slices, an outcome that is so, and a pause that is paid for. */
  ghost predicate Ran(from: World, w: World, claimant: nat, outcome: Outcome) {
    && Between(w) && PausesLeft(w) <= PausesLeft(from) && Elapsed(w) >= Elapsed(from)
    && IsSo(w.d, claimant, outcome)
    && (outcome.Paused? ==>
          && w.d.startedAt.Some? && RestFits(from, outcome.retryAfter)
          && forall next :: Rely(w, next) && next.now >= w.now + outcome.retryAfter ==> PausesLeft(next) < PausesLeft(from))
  }

  lemma SliceRan(from: World, engine: Workflow, claimant: nat, maxSteps: Option<nat>, yieldOnWait: bool)
    requires Between(from) && engine.Told() && engine.x.pc.Returned?
    requires engine.start == Moment(from, Fresh(engine.ports.run, claimant, maxSteps, yieldOnWait))
    ensures Ran(from, engine.ports.world, claimant, engine.x.pc.outcome)
  {
    hide Between, Rely, Lawful, PausesLeft, RestFits, IsSo;
    var w, outcome := engine.ports.world, engine.x.pc.outcome;
    SliceEnds(from, engine, claimant, maxSteps, yieldOnWait);
    SliceSays(from, engine, claimant, maxSteps, yieldOnWait);
    if outcome.Paused? {
      forall next | Rely(w, next) && next.now >= w.now + outcome.retryAfter
        ensures PausesLeft(next) < PausesLeft(from)
      {
        BetweenIsTimed(from);
        PauseIsPaidFor(from, Moment(w, engine.x), next);
      }
    }
  }

  /** The history is that of a whole slice: at most one new step, and a back-off is handed to the durable timer. */
  ghost predicate IsSlice(history: seq<Moment>, from: World, run: RunId, claimant: nat, w: World, outcome: Outcome) {
    && history != [] && Lawful(history)
    && history[0] == Moment(from, Fresh(run, claimant, Some(1), true))
    && history[|history| - 1].w == w && history[|history| - 1].x.pc == Returned(outcome)
  }

  lemma SliceAddsOne(history: seq<Moment>, from: World, run: RunId, claimant: nat, w: World, outcome: Outcome)
    requires Between(from) && IsSlice(history, from, run, claimant, w, outcome)
    ensures |w.d.steps| <= |from.d.steps| + 1
  {
    hide Between, Lawful, Advances, Sane, Within;
    StartAdvances(from, run, claimant, Some(1), true);
    SliceAddsAtMost(history, |history| - 1);
    SameLimit(history, |history| - 1);
  }

  /** One slice: a history of the machine that leaves the run fit for the next one. */
  method ExecuteBoundedMorpheusSlice(ports: Ports, claimant: nat) returns (outcome: Outcome, ghost history: seq<Moment>)
    requires Between(ports.world)
    modifies ports
    ensures IsSlice(history, old(ports.world), ports.run, claimant, ports.world, outcome)
    ensures Ran(old(ports.world), ports.world, claimant, outcome)
    ensures |ports.world.d.steps| <= |old(ports.world.d.steps)| + 1
  {
    hide Between, Advances, Ran, Lawful;
    ghost var from := ports.world;
    var engine := new Workflow(ports);
    outcome := engine.Execute(claimant, Some(1), true);
    SliceRan(from, engine, claimant, Some(1), true);
    history := engine.history;
    SliceAddsOne(history, from, ports.run, claimant, ports.world, outcome);
  }

  lemma BetweenIsTimed(w: World)
    requires Between(w)
    ensures Timed(w)
  {
  }

  lemma NewRunIsBetween(w: World)
    requires NewRun(w.d)
    ensures Between(w) && PausesLeft(w) == 8 + 40
  {
  }

  /** A slice after another one that threw. */
  lemma RanAgain(from: World, between: World, claimant: nat, thrown: Outcome, w: World, outcome: Outcome)
    requires Ran(from, between, claimant, thrown) && Ran(between, w, claimant, outcome)
    ensures Ran(from, w, claimant, outcome)
  {
    hide Between, PausesLeft, IsSo;
  }

  /**
   * A durable step: a slice that throws is tried again, up to the step's retries, and the outcome is that of the last
   * attempt.
   */
  method ExecuteMorpheusStep(ports: Ports, claimant: nat) returns (outcome: Outcome, ghost attempts: seq<Outcome>)
    requires Between(ports.world)
    modifies ports
    ensures Ran(old(ports.world), ports.world, claimant, outcome)
    ensures 1 <= |attempts| <= 1 + MAX_STEP_RETRIES && attempts[|attempts| - 1] == outcome
    ensures forall i :: 0 <= i < |attempts| - 1 ==> attempts[i].Thrown?
    ensures outcome.Thrown? ==> |attempts| == 1 + MAX_STEP_RETRIES
  {
    hide Between, Rely, PausesLeft, Ran;
    ghost var from := ports.world;
    var first, _ := ExecuteBoundedMorpheusSlice(ports, claimant);
    outcome := first;
    attempts := [outcome];
    var retries := 0;
    while outcome.Thrown? && retries < MAX_STEP_RETRIES
      invariant Ran(from, ports.world, claimant, outcome)
      invariant retries <= MAX_STEP_RETRIES && |attempts| == retries + 1 && attempts[retries] == outcome
      invariant forall i :: 0 <= i < retries ==> attempts[i].Thrown?
    {
      ghost var thrown, between := outcome, ports.world;
      RanIsBetween(from, between, claimant, thrown);
      var again, _ := ExecuteBoundedMorpheusSlice(ports, claimant);
      outcome := again;
      RanAgain(from, between, claimant, thrown, ports.world, outcome);
      attempts := attempts + [outcome];
      retries := retries + 1;
    }
  }

  lemma RanIsBetween(from: World, w: World, claimant: nat, outcome: Outcome)
    requires Ran(from, w, claimant, outcome)
    ensures Between(w) && IsSo(w.d, claimant, outcome) && PausesLeft(w) <= PausesLeft(from) && Elapsed(w) >= Elapsed(from)
    ensures outcome.Paused? ==> w.d.startedAt.Some? && RestFits(from, outcome.retryAfter)
  {
  }

  /** After the pause, waited out if it is any. */
  lemma RestPays(from: World, w: World, claimant: nat, outcome: Outcome, next: World)
    requires Ran(from, w, claimant, outcome) && outcome.Paused? && Rely(w, next) && next.now >= w.now + outcome.retryAfter
    ensures Between(next) && 0 <= PausesLeft(next) < PausesLeft(from)
    ensures Elapsed(next) >= Elapsed(from) + outcome.retryAfter && RestFits(from, outcome.retryAfter)
  {
    hide Between, PausesLeft;
    RelyKeepsBetween(w, next);
    BetweenHasPauses(next);
  }

  /** The rests that a loop over slices with these outcomes takes. */
  function Rests(outcomes: seq<Outcome>): seq<nat> {
    if outcomes == [] then []
    else
      var last := outcomes[|outcomes| - 1];
      Rests(outcomes[..|outcomes| - 1]) + if last.Paused? && last.retryAfter > 0 then [last.retryAfter] else []
  }

  function Total(rests: seq<nat>): nat {
    if rests == [] then 0 else Total(rests[..|rests| - 1]) + rests[|rests| - 1]
  }

  /** All rests of a run together take no longer than the run may wait for capacity. */
  predicate RestsFit(from: World, rests: seq<nat>) {
    rests == [] || Elapsed(from) + Total(rests) <= CAPACITY_WAIT_MS
  }

  lemma OneMoreRest(outcomes: seq<Outcome>, outcome: Outcome)
    requires outcome.Paused?
    ensures Rests(outcomes + [outcome]) == Rests(outcomes) + if outcome.retryAfter > 0 then [outcome.retryAfter] else []
    ensures Total(Rests(outcomes + [outcome])) == Total(Rests(outcomes)) + outcome.retryAfter
  {
    assert (outcomes + [outcome])[..|outcomes|] == outcomes;
    var rests := Rests(outcomes) + [outcome.retryAfter];
    assert rests[..|rests| - 1] == Rests(outcomes);
    assert Rests(outcomes) + [] == Rests(outcomes);
  }

  lemma NoMoreRest(outcomes: seq<Outcome>, outcome: Outcome)
    requires !outcome.Paused?
    ensures Rests(outcomes + [outcome]) == Rests(outcomes)
  {
    assert (outcomes + [outcome])[..|outcomes|] == outcomes;
    assert Rests(outcomes) + [] == Rests(outcomes);
  }

  /** How the loop ends after its last slice, with the run in the status `status`. */
  predicate EndsAs(result: DriverResult, last: Outcome, status: RunStatus) {
    match result
    case Finished(outcome) => outcome == last && !last.Paused? && !last.Thrown? && !status.Failed?
    case RunFailed => !last.Paused? && !last.Thrown? && status.Failed?
    case StepFailed => last.Thrown?
    case BudgetExceeded => last.Paused?
  }

  /**
   * The 64-slice loop. It goes on exactly while slices pause, rests for every pause as long as the slice asked, and
   * ends with the outcome of the last slice, which says the truth about the run.
   */
  method DreamifyMorpheusWorkflow(ports: Ports, runtime: Runtime, workflowRunId: nat)
    returns (result: DriverResult, slices: nat, ghost outcomes: seq<Outcome>)
    requires Between(ports.world)
    modifies ports, runtime
    ensures slices <= PausesLeft(old(ports.world)) + 1
    ensures result.BudgetExceeded? ==> slices == MAX_DURABLE_SLICES <= PausesLeft(old(ports.world))
    ensures 1 <= slices == |outcomes| && forall i :: 0 <= i < slices - 1 ==> outcomes[i].Paused?
    ensures EndsAs(result, outcomes[slices - 1], ports.world.d.status)
    ensures result.Finished? && !result.outcome.Ignored? ==> IsTerminal(ports.world.d.status)
    ensures !result.BudgetExceeded? ==> IsSo(ports.world.d, workflowRunId, outcomes[slices - 1])
    ensures runtime.rests == old(runtime.rests) + Rests(outcomes) && RestsFit(old(ports.world), Rests(outcomes))
  {
    hide Between, Rely, PausesLeft, Ran, IsSo, Rests, Total;
    BetweenHasPauses(ports.world);
    NothingRested();
    slices, outcomes := 0, [];
    for slice := 0 to MAX_DURABLE_SLICES
      invariant Between(ports.world) && slices == slice == |outcomes| && 0 <= PausesLeft(ports.world)
      invariant PausesLeft(ports.world) + slice <= PausesLeft(old(ports.world))
      invariant forall i :: 0 <= i < slice ==> outcomes[i].Paused?
      invariant runtime.rests == old(runtime.rests) + Rests(outcomes)
      invariant RestsFit(old(ports.world), Rests(outcomes))
      invariant Elapsed(ports.world) >= Elapsed(old(ports.world)) + Total(Rests(outcomes))
    {
      ghost var from := ports.world;
      slices := slice + 1;
      var outcome, _ := ExecuteMorpheusStep(ports, workflowRunId);
      RanIsBetween(from, ports.world, workflowRunId, outcome);
      ghost var before := outcomes;
      outcomes := outcomes + [outcome];
      if outcome.Thrown? {
        NoMoreRest(before, outcome);
        return StepFailed, slices, outcomes;
      }
      if !outcome.Paused? {
        NoMoreRest(before, outcome);
        FinalIsOver(ports.world.d, workflowRunId, outcome);
        return if ports.world.d.status.Failed? then RunFailed else Finished(outcome), slices, outcomes;
      }
      OneMoreRest(before, outcome);
      ghost var paused := ports.world;
      if outcome.retryAfter > 0 {
        runtime.Sleep(ports, outcome.retryAfter);
      } else {
        StillRelies(ports.world);
      }
      RestPays(from, paused, workflowRunId, outcome, ports.world);
    }
    return BudgetExceeded, slices, outcomes;
  }

  lemma NothingRested()
    ensures Rests([]) == [] && Total([]) == 0
  {
  }

  lemma FinalIsOver(d: Durable, claimant: nat, outcome: Outcome)
    requires IsSo(d, claimant, outcome) && !outcome.Paused? && !outcome.Thrown?
    ensures outcome.Ignored? || IsTerminal(d.status)
  {
  }

  lemma StillRelies(w: World)
    ensures Rely(w, w)
  {
  }

  lemma BetweenHasPauses(w: World)
    requires Between(w)
    ensures 0 <= PausesLeft(w) <= 48
  {
    hide StepsOk, DurableOk, PausesLeft;
    PausesAreBounded(w);
  }

  /**
   * The budget suffices: from any state a run can be in between slices, the loop ends after at most 49 slices, never
   * because it has used up its 64, and rests for at most ten minutes in all. So a run whose steps do not keep failing
   * is driven until it is over, unless another executor has it.
   */
  method RunMorpheus(ports: Ports, runtime: Runtime, workflowRunId: nat)
    returns (result: DriverResult, slices: nat, ghost outcomes: seq<Outcome>)
    requires Between(ports.world)
    modifies ports, runtime
    ensures slices <= 8 + 40 + 1 && !result.BudgetExceeded?
    ensures 1 <= slices == |outcomes| && forall i :: 0 <= i < slices - 1 ==> outcomes[i].Paused?
    ensures EndsAs(result, outcomes[slices - 1], ports.world.d.status) && IsSo(ports.world.d, workflowRunId, outcomes[slices - 1])
    ensures result.Finished? && !result.outcome.Ignored? ==> IsTerminal(ports.world.d.status)
    ensures runtime.rests == old(runtime.rests) + Rests(outcomes) && RestsFit(old(ports.world), Rests(outcomes))
  {
    hide Between, PausesLeft, IsSo, Rests, RestsFit, EndsAs;
    BetweenHasPauses(ports.world);
    result, slices, outcomes := DreamifyMorpheusWorkflow(ports, runtime, workflowRunId);
  }

  // ---------------------------------------------------------------- slices that crash

  /** How a slice ended: paused and waited out, or at any moment at all, by a crash, an error or a return. */
  datatype SliceEnd = Waited(ms: nat) | Broke

  /** The slice is the beginning of some history, up to its `n`th moment; then others act until the next slice. */
  ghost predicate SliceVia(from: World, history: seq<Moment>, n: nat, next: World, end: SliceEnd) {
    && n < |history| && Lawful(history) && history[0].w == from && IsFresh(history[0].x) && Rely(history[n].w, next)
    && (end.Waited? ==> history[n].x.pc == Returned(Paused(end.ms)) && next.now >= history[n].w.now + end.ms)
  }

  predicate IsFresh(x: Exec) {
    x == Fresh(x.run, x.claimant, x.maxSteps, x.yieldOnWait)
  }

  ghost predicate SliceBetween(from: World, next: World, end: SliceEnd) {
    exists history: seq<Moment>, n: nat :: SliceVia(from, history, n, next, end)
  }

  /** The slices of a run one after the other, repeated ones included. */
  ghost predicate Chain(worlds: seq<World>, ends: seq<SliceEnd>) {
    && |worlds| == |ends| + 1
    && forall i :: 0 <= i < |ends| ==> SliceBetween(worlds[i], worlds[i + 1], ends[i])
  }

  function Waits(ends: seq<SliceEnd>): nat {
    if ends == [] then 0 else Waits(ends[..|ends| - 1]) + (if ends[|ends| - 1].Waited? then 1 else 0)
  }

  lemma SlicePays(from: World, next: World, end: SliceEnd)
    requires Between(from) && SliceBetween(from, next, end)
    ensures Between(next)
    ensures PausesLeft(next) + (if end.Waited? then 1 else 0) <= PausesLeft(from)
  {
    hide Lawful, Between, PausesLeft, Rely, Advances;
    var history: seq<Moment>, n: nat :| SliceVia(from, history, n, next, end);
    var x, m := history[0].x, history[n];
    CrashKeepsPauses(history, n, x.run, x.claimant, x.maxSteps, x.yieldOnWait);
    RelyKeepsBetween(m.w, next);
    if end.Waited? {
      BetweenIsTimed(from);
      StartAdvances(from, x.run, x.claimant, x.maxSteps, x.yieldOnWait);
      HistoryAdvances(history, n);
      PauseIsPaidFor(from, m, next);
    }
  }

  /**
   * However many slices crash, at whatever port call, and are repeated: in the whole life of a new run at most 48
   * pauses are waited out.
   */
  lemma {:induction false} AtMostFortyEightPauses(worlds: seq<World>, ends: seq<SliceEnd>)
    requires Chain(worlds, ends) && NewRun(worlds[0].d)
    ensures Between(worlds[|ends|]) && Waits(ends) + PausesLeft(worlds[|ends|]) <= 8 + 40
    ensures Waits(ends) <= 8 + 40
  {
    hide Between, PausesLeft, SliceBetween, NewRun;
    if ends == [] {
      NewRunIsBetween(worlds[0]);
    } else {
      var n := |ends| - 1;
      AtMostFortyEightPauses(worlds[..n + 1], ends[..n]);
      assert SliceBetween(worlds[n], worlds[n + 1], ends[n]);
      SlicePays(worlds[n], worlds[n + 1], ends[n]);
    }
    BetweenHasPauses(worlds[|ends|]);
  }
}
