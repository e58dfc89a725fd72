/**
 * What a slice achieves: along every history of an execution the invariants of the machine hold, and a slice that
 * pauses has recorded a new result or used up a share of the time that a run may wait for capacity.
 */
module Progress {
  import opened RunStatuses
  import opened WorkflowTypes
  import opened EditSafety
  import opened Machine
  import opened Control
  import opened Frames
  import opened Systems
  import opened Soundness
  import opened Leases
  import opened Replay
  import opened Ports
  import opened Histories
  import Layouts

  // ---------------------------------------------------------------- the machine's invariants along a history

  ghost predicate Sane(m: Moment) {
    Fits(m.x) && StepsOk(m.w.d.steps) && Tied(m.w.d, m.x) && DurableOk(m.w.d)
  }

  lemma RelyKeepsTied(d: Durable, after: Durable, x: Exec)
    requires DurableRely(d, after)
    ensures Tied(d, x) ==> Tied(after, x)
    ensures DurableOk(d) ==> DurableOk(after)
  {
    hide Follows, SafeResponse, RecordedSafely;
  }

  lemma SaneLink(m: Moment, next: Moment)
    requires Sane(m) && Link(m, next)
    ensures Sane(next)
  {
    hide Act, Fits, StepsOk, Tied, DurableOk;
    if Stepped(m, next) {
      var a :| MayAnswer(m.x, a) && next == Next(m, a);
      ActFits(m.w.d, m.w.leases, m.w.now, m.x, a);
      ActStepsOk(m.w.d, m.w.leases, m.w.now, m.x, a);
      ActTied(m.w.d, m.w.leases, m.w.now, m.x, a);
      ActDurable(m.w.d, m.w.leases, m.w.now, m.x, a);
    } else {
      RelyKeepsTied(m.w.d, next.w.d, m.x);
    }
  }

  /**
   * In the whole system, with one live execution per run, whatever happens outside an execution is what its
   * histories allow for.
   */
  lemma OthersAreRelied(s: System, act: Action, e: ExecId)
    requires Sound(s) && OneLive(s) && Can(s, act, true) && LiveOn(s, e)
    requires act.Step? || act.Crash? ==> act.exec != e
    ensures var r, s' := s.execs[e].run, Do(s, act);
            && r in s'.runs && e in s'.execs && s'.execs[e] == s.execs[e]
            && Rely(World(s.runs[r], s.leases, s.now), World(s'.runs[r], s'.leases, s'.now))
  {
    hide Act, Fits, StepsOk;
    if act.Step? {
      assert LiveOn(s, act.exec);
    }
  }

  // ---------------------------------------------------------------- progress

  /** How long the run has been going. */
  function Elapsed(w: World): int {
    if w.d.startedAt.Some? then w.now - w.d.startedAt.value else 0
  }

  /** A run is timed from its claim. */
  predicate Timed(w: World) {
    && (w.d.status.Queued? ==> w.d.startedAt.None?)
    && (w.d.claimedBy.Some? ==> w.d.startedAt.Some?)
    && Elapsed(w) >= 0
  }

  predicate Pausing(pc: Pc) {
    match pc
    case Handling(error) => error.Yield?
    case Cleanup(outcome) => outcome.Paused?
    case Releasing(outcome) => outcome.Paused?
    case Returned(outcome) => outcome.Paused?
    case _ => false
  }

  function PauseOf(pc: Pc): nat
    requires Pausing(pc)
  {
    if pc.Handling? then pc.error.retryAfter else pc.outcome.retryAfter
  }

  /** Waiting out the pause takes the run a back-off further, or to the end of the time it may wait. */
  predicate BacksOff(from: int, now: int, ms: nat) {
    from < CAPACITY_WAIT_MS && now + ms >= Min(from + CAPACITY_BACKOFF_MS, CAPACITY_WAIT_MS)
  }

  predicate Clocked(m: Moment) {
    && (m.x.pc.ReadingStart? || Pausing(m.x.pc) ==> m.w.d.startedAt.Some?)
    && (!m.x.pc.Claiming? && !m.x.pc.ReadingStart? && !m.x.pc.Returned? ==> m.w.d.startedAt == Some(m.x.startedAt))
  }

  ghost predicate Advances(from: World, m: Moment) {
    && Timed(m.w) && Clocked(m)
    && Elapsed(from) <= Elapsed(m.w)
    && (from.d.startedAt.Some? ==> m.w.d.startedAt == from.d.startedAt)
    && |m.w.d.steps| >= |from.d.steps| + m.x.completed
    && (m.x.pc.CapacityBusy? ==> m.x.pc.busy.code == CAPACITY_BUSY && Patient(m.x.pc.busy))
    && (Pausing(m.x.pc) ==> m.x.completed >= 1 || BacksOff(Elapsed(from), Elapsed(m.w), PauseOf(m.x.pc)))
  }

  /** A step that does not pause, record or start the clock. */
  predicate Plainly(d: Durable, x: Exec, f: Effects) {
    && f.d.steps == d.steps && f.d.startedAt == d.startedAt && f.d.claimedBy == d.claimedBy
    && (f.d.status.Queued? ==> d.status.Queued?)
    && f.x.completed == x.completed && f.x.startedAt == x.startedAt
    && !Pausing(f.x.pc) && !f.x.pc.CapacityBusy? && !f.x.pc.Claiming? && !f.x.pc.ReadingStart?
    && (f.x.pc.CapacitySleep? ==> f.x.pc == x.pc)
  }

  lemma OpeningPlainly(d: Durable, leases: set<Lease>, now: Time, x: Exec, a: Answer)
    requires x.pc.Deciding? || x.pc.Loading? || x.pc.Probing? || x.pc.Deadline? || x.pc.Active? || x.pc.Lookup? || x.pc.Starting?
    ensures Plainly(d, x, Act(d, leases, now, x, a))
  {
    hide Preflight, Advance, FirstWork;
  }

  predicate SameClock(x: Exec, next: Exec) {
    next.completed == x.completed && next.startedAt == x.startedAt
  }

  lemma SandboxClock(d: Durable, leases: set<Lease>, now: Time, x: Exec, a: Answer)
    requires x.pc.Working? && !HasCall(x.pc.work)
    ensures SameClock(x, Act(d, leases, now, x, a).x)
  {
    hide ActFetchContext, ActSandbox, ActReserve, ActInvoke;
  }

  lemma CallClock(d: Durable, leases: set<Lease>, now: Time, x: Exec, a: Answer)
    requires x.pc.Working? && HasCall(x.pc.work)
    ensures SameClock(x, Act(d, leases, now, x, a).x)
  {
    hide AfterFailedAttempt, Deliver, ActiveFault, ActCount;
  }

  lemma WorkPlainly(d: Durable, leases: set<Lease>, now: Time, x: Exec, a: Answer)
    requires x.pc.Working?
    ensures Plainly(d, x, Act(d, leases, now, x, a))
  {
    hide Act;
    ActKeeps(d, leases, now, x, a);
    if HasCall(x.pc.work) {
      CallStays(d, leases, now, x, a);
      CallClock(d, leases, now, x, a);
    } else {
      SandboxStays(d, leases, now, x, a);
      SandboxClock(d, leases, now, x, a);
    }
  }

  lemma WaitPlainly(d: Durable, leases: set<Lease>, now: Time, x: Exec, a: Answer)
    requires x.pc.CapacityBegin? || x.pc.CapacitySleep? || x.pc.CapacityActive? || x.pc.Rechecking? ||
             x.pc.FinishActive? || x.pc.FinishPut? || x.pc.Terminating?
    ensures Plainly(d, x, Act(d, leases, now, x, a))
  {
  }

  lemma CommitPlainly(d: Durable, leases: set<Lease>, now: Time, x: Exec, a: Answer)
    requires Fits(x) && x.pc.FinishCommit?
    ensures Plainly(d, x, Act(d, leases, now, x, a))
  {
    hide PointOk, ValidResponse;
  }

  /** The steps that may claim the run, back off, record or pause. */
  predicate Advancing(pc: Pc) {
    || pc.Claiming? || pc.ReadingStart? || pc.CapacityAcquire? || pc.CapacityRecord? || pc.CapacityBusy?
    || pc.Completing? || pc.Handling? || pc.Cleanup? || pc.Releasing?
  }

  lemma StepPlainly(d: Durable, leases: set<Lease>, now: Time, x: Exec, a: Answer)
    requires Fits(x) && !Advancing(x.pc) && !x.pc.Returned?
    ensures Plainly(d, x, Act(d, leases, now, x, a))
  {
    hide Act, Fits, Plainly;
    if x.pc.Working? {
      WorkPlainly(d, leases, now, x, a);
    } else if x.pc.FinishCommit? {
      CommitPlainly(d, leases, now, x, a);
    } else if x.pc.CapacityBegin? || x.pc.CapacitySleep? || x.pc.CapacityActive? || x.pc.Rechecking? ||
              x.pc.FinishActive? || x.pc.FinishPut? || x.pc.Terminating? {
      WaitPlainly(d, leases, now, x, a);
    } else {
      OpeningPlainly(d, leases, now, x, a);
    }
  }

  lemma PlainAdvances(from: World, m: Moment, next: Moment, f: Effects)
    requires Advances(from, m) && Plainly(m.w.d, m.x, f) && next == Moment(World(f.d, f.leases, m.w.now), f.x)
    requires !m.x.pc.Claiming? && !m.x.pc.ReadingStart? && !m.x.pc.Returned?
    ensures Advances(from, next)
  {
  }

  lemma RelyAdvances(from: World, m: Moment, next: Moment)
    requires Advances(from, m) && next.x == m.x && Rely(m.w, next.w)
    ensures Advances(from, next)
  {
  }

  lemma ClaimAdvances(from: World, m: Moment, a: Answer)
    requires Advances(from, m) && m.x.pc.Claiming?
    ensures Advances(from, Next(m, a))
  {
    hide Patient;
    TerminalIsSink(m.w.d.status);
  }

  lemma StartReads(from: World, m: Moment, a: Answer)
    requires Advances(from, m) && m.x.pc.ReadingStart?
    ensures Advances(from, Next(m, a))
  {
  }

  lemma CapacityAdvances(from: World, m: Moment, a: Answer)
    requires Advances(from, m) && MayAnswer(m.x, a) && (m.x.pc.CapacityAcquire? || m.x.pc.CapacityRecord?)
    ensures Advances(from, Next(m, a))
  {
  }

  lemma BusyAdvances(from: World, m: Moment, a: Answer)
    requires Advances(from, m) && m.x.pc.CapacityBusy?
    ensures Advances(from, Next(m, a))
  {
  }

  lemma CompletingAdvances(from: World, m: Moment, a: Answer)
    requires Advances(from, m) && m.x.pc.Completing? && Tied(m.w.d, m.x)
    ensures Advances(from, Next(m, a))
  {
    hide Advance, Tied;
    UnrecordedYet(m);
    RecordingCounts(m.w.d.steps, m.x.pc.key, m.x.pc.value);
  }

  lemma UnrecordedYet(m: Moment)
    requires m.x.pc.Completing? && Tied(m.w.d, m.x)
    ensures m.x.pc.key !in m.w.d.steps
  {
    hide Follows, SafeResponse;
  }

  lemma RecordingCounts(steps: map<StepKey, Value>, k: StepKey, v: Value)
    requires k !in steps
    ensures |steps[k := v]| == |steps| + 1
  {
    var after := steps[k := v];
    assert after.Keys == steps.Keys + {k};
    assert |after| == |after.Keys| && |steps| == |steps.Keys|;
  }

  lemma LeavingAdvances(from: World, m: Moment, a: Answer)
    requires Advances(from, m)
    requires m.x.pc.Handling? || m.x.pc.Cleanup? || m.x.pc.Releasing?
    ensures Advances(from, Next(m, a))
  {
  }

  lemma StepAdvances(from: World, m: Moment, a: Answer)
    requires Advances(from, m) && Tied(m.w.d, m.x) && Fits(m.x) && MayAnswer(m.x, a) && !m.x.pc.Returned?
    ensures Advances(from, Next(m, a))
  {
    hide Act, Advances, Tied, Fits, Plainly, MayAnswer;
    var d, x := m.w.d, m.x;
    var f := Act(d, m.w.leases, m.w.now, x, a);
    if x.pc.Claiming? {
      ClaimAdvances(from, m, a);
    } else if x.pc.ReadingStart? {
      StartReads(from, m, a);
    } else if x.pc.CapacityAcquire? || x.pc.CapacityRecord? {
      CapacityAdvances(from, m, a);
    } else if x.pc.CapacityBusy? {
      BusyAdvances(from, m, a);
    } else if x.pc.Completing? {
      CompletingAdvances(from, m, a);
    } else if x.pc.Handling? || x.pc.Cleanup? || x.pc.Releasing? {
      LeavingAdvances(from, m, a);
    } else {
      StepPlainly(d, m.w.leases, m.w.now, x, a);
      PlainAdvances(from, m, Next(m, a), f);
    }
  }

  /** A run between two slices. */
  ghost predicate Between(w: World) {
    StepsOk(w.d.steps) && DurableOk(w.d) && Timed(w)
  }

  lemma StartAdvances(w: World, run: RunId, claimant: nat, maxSteps: Option<nat>, yieldOnWait: bool)
    requires Between(w)
    ensures var m := Moment(w, Fresh(run, claimant, maxSteps, yieldOnWait)); Sane(m) && Advances(w, m)
  {
    FreshFits(run, claimant, maxSteps, yieldOnWait);
  }

  /** Along every history of a slice the invariants hold and the slice makes progress. */
  lemma {:induction false} HistoryAdvances(history: seq<Moment>, i: nat)
    requires Lawful(history) && i < |history| && Sane(history[0]) && Advances(history[0].w, history[0])
    ensures Sane(history[i]) && Advances(history[0].w, history[i])
  {
    hide Sane, Advances, Act;
    if i == 0 {
    } else {
      HistoryAdvances(history, i - 1);
      var m, next := history[i - 1], history[i - 1 + 1];
      assert Link(m, next);
      SaneLink(m, next);
      if Stepped(m, next) {
        var a :| MayAnswer(m.x, a) && next == Next(m, a);
        SaneIsTied(m);
        StepAdvances(history[0].w, m, a);
      } else {
        RelyAdvances(history[0].w, m, next);
      }
    }
  }

  lemma SaneIsTied(m: Moment)
    requires Sane(m)
    ensures Tied(m.w.d, m.x) && Fits(m.x)
  {
  }

  // ---------------------------------------------------------------- how many slices are left

  const STEP_KEYS: set<StepKey> := {
    ContextStep, ProfileStep, RouteStep, InitialStep, RepairCodeStep, RepairRunStep, AnalysisStep, SynthesisStep
  }

  /** How often a run can still back off, after `elapsed` milliseconds. */
  function BackoffsLeft(elapsed: int): nat {
    if elapsed >= CAPACITY_WAIT_MS then 0
    else (CAPACITY_WAIT_MS - elapsed + CAPACITY_BACKOFF_MS - 1) / CAPACITY_BACKOFF_MS
  }

  /** The results not recorded yet, and the back-offs left. */
  function PausesLeft(w: World): int {
    8 - |w.d.steps| + BackoffsLeft(Elapsed(w))
  }

  lemma PausesAreBounded(w: World)
    requires Timed(w)
    ensures 0 <= PausesLeft(w) <= 8 + 40
  {
    assert forall k: StepKey :: k in STEP_KEYS by {
      forall k: StepKey
        ensures k in STEP_KEYS
      {
        match k {
          case ContextStep =>
          case ProfileStep =>
          case RouteStep =>
          case InitialStep =>
          case RepairCodeStep =>
          case RepairRunStep =>
          case AnalysisStep =>
          case SynthesisStep =>
        }
      }
    }
    Layouts.SubsetSize(w.d.steps.Keys, STEP_KEYS);
    assert |w.d.steps| == |w.d.steps.Keys|;
  }

  lemma BackoffsShrink(from: int, now: int)
    requires 0 <= from <= now
    ensures BackoffsLeft(now) <= BackoffsLeft(from)
    ensures from < CAPACITY_WAIT_MS && now >= Min(from + CAPACITY_BACKOFF_MS, CAPACITY_WAIT_MS) ==>
              BackoffsLeft(now) < BackoffsLeft(from)
  {
  }

  /** Waiting out any pause of a slice leaves the run with fewer pauses than it had before the slice. */
  lemma PauseIsPaidFor(from: World, m: Moment, next: World)
    requires Timed(from) && Advances(from, m) && m.x.pc.Returned? && m.x.pc.outcome.Paused?
    requires Rely(m.w, next) && next.now >= m.w.now + m.x.pc.outcome.retryAfter
    ensures PausesLeft(next) < PausesLeft(from)
  {
    BackoffsShrink(Elapsed(from), Elapsed(next));
  }

  /**
   * Wherever a slice crashes, the run is fit for the next slice and has not gained any pause: the store alone carries
   * the progress.
   */
  lemma CrashKeepsPauses(history: seq<Moment>, i: nat, run: RunId, claimant: nat, maxSteps: Option<nat>, yieldOnWait: bool)
    requires Lawful(history) && i < |history| && Between(history[0].w)
    requires history[0].x == Fresh(run, claimant, maxSteps, yieldOnWait)
    ensures Between(history[i].w) && PausesLeft(history[i].w) <= PausesLeft(history[0].w)
  {
    hide Lawful, Fits, StepsOk, Tied, DurableOk;
    StartAdvances(history[0].w, run, claimant, maxSteps, yieldOnWait);
    HistoryAdvances(history, i);
    BackoffsShrink(Elapsed(history[0].w), Elapsed(history[i].w));
  }
}
