/**
 * What the outcome of an execution says: a final one that its run is over, and a pause that the slice is full or that
 * the pool asked for it.
 */
module Outcomes {
  import opened RunStatuses
  import opened WorkflowTypes
  import opened Machine
  import opened Control
  import opened Frames
  import opened StatusHistory
  import opened Ports
  import opened Histories
  import opened Progress

  // ---------------------------------------------------------------- final outcomes

  /** What the outcome says about the run is so. */
  predicate IsSo(d: Durable, claimant: nat, outcome: Outcome) {
    && (IsFinal(outcome) ==> IsTerminal(d.status))
    && (outcome.Ended? ==> outcome.status == d.status)
    && (outcome.Replayed? ==> outcome.response == d.response)
    && (outcome.Ignored? ==> !d.status.Queued? && d.claimedBy != Some(claimant))
  }

  predicate Truthful(d: Durable, claimant: nat, pc: Pc) {
    match pc
    case Cleanup(outcome) => IsSo(d, claimant, outcome)
    case Releasing(outcome) => IsSo(d, claimant, outcome)
    case Returned(outcome) => IsSo(d, claimant, outcome)
    case _ => true
  }

  lemma OpenIsTruthful(d: Durable, claimant: nat, pc: Pc)
    requires !Exiting(pc)
    ensures Truthful(d, claimant, pc)
  {
  }

  lemma ConcludingIsTruthful(d: Durable, leases: set<Lease>, now: Time, x: Exec, a: Answer)
    requires Fits(x) && (x.pc.Claiming? || x.pc.FinishCommit? || x.pc.Terminating?)
    ensures var f := Act(d, leases, now, x, a); Truthful(f.d, x.claimant, f.x.pc)
  {
    hide PointOk, ValidResponse;
  }

  lemma LeavingIsTruthful(d: Durable, leases: set<Lease>, now: Time, x: Exec, a: Answer)
    requires Truthful(d, x.claimant, x.pc) && (x.pc.ReadingStart? || x.pc.Handling? || x.pc.Cleanup? || x.pc.Releasing?)
    ensures var f := Act(d, leases, now, x, a); Truthful(f.d, x.claimant, f.x.pc)
  {
  }

  lemma ActIsTruthful(d: Durable, leases: set<Lease>, now: Time, x: Exec, a: Answer)
    requires Fits(x) && !x.pc.Returned? && Truthful(d, x.claimant, x.pc)
    ensures var f := Act(d, leases, now, x, a); Truthful(f.d, x.claimant, f.x.pc)
  {
    hide Act, Fits, Truthful, Concluded, Exiting;
    var f := Act(d, leases, now, x, a);
    if x.pc.Claiming? || x.pc.FinishCommit? || x.pc.Terminating? {
      ConcludingIsTruthful(d, leases, now, x, a);
    } else if x.pc.ReadingStart? || Leaving(x.pc) {
      LeavingIsTruthful(d, leases, now, x, a);
    } else {
      if x.pc.Working? {
        WorkGoesOn(d, leases, now, x, a);
      } else {
        OthersGoOn(d, leases, now, x, a);
      }
      OpenIsTruthful(f.d, x.claimant, f.x.pc);
    }
  }

  lemma RelyIsTruthful(d: Durable, after: Durable, claimant: nat, pc: Pc)
    requires Truthful(d, claimant, pc) && DurableRely(d, after)
    ensures Truthful(after, claimant, pc)
  {
  }

  /**
   * Along every history of an execution: once it reports a response, an end or a replay, the run is over, with the
   * status or the response that it reports.
   */
  lemma {:induction false} OutcomesAreSo(history: seq<Moment>, i: nat)
    requires Lawful(history) && i < |history| && Sane(history[0]) && Advances(history[0].w, history[0])
    requires Truthful(history[0].w.d, history[0].x.claimant, history[0].x.pc)
    ensures Truthful(history[i].w.d, history[0].x.claimant, history[i].x.pc)
    ensures history[i].x.claimant == history[0].x.claimant
  {
    hide Sane, Advances, Act, Truthful;
    if i == 0 {
    } else {
      OutcomesAreSo(history, i - 1);
      HistoryAdvances(history, i - 1);
      var m, next := history[i - 1], history[i - 1 + 1];
      assert Link(m, next);
      if Stepped(m, next) {
        var a :| MayAnswer(m.x, a) && next == Next(m, a);
        SaneIsTied(m);
        ActIsTruthful(m.w.d, m.w.leases, m.w.now, m.x, a);
        KeepsTheExec(m.w.d, m.w.leases, m.w.now, m.x, a);
      } else {
        RelyIsTruthful(m.w.d, next.w.d, m.x.claimant, m.x.pc);
      }
    }
  }

  // ---------------------------------------------------------------- pauses and sleeps

  /** At that moment the pool had refused, and the wait is what the refusal asks for, within the time that is left. */
  predicate Granted(m: Moment, ms: int) {
    m.x.pc.CapacityBusy? && WaitsAsAsked(ms, Asked(m.x.pc.busy), CAPACITY_WAIT_MS - Elapsed(m.w))
  }

  /** The slice has recorded as many results as it may. */
  predicate Full(x: Exec) {
    x.maxSteps.Some? && x.completed >= 1 && x.completed >= x.maxSteps.value
  }

  /** Why an execution pauses or sleeps after a step. */
  predicate WaitsFor(m: Moment, next: Moment) {
    && (Pausing(next.x.pc) ==>
          || (Pausing(m.x.pc) && PauseOf(next.x.pc) == PauseOf(m.x.pc) && SameClock(m.x, next.x) &&
              next.x.maxSteps == m.x.maxSteps)
          || (PauseOf(next.x.pc) == 0 && Full(next.x))
          || (m.x.yieldOnWait && Granted(m, PauseOf(next.x.pc))))
    && (next.x.pc.CapacitySleep? ==>
          next.x.pc == m.x.pc || (!m.x.yieldOnWait && Granted(m, next.x.pc.wake - m.w.now)))
  }

  lemma PlainWaits(m: Moment, next: Moment, f: Effects)
    requires Plainly(m.w.d, m.x, f) && next.x == f.x
    ensures WaitsFor(m, next)
  {
  }

  lemma BusyWaits(from: World, m: Moment, a: Answer)
    requires Advances(from, m) && m.x.pc.CapacityBusy?
    ensures WaitsFor(m, Next(m, a))
  {
  }

  lemma AdvancingWaits(m: Moment, a: Answer)
    requires m.x.pc.Claiming? || m.x.pc.ReadingStart? || m.x.pc.CapacityAcquire? || m.x.pc.CapacityRecord? || m.x.pc.Completing?
    ensures WaitsFor(m, Next(m, a))
  {
    hide Advance;
  }

  lemma LeavingWaits(m: Moment, a: Answer)
    requires m.x.pc.Handling? || m.x.pc.Cleanup? || m.x.pc.Releasing?
    ensures WaitsFor(m, Next(m, a))
  {
  }

  lemma StepWaits(from: World, m: Moment, a: Answer)
    requires Advances(from, m) && Fits(m.x) && !m.x.pc.Returned?
    ensures WaitsFor(m, Next(m, a))
  {
    hide Act, Advances, Fits, Plainly, WaitsFor;
    if m.x.pc.CapacityBusy? {
      BusyWaits(from, m, a);
    } else if !Advancing(m.x.pc) {
      StepPlainly(m.w.d, m.w.leases, m.w.now, m.x, a);
      PlainWaits(m, Next(m, a), Act(m.w.d, m.w.leases, m.w.now, m.x, a));
    } else if m.x.pc.Handling? || m.x.pc.Cleanup? || m.x.pc.Releasing? {
      LeavingWaits(m, a);
    } else {
      AdvancingWaits(m, a);
    }
  }

  /**
   * A slice pauses for no other reason than that it is full, and then for no time at all, or that the pool refused,
   * and then for exactly the time that the refusal asks for or, if less, the rest of the ten minutes.
   */
  lemma {:induction false} PauseIsAsked(history: seq<Moment>, i: nat)
    requires Lawful(history) && i < |history| && Sane(history[0]) && Advances(history[0].w, history[0])
    requires history[0].x.pc.Claiming? && Pausing(history[i].x.pc)
    ensures || (PauseOf(history[i].x.pc) == 0 && Full(history[i].x))
            || (history[0].x.yieldOnWait && exists j :: 0 <= j < i && Granted(history[j], PauseOf(history[i].x.pc)))
  {
    hide Sane, Advances, Act, Granted, Lawful;
    var m := history[i - 1];
    SameLimit(history, i - 1);
    LinkWaits(history, i - 1);
    if Pausing(m.x.pc) && PauseOf(history[i].x.pc) == PauseOf(m.x.pc) {
      PauseIsAsked(history, i - 1);
    }
  }

  /** An execution that waits for capacity itself sleeps, once for each refusal, for exactly that time. */
  lemma {:induction false} SleepIsAsked(history: seq<Moment>, i: nat)
    requires Lawful(history) && i < |history| && Sane(history[0]) && Advances(history[0].w, history[0])
    requires history[0].x.pc.Claiming? && history[i].x.pc.CapacitySleep?
    ensures !history[0].x.yieldOnWait
    ensures exists j :: 0 <= j < i && Granted(history[j], history[i].x.pc.wake - history[j].w.now)
  {
    hide Sane, Advances, Act, Granted, Lawful;
    SameLimit(history, i - 1);
    LinkWaits(history, i - 1);
    if history[i].x.pc == history[i - 1].x.pc {
      SleepIsAsked(history, i - 1);
    }
  }

  lemma LinkWaits(history: seq<Moment>, i: nat)
    requires Lawful(history) && i + 1 < |history| && Sane(history[0]) && Advances(history[0].w, history[0])
    ensures WaitsFor(history[i], history[i + 1])
  {
    hide Sane, Advances, Act, WaitsFor;
    HistoryAdvances(history, i);
    var m, next := history[i], history[i + 1];
    assert Link(m, next);
    if Stepped(m, next) {
      var a :| MayAnswer(m.x, a) && next == Next(m, a);
      SaneIsTied(m);
      StepWaits(history[0].w, m, a);
    } else {
      StillWaits(m, next);
    }
  }

  lemma StillWaits(m: Moment, next: Moment)
    requires next.x == m.x
    ensures WaitsFor(m, next)
  {
  }

  /** A pause for capacity ends, at the latest, with the ten minutes that a run may wait. */
  lemma PauseFits(history: seq<Moment>, i: nat)
    requires Lawful(history) && i < |history| && Sane(history[0]) && Advances(history[0].w, history[0])
    requires history[0].x.pc.Claiming? && Pausing(history[i].x.pc)
    ensures PauseOf(history[i].x.pc) == 0 || Elapsed(history[0].w) + PauseOf(history[i].x.pc) <= CAPACITY_WAIT_MS
  {
    hide Sane, Act, Lawful;
    PauseIsAsked(history, i);
    if PauseOf(history[i].x.pc) != 0 {
      var j :| 0 <= j < i && Granted(history[j], PauseOf(history[i].x.pc));
      HistoryAdvances(history, j);
    }
  }

  // ---------------------------------------------------------------- the limit of a slice

  /** A full slice is on its way out, and it is not more than full. */
  predicate Within(x: Exec) {
    && (Full(x) ==> Leaving(x.pc))
    && (x.maxSteps.Some? ==> x.completed <= 1 || x.completed <= x.maxSteps.value)
  }

  lemma PlainWithin(m: Moment, f: Effects)
    requires Plainly(m.w.d, m.x, f) && SameExec(m.x, f.x) && Within(m.x) && !Leaving(m.x.pc)
    ensures Within(f.x)
  {
  }

  lemma AdvancingWithin(m: Moment, a: Answer)
    requires Within(m.x) && !Leaving(m.x.pc) && Advancing(m.x.pc)
    ensures Within(Next(m, a).x)
  {
    hide Advance, EnterAnalysis;
  }

  lemma LeavingWithin(m: Moment, a: Answer)
    requires Within(m.x) && Leaving(m.x.pc)
    ensures Within(Next(m, a).x)
  {
  }

  lemma StepWithin(m: Moment, a: Answer)
    requires Fits(m.x) && !m.x.pc.Returned? && Within(m.x)
    ensures Within(Next(m, a).x)
  {
    hide Act, Fits, Plainly, Within, Advancing, Keeps;
    if Leaving(m.x.pc) {
      LeavingWithin(m, a);
    } else if Advancing(m.x.pc) {
      AdvancingWithin(m, a);
    } else {
      StepPlainly(m.w.d, m.w.leases, m.w.now, m.x, a);
      KeepsTheExec(m.w.d, m.w.leases, m.w.now, m.x, a);
      PlainWithin(m, Act(m.w.d, m.w.leases, m.w.now, m.x, a));
    }
  }

  lemma KeepsTheExec(d: Durable, leases: set<Lease>, now: Time, x: Exec, a: Answer)
    requires !x.pc.Returned?
    ensures SameExec(x, Act(d, leases, now, x, a).x)
  {
    hide Act;
    ActKeeps(d, leases, now, x, a);
  }

  /** A slice never records more results than it may, and stops as soon as it has recorded that many. */
  lemma {:induction false} SliceStopsInTime(history: seq<Moment>, i: nat)
    requires Lawful(history) && i < |history| && Sane(history[0]) && Advances(history[0].w, history[0])
    requires history[0].x.pc.Claiming? && history[0].x.completed == 0
    ensures Within(history[i].x)
  {
    hide Sane, Advances, Act, Within;
    if i == 0 {
      NothingRecorded(history[0].x);
    } else {
      SliceStopsInTime(history, i - 1);
      HistoryAdvances(history, i - 1);
      var m, next := history[i - 1], history[i - 1 + 1];
      assert Link(m, next);
      if Stepped(m, next) {
        var a :| MayAnswer(m.x, a) && next == Next(m, a);
        SaneIsTied(m);
        StepWithin(m, a);
      }
    }
  }

  /** The limit of a slice does not change. */
  lemma {:induction false} SameLimit(history: seq<Moment>, i: nat)
    requires Lawful(history) && i < |history|
    ensures history[i].x.maxSteps == history[0].x.maxSteps && history[i].x.yieldOnWait == history[0].x.yieldOnWait
  {
    hide Act;
    if i == 0 {
    } else {
      SameLimit(history, i - 1);
      var m, next := history[i - 1], history[i - 1 + 1];
      assert Link(m, next);
      if Stepped(m, next) {
        var a :| MayAnswer(m.x, a) && next == Next(m, a);
        KeepsTheExec(m.w.d, m.w.leases, m.w.now, m.x, a);
      }
    }
  }

  lemma NothingRecorded(x: Exec)
    requires x.completed == 0
    ensures Within(x)
  {
  }

  /** How many results a slice may add: its limit, and one in any case. */
  function Limit(x: Exec): nat {
    if x.maxSteps.Some? && x.maxSteps.value > 1 then x.maxSteps.value else 1
  }

  /** The results that a slice added, a lost one included. */
  predicate Added(before: nat, m: Moment) {
    m.x.maxSteps.Some? ==> |m.w.d.steps| <= before + if Leaving(m.x.pc) then Limit(m.x) else m.x.completed
  }

  lemma ClockStays(m: Moment, a: Answer)
    requires Fits(m.x) && !m.x.pc.Returned? && !m.x.pc.Completing?
    ensures Next(m, a).x.completed == m.x.completed && (Leaving(m.x.pc) ==> Leaving(Next(m, a).x.pc))
  {
    hide Act, Fits, Plainly, Advancing;
    if Leaving(m.x.pc) {
      LeavingClock(m, a);
    } else if Advancing(m.x.pc) {
      AdvancingClock(m, a);
    } else {
      StepPlainly(m.w.d, m.w.leases, m.w.now, m.x, a);
      PlainClock(m, Act(m.w.d, m.w.leases, m.w.now, m.x, a));
    }
  }

  lemma PlainClock(m: Moment, f: Effects)
    requires Plainly(m.w.d, m.x, f)
    ensures f.x.completed == m.x.completed
  {
  }

  lemma AdvancingClock(m: Moment, a: Answer)
    requires !Leaving(m.x.pc) && Advancing(m.x.pc) && !m.x.pc.Completing?
    ensures Next(m, a).x.completed == m.x.completed
  {
    hide EnterAnalysis;
  }

  lemma LeavingClock(m: Moment, a: Answer)
    requires Leaving(m.x.pc)
    ensures Next(m, a).x.completed == m.x.completed && Leaving(Next(m, a).x.pc)
  {
  }

  lemma CompletingAdds(before: nat, m: Moment, a: Answer)
    requires m.x.pc.Completing? && Within(m.x) && Added(before, m)
    ensures Added(before, Next(m, a))
  {
    hide Arrive;
    OneMoreAtMost(m.w.d.steps, m.x.pc.key, m.x.pc.value);
  }

  lemma OneMoreAtMost(steps: map<StepKey, Value>, k: StepKey, v: Value)
    ensures |steps[k := v]| <= |steps| + 1
  {
    if k in steps {
      assert steps[k := v].Keys == steps.Keys;
      assert |steps[k := v]| == |steps[k := v].Keys| && |steps| == |steps.Keys|;
    } else {
      RecordingCounts(steps, k, v);
    }
  }

  lemma StepAdds(before: nat, m: Moment, a: Answer)
    requires Fits(m.x) && !m.x.pc.Returned? && Within(m.x) && Added(before, m)
    ensures Added(before, Next(m, a))
  {
    hide Act, Fits, Keeps;
    if m.x.pc.Completing? {
      CompletingAdds(before, m, a);
    } else {
      ActKeeps(m.w.d, m.w.leases, m.w.now, m.x, a);
      StepsStay(m.w.d, m.x, Act(m.w.d, m.w.leases, m.w.now, m.x, a));
      ClockStays(m, a);
    }
  }

  lemma StepsStay(d: Durable, x: Exec, f: Effects)
    requires Keeps(d, x, f) && !x.pc.Completing?
    ensures f.d.steps == d.steps && f.x.maxSteps == x.maxSteps
  {
  }

  /** A slice adds no more results to the store than its limit, those whose reply was lost included. */
  lemma {:induction false} SliceAddsAtMost(history: seq<Moment>, i: nat)
    requires Lawful(history) && i < |history| && Sane(history[0]) && Advances(history[0].w, history[0])
    requires history[0].x.pc.Claiming? && history[0].x.completed == 0
    ensures Added(|history[0].w.d.steps|, history[i])
  {
    hide Sane, Advances, Act, Within;
    if i == 0 {
    } else {
      SliceAddsAtMost(history, i - 1);
      SliceStopsInTime(history, i - 1);
      HistoryAdvances(history, i - 1);
      var m, next := history[i - 1], history[i - 1 + 1];
      assert Link(m, next);
      if Stepped(m, next) {
        var a :| MayAnswer(m.x, a) && next == Next(m, a);
        SaneIsTied(m);
        StepAdds(|history[0].w.d.steps|, m, a);
      }
    }
  }

  // ---------------------------------------------------------------- checks and repeated calls

  /** A check of the run fails on any error of its own, and otherwise exactly on a run that is cancelled or over. */
  lemma ActiveFaultTold(d: Durable, a: Answer)
    ensures a.Throws? ==> ActiveFault(d, a) == Some(a.fault)
    ensures !a.Throws? &&
            (d.cancelRequested || d.status in {Cancelling, AwaitingUserInput, Completed, RunStatus.Failed, Cancelled}) ==>
              ActiveFault(d, a) == Some(Fault(CANCELLED, false, None))
    ensures !a.Throws? && !d.cancelRequested && d.status in {Queued, Running} ==> ActiveFault(d, a).None?
  {
  }

  /** A failed call is repeated exactly if that may help and attempts are left: two for a route, one for all others. */
  lemma FailedAttemptTold(now: Time, p: Point, k: StepKey, c: Machine.Call, fault: Fault)
    ensures var m, again := AfterFailedAttempt(now, p, k, c, fault), fault.retryable && c.op == Route && c.attempt < 2;
            && (again ==>
                  && m.pc.Working? && m.pc.key == k && m.pc.work.CallSleep?
                  && m.pc.work.call == c.(attempt := c.attempt + 1)
                  && IsRetryDelay(m.pc.work.wake - now, fault, c.attempt))
            && (!again && 1 <= c.attempt ==> m == Move(p, Handling(Failure(fault))))
  {
  }
}
