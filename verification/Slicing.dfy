/**
 * Slicing is invisible: however a run is cut into executions by step limits and capacity yields, and whatever other
 * runs do meanwhile, it ends with the results, reservations, status and response of one uninterrupted execution.
 */
module Slicing {
  import opened RunStatuses
  import opened WorkflowTypes
  import opened EditSafety
  import opened Machine
  import opened Control
  import opened Frames
  import opened Systems
  import opened Soundness
  import opened Leases
  import opened Replay
  import opened Settling
  import opened StatusHistory

  // ---------------------------------------------------------------- quiet executions

  /** The answer is the oracle's where the outcome of a call matters, and a success everywhere else. */
  ghost predicate QuietAnswer(ask: Oracle, x: Exec, a: Answer) {
    if x.pc.Working? && (x.pc.work.FetchContext? || x.pc.work.InSandbox? || x.pc.work.CallInvoke?) then
      a == ask(x.point, x.pc.key, x.pc.work)
    else !a.Throws?
  }

  /** Neither the deadline nor the bound on waiting for capacity strikes. */
  predicate InTime(now: Time, x: Exec) {
    && (x.pc.Deadline? || (x.pc.Working? && x.pc.work.CallDeadline?) ==> now - x.startedAt < WORKFLOW_DEADLINE_MS)
    && (x.pc.CapacityAcquire? || x.pc.CapacityBusy? ==> now - x.startedAt < CAPACITY_WAIT_MS)
  }

  /** A run that nobody cancels or supersedes. */
  ghost predicate Calm(d: Durable) {
    && d.active && !d.cancelRequested && !d.status.Cancelling?
    && (!IsTerminal(d.status) ==> d.response.None?)
  }

  /** The execution has nothing under way that a fresh execution would not do over. */
  predicate Resting(pc: Pc) {
    pc.Claiming? || pc.ReadingStart? || (pc.Handling? && pc.error.Yield?) || pc.Cleanup? || pc.Releasing? || pc.Returned?
  }

  /** How the run will end, judged from its state and that of its live execution. */
  ghost function Outlook(ask: Oracle, d: Durable, m: Move): Final {
    if IsTerminal(d.status) then Final(d.steps, d.reserved, d.status, d.response)
    else Settle(ask, d.steps, d.reserved, if Resting(m.pc) then START else m)
  }

  function At(x: Exec): Move {
    Move(x.point, x.pc)
  }

  ghost predicate QuietStep(ask: Oracle, d: Durable, x: Exec, f: Effects) {
    && Outlook(ask, f.d, At(f.x)) == Outlook(ask, d, At(x))
    && Calm(f.d)
    && (Doomed(f.x.pc) ==> !IsTerminal(f.d.status))
  }

  ghost predicate Quiet(ask: Oracle, d: Durable, now: Time, x: Exec, a: Answer) {
    && Fits(x) && StepsOk(d.steps) && Tied(d, x) && Calm(d) && QuietAnswer(ask, x, a) && InTime(now, x)
    && !x.pc.Returned?
    && (Doomed(x.pc) ==> !IsTerminal(d.status))
  }

  lemma MovesAwake(p: Point, k: StepKey, v: Value)
    ensures !Resting(Decide(p).pc) && !Resting(Arrive(p, k, v).pc) && !Resting(EnterAnalysis(p).pc)
  {
    hide Preflight, Advance;
  }

  lemma QuietOpening(ask: Oracle, d: Durable, leases: set<Lease>, now: Time, x: Exec, a: Answer)
    requires Quiet(ask, d, now, x, a) && (x.pc.Claiming? || x.pc.ReadingStart?)
    ensures QuietStep(ask, d, x, Act(d, leases, now, x, a))
  {
    hide Settle, StepsOk, Tied, PointOk;
  }

  lemma QuietDeciding(ask: Oracle, d: Durable, leases: set<Lease>, now: Time, x: Exec, a: Answer)
    requires Quiet(ask, d, now, x, a) && x.pc.Deciding?
    ensures QuietStep(ask, d, x, Act(d, leases, now, x, a))
  {
    hide Settle, StepsOk, Tied, Fits, Decide;
    TiedRuns(d, x);
    SettleDecides(ask, d.steps, d.reserved, x.point);
    MovesAwake(x.point, ContextStep, CodeV(""));
  }

  lemma QuietLoading(ask: Oracle, d: Durable, leases: set<Lease>, now: Time, x: Exec, a: Answer)
    requires Quiet(ask, d, now, x, a) && x.pc.Loading?
    ensures QuietStep(ask, d, x, Act(d, leases, now, x, a))
  {
    hide Settle, Fits, StepsOk, Tied;
    TiedRuns(d, x);
    SettleLoads(ask, d.steps, d.reserved, x.point, x.pc.doc, x.pc.next);
  }

  lemma QuietProbing(ask: Oracle, d: Durable, leases: set<Lease>, now: Time, x: Exec, a: Answer)
    requires Quiet(ask, d, now, x, a) && x.pc.Probing?
    ensures QuietStep(ask, d, x, Act(d, leases, now, x, a))
  {
    hide Settle, Leased, Fits, StepsOk, Tied, Arrive, EnterAnalysis;
    TiedRuns(d, x);
    SettleEarly(ask, d.steps, d.reserved, x.point, x.pc.key);
    var purpose := if x.pc.key.ProfileStep? then ForProfile else ForAnalysis;
    SettleWaits(ask, d.steps, d.reserved, x.point, CapacityBegin(purpose));
    SettleLeased(ask, d.steps, d.reserved, x.point, purpose);
    if x.pc.key in d.steps {
      MovesAwake(x.point, x.pc.key, d.steps[x.pc.key]);
    }
    MovesAwake(x.point, ContextStep, CodeV(""));
  }

  lemma TiedRuns(d: Durable, x: Exec)
    requires Tied(d, x) && Calm(d) && Driving(x.pc)
    ensures d.status.Running?
  {
  }

  /** Any two waits for the same lease lead to the same end. */
  lemma WaitsAgree(ask: Oracle, d: Durable, x: Exec, f: Effects)
    requires d.status.Running? && Calm(d) && Waits(x.pc) && Waits(f.x.pc) && f.x.pc.purpose == x.pc.purpose
    requires f.x.point == x.point && f.d == d
    ensures QuietStep(ask, d, x, f)
  {
    hide Settle, Leased;
    SettleWaits(ask, d.steps, d.reserved, x.point, x.pc);
    SettleWaits(ask, d.steps, d.reserved, x.point, f.x.pc);
  }

  lemma QuietWaiting(ask: Oracle, d: Durable, leases: set<Lease>, now: Time, x: Exec, a: Answer)
    requires Quiet(ask, d, now, x, a)
    requires x.pc.CapacityBegin? || x.pc.CapacityAcquire? || x.pc.CapacitySleep? || x.pc.CapacityActive?
    ensures QuietStep(ask, d, x, Act(d, leases, now, x, a))
  {
    hide Settle, Leased, Fits, StepsOk, Tied, QuietStep;
    TiedRuns(d, x);
    WaitsAgree(ask, d, x, Act(d, leases, now, x, a));
  }

  lemma QuietHolding(ask: Oracle, d: Durable, leases: set<Lease>, now: Time, x: Exec, a: Answer)
    requires Quiet(ask, d, now, x, a) && x.pc.CapacityRecord?
    ensures QuietStep(ask, d, x, Act(d, leases, now, x, a))
  {
    hide Settle, Leased, Fits, StepsOk, Tied, EnterAnalysis;
    TiedRuns(d, x);
    SettleWaits(ask, d.steps, d.reserved, x.point, x.pc);
    SettleLeased(ask, d.steps, d.reserved, x.point, x.pc.purpose);
    MovesAwake(x.point, ContextStep, CodeV(""));
  }

  /** Starting over at a wait leads back to the wait. */
  lemma WaitIsReplayed(ask: Oracle, d: Durable, x: Exec)
    requires Tied(d, x) && x.pc.CapacityBusy? && PurposeFits(x.point, x.pc.purpose)
    ensures Settle(ask, d.steps, d.reserved, START) == Leased(ask, d.steps, d.reserved, x.point, x.pc.purpose)
  {
    hide Settle, Leased, Preflight, Arrive, EnterAnalysis;
    var p := x.point;
    ReplayReaches(ask, d.steps, d.reserved, p);
    SettleDecides(ask, d.steps, d.reserved, p);
    var k := if x.pc.purpose.ForProfile? then ProfileStep else AnalysisStep;
    assert Decide(p) == Move(p, Probing(k));
    SettleEarly(ask, d.steps, d.reserved, p, k);
    SettleLeased(ask, d.steps, d.reserved, p, x.pc.purpose);
    SettleEnters(ask, d.steps, d.reserved, p, Deadline(ProfileStep));
  }

  lemma QuietBusy(ask: Oracle, d: Durable, leases: set<Lease>, now: Time, x: Exec, a: Answer)
    requires Quiet(ask, d, now, x, a) && x.pc.CapacityBusy?
    ensures QuietStep(ask, d, x, Act(d, leases, now, x, a))
  {
    hide Settle, Leased, StepsOk, Tied, EnterAnalysis, PointOk;
    TiedRuns(d, x);
    var f := Act(d, leases, now, x, a);
    SettleWaits(ask, d.steps, d.reserved, x.point, x.pc);
    if Waits(f.x.pc) {
      SettleWaits(ask, d.steps, d.reserved, x.point, f.x.pc);
    }
    WaitIsReplayed(ask, d, x);
  }

  lemma QuietStepping(ask: Oracle, d: Durable, leases: set<Lease>, now: Time, x: Exec, a: Answer)
    requires Quiet(ask, d, now, x, a) && (x.pc.Deadline? || x.pc.Active? || x.pc.Lookup? || x.pc.Starting?)
    ensures QuietStep(ask, d, x, Act(d, leases, now, x, a))
  {
    hide Settle, Fits, StepsOk, Tied, FirstWork, Arrive;
    TiedRuns(d, x);
    var k, f := x.pc.key, Act(d, leases, now, x, a);
    if x.pc.Starting? {
      SettleStarts(ask, d.steps, d.reserved, x.point, k);
    } else {
      SettleEnters(ask, d.steps, d.reserved, x.point, x.pc);
      if k in d.steps {
        MovesAwake(x.point, k, d.steps[k]);
      }
      if f.x.pc.Active? || f.x.pc.Lookup? {
        SettleEnters(ask, d.steps, d.reserved, x.point, f.x.pc);
      }
    }
  }

  lemma CountFits(x: Exec)
    requires Fits(x) && x.pc.Working? && x.pc.work.CountCommand?
    ensures x.commands < MAX_SANDBOX_COMMANDS
  {
    hide PointOk;
  }

  /** An effect and what is left of it lead to the same end. */
  lemma QuietWork(ask: Oracle, d: Durable, x: Exec, f: Effects)
    requires x.pc.Working? && d.status.Running? && Calm(d)
    requires f.d == d.(reserved := f.d.reserved) && f.x.point == x.point
    requires var made := Perform(ask, x.point, x.pc.key, x.pc.work, d.reserved);
             if f.x.pc.Working? then
               f.x.pc.key == x.pc.key && Perform(ask, x.point, x.pc.key, f.x.pc.work, f.d.reserved) == made
             else
               && StaysIn(x.point, At(f.x), x.pc.key)
               && (f.x.pc.Handling? ==> f.x.pc.error.Failure?)
               && Read(At(f.x), f.d.reserved) == made
    ensures QuietStep(ask, d, x, f)
  {
    hide Settle, Perform, Ends, Read;
    var k := x.pc.key;
    SettleWorks(ask, d.steps, d.reserved, x.point, k, x.pc.work);
    if f.x.pc.Working? {
      SettleWorks(ask, d.steps, f.d.reserved, x.point, k, f.x.pc.work);
    } else {
      SettleReads(ask, d.steps, f.d.reserved, x.point, k, At(f.x));
    }
  }

  lemma QuietSandbox(ask: Oracle, d: Durable, leases: set<Lease>, now: Time, x: Exec, a: Answer)
    requires Quiet(ask, d, now, x, a) && x.pc.Working? && !HasCall(x.pc.work)
    ensures QuietStep(ask, d, x, Act(d, leases, now, x, a))
  {
    hide Settle, Fits, StepsOk, Tied, ValidateContext, QuietStep;
    TiedRuns(d, x);
    if x.pc.work.CountCommand? {
      CountFits(x);
    }
    QuietWork(ask, d, x, Act(d, leases, now, x, a));
  }

  lemma QuietCall(ask: Oracle, d: Durable, leases: set<Lease>, now: Time, x: Exec, a: Answer)
    requires Quiet(ask, d, now, x, a) && x.pc.Working?
    requires x.pc.work.CallDeadline? || x.pc.work.CallActive? || x.pc.work.CallSleep?
    ensures QuietStep(ask, d, x, Act(d, leases, now, x, a))
  {
    hide Settle, Fits, StepsOk, Tied, QuietStep, Attempt;
    TiedRuns(d, x);
    QuietWork(ask, d, x, Act(d, leases, now, x, a));
  }

  lemma QuietReserve(ask: Oracle, d: Durable, leases: set<Lease>, now: Time, x: Exec, a: Answer)
    requires Quiet(ask, d, now, x, a) && x.pc.Working? && x.pc.work.CallReserve?
    ensures QuietStep(ask, d, x, Act(d, leases, now, x, a))
  {
    hide Settle, Fits, StepsOk, Tied, QuietStep, Deliver;
    TiedRuns(d, x);
    assert Perform(ask, x.point, x.pc.key, x.pc.work, d.reserved) == Attempt(ask, x.point, x.pc.key, x.pc.work.call, d.reserved);
    QuietWork(ask, d, x, Act(d, leases, now, x, a));
  }

  lemma QuietInvoke(ask: Oracle, d: Durable, leases: set<Lease>, now: Time, x: Exec, a: Answer)
    requires Quiet(ask, d, now, x, a) && x.pc.Working? && x.pc.work.CallInvoke?
    ensures QuietStep(ask, d, x, Act(d, leases, now, x, a))
  {
    hide Settle, Fits, StepsOk, Tied, QuietStep, ValidateSynthesisOutput, Fallback, ValidPlan, Attempt;
    TiedRuns(d, x);
    var f := Act(d, leases, now, x, a);
    QuietWork(ask, d, x, f);
  }

  /** The point a recorded step leads to is where a fresh execution arrives. */
  lemma RecordedIsReplayed(ask: Oracle, d: Durable, x: Exec)
    requires Fits(x) && Tied(d, x) && x.pc.Completing?
    ensures var steps := d.steps[x.pc.key := x.pc.value];
            Settle(ask, steps, d.reserved, START) == Settle(ask, steps, d.reserved, Arrive(x.point, x.pc.key, x.pc.value))
  {
    hide Settle, Follows, SafeResponse, ValidPlan, SchemaContext, ValidResponse, Preflight, HasCode;
    var k, v := x.pc.key, x.pc.value;
    var steps := d.steps[k := v];
    var q := Advance(x.point, k, v).value;
    FollowsGrows(x.point, d.steps, steps);
    AdvanceFollows(x.point, k, v, steps);
    if InAnalysis(q) {
      AnalysisHasCode(q, steps);
    }
    ReplayReaches(ask, steps, d.reserved, q);
  }

  lemma AnalysisHasCode(q: Point, steps: Steps)
    requires Follows(q, steps) && InAnalysis(q) && ValidPlan(q.plan)
    ensures HasCode(q.plan)
  {
    hide Preflight, HasCode;
  }

  lemma QuietRecording(ask: Oracle, d: Durable, leases: set<Lease>, now: Time, x: Exec, a: Answer)
    requires Quiet(ask, d, now, x, a) && (x.pc.Rechecking? || x.pc.Completing?)
    ensures QuietStep(ask, d, x, Act(d, leases, now, x, a))
  {
    hide Settle, Fits, StepsOk, Tied, Arrive;
    TiedRuns(d, x);
    SettleRecords(ask, d.steps, d.reserved, x.point, x.pc.key, x.pc.value);
    MovesAwake(x.point, x.pc.key, x.pc.value);
    if x.pc.Completing? {
      RecordedIsReplayed(ask, d, x);
    }
  }

  lemma CommitFits(x: Exec)
    requires Fits(x) && x.pc.FinishCommit?
    ensures IsTerminal(x.pc.status)
  {
  }

  lemma QuietFinishing(ask: Oracle, d: Durable, leases: set<Lease>, now: Time, x: Exec, a: Answer)
    requires Quiet(ask, d, now, x, a) && (x.pc.FinishActive? || x.pc.FinishPut? || x.pc.FinishCommit?)
    ensures QuietStep(ask, d, x, Act(d, leases, now, x, a))
  {
    hide Settle, Fits, StepsOk, Tied;
    TiedRuns(d, x);
    var f := Act(d, leases, now, x, a);
    SettleFinishes(ask, d.steps, d.reserved, x.point, x.pc);
    if x.pc.FinishCommit? {
      CommitFits(x);
    } else {
      SettleFinishes(ask, d.steps, d.reserved, x.point, f.x.pc);
    }
  }

  lemma QuietLeaving(ask: Oracle, d: Durable, leases: set<Lease>, now: Time, x: Exec, a: Answer)
    requires Quiet(ask, d, now, x, a) && Leaving(x.pc)
    ensures QuietStep(ask, d, x, Act(d, leases, now, x, a))
  {
    hide Settle, Fits, StepsOk, Tied;
    if Driving(x.pc) {
      TiedRuns(d, x);
    }
    if x.pc.Handling? && x.pc.error.Failure? {
      SettleFails(ask, d.steps, d.reserved, x.point, x.pc.error.fault);
    } else if x.pc.Terminating? {
      SettleFails(ask, d.steps, d.reserved, x.point, x.pc.fault);
    }
  }

  /** No step of a quiet execution changes how the run will end. */
  lemma ActQuiet(ask: Oracle, d: Durable, leases: set<Lease>, now: Time, x: Exec, a: Answer)
    requires Quiet(ask, d, now, x, a)
    ensures QuietStep(ask, d, x, Act(d, leases, now, x, a))
  {
    hide Act, QuietStep, Fits, StepsOk, Tied, Calm, QuietAnswer, InTime;
    if x.pc.Claiming? || x.pc.ReadingStart? {
      QuietOpening(ask, d, leases, now, x, a);
    } else if x.pc.Deciding? {
      QuietDeciding(ask, d, leases, now, x, a);
    } else if x.pc.Loading? {
      QuietLoading(ask, d, leases, now, x, a);
    } else if x.pc.Probing? {
      QuietProbing(ask, d, leases, now, x, a);
    } else if x.pc.CapacityBusy? {
      QuietBusy(ask, d, leases, now, x, a);
    } else if x.pc.CapacityRecord? {
      QuietHolding(ask, d, leases, now, x, a);
    } else if Waits(x.pc) {
      QuietWaiting(ask, d, leases, now, x, a);
    } else if x.pc.Deadline? || x.pc.Active? || x.pc.Lookup? || x.pc.Starting? {
      QuietStepping(ask, d, leases, now, x, a);
    } else if x.pc.Working? {
      if x.pc.work.CallInvoke? {
        QuietInvoke(ask, d, leases, now, x, a);
      } else if x.pc.work.CallReserve? {
        QuietReserve(ask, d, leases, now, x, a);
      } else if HasCall(x.pc.work) {
        QuietCall(ask, d, leases, now, x, a);
      } else {
        QuietSandbox(ask, d, leases, now, x, a);
      }
    } else if x.pc.Rechecking? || x.pc.Completing? {
      QuietRecording(ask, d, leases, now, x, a);
    } else if x.pc.FinishActive? || x.pc.FinishPut? || x.pc.FinishCommit? {
      QuietFinishing(ask, d, leases, now, x, a);
    } else {
      QuietLeaving(ask, d, leases, now, x, a);
    }
  }

  // ---------------------------------------------------------------- the system

  /** The run is left alone: no cancellation, no crash of its executions, deterministic ports and enough time. */
  ghost predicate LeftAlone(ask: Oracle, s: System, act: Action, r: RunId) {
    match act
    case Step(e, a) =>
      e in s.execs && s.execs[e].run == r ==> QuietAnswer(ask, s.execs[e], a) && InTime(s.now, s.execs[e])
    case Crash(e) => e in s.execs ==> s.execs[e].run != r
    case Cancel(r') => r' != r
    case Supersede(r') => r' != r
    case _ => true
  }

  /** A behaviour of the whole system that is quiet for one run; the executions of other runs do as they like. */
  ghost predicate QuietBehavior(ask: Oracle, states: seq<System>, acts: seq<Action>, r: RunId) {
    && Behavior(states, acts, true)
    && r in states[0].runs && states[0].runs[r].active
    && forall i :: 0 <= i < |acts| ==> LeftAlone(ask, states[i], acts[i], r)
  }

  /** Every execution of the run, or the next one if none is live, leads to the same end. */
  ghost predicate Destined(ask: Oracle, s: System, r: RunId) {
    && r in s.runs && Calm(s.runs[r])
    && (forall e :: LiveOn(s, e) && s.execs[e].run == r ==>
          && Outlook(ask, s.runs[r], At(s.execs[e])) == Uninterrupted(ask)
          && (Doomed(s.execs[e].pc) ==> !IsTerminal(s.runs[r].status)))
    && (Idle(s, r) ==> Outlook(ask, s.runs[r], START) == Uninterrupted(ask))
  }

  lemma RestingStartsOver(ask: Oracle, d: Durable, m: Move)
    requires Resting(m.pc)
    ensures Outlook(ask, d, m) == Outlook(ask, d, START)
  {
    hide Settle;
  }

  lemma DestinedAfterStep(ask: Oracle, s: System, e: ExecId, a: Answer, r: RunId)
    requires Can(s, Step(e, a), true) && Sound(s) && OneLive(s) && AllTied(s) && Destined(ask, s, r)
    requires LeftAlone(ask, s, Step(e, a), r)
    ensures Destined(ask, Do(s, Step(e, a)), r)
  {
    hide Act, Fits, StepsOk, Tied, DurableOk, Calm, Outlook, Uninterrupted, QuietAnswer, InTime;
    var x, s' := s.execs[e], Do(s, Step(e, a));
    var f := StepEffects(s, e, a);
    ActKeeps(s.runs[x.run], s.leases, s.now, x, a);
    assert LiveOn(s, e);
    if x.run == r {
      ActQuiet(ask, s.runs[r], s.leases, s.now, x, a);
      if f.x.pc.Returned? {
        RestingStartsOver(ask, f.d, At(f.x));
      } else {
        assert LiveOn(s', e);
      }
    }
    assert forall g :: LiveOn(s', g) && g != e ==> LiveOn(s, g);
    assert x.run != r && Idle(s', r) ==> Idle(s, r) by {
      assert forall g :: g != e && g in s.execs ==> s'.execs[g] == s.execs[g];
    }
  }

  lemma DestinedStep(ask: Oracle, s: System, act: Action, r: RunId)
    requires Can(s, act, true) && Sound(s) && OneLive(s) && AllTied(s) && Destined(ask, s, r)
    requires LeftAlone(ask, s, act, r)
    ensures Destined(ask, Do(s, act), r)
  {
    hide Act, Fits, StepsOk, Tied, DurableOk, Calm, Outlook, Uninterrupted, QuietAnswer, InTime;
    var s' := Do(s, act);
    match act {
      case Begin(e, r', claimant, maxSteps, yieldOnWait) =>
        assert forall g :: LiveOn(s', g) && g != e ==> LiveOn(s, g);
        if r' == r {
          RestingStartsOver(ask, s.runs[r], At(s'.execs[e]));
          assert LiveOn(s', e);
        } else {
          assert forall g :: LiveOn(s, g) ==> LiveOn(s', g) && s'.execs[g] == s.execs[g];
        }
      case Step(e, a) =>
        DestinedAfterStep(ask, s, e, a, r);
      case Crash(e) =>
        assert forall g :: LiveOn(s', g) <==> LiveOn(s, g) && g != e;
        assert Idle(s', r) ==> Idle(s, r) by {
          assert forall g :: g in s.execs && g != e ==> g in s'.execs;
        }
      case _ =>
        assert forall g :: LiveOn(s', g) <==> LiveOn(s, g);
    }
  }

  lemma InitialIsDestined(ask: Oracle, s: System, r: RunId)
    requires Initial(s) && r in s.runs && s.runs[r].active
    ensures Destined(ask, s, r)
  {
    hide Settle;
  }

  lemma {:induction false} DestinedAlways(ask: Oracle, states: seq<System>, acts: seq<Action>, r: RunId, i: nat)
    requires QuietBehavior(ask, states, acts, r) && i < |states|
    ensures Destined(ask, states[i], r)
  {
    hide Do, Initial, Can, Sound, OneLive, AllTied, Destined, LeftAlone;
    if i == 0 {
      InitialIsDestined(ask, states[0], r);
    } else {
      DestinedAlways(ask, states, acts, r, i - 1);
      TiedAlways(states, acts, i - 1);
      assert Moves(states[i - 1], acts[i - 1], states[i - 1 + 1], true);
      DestinedStep(ask, states[i - 1], acts[i - 1], r);
    }
  }

  /** What a run has left behind so far. */
  function Left(d: Durable): Final {
    Final(d.steps, d.reserved, d.status, d.response)
  }

  /**
   * However many executions a run is cut into, by whatever step limits and capacity yields, and whatever the other
   * runs do meanwhile: when it is over, it has left behind exactly what one uninterrupted execution leaves.
   */
  lemma SlicingIsInvisible(ask: Oracle, states: seq<System>, acts: seq<Action>, r: RunId, i: nat)
    requires QuietBehavior(ask, states, acts, r) && i < |states|
    ensures r in states[i].runs
    ensures IsTerminal(states[i].runs[r].status) ==> Left(states[i].runs[r]) == Uninterrupted(ask)
  {
    hide Do, Initial, Can, Settle, Uninterrupted, LeftAlone;
    DestinedAlways(ask, states, acts, r, i);
    if !Idle(states[i], r) {
      var e :| e in states[i].execs && Live(states[i].execs[e]) && states[i].execs[e].run == r;
      assert LiveOn(states[i], e);
    }
  }

  /** The execution was not left by an error of the store. */
  predicate Unbroken(pc: Pc) {
    match pc
    case Cleanup(outcome) => !outcome.Thrown?
    case Releasing(outcome) => !outcome.Thrown?
    case Returned(outcome) => !outcome.Thrown?
    case _ => true
  }

  lemma QuietIsUnbroken(ask: Oracle, d: Durable, leases: set<Lease>, now: Time, x: Exec, a: Answer)
    requires Quiet(ask, d, now, x, a) && Unbroken(x.pc)
    requires x.pc.Claiming? || x.pc.ReadingStart? || Leaving(x.pc)
    ensures Unbroken(Act(d, leases, now, x, a).x.pc)
  {
    hide Fits, StepsOk, Follows, Settle;
  }

  lemma CommitIsUnbroken(d: Durable, leases: set<Lease>, now: Time, x: Exec, a: Answer)
    requires x.pc.FinishCommit?
    ensures Unbroken(Act(d, leases, now, x, a).x.pc)
  {
  }

  lemma WorkIsUnbroken(d: Durable, leases: set<Lease>, now: Time, x: Exec, a: Answer)
    requires x.pc.Working?
    ensures Unbroken(Act(d, leases, now, x, a).x.pc)
  {
    hide AfterFailedAttempt, Deliver, ActFetchContext, ActSandbox, ActiveFault;
  }

  lemma OthersAreUnbroken(d: Durable, leases: set<Lease>, now: Time, x: Exec, a: Answer)
    requires !x.pc.Working? && !x.pc.Claiming? && !x.pc.FinishCommit? && !Leaving(x.pc) && !x.pc.ReadingStart?
    ensures Unbroken(Act(d, leases, now, x, a).x.pc)
  {
    hide Decide, EnterAnalysis, Arrive, ActWork, FirstWork, ActiveFault;
  }

  lemma ActUnbroken(ask: Oracle, d: Durable, leases: set<Lease>, now: Time, x: Exec, a: Answer)
    requires Quiet(ask, d, now, x, a) && Unbroken(x.pc)
    ensures Unbroken(Act(d, leases, now, x, a).x.pc)
  {
    hide Act, Unbroken, Quiet;
    if x.pc.FinishCommit? {
      CommitIsUnbroken(d, leases, now, x, a);
    } else if x.pc.Claiming? || x.pc.ReadingStart? || Leaving(x.pc) {
      QuietIsUnbroken(ask, d, leases, now, x, a);
    } else if x.pc.Working? {
      WorkIsUnbroken(d, leases, now, x, a);
    } else {
      OthersAreUnbroken(d, leases, now, x, a);
    }
  }

  ghost predicate UnbrokenOn(s: System, r: RunId) {
    forall e :: e in s.execs && s.execs[e].run == r ==> Unbroken(s.execs[e].pc)
  }

  lemma UnbrokenStep(ask: Oracle, s: System, act: Action, r: RunId)
    requires Can(s, act, true) && Sound(s) && AllTied(s) && Destined(ask, s, r) && UnbrokenOn(s, r)
    requires LeftAlone(ask, s, act, r)
    ensures UnbrokenOn(Do(s, act), r)
  {
    hide Act, Fits, StepsOk, Tied, DurableOk, Calm, Outlook, Uninterrupted, QuietAnswer, InTime, Unbroken;
    match act {
      case Begin(e, r', claimant, maxSteps, yieldOnWait) =>
        FreshIsUnbroken(r', claimant, maxSteps, yieldOnWait);
      case Step(e, a) =>
        var x := s.execs[e];
        ActKeeps(s.runs[x.run], s.leases, s.now, x, a);
        if x.run == r {
          assert LiveOn(s, e);
          ActUnbroken(ask, s.runs[r], s.leases, s.now, x, a);
        }
      case _ =>
    }
  }

  lemma FreshIsUnbroken(r: RunId, claimant: nat, maxSteps: Option<nat>, yieldOnWait: bool)
    ensures Unbroken(Fresh(r, claimant, maxSteps, yieldOnWait).pc)
  {
  }

  lemma {:induction false} UnbrokenAlways(ask: Oracle, states: seq<System>, acts: seq<Action>, r: RunId, i: nat)
    requires QuietBehavior(ask, states, acts, r) && i < |states|
    ensures UnbrokenOn(states[i], r)
  {
    hide Do, Can, Sound, OneLive, AllTied, Destined, LeftAlone, UnbrokenOn;
    if i == 0 {
      NothingBroken(states[0], r);
    } else {
      UnbrokenAlways(ask, states, acts, r, i - 1);
      DestinedAlways(ask, states, acts, r, i - 1);
      TiedAlways(states, acts, i - 1);
      assert Moves(states[i - 1], acts[i - 1], states[i - 1 + 1], true);
      UnbrokenStep(ask, states[i - 1], acts[i - 1], r);
    }
  }

  lemma NothingBroken(s: System, r: RunId)
    requires Initial(s)
    ensures UnbrokenOn(s, r)
  {
  }

  /**
   * Iterating `execute` until it does not pause is as good as one uninterrupted execution: the first execution that
   * returns neither paused nor ignored leaves the run over, with exactly the uninterrupted results.
   */
  lemma IteratingFinishes(ask: Oracle, states: seq<System>, acts: seq<Action>, r: RunId, i: nat, e: ExecId)
    requires QuietBehavior(ask, states, acts, r) && i < |states|
    requires e in states[i].execs && states[i].execs[e].run == r && states[i].execs[e].pc.Returned?
    requires !states[i].execs[e].pc.outcome.Paused? && !states[i].execs[e].pc.outcome.Ignored?
    ensures r in states[i].runs && IsTerminal(states[i].runs[r].status)
    ensures Left(states[i].runs[r]) == Uninterrupted(ask)
  {
    hide Do, Initial, Can, Settle, Uninterrupted, LeftAlone;
    UnbrokenAlways(ask, states, acts, r, i);
    WeakerBehavior(states, acts);
    OutcomesAreFinal(states, acts, i, e);
    SlicingIsInvisible(ask, states, acts, r, i);
  }

  lemma WeakerBehavior(states: seq<System>, acts: seq<Action>)
    requires Behavior(states, acts, true)
    ensures Behavior(states, acts, false)
  {
    hide Do, Initial;
    forall i | 0 <= i < |acts|
      ensures Moves(states[i], acts[i], states[i + 1], false)
    {
      assert Moves(states[i], acts[i], states[i + 1], true);
    }
  }

  /** Two ways to slice a run, one of which may be not at all, are indistinguishable afterwards. */
  lemma SlicingsAgree(
    ask: Oracle, r: RunId, states: seq<System>, acts: seq<Action>, i: nat, others: seq<System>, moves: seq<Action>, j: nat)
    requires QuietBehavior(ask, states, acts, r) && i < |states|
    requires QuietBehavior(ask, others, moves, r) && j < |others|
    ensures r in states[i].runs && r in others[j].runs
    ensures IsTerminal(states[i].runs[r].status) && IsTerminal(others[j].runs[r].status) ==>
              Left(states[i].runs[r]) == Left(others[j].runs[r])
  {
    hide QuietBehavior, Uninterrupted;
    SlicingIsInvisible(ask, states, acts, r, i);
    SlicingIsInvisible(ask, others, moves, r, j);
  }
}
