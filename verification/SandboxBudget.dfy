/** The sandbox command budget over a whole run, and the guards of the engine that can never fire. */
module SandboxBudget {
  import opened RunStatuses
  import opened WorkflowTypes
  import opened EditSafety
  import opened Machine
  import opened Control
  import opened Frames
  import opened Systems
  import opened Soundness
  import opened Leases
  import opened Replay
  import StatusHistory

  // ---------------------------------------------------------------- guards that never fire

  /** In no behaviour does an execution find its command budget exceeded. */
  lemma CommandBudgetNeverExceeded(states: seq<System>, acts: seq<Action>, i: nat, e: ExecId)
    requires Behavior(states, acts, false) && i < |states| && e in states[i].execs
    requires states[i].execs[e].pc.Working? && states[i].execs[e].pc.work.CountCommand?
    ensures states[i].execs[e].commands + 1 <= MAX_SANDBOX_COMMANDS
  {
    hide Do, Initial, Can, Fits, StepsOk;
    SoundAlways(states, acts, false, i);
    CountFits(states[i].execs[e]);
  }

  lemma CountFits(x: Exec)
    requires Fits(x) && x.pc.Working? && x.pc.work.CountCommand?
    ensures x.commands + 1 <= MAX_SANDBOX_COMMANDS && NeedsSandbox(x.pc.key)
  {
  }

  /** A plan that asks for a clarification carries one. */
  lemma ClarificationNeverMissing(states: seq<System>, acts: seq<Action>, i: nat, e: ExecId)
    requires Behavior(states, acts, false) && i < |states| && e in states[i].execs
    requires states[i].execs[e].point.HasRoute? && states[i].execs[e].point.plan.responseType.ClarificationType?
    ensures states[i].execs[e].point.plan.clarification.Some?
  {
    hide Do, Initial, Can, Fits, StepsOk;
    SoundAlways(states, acts, false, i);
    PlanFits(states[i].execs[e]);
  }

  lemma PlanFits(x: Exec)
    requires Fits(x) && HasPlan(x.point)
    ensures ValidPlan(x.point.plan)
  {
  }

  /** An execution that has reached the analysis phase has code to run, with overlapping executions as well. */
  lemma AnalysisCodeNeverMissing(states: seq<System>, acts: seq<Action>, i: nat, e: ExecId)
    requires Behavior(states, acts, false) && i < |states| && e in states[i].execs
    requires states[i].execs[e].pc == Probing(AnalysisStep) || states[i].execs[e].pc == CapacityRecord(ForAnalysis)
    ensures states[i].execs[e].point.HasRoute? && HasCode(states[i].execs[e].point.plan)
  {
    hide Do, Initial, Can, Fits, StepsOk;
    SoundAlways(states, acts, false, i);
    AnalysisFits(states[i].execs[e]);
    PlanFits(states[i].execs[e]);
  }

  lemma AnalysisFits(x: Exec)
    requires Fits(x) && (x.pc == Probing(AnalysisStep) || x.pc == CapacityRecord(ForAnalysis))
    ensures x.point.HasRoute? && x.point.plan.requiresData
  {
  }

  // ---------------------------------------------------------------- commands of a whole run

  /** The execution will end its run, or be left by an error. */
  predicate Failing(pc: Pc) {
    || (pc.Handling? && pc.error.Failure?)
    || pc.Terminating?
    || pc == Cleanup(Thrown)
    || pc == Releasing(Thrown)
  }

  /** The command of the step is accounted for: its result is recorded, still under way, or the run is over. */
  predicate Accounted(d: Durable, pc: Pc, k: StepKey) {
    k in d.steps || IsTerminal(d.status) || AfterCommand(pc, k) || Failing(pc)
  }

  predicate AccountedStep(x: Exec, f: Effects, k: StepKey) {
    Accounted(f.d, f.x.pc, k) || f.x.pc == Returned(Thrown)
  }

  lemma AccountedWork(d: Durable, leases: set<Lease>, now: Time, x: Exec, a: Answer, k: StepKey)
    requires x.pc.Working? && AfterCommand(x.pc, k) && Fits(x)
    ensures AccountedStep(x, Act(d, leases, now, x, a), k)
  {
    hide PointOk, ValueFits, AnswerFits;
  }

  lemma AccountedSteps(d: Durable, leases: set<Lease>, now: Time, x: Exec, a: Answer, k: StepKey)
    requires (x.pc.Rechecking? || x.pc.Completing?) && AfterCommand(x.pc, k)
    ensures AccountedStep(x, Act(d, leases, now, x, a), k)
  {
    hide Arrive;
  }

  lemma AccountedFailing(d: Durable, leases: set<Lease>, now: Time, x: Exec, a: Answer, k: StepKey)
    requires Failing(x.pc)
    ensures AccountedStep(x, Act(d, leases, now, x, a), k)
  {
  }

  lemma ActAccounted(d: Durable, leases: set<Lease>, now: Time, x: Exec, a: Answer, k: StepKey)
    requires Fits(x) && !x.pc.Returned? && Accounted(d, x.pc, k) && StatusMoves(d, leases, now, x, a)
    requires Grows(d.steps, Act(d, leases, now, x, a).d.steps)
    ensures AccountedStep(x, Act(d, leases, now, x, a), k)
  {
    hide Act, Fits;
    if k !in d.steps && !IsTerminal(d.status) {
      if Failing(x.pc) {
        AccountedFailing(d, leases, now, x, a, k);
      } else if x.pc.Working? {
        AccountedWork(d, leases, now, x, a, k);
      } else {
        AccountedSteps(d, leases, now, x, a, k);
      }
    }
  }

  ghost predicate StatusMoves(d: Durable, leases: set<Lease>, now: Time, x: Exec, a: Answer) {
    IsTerminal(d.status) ==> IsTerminal(Act(d, leases, now, x, a).d.status)
  }

  /** A command is issued only by `CountCommand`, which leads right behind it. */
  ghost predicate CommandStep(x: Exec, f: Effects) {
    f.event.Commanded? ==>
      x.pc.Working? && x.pc.work.CountCommand? && x.pc.key == f.event.key && AfterCommand(f.x.pc, f.event.key)
  }

  lemma MovingCommand(d: Durable, leases: set<Lease>, x: Exec, f: Effects)
    requires JustMoves(d, leases, x, f)
    ensures CommandStep(x, f)
  {
  }

  lemma WorkCommand(d: Durable, leases: set<Lease>, now: Time, x: Exec, a: Answer)
    requires Acting(x.pc) && x.pc.Working?
    ensures CommandStep(x, Act(d, leases, now, x, a))
  {
    hide AfterFailedAttempt, Deliver, ActFetchContext, ActSandbox;
  }

  lemma OtherCommand(d: Durable, leases: set<Lease>, now: Time, x: Exec, a: Answer)
    requires Acting(x.pc) && !x.pc.Working?
    ensures CommandStep(x, Act(d, leases, now, x, a))
  {
    hide Decide, Arrive, EnterAnalysis, ActWork;
  }

  lemma ActCommand(d: Durable, leases: set<Lease>, now: Time, x: Exec, a: Answer)
    requires !x.pc.Returned?
    ensures CommandStep(x, Act(d, leases, now, x, a))
  {
    hide *;
    if !Acting(x.pc) {
      MovingOnly(d, leases, now, x, a);
      MovingCommand(d, leases, x, Act(d, leases, now, x, a));
    } else if x.pc.Working? {
      WorkCommand(d, leases, now, x, a);
    } else {
      OtherCommand(d, leases, now, x, a);
    }
  }

  predicate IsCommand(e: Entry, r: RunId, k: StepKey) {
    e.run == r && e.event == Commanded(k)
  }

  function Commands(log: seq<Entry>, r: RunId, k: StepKey): nat {
    if log == [] then 0 else Commands(log[..|log| - 1], r, k) + (if IsCommand(log[|log| - 1], r, k) then 1 else 0)
  }

  function AllCommands(log: seq<Entry>, r: RunId): nat {
    if log == [] then 0
    else AllCommands(log[..|log| - 1], r) + (if log[|log| - 1].run == r && log[|log| - 1].event.Commanded? then 1 else 0)
  }

  lemma {:induction false} CommandsAddUp(log: seq<Entry>, r: RunId)
    requires forall i :: 0 <= i < |log| && log[i].event.Commanded? ==> NeedsSandbox(log[i].event.key)
    ensures AllCommands(log, r) ==
            Commands(log, r, ProfileStep) + Commands(log, r, InitialStep) + Commands(log, r, RepairRunStep)
  {
    if log == [] {
    } else {
      CommandsAddUp(log[..|log| - 1], r);
    }
  }

  /** Some live execution of the run still answers for the command. */
  ghost predicate AnsweredFor(s: System, e: ExecId, r: RunId, k: StepKey) {
    LiveOn(s, e) && s.execs[e].run == r && (AfterCommand(s.execs[e].pc, k) || Failing(s.execs[e].pc))
  }

  /** Each command was issued once, and once more at most for each break; unless a break is left over it is accounted for. */
  ghost predicate CommandedOnce(s: System, r: RunId, k: StepKey) {
    r in s.runs ==>
      && Commands(s.log, r, k) <= 1 + s.broken[r]
      && (Commands(s.log, r, k) == 1 + s.broken[r] ==>
            k in s.runs[r].steps || IsTerminal(s.runs[r].status) || exists e :: AnsweredFor(s, e, r, k))
  }

  ghost predicate OnlyCommands(s: System) {
    forall i :: 0 <= i < |s.log| && s.log[i].event.Commanded? ==> NeedsSandbox(s.log[i].event.key)
  }

  lemma CountIsNew(d: Durable, x: Exec, k: StepKey)
    requires Tied(d, x) && x.pc.Working? && x.pc.work.CountCommand? && x.pc.key == k
    ensures !Accounted(d, x.pc, k)
  {
    hide Follows, SafeResponse;
  }

  lemma CommandedOnceStep(s: System, e: ExecId, a: Answer, k: StepKey)
    requires Can(s, Step(e, a), true) && Sound(s) && OneLive(s) && AllTied(s)
    requires CommandedOnce(s, s.execs[e].run, k)
    ensures CommandedOnce(Do(s, Step(e, a)), s.execs[e].run, k)
  {
    hide Act, Fits, StepsOk, Tied, DurableOk, Accounted, AfterCommand, Failing, CommandStep;
    var x, s' := s.execs[e], Do(s, Step(e, a));
    var r, d, f := x.run, s.runs[x.run], StepEffects(s, e, a);
    assert LiveOn(s, e);
    assert s'.log[..|s'.log| - 1] == s.log;
    ActKeeps(d, s.leases, s.now, x, a);
    CommandsOnce(s, e, a, k);
    if s'.broken[r] != s.broken[r] {
      return;
    }
    if Commands(s.log, r, k) == 1 + s.broken[r] {
      AccountedBefore(s, e, k);
      ActStatusMoves(d, s.leases, s.now, x, a);
      ActTied(d, s.leases, s.now, x, a);
      ActAccounted(d, s.leases, s.now, x, a, k);
      AccountedAfter(s', e, k);
    } else if f.event == Commanded(k) {
      ActCommand(d, s.leases, s.now, x, a);
      CommandIsAnswered(f, x, k);
      AccountedAfter(s', e, k);
    }
  }

  lemma CommandIsAnswered(f: Effects, x: Exec, k: StepKey)
    requires CommandStep(x, f) && f.event == Commanded(k)
    ensures Accounted(f.d, f.x.pc, k) && x.pc.Working? && x.pc.work.CountCommand? && x.pc.key == k
  {
  }

  lemma ActStatusMoves(d: Durable, leases: set<Lease>, now: Time, x: Exec, a: Answer)
    requires Fits(x) && !x.pc.Returned?
    ensures StatusMoves(d, leases, now, x, a)
  {
    hide Act, Fits;
    StatusHistory.ActStatus(d, leases, now, x, a);
    TerminalIsSink(d.status);
  }

  /** What the books say about the run is, with one live execution, about that execution. */
  lemma AccountedBefore(s: System, e: ExecId, k: StepKey)
    requires OneLive(s) && LiveOn(s, e) && s.execs[e].run in s.runs
    requires CommandedOnce(s, s.execs[e].run, k)
    requires Commands(s.log, s.execs[e].run, k) == 1 + s.broken[s.execs[e].run]
    ensures Accounted(s.runs[s.execs[e].run], s.execs[e].pc, k)
  {
  }

  lemma AccountedAfter(s: System, e: ExecId, k: StepKey)
    requires e in s.execs && s.execs[e].run in s.runs && Accounted(s.runs[s.execs[e].run], s.execs[e].pc, k)
    ensures k in s.runs[s.execs[e].run].steps || IsTerminal(s.runs[s.execs[e].run].status) ||
            AnsweredFor(s, e, s.execs[e].run, k)
  {
  }

  /** The execution issues the command only while the books have one left. */
  lemma CommandsOnce(s: System, e: ExecId, a: Answer, k: StepKey)
    requires Can(s, Step(e, a), true) && Sound(s) && OneLive(s) && AllTied(s)
    requires CommandedOnce(s, s.execs[e].run, k)
    ensures StepEffects(s, e, a).event == Commanded(k) ==> Commands(s.log, s.execs[e].run, k) <= s.broken[s.execs[e].run]
  {
    hide Act, Fits, StepsOk, Tied, DurableOk, Accounted, AfterCommand, Failing, CommandStep;
    var x := s.execs[e];
    var d, f := s.runs[x.run], StepEffects(s, e, a);
    assert LiveOn(s, e);
    if f.event == Commanded(k) && Commands(s.log, x.run, k) == 1 + s.broken[x.run] {
      ActCommand(d, s.leases, s.now, x, a);
      CommandIsAnswered(f, x, k);
      CountIsNew(d, x, k);
      AccountedBefore(s, e, k);
    }
  }

  lemma CommandedOnceOther(s: System, act: Action, r: RunId, k: StepKey)
    requires Can(s, act, true) && Sound(s) && CommandedOnce(s, r, k)
    requires act.Step? ==> s.execs[act.exec].run != r
    ensures CommandedOnce(Do(s, act), r, k)
  {
    hide Act, Fits, StepsOk, AfterCommand, Failing;
    var s' := Do(s, act);
    if act.Step? {
      assert s'.log[..|s'.log| - 1] == s.log;
    }
    CancelIsSticky(s, act, r);
    if r in s'.runs && s'.broken[r] == s.broken[r] {
      forall e | AnsweredFor(s, e, r, k)
        ensures AnsweredFor(s', e, r, k)
      {
      }
    }
  }

  lemma CancelIsSticky(s: System, act: Action, r: RunId)
    requires Can(s, act, true) && (act.Step? ==> s.execs[act.exec].run != r)
    ensures r in Do(s, act).runs <==> r in s.runs
    ensures r in s.runs ==> Do(s, act).runs[r].steps == s.runs[r].steps
    ensures r in s.runs && IsTerminal(s.runs[r].status) ==> IsTerminal(Do(s, act).runs[r].status)
  {
    hide Act;
  }

  lemma OnlyCommandsStep(s: System, act: Action)
    requires Can(s, act, true) && Sound(s) && OnlyCommands(s)
    ensures OnlyCommands(Do(s, act))
  {
    hide Act, Fits, StepsOk, CommandStep;
    if act.Step? {
      var x := s.execs[act.exec];
      ActCommand(s.runs[x.run], s.leases, s.now, x, act.answer);
      var f := StepEffects(s, act.exec, act.answer);
      if f.event.Commanded? {
        CommandIsAnswered(f, x, f.event.key);
        CountFits(x);
      }
    }
  }

  lemma {:induction false} CommandedOnceAlways(states: seq<System>, acts: seq<Action>, i: nat, r: RunId, k: StepKey)
    requires Behavior(states, acts, true) && i < |states|
    ensures CommandedOnce(states[i], r, k) && OnlyCommands(states[i])
  {
    hide Do, Initial, AllTied, OneLive, Sound, CommandedOnce, OnlyCommands;
    if i == 0 {
      NoCommandsYet(states[0], r, k);
    } else {
      CommandedOnceAlways(states, acts, i - 1, r, k);
      var s, act := states[i - 1], acts[i - 1];
      assert Moves(s, act, states[i - 1 + 1], true);
      TiedAlways(states, acts, i - 1);
      OnlyCommandsStep(s, act);
      if act.Step? && s.execs[act.exec].run == r {
        CommandedOnceStep(s, act.exec, act.answer, k);
      } else {
        CommandedOnceOther(s, act, r, k);
      }
    }
  }

  lemma NoCommandsYet(s: System, r: RunId, k: StepKey)
    requires Initial(s)
    ensures CommandedOnce(s, r, k) && OnlyCommands(s)
  {
  }

  /**
   * However a run is sliced and whoever else uses the system, with one live execution of it at a time it issues each
   * sandbox command once, and once more at most for each time an execution of it crashed or was left by an error.
   */
  lemma CommandsPerBreak(states: seq<System>, acts: seq<Action>, i: nat, r: RunId)
    requires Behavior(states, acts, true) && i < |states| && r in states[i].runs
    ensures forall k :: Commands(states[i].log, r, k) <= 1 + states[i].broken[r]
    ensures AllCommands(states[i].log, r) <= MAX_SANDBOX_COMMANDS * (1 + states[i].broken[r])
  {
    hide Do, Initial, Can;
    forall k
      ensures Commands(states[i].log, r, k) <= 1 + states[i].broken[r]
    {
      CommandedOnceAlways(states, acts, i, r, k);
    }
    CommandedOnceAlways(states, acts, i, r, ProfileStep);
    CommandsAddUp(states[i].log, r);
  }

  /**
   * So a run of which no execution broke issues at most three commands in all, although every slice starts with a
   * fresh budget of three.
   */
  lemma AtMostThreeCommands(states: seq<System>, acts: seq<Action>, i: nat, r: RunId)
    requires Behavior(states, acts, true) && i < |states| && r in states[i].runs && r !in states[i].broken
    ensures forall k :: Commands(states[i].log, r, k) <= 1
    ensures AllCommands(states[i].log, r) <= MAX_SANDBOX_COMMANDS
  {
    hide Do, Initial, Can, Commands, AllCommands, Behavior;
    CommandsPerBreak(states, acts, i, r);
  }
}
