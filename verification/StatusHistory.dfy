/** The statuses a run goes through in any behaviour, and what a terminal run still does. */
module StatusHistory {
  import opened RunStatuses
  import opened WorkflowTypes
  import opened Machine
  import opened Control
  import opened Frames
  import opened Systems
  import opened Soundness

  predicate StatusMove(before: RunStatus, after: RunStatus) {
    before == after || CanTransition(before, after)
  }

  lemma ActStatus(d: Durable, leases: set<Lease>, now: Time, x: Exec, a: Answer)
    requires Fits(x) && !x.pc.Returned?
    ensures StatusMove(d.status, Act(d, leases, now, x, a).d.status)
    ensures Act(d, leases, now, x, a).d.response != d.response ==>
              d.status.Running? && !d.cancelRequested && d.active && IsTerminal(Act(d, leases, now, x, a).d.status)
  {
    hide Act, Fits;
    if x.pc.Claiming? || x.pc.Terminating? {
      ClaimOrTerminate(d, leases, now, x, a);
    } else if x.pc.FinishCommit? {
      CommitStatus(d, leases, now, x, a);
    } else {
      ActKeeps(d, leases, now, x, a);
    }
  }

  lemma ClaimOrTerminate(d: Durable, leases: set<Lease>, now: Time, x: Exec, a: Answer)
    requires x.pc.Claiming? || x.pc.Terminating?
    ensures StatusMove(d.status, Act(d, leases, now, x, a).d.status)
    ensures Act(d, leases, now, x, a).d.response == d.response
  {
  }

  lemma CommitStatus(d: Durable, leases: set<Lease>, now: Time, x: Exec, a: Answer)
    requires Fits(x) && x.pc.FinishCommit?
    ensures StatusMove(d.status, Act(d, leases, now, x, a).d.status)
    ensures Act(d, leases, now, x, a).d.response != d.response ==>
              d.status.Running? && !d.cancelRequested && d.active && IsTerminal(Act(d, leases, now, x, a).d.status)
  {
    hide PointOk, ValidResponse;
  }

  lemma StatusStep(s: System, act: Action, r: RunId)
    requires Sound(s) && Can(s, act, false) && r in s.runs
    ensures r in Do(s, act).runs
    ensures StatusMove(s.runs[r].status, Do(s, act).runs[r].status)
    ensures Do(s, act).runs[r].response != s.runs[r].response ==>
              s.runs[r].status.Running? && s.runs[r].active && IsTerminal(Do(s, act).runs[r].status)
  {
    hide Act, Fits, StepsOk;
    if act.Step? {
      var x := s.execs[act.exec];
      ActStatus(s.runs[x.run], s.leases, s.now, x, act.answer);
    }
  }

  lemma {:induction false} RunsStay(states: seq<System>, acts: seq<Action>, r: RunId, i: nat)
    requires Behavior(states, acts, false) && i < |states| && r in states[0].runs
    ensures r in states[i].runs
  {
    hide Do, Initial;
    if i == 0 {
    } else {
      RunsStay(states, acts, r, i - 1);
      assert Moves(states[i - 1], acts[i - 1], states[i - 1 + 1], false);
      SoundAlways(states, acts, false, i - 1);
      StatusStep(states[i - 1], acts[i - 1], r);
    }
  }

  /** The statuses of a run along a behaviour. */
  ghost function Statuses(states: seq<System>, r: RunId): seq<RunStatus>
    requires forall i :: 0 <= i < |states| ==> r in states[i].runs
  {
    seq(|states|, i requires 0 <= i < |states| => states[i].runs[r].status)
  }

  /** Whatever the engine, the store and the users do, every status change of every run is one the table allows. */
  lemma HistoryIsTrace(states: seq<System>, acts: seq<Action>, r: RunId)
    requires Behavior(states, acts, false) && r in states[0].runs
    ensures forall i :: 0 <= i < |states| ==> r in states[i].runs
    ensures IsTrace(Statuses(states, r))
  {
    hide Do, Initial, Can;
    forall i | 0 <= i < |states|
      ensures r in states[i].runs
    {
      RunsStay(states, acts, r, i);
    }
    forall i | 0 <= i < |states| - 1
      ensures StatusMove(states[i].runs[r].status, states[i + 1].runs[r].status)
    {
      assert Moves(states[i], acts[i], states[i + 1], false);
      SoundAlways(states, acts, false, i);
      StatusStep(states[i], acts[i], r);
    }
  }

  /** A run that was ever cancelling never delivers: its status stays on the cancelled side and no response appears. */
  lemma {:induction false} CancelledRunDeliversNothing(states: seq<System>, acts: seq<Action>, r: RunId, i: nat, j: nat)
    requires Behavior(states, acts, false) && i <= j < |states|
    requires r in states[0].runs && r in states[i].runs && states[i].runs[r].status == Cancelling
    ensures r in states[j].runs && states[j].runs[r].status in {Cancelling, Cancelled, Failed}
    ensures states[j].runs[r].response == states[i].runs[r].response
    decreases j - i
  {
    hide Do, Initial, Can;
    HistoryIsTrace(states, acts, r);
    CancellingNeverDelivers(Statuses(states, r), i, j);
    if i == j {
    } else {
      CancelledRunDeliversNothing(states, acts, r, i, j - 1);
      assert Moves(states[j - 1], acts[j - 1], states[j - 1 + 1], false);
      SoundAlways(states, acts, false, j - 1);
      StatusStep(states[j - 1], acts[j - 1], r);
    }
  }

  /** How many of an execution's steps were more than silent: a call to a provider, the sandbox or the lease pool. */
  function Touches(log: seq<Entry>, r: RunId, e: ExecId): nat {
    if log == [] then 0
    else
      var last := log[|log| - 1];
      Touches(log[..|log| - 1], r, e) + (if last.run == r && last.exec == e && !last.event.Silent? then 1 else 0)
  }

  predicate NotStarted(s: System, r: RunId, e: ExecId) {
    e in s.execs && s.execs[e].run == r ==> s.execs[e].pc.Claiming? || s.execs[e].pc.Returned?
  }

  lemma ReplayStep(s: System, act: Action, r: RunId, e: ExecId)
    requires Sound(s) && Can(s, act, false) && r in s.runs && IsTerminal(s.runs[r].status) && NotStarted(s, r, e)
    ensures var s' := Do(s, act);
            && r in s'.runs && s'.runs[r].status == s.runs[r].status
            && NotStarted(s', r, e) && Touches(s'.log, r, e) == Touches(s.log, r, e)
  {
    hide Act, Fits, StepsOk;
    StatusStep(s, act, r);
    TerminalIsSink(s.runs[r].status);
    if act.Step? {
      var x := s.execs[act.exec];
      ActKeeps(s.runs[x.run], s.leases, s.now, x, act.answer);
      if x.run == r && act.exec == e {
        TerminalClaim(s.runs[r], s.leases, s.now, x, act.answer);
      }
      assert Do(s, act).log[..|Do(s, act).log| - 1] == s.log;
    }
  }

  lemma TerminalClaim(d: Durable, leases: set<Lease>, now: Time, x: Exec, a: Answer)
    requires x.pc.Claiming? && IsTerminal(d.status)
    ensures var f := Act(d, leases, now, x, a); f.d == d && f.event.Silent? && f.x.pc.Returned?
    ensures !a.Throws? ==> Act(d, leases, now, x, a).x.pc == Returned(Replayed(d.response))
  {
  }

  /** An execution that begins on a terminal run touches no provider, sandbox or lease, and leaves the run as it is. */
  lemma {:induction false} TerminalRunIsReplayed(
    states: seq<System>, acts: seq<Action>, r: RunId, e: ExecId, i: nat, j: nat)
    requires Behavior(states, acts, false) && i <= j < |states|
    requires r in states[i].runs && IsTerminal(states[i].runs[r].status) && NotStarted(states[i], r, e)
    ensures r in states[j].runs && states[j].runs[r].status == states[i].runs[r].status
    ensures NotStarted(states[j], r, e)
    ensures Touches(states[j].log, r, e) == Touches(states[i].log, r, e)
    decreases j - i
  {
    hide Do, Initial, Can, Touches, NotStarted;
    if i == j {
    } else {
      TerminalRunIsReplayed(states, acts, r, e, i, j - 1);
      assert Moves(states[j - 1], acts[j - 1], states[j - 1 + 1], false);
      SoundAlways(states, acts, false, j - 1);
      ReplayStep(states[j - 1], acts[j - 1], r, e);
    }
  }

  lemma InactiveStays(s: System, act: Action, r: RunId)
    requires Can(s, act, false) && r in s.runs && !s.runs[r].active
    ensures r in Do(s, act).runs && !Do(s, act).runs[r].active
  {
    hide Act;
    if act.Step? {
      var x := s.execs[act.exec];
      ActKeeps(s.runs[x.run], s.leases, s.now, x, act.answer);
    }
  }

  /** A run that another one superseded, or that was asked to cancel, delivers nothing any more. */
  lemma {:induction false} SupersededRunDeliversNothing(states: seq<System>, acts: seq<Action>, r: RunId, i: nat, j: nat)
    requires Behavior(states, acts, false) && i <= j < |states|
    requires r in states[i].runs && !states[i].runs[r].active
    ensures r in states[j].runs && !states[j].runs[r].active
    ensures states[j].runs[r].response == states[i].runs[r].response
    decreases j - i
  {
    hide Do, Initial, Sound;
    if i == j {
    } else {
      SupersededRunDeliversNothing(states, acts, r, i, j - 1);
      assert Moves(states[j - 1], acts[j - 1], states[j - 1 + 1], false);
      SoundAlways(states, acts, false, j - 1);
      StatusStep(states[j - 1], acts[j - 1], r);
      InactiveStays(states[j - 1], acts[j - 1], r);
    }
  }

  /** The execution is done with its run for good. */
  predicate Concluded(pc: Pc) {
    match pc
    case Cleanup(outcome) => IsFinal(outcome)
    case Releasing(outcome) => IsFinal(outcome)
    case Returned(outcome) => IsFinal(outcome)
    case _ => false
  }

  /** On the way out of `execute`, behind its `try` and `catch` blocks. */
  predicate Exiting(pc: Pc) {
    pc.Cleanup? || pc.Releasing? || pc.Returned?
  }

  predicate IsFinal(outcome: Outcome) {
    outcome.Replayed? || outcome.Committed? || outcome.Ended?
  }

  lemma ConcludingEnds(d: Durable, leases: set<Lease>, now: Time, x: Exec, a: Answer)
    requires Fits(x) && (x.pc.Claiming? || x.pc.FinishCommit? || x.pc.Terminating?)
    ensures var f := Act(d, leases, now, x, a); Concluded(f.x.pc) ==> IsTerminal(f.d.status)
  {
    hide PointOk, ValidResponse;
  }

  lemma LeavingEnds(d: Durable, leases: set<Lease>, now: Time, x: Exec, a: Answer)
    requires x.pc.ReadingStart? || x.pc.Handling? || x.pc.Cleanup? || x.pc.Releasing?
    ensures var f := Act(d, leases, now, x, a); f.d == d && (Concluded(f.x.pc) ==> Concluded(x.pc))
  {
  }

  lemma WorkGoesOn(d: Durable, leases: set<Lease>, now: Time, x: Exec, a: Answer)
    requires x.pc.Working?
    ensures !Exiting(Act(d, leases, now, x, a).x.pc) && !Concluded(Act(d, leases, now, x, a).x.pc)
  {
    hide AfterFailedAttempt, Deliver, ActFetchContext, ActSandbox, ActiveFault;
  }

  lemma OthersGoOn(d: Durable, leases: set<Lease>, now: Time, x: Exec, a: Answer)
    requires !x.pc.Working? && !x.pc.Claiming? && !x.pc.FinishCommit? && !Leaving(x.pc) && !x.pc.ReadingStart?
    ensures !Exiting(Act(d, leases, now, x, a).x.pc) && !Concluded(Act(d, leases, now, x, a).x.pc)
  {
    hide Decide, EnterAnalysis, Arrive, ActWork, FirstWork, ActiveFault;
  }

  lemma ActConcludes(d: Durable, leases: set<Lease>, now: Time, x: Exec, a: Answer)
    requires Fits(x) && !x.pc.Returned? && (Concluded(x.pc) ==> IsTerminal(d.status))
    ensures var f := Act(d, leases, now, x, a); Concluded(f.x.pc) ==> IsTerminal(f.d.status)
  {
    hide Act, Fits, Concluded;
    if x.pc.Claiming? || x.pc.FinishCommit? || x.pc.Terminating? {
      ConcludingEnds(d, leases, now, x, a);
    } else if x.pc.ReadingStart? || Leaving(x.pc) {
      LeavingEnds(d, leases, now, x, a);
    } else if x.pc.Working? {
      WorkGoesOn(d, leases, now, x, a);
    } else {
      OthersGoOn(d, leases, now, x, a);
    }
  }

  ghost predicate Conclusive(s: System, e: ExecId) {
    e in s.execs && Concluded(s.execs[e].pc) ==> s.execs[e].run in s.runs && IsTerminal(s.runs[s.execs[e].run].status)
  }

  lemma ConclusiveStep(s: System, act: Action, e: ExecId)
    requires Sound(s) && Can(s, act, false) && Conclusive(s, e)
    ensures Conclusive(Do(s, act), e)
  {
    hide Act, Fits, StepsOk, Concluded;
    if e in s.execs {
      var r := s.execs[e].run;
      StatusStep(s, act, r);
      TerminalIsSink(s.runs[r].status);
    }
    match act {
      case Begin(e', r, claimant, maxSteps, yieldOnWait) =>
        FreshIsOpen(r, claimant, maxSteps, yieldOnWait);
      case Step(e', a) =>
        var x := s.execs[e'];
        ActKeeps(s.runs[x.run], s.leases, s.now, x, a);
        if e' == e {
          ActConcludes(s.runs[x.run], s.leases, s.now, x, a);
        }
      case _ =>
    }
  }

  lemma FreshIsOpen(r: RunId, claimant: nat, maxSteps: Option<nat>, yieldOnWait: bool)
    ensures !Concluded(Fresh(r, claimant, maxSteps, yieldOnWait).pc)
  {
  }

  /** An execution that reports anything but a pause, a refused claim or an error leaves its run over for good. */
  lemma {:induction false} OutcomesAreFinal(states: seq<System>, acts: seq<Action>, i: nat, e: ExecId)
    requires Behavior(states, acts, false) && i < |states|
    ensures Conclusive(states[i], e)
  {
    hide Do, Initial, Conclusive, Sound;
    if i == 0 {
      NothingConcluded(states[0], e);
    } else {
      OutcomesAreFinal(states, acts, i - 1, e);
      assert Moves(states[i - 1], acts[i - 1], states[i - 1 + 1], false);
      SoundAlways(states, acts, false, i - 1);
      ConclusiveStep(states[i - 1], acts[i - 1], e);
    }
  }

  lemma NothingConcluded(s: System, e: ExecId)
    requires Initial(s)
    ensures Conclusive(s, e)
  {
  }
}
