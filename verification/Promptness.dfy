/** How little an execution still does once its run was asked to cancel or is over. */
module Promptness {
  import opened WorkflowTypes
  import opened EditSafety
  import opened Machine
  import opened Frames
  import opened Systems
  import opened RunStatuses
  import opened Control
  import opened Soundness
  import opened StatusHistory

  /** The events that cost money or change what the user sees. */
  predicate Main(e: Event) {
    e.Invoked? || e.Commanded? || e.Recorded? || e.Delivered?
  }

  /** The execution has passed a check that the run is active and has not yet used it. */
  predicate Trusting(pc: Pc) {
    || pc.Lookup?
    || pc.Starting?
    || (pc.Working? && (pc.work.CountCommand? || pc.work.CallReserve? || pc.work.CallInvoke?))
    || pc.Completing?
    || pc.FinishPut?
    || pc.FinishCommit?
  }

  predicate Checking(pc: Pc) {
    pc.Active? || pc.Rechecking? || pc.FinishActive? || pc.CapacityActive? || (pc.Working? && pc.work.CallActive?)
  }

  /** The run was asked to cancel, or is over. */
  predicate Stopped(d: Durable) {
    d.cancelRequested || IsTerminal(d.status)
  }

  function Cost(b: bool): nat {
    if b then 1 else 0
  }

  /** A main event uses up the trust of a passed check, and no check passes on a stopped run. */
  predicate Prompt(x: Exec, f: Effects) {
    Cost(Main(f.event)) + Cost(Trusting(f.x.pc)) <= Cost(Trusting(x.pc))
  }

  lemma CheckedPrompt(d: Durable, leases: set<Lease>, now: Time, x: Exec, a: Answer)
    requires Stopped(d) && Checking(x.pc)
    ensures Prompt(x, Act(d, leases, now, x, a))
  {
  }

  lemma WorkPrompt(d: Durable, leases: set<Lease>, now: Time, x: Exec, a: Answer)
    requires x.pc.Working? && !Checking(x.pc)
    ensures Prompt(x, Act(d, leases, now, x, a))
  {
    hide ValidateContext, ValidateSynthesisOutput, Fallback, ValidPlan;
  }

  lemma WaitingPrompt(d: Durable, leases: set<Lease>, now: Time, x: Exec, a: Answer)
    requires x.pc.CapacityBegin? || x.pc.CapacityAcquire? || x.pc.CapacityRecord? || x.pc.CapacityBusy? || x.pc.CapacitySleep?
    ensures Prompt(x, Act(d, leases, now, x, a))
  {
  }

  lemma OpeningPrompt(d: Durable, leases: set<Lease>, now: Time, x: Exec, a: Answer)
    requires x.pc.Claiming? || x.pc.ReadingStart? || x.pc.Deciding? || x.pc.Loading? || x.pc.Probing? || x.pc.Deadline?
    ensures Prompt(x, Act(d, leases, now, x, a))
  {
    hide Preflight, Advance;
  }

  lemma SteppingPrompt(d: Durable, leases: set<Lease>, now: Time, x: Exec, a: Answer)
    requires x.pc.Lookup? || x.pc.Starting? || x.pc.Completing?
    ensures Prompt(x, Act(d, leases, now, x, a))
  {
    hide Advance, FirstWork;
  }

  lemma ClosingPrompt(d: Durable, leases: set<Lease>, now: Time, x: Exec, a: Answer)
    requires x.pc.FinishPut? || x.pc.FinishCommit? || x.pc.Handling? || x.pc.Terminating? || x.pc.Cleanup? || x.pc.Releasing?
    ensures Prompt(x, Act(d, leases, now, x, a))
  {
  }

  lemma ActPrompt(d: Durable, leases: set<Lease>, now: Time, x: Exec, a: Answer)
    requires Stopped(d) && !x.pc.Returned?
    ensures Prompt(x, Act(d, leases, now, x, a))
  {
    hide Act, Prompt;
    if Checking(x.pc) {
      CheckedPrompt(d, leases, now, x, a);
    } else if x.pc.Working? {
      WorkPrompt(d, leases, now, x, a);
    } else if x.pc.CapacityBegin? || x.pc.CapacityAcquire? || x.pc.CapacityRecord? || x.pc.CapacityBusy? || x.pc.CapacitySleep? {
      WaitingPrompt(d, leases, now, x, a);
    } else if x.pc.Lookup? || x.pc.Starting? || x.pc.Completing? {
      SteppingPrompt(d, leases, now, x, a);
    } else if x.pc.FinishPut? || x.pc.FinishCommit? || x.pc.Handling? || x.pc.Terminating? || x.pc.Cleanup? || x.pc.Releasing? {
      ClosingPrompt(d, leases, now, x, a);
    } else {
      OpeningPrompt(d, leases, now, x, a);
    }
  }

  /** The main events of one execution of a run. */
  function MainEvents(log: seq<Entry>, r: RunId, e: ExecId): nat {
    if log == [] then 0
    else
      var last := log[|log| - 1];
      MainEvents(log[..|log| - 1], r, e) + Cost(last.run == r && last.exec == e && Main(last.event))
  }

  predicate Trusted(s: System, r: RunId, e: ExecId) {
    e in s.execs && s.execs[e].run == r && Trusting(s.execs[e].pc)
  }

  lemma PromptStep(s: System, act: Action, r: RunId, e: ExecId)
    requires Sound(s) && Can(s, act, false) && r in s.runs && Stopped(s.runs[r])
    ensures var s' := Do(s, act);
            && r in s'.runs && Stopped(s'.runs[r])
            && MainEvents(s'.log, r, e) + Cost(Trusted(s', r, e)) <= MainEvents(s.log, r, e) + Cost(Trusted(s, r, e))
  {
    hide Act, Main, Fits, StepsOk;
    StatusStep(s, act, r);
    TerminalIsSink(s.runs[r].status);
    if act.Step? {
      var x := s.execs[act.exec];
      ActKeeps(s.runs[x.run], s.leases, s.now, x, act.answer);
      if x.run == r {
        ActPrompt(s.runs[r], s.leases, s.now, x, act.answer);
      }
      assert Do(s, act).log[..|Do(s, act).log| - 1] == s.log;
    }
  }

  /**
   * From any state in which a run was asked to cancel or is over, every execution of the run performs in total at
   * most one more event among provider call, sandbox command, recorded step and delivered response, and none if
   * it has not passed a check yet; in particular none if it begins later.
   */
  lemma {:induction false} CancellationIsPrompt(states: seq<System>, acts: seq<Action>, i: nat, j: nat, r: RunId, e: ExecId)
    requires Behavior(states, acts, false) && i <= j < |states|
    requires r in states[i].runs && Stopped(states[i].runs[r])
    ensures r in states[j].runs && Stopped(states[j].runs[r])
    ensures MainEvents(states[j].log, r, e) + Cost(Trusted(states[j], r, e)) <=
            MainEvents(states[i].log, r, e) + Cost(Trusted(states[i], r, e))
    ensures MainEvents(states[j].log, r, e) <= MainEvents(states[i].log, r, e) + 1
    decreases j - i
  {
    hide Do, MainEvents, Trusted, Initial, Stopped, Sound;
    if i == j {
    } else {
      CancellationIsPrompt(states, acts, i, j - 1, r, e);
      assert Moves(states[j - 1], acts[j - 1], states[j - 1 + 1], false);
      SoundAlways(states, acts, false, j - 1);
      PromptStep(states[j - 1], acts[j - 1], r, e);
    }
  }

  // ---------------------------------------------------------------- the log is complete

  /** Whatever a step does that the log is to show, the log shows. */
  ghost predicate Logged(d: Durable, x: Exec, f: Effects) {
    && (x.pc.Working? && x.pc.work.CallInvoke? ==> f.event == Invoked(KeyOf(x.pc.work.call)))
    && (f.x.pc.Working? && f.x.pc.work.InSandbox? ==> f.event == Commanded(f.x.pc.key))
    && (f.d.steps != d.steps ==> f.event.Recorded? && forall k :: k != f.event.key ==> (k in f.d.steps <==> k in d.steps))
    && (f.d.response != d.response ==> f.event.Delivered? && f.d.response == Some(f.event.response))
    && (f.x.lease != x.lease && f.x.lease.Some? ==> f.event == Held(f.x.lease.value))
    && (x.lease.Some? && f.x.lease.None? ==> f.event == Released(x.lease.value))
  }

  lemma MovesAreLogged(d: Durable, leases: set<Lease>, x: Exec, f: Effects)
    requires JustMoves(d, leases, x, f) && !Acting(x.pc)
    ensures Logged(d, x, f)
  {
  }

  lemma WorkIsLogged(d: Durable, leases: set<Lease>, now: Time, x: Exec, a: Answer)
    requires Acting(x.pc) && x.pc.Working?
    ensures Logged(d, x, Act(d, leases, now, x, a))
  {
    hide AfterFailedAttempt, Deliver, ActFetchContext;
  }

  lemma RecordsAreLogged(d: Durable, leases: set<Lease>, now: Time, x: Exec, a: Answer)
    requires x.pc.Completing?
    ensures Logged(d, x, Act(d, leases, now, x, a))
  {
    hide Arrive;
  }

  lemma LeasesAreLogged(d: Durable, leases: set<Lease>, now: Time, x: Exec, a: Answer)
    requires x.pc.CapacityAcquire? || x.pc.CapacityRecord? || x.pc.Releasing?
    ensures Logged(d, x, Act(d, leases, now, x, a))
  {
    hide EnterAnalysis;
  }

  lemma OthersAreLogged(d: Durable, leases: set<Lease>, now: Time, x: Exec, a: Answer)
    requires x.pc.Claiming? || x.pc.ReadingStart? || x.pc.FinishCommit? || x.pc.Terminating?
    ensures Logged(d, x, Act(d, leases, now, x, a))
  {
  }

  /**
   * No step makes a provider call, starts a command, records a result, delivers a response, or takes or gives back a
   * lease without the event that says so; what the log bounds is therefore bounded.
   */
  lemma NothingIsUnlogged(d: Durable, leases: set<Lease>, now: Time, x: Exec, a: Answer)
    requires !x.pc.Returned?
    ensures Logged(d, x, Act(d, leases, now, x, a))
  {
    hide Act, Logged, JustMoves;
    if !Acting(x.pc) {
      MovingOnly(d, leases, now, x, a);
      MovesAreLogged(d, leases, x, Act(d, leases, now, x, a));
    } else if x.pc.Working? {
      WorkIsLogged(d, leases, now, x, a);
    } else if x.pc.Completing? {
      RecordsAreLogged(d, leases, now, x, a);
    } else if x.pc.CapacityAcquire? || x.pc.CapacityRecord? || x.pc.Releasing? {
      LeasesAreLogged(d, leases, now, x, a);
    } else {
      OthersAreLogged(d, leases, now, x, a);
    }
  }
}
