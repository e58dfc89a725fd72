/** The control invariant lifted to the whole system: it holds in every behaviour, overlapping executions included. */
module Soundness {
  import opened WorkflowTypes
  import opened EditSafety
  import opened Machine
  import opened Control
  import opened Frames
  import opened Systems

  ghost predicate Sound(s: System) {
    && (forall e :: e in s.execs ==> Fits(s.execs[e]))
    && (forall e :: e in s.execs ==> s.execs[e].run in s.runs)
    && (forall r :: r in s.runs ==> StepsOk(s.runs[r].steps))
  }

  lemma SoundStep(s: System, act: Action)
    requires Sound(s) && Can(s, act, false)
    ensures Sound(Do(s, act))
  {
    hide Act, Fits, StepsOk;
    match act {
      case Begin(e, r, claimant, maxSteps, yieldOnWait) =>
        FreshFits(r, claimant, maxSteps, yieldOnWait);
      case Step(e, a) =>
        var x := s.execs[e];
        var d := s.runs[x.run];
        ActFits(d, s.leases, s.now, x, a);
        ActKeeps(d, s.leases, s.now, x, a);
        ActStepsOk(d, s.leases, s.now, x, a);
      case _ =>
    }
  }

  lemma FreshFits(r: RunId, claimant: nat, maxSteps: Option<nat>, yieldOnWait: bool)
    ensures Fits(Fresh(r, claimant, maxSteps, yieldOnWait))
  {
  }

  lemma ActStepsOk(d: Durable, leases: set<Lease>, now: Time, x: Exec, a: Answer)
    requires Fits(x) && StepsOk(d.steps) && !x.pc.Returned?
    ensures StepsOk(Act(d, leases, now, x, a).d.steps)
  {
    hide Act, Fits, StepsOk;
    if x.pc.Completing? {
      StepsStayOk(d, leases, now, x, a);
    } else {
      ActKeeps(d, leases, now, x, a);
    }
  }

  lemma {:induction false} SoundAlways(states: seq<System>, acts: seq<Action>, exclusive: bool, i: nat)
    requires Behavior(states, acts, exclusive) && i < |states|
    ensures Sound(states[i])
  {
    hide Do, Sound;
    if i == 0 {
      InitialIsSound(states[0]);
    } else {
      SoundAlways(states, acts, exclusive, i - 1);
      assert Moves(states[i - 1], acts[i - 1], states[i - 1 + 1], exclusive);
      SoundStep(states[i - 1], acts[i - 1]);
    }
  }

  lemma InitialIsSound(s: System)
    requires Initial(s)
    ensures Sound(s)
  {
  }

  /** In every behaviour a provider is asked to repair only an answer that is not acceptable for its context and plan. */
  lemma OnlyRejectedIsRepaired(states: seq<System>, acts: seq<Action>, i: nat, e: ExecId)
    requires Behavior(states, acts, false) && i < |states| && e in states[i].execs
    requires states[i].execs[e].pc.Working? && HasCall(states[i].execs[e].pc.work)
    requires states[i].execs[e].pc.work.call.op.RepairSynthesis?
    ensures states[i].execs[e].point.HasAnalysis?
    ensures var p := states[i].execs[e].point;
            !Acceptable(p.ctx, p.plan, states[i].execs[e].pc.work.call.rejected)
  {
    hide Do, Initial, Can, Fits, StepsOk, Acceptable;
    SoundAlways(states, acts, false, i);
    RepairFits(states[i].execs[e]);
  }

  lemma RepairFits(x: Exec)
    requires Fits(x) && x.pc.Working? && HasCall(x.pc.work) && x.pc.work.call.op.RepairSynthesis?
    ensures x.point.HasAnalysis? && !Acceptable(x.point.ctx, x.point.plan, x.pc.work.call.rejected)
  {
    hide PointOk, Acceptable;
  }
}
