/** Sandbox commands run under a lease, leases are given back, and so at most two runs use the sandbox at once. */
module Leases {
  import opened WorkflowTypes
  import opened EditSafety
  import opened Machine
  import opened Control
  import opened Frames
  import opened Systems
  import opened Soundness
  import Layouts

  // ---------------------------------------------------------------- one execution

  ghost predicate LeaseStep(x: Exec, f: Effects) {
    && (f.event.Held? ==> x.lease.None? && f.x.lease.Some? && !f.x.pc.Returned?)
    && (f.event.Released? ==> x.lease.Some? && f.x.lease.None? && f.x.pc.Returned?)
    && (!f.event.Held? && !f.event.Released? ==> f.x.lease == x.lease && (f.x.pc.Returned? ==> x.lease.None?))
  }

  lemma MovingLease(d: Durable, leases: set<Lease>, x: Exec, f: Effects)
    requires JustMoves(d, leases, x, f) && (f.x.pc.Returned? ==> f.x.lease.None?)
    ensures LeaseStep(x, f)
  {
  }

  lemma WorkLease(d: Durable, leases: set<Lease>, now: Time, x: Exec, a: Answer)
    requires Acting(x.pc) && x.pc.Working?
    ensures LeaseStep(x, Act(d, leases, now, x, a))
  {
    hide ValidateSynthesisOutput, Fallback, ValidPlan, ActFetchContext;
  }

  lemma ActingLease(d: Durable, leases: set<Lease>, now: Time, x: Exec, a: Answer)
    requires Fits(x) && Acting(x.pc) && !x.pc.Working?
    ensures LeaseStep(x, Act(d, leases, now, x, a))
  {
    hide ActWork, PointOk, ValueFits, AnswerFits, Advance, Decide, WorkFits;
  }

  lemma ActLease(d: Durable, leases: set<Lease>, now: Time, x: Exec, a: Answer)
    requires Fits(x) && StepsOk(d.steps) && !x.pc.Returned?
    ensures LeaseStep(x, Act(d, leases, now, x, a))
  {
    hide *;
    if !Acting(x.pc) {
      MovingOnly(d, leases, now, x, a);
      ActFits(d, leases, now, x, a);
      ReturnedHoldsNone(Act(d, leases, now, x, a).x);
      MovingLease(d, leases, x, Act(d, leases, now, x, a));
    } else if x.pc.Working? {
      WorkLease(d, leases, now, x, a);
    } else {
      ActingLease(d, leases, now, x, a);
    }
  }

  lemma ReturnedHoldsNone(x: Exec)
    requires Fits(x)
    ensures x.pc.Returned? ==> x.lease.None?
  {
  }

  function Helds(log: seq<Entry>, e: ExecId): nat {
    if log == [] then 0
    else Helds(log[..|log| - 1], e) + (if log[|log| - 1].exec == e && log[|log| - 1].event.Held? then 1 else 0)
  }

  function Releases(log: seq<Entry>, e: ExecId): nat {
    if log == [] then 0
    else Releases(log[..|log| - 1], e) + (if log[|log| - 1].exec == e && log[|log| - 1].event.Released? then 1 else 0)
  }

  lemma {:induction false} UnloggedHasNone(log: seq<Entry>, e: ExecId)
    requires Unlogged(log, e)
    ensures Helds(log, e) == 0 && Releases(log, e) == 0
  {
    if log == [] {
    } else {
      UnloggedHasNone(log[..|log| - 1], e);
    }
  }

  /** The books of an execution: what it holds is what it acquired, until it returns having released as much. */
  predicate Balanced(s: System, e: ExecId) {
    e in s.execs ==>
      var x := s.execs[e];
      if x.pc.Returned? then Helds(s.log, e) == Releases(s.log, e) <= 1
      else Releases(s.log, e) == 0 && Helds(s.log, e) == if x.lease.Some? then 1 else 0
  }

  lemma BalancedStep(s: System, act: Action, e: ExecId)
    requires Sound(s) && Can(s, act, false) && Balanced(s, e)
    ensures Balanced(Do(s, act), e)
  {
    hide Act, Fits, StepsOk;
    match act {
      case Begin(e', r, claimant, maxSteps, yieldOnWait) =>
        UnloggedHasNone(s.log, e');
      case Step(e', a) =>
        var x := s.execs[e'];
        ActLease(s.runs[x.run], s.leases, s.now, x, a);
        assert Do(s, act).log[..|Do(s, act).log| - 1] == s.log;
      case _ =>
    }
  }

  /**
   * Every execution acquires at most one lease, and one that has returned (on success, yield, cancellation,
   * failure or error alike) released exactly what it acquired.
   */
  lemma {:induction false} LeasesAreReturned(states: seq<System>, acts: seq<Action>, i: nat, e: ExecId)
    requires Behavior(states, acts, false) && i < |states|
    ensures Balanced(states[i], e)
  {
    hide Do, Balanced, Initial;
    if i == 0 {
      InitialBalanced(states[0], e);
    } else {
      LeasesAreReturned(states, acts, i - 1, e);
      assert Moves(states[i - 1], acts[i - 1], states[i - 1 + 1], false);
      SoundAlways(states, acts, false, i - 1);
      BalancedStep(states[i - 1], acts[i - 1], e);
    }
  }

  lemma InitialBalanced(s: System, e: ExecId)
    requires Initial(s)
    ensures Balanced(s, e)
  {
  }

  // ---------------------------------------------------------------- the pool

  /** A run has at most one live execution. */
  ghost predicate OneLive(s: System) {
    forall e, f :: LiveOn(s, e) && LiveOn(s, f) && s.execs[e].run == s.execs[f].run ==> e == f
  }

  predicate LiveOn(s: System, e: ExecId) {
    e in s.execs && Live(s.execs[e])
  }

  /** Every lease that some execution counts on is really in the pool, and the pool is bounded. */
  ghost predicate PoolOk(s: System) {
    && |s.leases| <= SANDBOX_SLOTS
    && forall e, lease :: e in s.execs && Holds(s.execs[e], lease) ==> lease in s.leases
  }

  /** The step gives back the lease. */
  predicate GivesBack(x: Exec, a: Answer, lease: Lease) {
    x.pc.Releasing? && x.lease == Some(lease) && (a.Throws? ==> a.late)
  }

  /** Only an acquisition adds to the pool, within its bound, and only a release takes the execution's own lease away. */
  ghost predicate PoolStep(leases: set<Lease>, x: Exec, a: Answer, f: Effects) {
    && |f.leases| <= SANDBOX_SLOTS
    && (forall lease :: lease in leases ==> (lease !in f.leases <==> GivesBack(x, a, lease)))
    && (forall lease :: Holds(f.x, lease) ==> lease in f.leases)
  }

  lemma MovingPool(d: Durable, leases: set<Lease>, x: Exec, a: Answer, f: Effects)
    requires JustMoves(d, leases, x, f) && !x.pc.Releasing?
    requires |leases| <= SANDBOX_SLOTS && forall lease :: x.lease == Some(lease) ==> lease in leases
    ensures PoolStep(leases, x, a, f)
  {
  }

  lemma AcquirePool(d: Durable, leases: set<Lease>, now: Time, x: Exec, a: Answer)
    requires x.pc.CapacityAcquire?
    requires |leases| <= SANDBOX_SLOTS && forall lease :: Holds(x, lease) ==> lease in leases
    ensures PoolStep(leases, x, a, Act(d, leases, now, x, a))
  {
    assert forall lease :: x.lease == Some(lease) ==> Holds(x, lease);
  }

  lemma RecordPool(d: Durable, leases: set<Lease>, now: Time, x: Exec, a: Answer)
    requires x.pc.CapacityRecord? || x.pc.Releasing?
    requires |leases| <= SANDBOX_SLOTS && forall lease :: Holds(x, lease) ==> lease in leases
    ensures PoolStep(leases, x, a, Act(d, leases, now, x, a))
  {
    hide HasCode;
    assert forall lease :: x.lease == Some(lease) ==> Holds(x, lease);
    assert x.pc.CapacityRecord? ==> Holds(x, Lease(x.run, x.pc.purpose));
    if x.pc.Releasing? && x.lease.Some? {
      Layouts.SubsetSize(leases - {x.lease.value}, leases);
    }
  }

  lemma ActingPool(d: Durable, leases: set<Lease>, now: Time, x: Exec, a: Answer)
    requires x.pc.Claiming? || x.pc.ReadingStart? || x.pc.Completing? || x.pc.FinishCommit? || x.pc.Terminating?
    requires |leases| <= SANDBOX_SLOTS && forall lease :: x.lease == Some(lease) ==> lease in leases
    ensures PoolStep(leases, x, a, Act(d, leases, now, x, a))
  {
    hide Advance;
  }

  lemma WorkPool(d: Durable, leases: set<Lease>, now: Time, x: Exec, a: Answer)
    requires Acting(x.pc) && x.pc.Working?
    requires |leases| <= SANDBOX_SLOTS && forall lease :: Holds(x, lease) ==> lease in leases
    ensures PoolStep(leases, x, a, Act(d, leases, now, x, a))
  {
    hide ValidateSynthesisOutput, Fallback, ValidPlan, ActFetchContext;
  }

  lemma ActPool(d: Durable, leases: set<Lease>, now: Time, x: Exec, a: Answer)
    requires !x.pc.Returned?
    requires |leases| <= SANDBOX_SLOTS && forall lease :: Holds(x, lease) ==> lease in leases
    ensures PoolStep(leases, x, a, Act(d, leases, now, x, a))
  {
    hide Act, PoolStep, JustMoves;
    assert forall lease :: x.lease == Some(lease) ==> Holds(x, lease);
    if !Acting(x.pc) {
      MovingOnly(d, leases, now, x, a);
      MovingPool(d, leases, x, a, Act(d, leases, now, x, a));
    } else if x.pc.Working? {
      WorkPool(d, leases, now, x, a);
    } else if x.pc.CapacityAcquire? {
      AcquirePool(d, leases, now, x, a);
    } else if x.pc.CapacityRecord? || x.pc.Releasing? {
      RecordPool(d, leases, now, x, a);
    } else {
      ActingPool(d, leases, now, x, a);
    }
  }

  lemma OneLiveStep(s: System, act: Action)
    requires Can(s, act, true) && OneLive(s)
    ensures OneLive(Do(s, act))
  {
    hide Act;
    var s' := Do(s, act);
    if act.Step? {
      var x := s.execs[act.exec];
      ActKeeps(s.runs[x.run], s.leases, s.now, x, act.answer);
    }
    assert forall e :: LiveOn(s', e) && !(act.Begin? && e == act.exec) ==> LiveOn(s, e);
  }

  /** A lease belongs to the run of whoever counts on it. */
  lemma HoldsOwn(x: Exec, lease: Lease)
    requires Fits(x) && Holds(x, lease)
    ensures lease.run == x.run && Live(x)
  {
  }

  /** The step gives back a lease that another execution still counts on. */
  ghost predicate TakesAway(s: System, act: Action) {
    && act.Step? && act.exec in s.execs && s.execs[act.exec].lease.Some?
    && GivesBack(s.execs[act.exec], act.answer, s.execs[act.exec].lease.value)
    && exists g :: HeldBy(s, g, s.execs[act.exec].lease.value) && g != act.exec
  }

  ghost predicate HeldBy(s: System, e: ExecId, lease: Lease) {
    e in s.execs && Holds(s.execs[e], lease)
  }

  lemma PoolAfterStep(s: System, e: ExecId, a: Answer)
    requires Can(s, Step(e, a), false) && Sound(s) && PoolOk(s)
    ensures PoolOk(Do(s, Step(e, a))) <==> !TakesAway(s, Step(e, a))
  {
    hide Act, Fits, StepsOk, Holds, GivesBack;
    var x, s' := s.execs[e], Do(s, Step(e, a));
    assert forall lease :: Holds(x, lease) ==> HeldBy(s, e, lease);
    ActPool(s.runs[x.run], s.leases, s.now, x, a);
    if TakesAway(s, Step(e, a)) {
      var g :| HeldBy(s, g, x.lease.value) && g != e;
      assert HeldBy(s', g, x.lease.value);
    } else {
      forall g, lease | g in s'.execs && Holds(s'.execs[g], lease)
        ensures lease in s'.leases
      {
        if g != e {
          assert HeldBy(s, g, lease);
          GivesOwn(x, a, lease);
        }
      }
    }
  }

  lemma GivesOwn(x: Exec, a: Answer, lease: Lease)
    ensures GivesBack(x, a, lease) ==> x.lease == Some(lease)
  {
  }

  /**
   * Exactly when a step keeps the pool right, with overlapping executions of a run allowed: unless it gives back a
   * lease that another execution still counts on.
   */
  lemma PoolStepExactly(s: System, act: Action)
    requires Can(s, act, false) && Sound(s) && PoolOk(s)
    ensures PoolOk(Do(s, act)) <==> !TakesAway(s, act)
  {
    hide Act, Fits, StepsOk, Holds;
    match act {
      case Begin(e, r, claimant, maxSteps, yieldOnWait) =>
        FreshHoldsNothing(r, claimant, maxSteps, yieldOnWait);
      case Step(e, a) =>
        PoolAfterStep(s, e, a);
      case Expire(lease) =>
        Layouts.SubsetSize(s.leases - {lease}, s.leases);
      case _ =>
    }
  }

  /** With one live execution per run nobody's lease is taken away. */
  lemma AloneTakesNothing(s: System, act: Action)
    requires Can(s, act, true) && Sound(s) && OneLive(s)
    ensures !TakesAway(s, act)
  {
    hide Act, Fits, StepsOk, Holds;
    if TakesAway(s, act) {
      var x := s.execs[act.exec];
      var g :| HeldBy(s, g, x.lease.value) && g != act.exec;
      HoldsOwn(s.execs[g], x.lease.value);
      OwnLease(x);
    }
  }

  lemma OwnLease(x: Exec)
    requires Fits(x)
    ensures x.lease.Some? ==> x.lease.value.run == x.run
  {
  }

  lemma FreshHoldsNothing(r: RunId, claimant: nat, maxSteps: Option<nat>, yieldOnWait: bool)
    ensures forall lease :: !Holds(Fresh(r, claimant, maxSteps, yieldOnWait), lease)
  {
  }

  /** No step before `i` takes a lease away from another execution. */
  ghost predicate NothingTaken(states: seq<System>, acts: seq<Action>, i: nat)
    requires |states| == |acts| + 1
  {
    forall j :: 0 <= j < i && j < |acts| ==> !TakesAway(states[j], acts[j])
  }

  /** As long as nobody's lease is taken away the pool is right, overlapping executions included. */
  lemma {:induction false} PoolHolds(states: seq<System>, acts: seq<Action>, i: nat)
    requires Behavior(states, acts, false) && i < |states| && NothingTaken(states, acts, i)
    ensures PoolOk(states[i])
  {
    hide Do, PoolOk, Initial, Can, TakesAway;
    if i == 0 {
      InitialPool(states[0]);
    } else {
      PoolHolds(states, acts, i - 1);
      assert Moves(states[i - 1], acts[i - 1], states[i - 1 + 1], false);
      SoundAlways(states, acts, false, i - 1);
      PoolStepExactly(states[i - 1], acts[i - 1]);
    }
  }

  /** With one live execution per run, and no lease expiring while it is held, the pool is always right. */
  lemma {:induction false} PoolAlways(states: seq<System>, acts: seq<Action>, i: nat)
    requires Behavior(states, acts, true) && i < |states|
    ensures OneLive(states[i]) && PoolOk(states[i])
    ensures NothingTaken(states, acts, i)
  {
    hide Do, OneLive, PoolOk, Initial, Can, TakesAway;
    if i == 0 {
      InitialPool(states[0]);
    } else {
      PoolAlways(states, acts, i - 1);
      assert Moves(states[i - 1], acts[i - 1], states[i - 1 + 1], true);
      SoundAlways(states, acts, true, i - 1);
      OneLiveStep(states[i - 1], acts[i - 1]);
      AloneTakesNothing(states[i - 1], acts[i - 1]);
      WeakerCan(states[i - 1], acts[i - 1]);
      PoolStepExactly(states[i - 1], acts[i - 1]);
    }
  }

  lemma WeakerCan(s: System, act: Action)
    requires Can(s, act, true)
    ensures Can(s, act, false)
  {
  }

  lemma InitialPool(s: System)
    requires Initial(s)
    ensures OneLive(s) && PoolOk(s)
  {
  }

  /** A sandbox command of the run is under way. */
  predicate Inside(s: System, e: ExecId) {
    e in s.execs && s.execs[e].pc.Working? && s.execs[e].pc.work.InSandbox?
  }

  function RunsInside(s: System): set<RunId> {
    set e | e in s.execs && Inside(s, e) :: s.execs[e].run
  }

  lemma {:induction false} LeasedRuns(leases: set<Lease>)
    ensures |set l | l in leases :: l.run| <= |leases|
  {
    if leases == {} {
    } else {
      var x :| x in leases;
      LeasedRuns(leases - {x});
      assert (set l | l in leases :: l.run) == (set l | l in leases - {x} :: l.run) + {x.run};
    }
  }

  /** Whoever is inside a sandbox command holds a lease of its own run. */
  lemma InsideHolds(x: Exec)
    requires Fits(x) && x.pc.Working? && x.pc.work.InSandbox?
    ensures x.lease.Some? && x.lease.value.run == x.run && Holds(x, x.lease.value)
  {
  }

  /** Two runs at most, whenever the pool is right. */
  lemma PoolBoundsRuns(s: System)
    requires Sound(s) && PoolOk(s)
    ensures forall e :: Inside(s, e) ==> s.execs[e].lease.Some? && s.execs[e].lease.value in s.leases
    ensures |RunsInside(s)| <= SANDBOX_SLOTS
  {
    hide Fits, Holds, StepsOk;
    forall e | Inside(s, e)
      ensures s.execs[e].lease.Some? && s.execs[e].lease.value in s.leases && s.execs[e].lease.value.run == s.execs[e].run
    {
      InsideHolds(s.execs[e]);
    }
    var leased := set l | l in s.leases :: l.run;
    forall r | r in RunsInside(s)
      ensures r in leased
    {
      var e :| e in s.execs && Inside(s, e) && s.execs[e].run == r;
      assert s.execs[e].lease.value in s.leases;
    }
    Layouts.SubsetSize(RunsInside(s), leased);
    LeasedRuns(s.leases);
  }

  /**
   * In every interleaving of any number of runs, with crashes, yields and cancellations, one live execution of each
   * run at a time and no lease expiring while it is held: a sandbox command is only ever under way for a run whose
   * lease is in the pool, so at most two runs are inside one at the same time.
   */
  lemma AtMostTwoRunsInside(states: seq<System>, acts: seq<Action>, i: nat)
    requires Behavior(states, acts, true) && i < |states|
    ensures forall e :: Inside(states[i], e) ==>
                          states[i].execs[e].lease.Some? && states[i].execs[e].lease.value in states[i].leases
    ensures |RunsInside(states[i])| <= SANDBOX_SLOTS
  {
    hide Do, Initial, Can, Sound, PoolOk, OneLive;
    PoolAlways(states, acts, i);
    SoundAlways(states, acts, true, i);
    PoolBoundsRuns(states[i]);
  }

  /**
   * The same with overlapping executions of a run, as long as none of them gives back a lease that another one still
   * counts on. `Overlaps` shows that without this the bound fails.
   */
  lemma AtMostTwoRunsUnlessTaken(states: seq<System>, acts: seq<Action>, i: nat)
    requires Behavior(states, acts, false) && i < |states| && NothingTaken(states, acts, i)
    ensures forall e :: Inside(states[i], e) ==>
                          states[i].execs[e].lease.Some? && states[i].execs[e].lease.value in states[i].leases
    ensures |RunsInside(states[i])| <= SANDBOX_SLOTS
  {
    hide Do, Initial, Can, Sound, PoolOk, TakesAway;
    PoolHolds(states, acts, i);
    SoundAlways(states, acts, false, i);
    PoolBoundsRuns(states[i]);
  }
}
