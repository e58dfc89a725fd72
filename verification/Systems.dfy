/** Many runs and executions over one store, one clock and one pool of leases, with crashes and cancellations. */
module Systems {
  import opened RunStatuses
  import opened WorkflowTypes
  import opened Machine

  type ExecId = nat

  datatype Entry = Entry(run: RunId, exec: ExecId, event: Event)

  /**
   * `log` is the history of events; `broken` counts for each run how often an execution of it crashed or was left by
   * an error of the store.
   */
  datatype System = System(
    runs: map<RunId, Durable>,
    leases: set<Lease>,
    now: Time,
    execs: map<ExecId, Exec>,
    log: seq<Entry>,
    broken: multiset<RunId>)

  datatype Action =
    | Begin(exec: ExecId, run: RunId, claimant: nat, maxSteps: Option<nat>, yieldOnWait: bool)
    | Step(exec: ExecId, answer: Answer)
    | Crash(exec: ExecId)
    | Cancel(run: RunId)
    | Supersede(run: RunId)
    | Tick(ms: nat)
    | Expire(lease: Lease)

  predicate Live(x: Exec) {
    !x.pc.Returned?
  }

  /** The lease is the execution's own, or was granted to it a moment ago. */
  predicate Holds(x: Exec, lease: Lease) {
    Live(x) && (x.lease == Some(lease) || (x.pc.CapacityRecord? && Lease(x.run, x.pc.purpose) == lease))
  }

  function Fresh(run: RunId, claimant: nat, maxSteps: Option<nat>, yieldOnWait: bool): Exec {
    Exec(run, claimant, maxSteps, yieldOnWait, Claiming, AtStart, None, 0, 0, 0)
  }

  ghost predicate NewRun(d: Durable) {
    && d.status.Queued? && !d.cancelRequested && d.claimedBy.None? && d.startedAt.None?
    && d.steps == map[] && d.marks == {} && d.reserved == {} && d.response.None?
  }

  ghost predicate Initial(s: System) {
    && s.leases == {} && s.execs == map[] && s.log == [] && s.broken == multiset{}
    && forall r :: r in s.runs ==> NewRun(s.runs[r])
  }

  /** No live execution works on the run. */
  ghost predicate Idle(s: System, run: RunId) {
    forall e :: e in s.execs && Live(s.execs[e]) ==> s.execs[e].run != run
  }

  /** Execution ids are not used twice. */
  ghost predicate Unlogged(log: seq<Entry>, e: ExecId) {
    forall i :: 0 <= i < |log| ==> log[i].exec != e
  }

  /** `exclusive` is the discipline that an execution of a run begins only when no other one is live. */
  ghost predicate Can(s: System, act: Action, exclusive: bool) {
    match act
    case Begin(e, r, _, _, _) => e !in s.execs && Unlogged(s.log, e) && r in s.runs && (exclusive ==> Idle(s, r))
    case Step(e, _) => e in s.execs && Live(s.execs[e]) && s.execs[e].run in s.runs
    case Crash(e) => e in s.execs && Live(s.execs[e])
    case Cancel(r) => r in s.runs
    case Supersede(r) => r in s.runs
    case Tick(_) => true
    case Expire(lease) => forall e :: e in s.execs ==> !Holds(s.execs[e], lease)
  }

  function CancelRun(d: Durable): Durable {
    if IsTerminal(d.status) then d else d.(status := Cancelling, cancelRequested := true, active := false)
  }

  ghost function StepEffects(s: System, e: ExecId, a: Answer): Effects
    requires e in s.execs && s.execs[e].run in s.runs
  {
    Act(s.runs[s.execs[e].run], s.leases, s.now, s.execs[e], a)
  }

  ghost function Do(s: System, act: Action): System
    requires Can(s, act, false)
  {
    match act
    case Begin(e, r, claimant, maxSteps, yieldOnWait) =>
      s.(execs := s.execs[e := Fresh(r, claimant, maxSteps, yieldOnWait)])
    case Step(e, a) =>
      var r, f := s.execs[e].run, StepEffects(s, e, a);
      System(s.runs[r := f.d], f.leases, s.now, s.execs[e := f.x], s.log + [Entry(r, e, f.event)],
             if f.x.pc == Returned(Thrown) then s.broken + multiset{r} else s.broken)
    case Crash(e) => s.(execs := s.execs - {e}, broken := s.broken + multiset{s.execs[e].run})
    case Cancel(r) => s.(runs := s.runs[r := CancelRun(s.runs[r])])
    case Supersede(r) => s.(runs := s.runs[r := s.runs[r].(active := false)])
    case Tick(ms) => s.(now := s.now + ms)
    case Expire(lease) => s.(leases := s.leases - {lease})
  }

  /** A finite run of the system. */
  ghost predicate Behavior(states: seq<System>, acts: seq<Action>, exclusive: bool) {
    && |states| == |acts| + 1
    && Initial(states[0])
    && forall i :: 0 <= i < |acts| ==> Moves(states[i], acts[i], states[i + 1], exclusive)
  }

  ghost predicate Moves(s: System, act: Action, s': System, exclusive: bool) {
    Can(s, act, exclusive) && s' == Do(s, act)
  }
}
