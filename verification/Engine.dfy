/**
 * The bounded workflow engine as a class. Its methods are the source's, port call by port call; the ghost execution
 * `x` moves with them, and every call of `Execute` is shown to be a history of the machine.
 */
module Engine {
  import opened RunStatuses
  import opened WorkflowTypes
  import opened EditSafety
  import opened Machine
  import opened Frames
  import opened Systems
  import opened Ports
  import opened Histories

  datatype Result<+T> = Ok(value: T) | Err(error: Error)

  function Sent<T>(r: Reply<T>): Answer {
    match r
    case Got(_) => Done
    case Lost(fault) => Throws(fault, false)
  }

  /** Where a passed check leads. */
  function Past(pc: Pc): Pc {
    match pc
    case Deadline(k) => Active(k)
    case Working(k, CallDeadline(c)) => Working(k, CallActive(c))
    case Active(k) => Lookup(k)
    case Working(k, CallActive(c)) => Working(k, CallReserve(c))
    case Rechecking(k, v) => Completing(k, v)
    case CapacityActive(purpose) => CapacityAcquire(purpose)
    case FinishActive(answer, status) => FinishPut(answer, status)
    case _ => pc
  }

  /** Where a look-up that finds nothing leads; a lease is acquired at most once. */
  function Missed(pc: Pc, p: Point, k: StepKey, leased: bool): Move {
    if pc.Lookup? then Move(p, Starting(k))
    else if k.ProfileStep? then Move(p, CapacityBegin(ForProfile))
    else if leased then EnterAnalysis(p)
    else Move(p, CapacityBegin(ForAnalysis))
  }

  /** A synthesis repair is due: the answer is neither too large nor acceptable. */
  ghost predicate Repairable(p: Point, raw: Raw)
    requires p.HasAnalysis?
  {
    !raw.Oversized? && !Acceptable(p.ctx, p.plan, raw)
  }

  /**
   * What becomes of the provider's answers: the first acceptable one is the result, as it is; there is a second one
   * only if the first needed repair; and only if neither is acceptable is a planned edit answered with the original.
   */
  ghost predicate Chosen(p: Point, r: Result<Value>, answers: seq<Raw>)
    requires p.HasAnalysis?
  {
    && |answers| <= 2
    && (answers == [] ==> r.Err?)
    && (|answers| == 2 ==> Repairable(p, answers[0]))
    && (answers != [] && Acceptable(p.ctx, p.plan, answers[|answers| - 1]) ==>
          r == Ok(ResponseV(answers[|answers| - 1].response)))
    && (|answers| == 1 && !Acceptable(p.ctx, p.plan, answers[0]) ==> r.Err?)
    && (|answers| == 2 && Repairable(p, answers[1]) ==>
          if p.plan.responseType.ModificationType? && p.ctx.existingDashboard.Some? && p.ctx.editTarget.Some? then
            r == Ok(ResponseV(ChartModification(PRESERVED_CONTENT, p.ctx.existingDashboard.value, Some(PRESERVED_NOTE))))
          else r == Err(Failure(Fault(MODEL_OUTPUT_INVALID, false, None))))
    && (answers != [] && answers[|answers| - 1].Oversized? ==> r == Err(Failure(Fault(MODEL_OUTPUT_INVALID, false, None))))
  }

  /** Only a refusal that may be repeated is waited out; any other error ends the wait. */
  function Caught(purpose: Purpose, fault: Fault): Pc {
    if fault.retryable && fault.code == CAPACITY_BUSY then CapacityBusy(purpose, fault) else Handling(Failure(fault))
  }

  /** The store has the value as the result of the step. */
  predicate Has(d: Durable, k: StepKey, v: Value) {
    k in d.steps && d.steps[k] == v
  }

  predicate MayGoOn(d: Durable) {
    !d.cancelRequested && !d.status.Cancelling? && !IsTerminal(d.status)
  }

  /** The analysis that is stored is the result of the last execution. */
  predicate Stores(p: Point, k: StepKey, v: Value) {
    k.AnalysisStep? && (p.HasInitial? || p.HasExecution?) && p.execution.result.Some? ==>
      v == ArtifactV(p.execution.result.value)
  }

  ghost predicate Reached(p: Point, k: StepKey, q: Point) {
    exists v :: Advance(p, k, v) == Some(q)
  }

  predicate DeadlineNext(pc: Pc) {
    pc.Deadline? || (pc.Working? && pc.work.CallDeadline?)
  }

  predicate Guarded(pc: Pc) {
    pc.Active? || pc.Rechecking? || pc.CapacityActive? || pc.FinishActive? || (pc.Working? && pc.work.CallActive?)
  }

  class Workflow {
    const ports: Ports
    var startedAt: Time
    var sandboxCommands: nat
    var completedSteps: nat
    var maxCompletedSteps: Option<nat>
    var yieldOnCapacityWait: bool
    /** The lease that the `finally` block releases. */
    var capacity: Option<Lease>
    ghost var x: Exec
    ghost var start: Moment
    ghost var history: seq<Moment>

    /** The history is the machine's and leads to the present. */
    ghost predicate Told()
      reads this, ports
    {
      history != [] && history[0] == start && Lawful(history) && history[|history| - 1] == Moment(ports.world, x)
    }

    /** The fields are those of the ghost execution. */
    ghost predicate Linked()
      reads this
    {
      && x.run == ports.run
      && x.maxSteps == maxCompletedSteps && x.yieldOnWait == yieldOnCapacityWait
      && x.commands == sandboxCommands && x.completed == completedSteps
      && (!x.pc.Claiming? && !x.pc.ReadingStart? ==> x.startedAt == startedAt)
      && x.lease == capacity
    }

    ghost predicate Valid()
      reads this, ports
    {
      Told() && Linked()
    }

    ghost predicate Is(p: Point, pc: Pc)
      reads this
    {
      x.point == p && x.pc == pc
    }

    constructor (ports: Ports)
      ensures this.ports == ports
    {
      this.ports := ports;
      startedAt, sandboxCommands, completedSteps := 0, 0, 0;
      maxCompletedSteps, yieldOnCapacityWait, capacity := None, false, None;
    }

    /** The machine takes the step that the code just took. */
    ghost method Note(a: Answer)
      requires history != [] && history[0] == start && Lawful(history) && history[|history| - 1].x == x
      requires !x.pc.Returned? && MayAnswer(x, a) && ports.world == Next(history[|history| - 1], a).w
      modifies `history, `x
      ensures old(history) <= history
      ensures Told() && x == Next(old(history[|history| - 1]), a).x && SameExec(old(x), x)
    {
      hide Act, Lawful;
      var m := history[|history| - 1];
      ActKeeps(m.w.d, m.w.leases, m.w.now, m.x, a);
      LawfulExtends(history, Next(m, a));
      x := Next(m, a).x;
      history := history + [Next(m, a)];
    }

    /** The step just taken was a port call: before its reply arrives, everybody else may act. */
    method Await(ghost a: Answer)
      requires history != [] && history[0] == start && Lawful(history) && history[|history| - 1].x == x
      requires !x.pc.Returned? && MayAnswer(x, a) && ports.world == Next(history[|history| - 1], a).w
      modifies `history, `x, ports`world
      ensures old(history) <= history
      ensures Told() && x == Next(old(history[|history| - 1]), a).x && SameExec(old(x), x)
      ensures Rely(old(ports.world), ports.world)
    {
      hide Act, Lawful, Next, Rely;
      Note(a);
      ports.Others();
      LawfulExtends(history, Moment(ports.world, x));
      history := history + [Moment(ports.world, x)];
    }

    method Slumber(ms: nat)
      requires Valid()
      modifies `history, ports
      ensures old(history) <= history
      ensures Valid() && ports.world.now >= old(ports.world.now) + ms
      ensures ports.slept == old(ports.slept) + [ms]
    {
      hide Lawful, Rely;
      ports.Sleep(ms);
      LawfulExtends(history, Moment(ports.world, x));
      history := history + [Moment(ports.world, x)];
    }

    method AssertDeadline() returns (fault: Option<Fault>)
      requires Valid() && DeadlineNext(x.pc)
      modifies `history, `x
      ensures old(history) <= history
      ensures Valid() && x == if fault.Some? then Raise(old(x), fault.value) else To(old(x), Past(old(x).pc))
      ensures fault.Some? <==> ports.world.now - startedAt >= WORKFLOW_DEADLINE_MS
      ensures fault.Some? ==> fault.value.code == WORKFLOW_DEADLINE_EXCEEDED
    {
      hide Lawful;
      Note(Done);
      if ports.world.now - startedAt >= WORKFLOW_DEADLINE_MS {
        return Some(Fault(WORKFLOW_DEADLINE_EXCEEDED, true, None));
      }
      return None;
    }

    method EnsureActive() returns (fault: Option<Fault>)
      requires Valid() && Guarded(x.pc)
      modifies `history, `x, ports`world
      ensures old(history) <= history
      ensures Valid() && x == if fault.Some? then Raise(old(x), fault.value) else To(old(x), Past(old(x).pc))
      ensures Rely(old(ports.world), ports.world)
      ensures fault.None? ==> MayGoOn(old(ports.world.d))
    {
      hide Lawful;
      var aborted := ports.Aborted();
      if aborted.Some? {
        Note(Throws(aborted.value, false));
        return aborted;
      }
      var r := ports.GetRun();
      Await(Sent(r));
      match r
      case Lost(lost) =>
        return Some(lost);
      case Got(run) =>
        if run.cancelRequested || run.status.Cancelling? || IsTerminal(run.status) {
          return Some(Fatal(CANCELLED));
        }
        return None;
    }
 
    /** One provider call, with the retries its operation allows; a repair is told which answer was rejected. */
    method ProviderCall(k: StepKey, p: Point, op: Op, rejected: Raw) returns (r: Result<Raw>)
      requires Valid() && Is(p, Working(k, CallDeadline(Call(op, 1, rejected))))
      modifies `history, `x, ports
      ensures old(history) <= history
      ensures Valid()
      ensures r.Ok? ==> Move(x.point, x.pc) == Deliver(p, k, Call(op, 1, rejected), r.value)
      ensures r.Err? ==> Is(p, Handling(r.error))
    {
      hide Lawful, Deliver, Act, Next, Told, Linked, Valid, AfterFailedAttempt;
      var attempt := 1;
      while true
        invariant old(history) <= history
        invariant Valid() && 1 <= attempt <= MaxAttempts(op) && Is(p, Working(k, CallDeadline(Call(op, attempt, rejected))))
        decreases MaxAttempts(op) - attempt
      {
        var answer, again := OneAttempt(k, p, Call(op, attempt, rejected));
        match answer {
          case Got(raw) =>
            DeliverIgnoresAttempt(p, k, Call(op, attempt, rejected), raw);
            return Ok(raw);
          case Lost(fault) =>
            if !again {
              return Err(Failure(fault));
            }
        }
        attempt := attempt + 1;
      }
    }

    /** One turn of the retry loop; `again` if the loop goes on after the delay. */
    method OneAttempt(k: StepKey, p: Point, call: Call) returns (r: Reply<Raw>, again: bool)
      requires Valid() && Is(p, Working(k, CallDeadline(call)))
      modifies `history, `x, ports
      ensures old(history) <= history
      ensures Valid()
      ensures again ==> call.attempt < MaxAttempts(call.op)
      ensures r.Got? ==> Move(x.point, x.pc) == Deliver(p, k, call, r.value)
      ensures r.Lost? ==>
                Is(p, if again then Working(k, CallDeadline(call.(attempt := call.attempt + 1))) else Handling(Failure(r.fault)))
    {
      hide Lawful, Deliver, Act, Next, Told, Linked, Valid, AfterFailedAttempt;
      again := false;
      var late := AssertDeadline();
      if late.Some? {
        return Lost(late.value), false;
      }
      var stopped := EnsureActive();
      if stopped.Some? {
        return Lost(stopped.value), false;
      }
      var failedAt;
      r, failedAt := ReserveAndAsk(k, p, call);
      if r.Lost? {
        again := BackOff(k, p, call, r.fault, failedAt);
      }
    }

    /** After a failed attempt: sleep if it may be repeated. */
    method BackOff(k: StepKey, p: Point, call: Call, fault: Fault, ghost failedAt: Time) returns (again: bool)
      requires Valid() && failedAt <= ports.world.now
      requires Move(x.point, x.pc) == AfterFailedAttempt(failedAt, p, k, call, fault)
      modifies `history, `x, ports
      ensures old(history) <= history
      ensures Valid()
      ensures again <==> fault.retryable && call.attempt < MaxAttempts(call.op)
      ensures again ==>
                && |ports.slept| == |old(ports.slept)| + 1 && old(ports.slept) <= ports.slept
                && IsRetryDelay(ports.slept[|old(ports.slept)|], fault, call.attempt)
      ensures !again ==> ports.slept == old(ports.slept)
      ensures Is(p, if again then Working(k, CallDeadline(call.(attempt := call.attempt + 1))) else Handling(Failure(fault)))
    {
      hide Lawful, Act, Next, Told, Linked, Valid;
      if !fault.retryable || call.attempt >= MaxAttempts(call.op) {
        return false;
      }
      var fallback := if call.attempt <= 1 then 2_000 else 8_000;
      Slumber(Min(if fault.retryAfter.Some? then fault.retryAfter.value else fallback, MAX_RETRY_DELAY_MS));
      Wake(k);
      return true;
    }

    lemma DeliverIgnoresAttempt(p: Point, k: StepKey, c: Call, raw: Raw)
      ensures Deliver(p, k, c, raw) == Deliver(p, k, c.(attempt := 1), raw)
    {
      hide ValidateSynthesisOutput, Fallback, ValidPlan;
    }

    /** Writes the reservation ahead; nothing is lost only if this very call created it. */
    method Reserve(k: StepKey, p: Point, call: Call) returns (lost: Option<Fault>)
      requires Valid() && Is(p, Working(k, CallReserve(call)))
      modifies `history, `x, ports
      ensures old(history) <= history
      ensures Valid() && ports.world.now >= old(ports.world.now)
      ensures lost.None? ==>
                && KeyOf(call) !in old(ports.world.d.reserved) && KeyOf(call) in ports.world.d.reserved
                && Is(p, Working(k, CallInvoke(call)))
      ensures lost.Some? ==> Move(x.point, x.pc) == AfterFailedAttempt(old(ports.world.now), p, k, call, lost.value)
    {
      hide Lawful, AfterFailedAttempt;
      ghost var before := ports.world;
      var reserved := ports.ReserveProviderCall(KeyOf(call));
      match reserved
      case Lost(fault) =>
        Await(Throws(fault, ports.world != before));
        return Some(fault);
      case Got(created) =>
        Await(Done);
        return if created then None else Some(Fatal(PROVIDER_CALL_OUTCOME_UNKNOWN));
    }

    /** The operation is invoked only behind a reservation of its own. */
    method ReserveAndAsk(k: StepKey, p: Point, call: Call) returns (r: Reply<Raw>, failedAt: Time)
      requires Valid() && Is(p, Working(k, CallReserve(call)))
      modifies `history, `x, ports
      ensures old(history) <= history
      ensures Valid()
      ensures r.Got? ==> Move(x.point, x.pc) == Deliver(p, k, call, r.value)
      ensures r.Lost? ==> failedAt <= ports.world.now && Move(x.point, x.pc) == AfterFailedAttempt(failedAt, p, k, call, r.fault)
      ensures r.Got? ==> KeyOf(call) !in old(ports.world.d.reserved) && KeyOf(call) in ports.world.d.reserved
    {
      hide Lawful, Deliver, AfterFailedAttempt, Act, Next, Told, Linked, Valid;
      failedAt := ports.world.now;
      var lost := Reserve(k, p, call);
      if lost.Some? {
        return Lost(lost.value), failedAt;
      }
      failedAt := ports.world.now;
      r := Ask(k, p, call);
    }

    method Ask(k: StepKey, p: Point, call: Call) returns (r: Reply<Raw>)
      requires Valid() && Is(p, Working(k, CallInvoke(call)))
      modifies `history, `x, ports
      ensures old(history) <= history
      ensures Valid() && Rely(old(ports.world), ports.world)
      ensures r.Got? ==> Move(x.point, x.pc) == Deliver(p, k, call, r.value)
      ensures r.Lost? ==> Move(x.point, x.pc) == AfterFailedAttempt(old(ports.world.now), p, k, call, r.fault)
    {
      hide Lawful, Deliver, AfterFailedAttempt;
      r := ports.AskProvider(p, call);
      match r
      case Got(raw) =>
        Await(Says(raw));
      case Lost(fault) =>
        Await(Throws(fault, false));
    }

    /** A sleep between two attempts is over. */
    ghost method Wake(k: StepKey)
      requires Valid() && x.pc.Working? && x.pc.key == k && x.pc.work.CallSleep? && x.pc.work.wake <= ports.world.now
      modifies `history, `x
      ensures old(history) <= history
      ensures Valid() && x == To(old(x), Working(k, CallDeadline(old(x.pc.work.call))))
    {
      hide Lawful;
      Note(Done);
    }

    /** The capacity loop: acquire a lease, or back off by sleeping or by yielding to the durable driver. */
    method AcquireCapacity(purpose: Purpose, p: Point) returns (r: Result<()>)
      requires Valid() && Is(p, CapacityBegin(purpose)) && capacity.None?
      modifies `history, `x, `capacity, ports
      ensures old(history) <= history
      ensures Valid()
      ensures r.Ok? ==> capacity == Some(Lease(ports.run, purpose))
      ensures r.Ok? ==>
                Move(x.point, x.pc) == if purpose.ForProfile? then Move(p, Deadline(ProfileStep)) else EnterAnalysis(p)
      ensures r.Err? ==> capacity.None? && Is(p, Handling(r.error))
    {
      hide Lawful, Act, Next, EnterAnalysis, Told;
      var begun := BeginCapacity(purpose, p);
      if begun.Lost? {
        return Err(Failure(begun.fault));
      }
      while ports.world.now - startedAt < CAPACITY_WAIT_MS
        invariant old(history) <= history
        invariant Valid() && Is(p, CapacityAcquire(purpose)) && capacity.None?
        decreases CAPACITY_WAIT_MS - (ports.world.now - startedAt)
      {
        var caught := TryLease(purpose, p);
        if caught.None? {
          return Ok(());
        }
        var fault := caught.value;
        if !fault.retryable || fault.code != CAPACITY_BUSY {
          return Err(Failure(fault));
        }
        var ended := WaitForCapacity(purpose, p, fault);
        if ended.Some? {
          return Err(ended.value);
        }
      }
      NoteTimeout();
      return Err(Failure(CAPACITY_FAULT));
    }

    /** The back-off after a refusal; it ends the loop when the time is over, on a yield, or when the run is not active. */
    method WaitForCapacity(purpose: Purpose, p: Point, fault: Fault) returns (ended: Option<Error>)
      requires Valid() && Is(p, CapacityBusy(purpose, fault)) && fault.code == CAPACITY_BUSY && Patient(fault)
      modifies `history, `x, ports
      ensures old(history) <= history
      ensures Valid() && ports.world.now >= old(ports.world.now)
      ensures ended.Some? ==> Is(p, Handling(ended.value))
      ensures ended.None? ==> Is(p, CapacityAcquire(purpose)) && ports.world.now > old(ports.world.now)
      ensures var remaining := CAPACITY_WAIT_MS - (old(ports.world.now) - startedAt);
              if remaining <= 0 then ended.Some? && ended.value.Failure? && ports.slept == old(ports.slept)
              else if yieldOnCapacityWait then
                && ended.Some? && ended.value.Yield? && ports.slept == old(ports.slept)
                && WaitsAsAsked(ended.value.retryAfter, Asked(fault), remaining)
              else
                && |ports.slept| == |old(ports.slept)| + 1 && old(ports.slept) <= ports.slept
                && WaitsAsAsked(ports.slept[|old(ports.slept)|], Asked(fault), remaining)
    {
      hide Lawful, Act, Next, Told;
      var remaining := CAPACITY_WAIT_MS - (ports.world.now - startedAt);
      NoteWait();
      if remaining <= 0 {
        return Some(Failure(CAPACITY_FAULT));
      }
      var delay := Min(if fault.retryAfter.Some? then fault.retryAfter.value else CAPACITY_BACKOFF_MS, remaining);
      if yieldOnCapacityWait {
        return Some(Yield(delay));
      }
      Slumber(delay);
      NoteWait();
      var stopped := EnsureActive();
      return if stopped.Some? then Some(Failure(stopped.value)) else None;
    }

    method BeginCapacity(purpose: Purpose, p: Point) returns (r: Reply<()>)
      requires Valid() && Is(p, CapacityBegin(purpose))
      modifies `history, `x, ports
      ensures old(history) <= history
      ensures Valid() && Is(p, if r.Lost? then Handling(Failure(r.fault)) else CapacityAcquire(purpose))
    {
      hide Lawful;
      r := ports.Call();
      Await(Sent(r));
    }

    /** One turn of the loop: a granted lease counts once it is recorded. */
    method TryLease(purpose: Purpose, p: Point) returns (caught: Option<Fault>)
      requires Valid() && Is(p, CapacityAcquire(purpose)) && capacity.None?
      requires ports.world.now - startedAt < CAPACITY_WAIT_MS
      modifies `history, `x, `capacity, ports
      ensures old(history) <= history
      ensures Valid() && ports.world.now >= old(ports.world.now)
      ensures caught.None? ==> capacity == Some(Lease(ports.run, purpose))
      ensures caught.None? ==>
                Move(x.point, x.pc) == if purpose.ForProfile? then Move(p, Deadline(ProfileStep)) else EnterAnalysis(p)
      ensures caught.Some? ==>
                && capacity.None? && Patient(caught.value)
                && Is(p, Caught(purpose, caught.value))
    {
      hide Lawful, Act, Next, EnterAnalysis, Told, Linked, Valid, Patient;
      caught := AskForLease(purpose, p);
      if caught.None? {
        caught := RecordLease(purpose, p);
      }
    }

    method AskForLease(purpose: Purpose, p: Point) returns (caught: Option<Fault>)
      requires Valid() && Is(p, CapacityAcquire(purpose))
      requires ports.world.now - startedAt < CAPACITY_WAIT_MS
      modifies `history, `x, ports
      ensures old(history) <= history
      ensures Valid() && ports.world.now >= old(ports.world.now) && x.point == p
      ensures x.pc == if caught.None? then CapacityRecord(purpose) else Caught(purpose, caught.value)
      ensures caught.Some? ==> Patient(caught.value)
    {
      hide Lawful;
      ghost var before := ports.world;
      var granted := ports.AcquireLease(Lease(ports.run, purpose));
      match granted
      case Lost(fault) =>
        Await(Throws(fault, ports.world != before));
        return Some(fault);
      case Got(_) =>
        Await(Done);
        return None;
    }

    method RecordLease(purpose: Purpose, p: Point) returns (caught: Option<Fault>)
      requires Valid() && Is(p, CapacityRecord(purpose)) && capacity.None?
      modifies `history, `x, `capacity, ports
      ensures old(history) <= history
      ensures Valid() && ports.world.now >= old(ports.world.now)
      ensures caught.None? ==> capacity == Some(Lease(ports.run, purpose))
      ensures caught.None? ==>
                Move(x.point, x.pc) == if purpose.ForProfile? then Move(p, Deadline(ProfileStep)) else EnterAnalysis(p)
      ensures caught.Some? ==>
                && capacity.None? && Patient(caught.value)
                && Is(p, Caught(purpose, caught.value))
    {
      hide Lawful, EnterAnalysis;
      ghost var before := ports.world;
      var recorded := ports.CompleteCapacity(purpose);
      match recorded
      case Lost(fault) =>
        Await(Throws(fault, ports.world != before));
        return Some(fault);
      case Got(_) =>
        Await(Done);
        capacity := Some(Lease(ports.run, purpose));
        return None;
    }

    ghost method NoteWait()
      requires Valid() && (x.pc.CapacityBusy? || (x.pc.CapacitySleep? && x.pc.wake <= ports.world.now))
      modifies `history, `x
      ensures old(history) <= history
      ensures Valid()
      ensures x == if old(x).pc.CapacityBusy? then ActCapacityBusy(ports.world.now, old(x), old(x).pc.purpose, old(x).pc.busy)
                   else To(old(x), CapacityActive(old(x).pc.purpose))
    {
      hide Lawful;
      Note(Done);
    }

    ghost method NoteTimeout()
      requires Valid() && x.pc.CapacityAcquire? && ports.world.now - x.startedAt >= CAPACITY_WAIT_MS
      modifies `history, `x
      ensures old(history) <= history
      ensures Valid() && x == Raise(old(x), CAPACITY_FAULT)
    {
      hide Lawful;
      Note(Done);
    }
 
    method CountSandboxCommand(k: StepKey, p: Point) returns (fault: Option<Fault>)
      requires Valid() && Is(p, Working(k, CountCommand))
      modifies `history, `x, `sandboxCommands
      ensures old(history) <= history
      ensures Valid() && sandboxCommands == old(sandboxCommands) + 1
      ensures Is(p, if fault.Some? then Handling(Failure(fault.value)) else Working(k, InSandbox))
      ensures fault.Some? <==> sandboxCommands > MAX_SANDBOX_COMMANDS
    {
      hide Lawful;
      sandboxCommands := sandboxCommands + 1;
      Note(Done);
      if sandboxCommands > MAX_SANDBOX_COMMANDS {
        return Some(Fatal(SANDBOX_COMMAND_BUDGET_EXCEEDED));
      }
      return None;
    }

    method ValidatedContext(p: Point) returns (r: Result<Value>)
      requires Valid() && Is(p, Working(ContextStep, FetchContext))
      modifies `history, `x, ports
      ensures old(history) <= history
      ensures Valid() && Is(p, if r.Ok? then Rechecking(ContextStep, r.value) else Handling(r.error))
    {
      hide Lawful, ValidateContext;
      var fetched := ports.GetContext();
      match fetched
      case Lost(fault) =>
        Await(Throws(fault, false));
        return Err(Failure(fault));
      case Got(v) =>
        Await(Gives(v));
        if !v.ContextV? {
          return Err(Failure(Fatal(INVALID_CONTEXT)));
        }
        var invalid := ValidateContext(v.context);
        if invalid.Some? {
          return Err(Failure(invalid.value));
        }
        return Ok(v);
    }

    method StoreArtifact(k: StepKey, p: Point, doc: Doc) returns (r: Result<Value>)
      requires Valid() && Is(p, Working(k, PutArtifact(doc)))
      modifies `history, `x, ports
      ensures old(history) <= history
      ensures Valid() && Is(p, if r.Ok? then Rechecking(k, r.value) else Handling(r.error))
      ensures r.Ok? ==> r.value == ArtifactV(doc)
    {
      hide Lawful;
      var put := ports.Call();
      match put
      case Lost(fault) =>
        Await(Throws(fault, false));
        return Err(Failure(fault));
      case Got(_) =>
        Await(Done);
        return Ok(ArtifactV(doc));
    }

    /** Profiles the datasets and stores the profile. */
    method Profiled(p: Point) returns (r: Result<Value>)
      requires Valid() && Is(p, Working(ProfileStep, CountCommand))
      modifies `history, `x, `sandboxCommands, ports
      ensures old(history) <= history
      ensures Valid() && Is(p, if r.Ok? then Rechecking(ProfileStep, r.value) else Handling(r.error))
    {
      hide Lawful, Act, Next, Told, Linked, Valid;
      var exceeded := CountSandboxCommand(ProfileStep, p);
      if exceeded.Some? {
        return Err(Failure(exceeded.value));
      }
      var made := InTheSandbox(ProfileStep, p);
      if made.Lost? {
        return Err(Failure(made.fault));
      }
      if !made.value.ArtifactV? {
        return Err(Failure(Fatal(INTERNAL_ERROR)));
      }
      var doc := made.value.doc;
      if |doc| > MAX_PROFILE_BYTES {
        return Err(Failure(Fatal(PROFILE_TOO_LARGE)));
      }
      r := StoreArtifact(ProfileStep, p, doc);
    }

    method InTheSandbox(k: StepKey, p: Point) returns (r: Reply<Value>)
      requires Valid() && Is(p, Working(k, InSandbox))
      modifies `history, `x, ports
      ensures old(history) <= history
      ensures Valid()
      ensures Move(x.point, x.pc) == ActSandbox(p, k, if r.Lost? then Throws(r.fault, false) else Gives(r.value))
    {
      hide Lawful, ActSandbox;
      r := ports.RunSandbox(p, k);
      match r
      case Lost(fault) =>
        Await(Throws(fault, false));
      case Got(v) =>
        Await(Gives(v));
    }

    /** Runs the planned, or the repaired, code. */
    method ExecuteSandboxCode(k: StepKey, p: Point) returns (r: Result<Value>)
      requires Valid() && !k.ProfileStep? && Is(p, Working(k, CountCommand))
      modifies `history, `x, `sandboxCommands, ports
      ensures old(history) <= history
      ensures Valid() && Is(p, if r.Ok? then Rechecking(k, r.value) else Handling(r.error))
    {
      hide Lawful, Act, Next, Told, Linked, Valid;
      var exceeded := CountSandboxCommand(k, p);
      if exceeded.Some? {
        return Err(Failure(exceeded.value));
      }
      var made := InTheSandbox(k, p);
      if made.Lost? {
        return Err(Failure(made.fault));
      }
      if !made.value.ExecutionV? {
        return Err(Failure(Fatal(INTERNAL_ERROR)));
      }
      return Ok(made.value);
    }

    method Routed(p: Point) returns (r: Result<Value>)
      requires Valid() && Is(p, Working(RouteStep, CallDeadline(Call(Route, 1, Garbage))))
      modifies `history, `x, ports
      ensures old(history) <= history
      ensures Valid() && Is(p, if r.Ok? then Rechecking(RouteStep, r.value) else Handling(r.error))
    {
      hide Lawful, Act, Next, ValidPlan;
      var raw := ProviderCall(RouteStep, p, Route, Garbage);
      if raw.Err? {
        return Err(raw.error);
      }
      if !raw.value.PlanShaped? || !ValidPlan(raw.value.plan) {
        return Err(Failure(Fatal(MODEL_OUTPUT_INVALID)));
      }
      return Ok(PlanV(raw.value.plan));
    }

    method CodeRepaired(p: Point) returns (r: Result<Value>)
      requires Valid() && Is(p, Working(RepairCodeStep, CallDeadline(Call(RepairCode, 1, Garbage))))
      modifies `history, `x, ports
      ensures old(history) <= history
      ensures Valid() && Is(p, if r.Ok? then Rechecking(RepairCodeStep, r.value) else Handling(r.error))
    {
      hide Lawful, Act, Next, Told, Linked, Valid;
      var raw := ProviderCall(RepairCodeStep, p, RepairCode, Garbage);
      if raw.Err? {
        return Err(raw.error);
      }
      if !raw.value.CodeText? || |raw.value.code| > MAX_CODE_CHARACTERS {
        return Err(Failure(Fatal(MODEL_OUTPUT_INVALID)));
      }
      return Ok(CodeV(raw.value.code));
    }

    /**
     * One answer, one repair of it, and the original dashboard when the repair of an edit fails as well; `answers` are
     * what the provider answered.
     */
    method Synthesized(p: Point) returns (r: Result<Value>, ghost answers: seq<Raw>)
      requires Valid() && p.HasAnalysis? && Is(p, Working(SynthesisStep, CallDeadline(Call(Synthesize, 1, Garbage))))
      modifies `history, `x, ports
      ensures old(history) <= history
      ensures Valid() && Is(p, if r.Ok? then Rechecking(SynthesisStep, r.value) else Handling(r.error))
      ensures SchemaContext(p.ctx) && r.Ok? ==> r.value.ResponseV? && SafeResponse(p.ctx, p.plan, r.value.response)
      ensures SchemaContext(p.ctx) ==> Chosen(p, r, answers)
    {
      hide Lawful, Act, Next, ValidateSynthesisOutput, Fallback, SafeResponse, Told, Linked, Valid, SchemaContext, Acceptable;
      answers := [];
      var raw := ProviderCall(SynthesisStep, p, Synthesize, Garbage);
      if raw.Err? {
        return Err(raw.error), answers;
      }
      answers := [raw.value];
      AnswerIsChecked(p, raw.value);
      if raw.value.Oversized? {
        return Err(Failure(Fatal(MODEL_OUTPUT_INVALID))), answers;
      }
      var first := ValidateSynthesisOutput(p.ctx, p.plan, raw.value);
      if first.Accepted? {
        return Ok(ResponseV(first.response)), answers;
      }
      var repaired := ProviderCall(SynthesisStep, p, RepairSynthesis, raw.value);
      if repaired.Err? {
        return Err(repaired.error), answers;
      }
      answers := [raw.value, repaired.value];
      AnswerIsChecked(p, repaired.value);
      if repaired.value.Oversized? {
        return Err(Failure(Fatal(MODEL_OUTPUT_INVALID))), answers;
      }
      var second := ValidateSynthesisOutput(p.ctx, p.plan, repaired.value);
      if second.Accepted? {
        return Ok(ResponseV(second.response)), answers;
      }
      var kept := Fallback(p.ctx, p.plan);
      FallbackIsChecked(p);
      if kept.None? {
        return Err(Failure(Fatal(MODEL_OUTPUT_INVALID))), answers;
      }
      return Ok(ResponseV(kept.value)), answers;
    }

    /** What the validation of an answer amounts to. */
    lemma AnswerIsChecked(p: Point, raw: Raw)
      requires p.HasAnalysis?
      ensures Acceptable(p.ctx, p.plan, raw) ==> !raw.Oversized?
      ensures SchemaContext(p.ctx) ==>
                var checked := ValidateSynthesisOutput(p.ctx, p.plan, raw);
                && (checked.Accepted? <==> Acceptable(p.ctx, p.plan, raw))
                && (checked.Accepted? ==> checked.response == raw.response && SafeResponse(p.ctx, p.plan, raw.response))
    {
      hide ValidateSynthesisOutput, SchemaContext, SafeResponse;
      if SchemaContext(p.ctx) {
        AcceptanceIsExact(p.ctx, p.plan, raw);
        if Acceptable(p.ctx, p.plan, raw) {
          AcceptedIsSafe(p.ctx, p.plan, raw);
        }
      }
    }

    lemma FallbackIsChecked(p: Point)
      requires p.HasAnalysis?
      ensures Fallback(p.ctx, p.plan) ==
              if p.plan.responseType.ModificationType? && p.ctx.existingDashboard.Some? && p.ctx.editTarget.Some? then
                Some(ChartModification(PRESERVED_CONTENT, p.ctx.existingDashboard.value, Some(PRESERVED_NOTE)))
              else None
      ensures SchemaContext(p.ctx) && Fallback(p.ctx, p.plan).Some? ==>
                SafeResponse(p.ctx, p.plan, Fallback(p.ctx, p.plan).value)
    {
      hide SafeResponse, SchemaContext;
      if SchemaContext(p.ctx) && Fallback(p.ctx, p.plan).Some? {
        FallbackIsSafe(p.ctx, p.plan);
      }
    }

    /** The effect that `execute` passes to `step`, by step key; `p` are the locals it closes over. */
    method Effect(k: StepKey, p: Point) returns (r: Result<Value>)
      requires Valid() && Is(p, Working(k, FirstWork(p, k))) && (k.SynthesisStep? ==> p.HasAnalysis?)
      modifies `history, `x, `sandboxCommands, ports
      ensures old(history) <= history
      ensures Valid() && Is(p, if r.Ok? then Rechecking(k, r.value) else Handling(r.error))
      ensures r.Ok? ==> Stores(p, k, r.value)
    {
      hide Lawful, Act, Next, Told, Linked, Valid;
      match k {
        case ContextStep => r := ValidatedContext(p);
        case ProfileStep => r := Profiled(p);
        case RouteStep => r := Routed(p);
        case InitialStep => r := ExecuteSandboxCode(k, p);
        case RepairCodeStep => r := CodeRepaired(p);
        case RepairRunStep => r := ExecuteSandboxCode(k, p);
        case AnalysisStep => r := StoreArtifact(k, p, ResultOf(p));
        case SynthesisStep =>
          var response, _ := Synthesized(p);
          r := response;
      }
    }

    /** A recorded step is skipped, any other one is performed, recorded and counted against the slice. */
    method Step(k: StepKey, p: Point) returns (r: Result<Value>)
      requires Valid() && Is(p, Deadline(k)) && (k.SynthesisStep? ==> p.HasAnalysis?)
      modifies `history, `x, `sandboxCommands, `completedSteps, ports
      ensures old(history) <= history
      ensures Valid()
      ensures r.Ok? ==> Move(x.point, x.pc) == Arrive(p, k, r.value)
      ensures r.Ok? ==> Has(ports.world.d, k, r.value) && (k in old(ports.world.d.steps) || Stores(p, k, r.value))
      ensures r.Err? ==> Is(p, Handling(r.error))
    {
      hide Lawful, Act, Next, Arrive, FirstWork, Told, Linked, Valid, Has, Stores;
      var late := AssertDeadline();
      if late.Some? {
        return Err(Failure(late.value));
      }
      var stopped := EnsureActive();
      if stopped.Some? {
        return Err(Failure(stopped.value));
      }
      var cached := Look(k, p);
      match cached
      case Lost(fault) =>
        return Err(Failure(fault));
      case Got(Some(v)) =>
        return Ok(v);
      case Got(None) =>
        r := Perform(k, p);
    }

    method Perform(k: StepKey, p: Point) returns (r: Result<Value>)
      requires Valid() && Is(p, Starting(k)) && (k.SynthesisStep? ==> p.HasAnalysis?)
      modifies `history, `x, `sandboxCommands, `completedSteps, ports
      ensures old(history) <= history
      ensures Valid()
      ensures r.Ok? ==> Move(x.point, x.pc) == Arrive(p, k, r.value)
      ensures r.Ok? ==> Has(ports.world.d, k, r.value) && Stores(p, k, r.value)
      ensures r.Err? ==> Is(p, Handling(r.error))
    {
      hide Lawful, Act, Next, Arrive, FirstWork, Told, Linked, Valid, Rely, Has, Stores;
      var begun := BeginStep(k, p);
      if begun.Lost? {
        return Err(Failure(begun.fault));
      }
      r := Effect(k, p);
      if r.Err? {
        return r;
      }
      var stopped := EnsureActive();
      if stopped.Some? {
        return Err(Failure(stopped.value));
      }
      r := CompleteStep(k, p, r.value);
    }

    method Look(k: StepKey, p: Point) returns (r: Reply<Option<Value>>)
      requires Valid() && (Is(p, Lookup(k)) || Is(p, Probing(k)))
      modifies `history, `x, ports
      ensures old(history) <= history
      ensures Valid()
      ensures r.Lost? ==> Is(p, Handling(Failure(r.fault)))
      ensures r.Got? && r.value.Some? ==> Move(x.point, x.pc) == Arrive(p, k, r.value.value)
      ensures r.Got? && r.value.Some? ==> Has(ports.world.d, k, r.value.value) && k in old(ports.world.d.steps)
      ensures r.Got? && r.value.None? ==> Move(x.point, x.pc) == Missed(old(x.pc), p, k, capacity.Some?)
    {
      hide Lawful, Arrive, EnterAnalysis;
      r := ports.GetStepResult(k);
      match r
      case Lost(fault) =>
        Await(Throws(fault, false));
      case Got(_) =>
        Await(Done);
    }

    method BeginStep(k: StepKey, p: Point) returns (r: Reply<()>)
      requires Valid() && Is(p, Starting(k))
      modifies `history, `x, ports
      ensures old(history) <= history
      ensures Valid() && Is(p, if r.Lost? then Handling(Failure(r.fault)) else Working(k, FirstWork(p, k)))
    {
      hide Lawful, FirstWork;
      r := ports.Call();
      Await(Sent(r));
    }

    method CompleteStep(k: StepKey, p: Point, v: Value) returns (r: Result<Value>)
      requires Valid() && Is(p, Completing(k, v))
      modifies `history, `x, `completedSteps, ports
      ensures old(history) <= history
      ensures Valid()
      ensures r.Ok? ==> r.value == v && Move(x.point, x.pc) == Arrive(p, k, v)
      ensures r.Ok? || r == Err(Yield(0)) ==> Has(ports.world.d, k, v) && completedSteps == old(completedSteps) + 1
      ensures r == Err(Yield(0)) ==> maxCompletedSteps.Some? && completedSteps >= maxCompletedSteps.value
      ensures r.Err? ==> Is(p, Handling(r.error))
    {
      hide Lawful, Arrive;
      ghost var before := ports.world;
      var recorded := ports.CompleteStep(k, v);
      match recorded
      case Lost(fault) =>
        Await(Throws(fault, ports.world != before));
        return Err(Failure(fault));
      case Got(_) =>
        Await(Done);
        completedSteps := completedSteps + 1;
        if maxCompletedSteps.Some? && completedSteps >= maxCompletedSteps.value {
          return Err(Yield(0));
        }
        return Ok(v);
    }
 
    /** Performs a step and assigns its result to the locals. */
    method Assign(k: StepKey, p: Point) returns (r: Result<Point>)
      requires Valid() && Is(p, Deadline(k)) && (k.SynthesisStep? ==> p.HasAnalysis?)
      modifies `history, `x, `sandboxCommands, `completedSteps, ports
      ensures old(history) <= history
      ensures Valid()
      ensures r.Ok? ==> Is(r.value, Deciding) && Reached(p, k, r.value)
      ensures r.Ok? ==> k in old(ports.world.d.steps) || exists v :: Stores(p, k, v) && Advance(p, k, v) == Some(r.value)
      ensures r.Err? ==> x.pc == Handling(r.error)
    {
      hide Lawful, Act, Next, Advance, Told, Linked, Valid;
      var v := Step(k, p);
      if v.Err? {
        return Err(v.error);
      }
      var q := Advance(p, k, v.value);
      if q.None? {
        return Err(Failure(Fatal(INTERNAL_ERROR)));
      }
      return Ok(q.value);
    }

    ghost method NoteDecision()
      requires Valid() && x.pc.Deciding?
      modifies `history, `x
      ensures old(history) <= history
      ensures Valid() && Move(x.point, x.pc) == Decide(old(x.point))
    {
      hide Lawful, Decide;
      Note(Done);
    }

    /** The profile, recorded or made under a lease; without assets there is none. */
    method GatherProfile(p: Point) returns (r: Result<Point>)
      requires Valid() && p.HasContext? && Preflight(p.ctx).None? && Is(p, Deciding) && capacity.None?
      modifies `history, `x, `sandboxCommands, `completedSteps, `capacity, ports
      ensures old(history) <= history
      ensures Valid()
      ensures r.Ok? ==> Is(r.value, Deciding) && r.value.HasProfile?
      ensures r.Err? ==> x.pc == Handling(r.error)
    {
      hide Lawful, Act, Next, Preflight, Told, Linked, Valid;
      NoteDecision();
      if |p.ctx.assets| == 0 {
        return Ok(HasProfile(p.ctx, None));
      }
      var cached := Look(ProfileStep, p);
      match cached
      case Lost(fault) =>
        return Err(Failure(fault));
      case Got(Some(v)) =>
        var q := Advance(p, ProfileStep, v);
        if q.None? {
          return Err(Failure(Fatal(INTERNAL_ERROR)));
        }
        return Ok(q.value);
      case Got(None) =>
        var acquired := AcquireCapacity(ForProfile, p);
        if acquired.Err? {
          return Err(acquired.error);
        }
        r := Assign(ProfileStep, p);
    }

    method LoadArtifact(k: StepKey, p: Point, doc: Doc) returns (r: Reply<()>)
      requires Valid() && Is(p, Loading(doc, k))
      modifies `history, `x, ports
      ensures old(history) <= history
      ensures Valid() && Is(p, if r.Lost? then Handling(Failure(r.fault)) else Deadline(k))
    {
      hide Lawful;
      r := ports.Call();
      Await(Sent(r));
    }

    method PlanRoute(p: Point) returns (r: Result<Point>)
      requires Valid() && p.HasProfile? && Is(p, Deciding)
      modifies `history, `x, `sandboxCommands, `completedSteps, ports
      ensures old(history) <= history
      ensures Valid()
      ensures r.Ok? ==> Is(r.value, Deciding) && r.value.HasRoute?
      ensures r.Err? ==> x.pc == Handling(r.error)
    {
      hide Preflight, Conclude, ClarificationOf, Lawful, Act, Next, Told, Linked, Valid;
      NoteDecision();
      if p.profile.Some? {
        var loaded := LoadArtifact(RouteStep, p, p.profile.value);
        if loaded.Lost? {
          return Err(Failure(loaded.fault));
        }
      }
      r := Assign(RouteStep, p);
    }

    /** The analysis that a data plan needs: recorded, or made under a lease. */
    method GatherAnalysis(p: Point) returns (r: Result<Point>)
      requires Valid() && p.HasRoute? && Is(p, Probing(AnalysisStep))
      modifies `history, `x, `sandboxCommands, `completedSteps, `capacity, ports
      ensures old(history) <= history
      ensures Valid()
      ensures r.Ok? ==> Is(r.value, Deciding) && r.value.HasAnalysis?
      ensures r.Err? ==> x.pc == Handling(r.error)
    {
      hide Lawful, Act, Next, EnterAnalysis, Told, Linked, Valid;
      var cached := Look(AnalysisStep, p);
      match cached
      case Lost(fault) =>
        return Err(Failure(fault));
      case Got(Some(v)) =>
        var q := Advance(p, AnalysisStep, v);
        if q.None? {
          return Err(Failure(Fatal(INTERNAL_ERROR)));
        }
        return Ok(q.value);
      case Got(None) =>
        if capacity.None? {
          var acquired := AcquireCapacity(ForAnalysis, p);
          if acquired.Err? {
            return Err(acquired.error);
          }
        }
        r := AnalyzeData(p);
    }

    /** Runs the planned code, at most once repaired, and stores its result. */
    method AnalyzeData(p: Point) returns (r: Result<Point>)
      requires Valid() && p.HasRoute? && Move(x.point, x.pc) == EnterAnalysis(p)
      modifies `history, `x, `sandboxCommands, `completedSteps, ports
      ensures old(history) <= history
      ensures Valid()
      ensures r.Ok? ==> Is(r.value, Deciding) && r.value.HasAnalysis?
      ensures r.Err? ==> x.pc == Handling(r.error)
    {
      hide Conclude, Preflight, ClarificationOf, Lawful, Act, Next, Told, Linked, Valid;
      if !HasCode(p.plan) {
        return Err(Failure(Fatal(ANALYSIS_CODE_MISSING)));
      }
      r := Assign(InitialStep, p);
      if r.Err? {
        return r;
      }
      NoteDecision();
      var q := r.value;
      if !q.execution.ok {
        if q.execution.error.None? {
          return Err(Failure(Fatal(SANDBOX_INVALID_RESULT)));
        }
        r := Repair(q);
        if r.Err? {
          return r;
        }
        q := r.value;
      }
      r := StoreAnalysis(q);
    }

    /** The result of the last execution is stored, or its fault ends the run. */
    method StoreAnalysis(p: Point) returns (r: Result<Point>)
      requires Valid() && (p.HasInitial? || p.HasExecution?) && Move(x.point, x.pc) == Conclude(p, p.execution)
      modifies `history, `x, `sandboxCommands, `completedSteps, ports
      ensures old(history) <= history
      ensures Valid()
      ensures r.Ok? ==> Is(r.value, Deciding) && r.value.HasAnalysis?
      ensures r.Ok? && AnalysisStep !in old(ports.world.d.steps) ==> r.value.analysis == p.execution.result
      ensures r.Err? ==> x.pc == Handling(r.error)
    {
      hide Lawful, Act, Next, Told, Linked, Valid;
      var e := p.execution;
      if !e.ok || e.result.None? {
        return Err(Failure(Fatal(if e.error.Some? then CodeNamed(e.error.value) else ANALYSIS_FAILED)));
      }
      if |e.result.value| > MAX_ANALYSIS_BYTES {
        return Err(Failure(Fatal(ANALYSIS_RESULT_TOO_LARGE)));
      }
      r := Assign(AnalysisStep, p);
    }

    method Repair(p: Point) returns (r: Result<Point>)
      requires Valid() && p.HasInitial? && Is(p, Deadline(RepairCodeStep))
      modifies `history, `x, `sandboxCommands, `completedSteps, ports
      ensures old(history) <= history
      ensures Valid()
      ensures r.Ok? ==> r.value.HasExecution? && Move(x.point, x.pc) == Conclude(r.value, r.value.execution)
      ensures r.Err? ==> x.pc == Handling(r.error)
    {
      hide Lawful, Act, Next, Conclude, Told, Linked, Valid;
      r := Assign(RepairCodeStep, p);
      if r.Err? {
        return r;
      }
      NoteDecision();
      r := Assign(RepairRunStep, r.value);
      if r.Err? {
        return r;
      }
      NoteDecision();
    }

    method FinishWithResponse(answer: Response, status: RunStatus) returns (r: Result<Response>)
      requires Valid() && x.pc == FinishActive(answer, status) && (status == Completed || status == AwaitingUserInput)
      modifies `history, `x, ports
      ensures old(history) <= history
      ensures Valid()
      ensures r.Ok? ==> IsTerminal(ports.world.d.status)
      ensures r.Ok? ==> r.value == answer && x.pc == Cleanup(Committed(answer))
      ensures r.Err? ==> x.pc == Handling(r.error)
    {
      hide Lawful, Act, Next, Told, Linked, Valid;
      var stopped := EnsureActive();
      if stopped.Some? {
        return Err(Failure(stopped.value));
      }
      var put := PutResponse(answer, status);
      if put.Lost? {
        return Err(Failure(put.fault));
      }
      var committed := Commit(answer, status);
      if committed.Lost? {
        return Err(Failure(committed.fault));
      }
      return Ok(answer);
    }

    method PutResponse(answer: Response, status: RunStatus) returns (r: Reply<()>)
      requires Valid() && x.pc == FinishPut(answer, status)
      modifies `history, `x, ports
      ensures old(history) <= history
      ensures Valid() && x.pc == if r.Lost? then Handling(Failure(r.fault)) else FinishCommit(answer, status)
    {
      hide Lawful;
      r := ports.Call();
      Await(Sent(r));
    }

    method Commit(answer: Response, status: RunStatus) returns (r: Reply<()>)
      requires Valid() && x.pc == FinishCommit(answer, status) && (status == Completed || status == AwaitingUserInput)
      modifies `history, `x, ports
      ensures old(history) <= history
      ensures r.Got? ==> IsTerminal(ports.world.d.status)
      ensures Valid() && x.pc == if r.Lost? then Handling(Failure(r.fault)) else Cleanup(Committed(answer))
    {
      hide Lawful;
      ghost var before := ports.world;
      r := ports.CommitResponse(answer, status);
      match r
      case Lost(fault) =>
        Await(Throws(fault, ports.world != before));
      case Got(_) =>
        Await(Done);
    }

    /** The `try` block of `execute`. */
    method Run() returns (r: Result<Response>)
      requires Valid() && Is(AtStart, Deciding) && capacity.None?
      modifies `history, `x, `sandboxCommands, `completedSteps, `capacity, ports
      ensures old(history) <= history
      ensures Valid()
      ensures r.Ok? ==> x.pc == Cleanup(Committed(r.value))
      ensures r.Err? ==> x.pc == Handling(r.error)
    {
      hide Lawful, Act, Next, Preflight, Told, Linked, Valid;
      NoteDecision();
      var context := Assign(ContextStep, AtStart);
      if context.Err? {
        return Err(context.error);
      }
      r := Respond(context.value);
    }

    /** From the context to the answer; an ambiguous choice of data is asked about first. */
    method Respond(p: Point) returns (r: Result<Response>)
      requires Valid() && p.HasContext? && Is(p, Deciding) && capacity.None?
      modifies `history, `x, `sandboxCommands, `completedSteps, `capacity, ports
      ensures old(history) <= history
      ensures Valid()
      ensures r.Ok? ==> x.pc == Cleanup(Committed(r.value))
      ensures r.Err? ==> x.pc == Handling(r.error)
    {
      hide Lawful, Act, Next, Preflight, Told, Linked, Valid, Conclude, ClarificationOf;
      var question := Preflight(p.ctx);
      if question.Some? {
        NoteDecision();
        r := FinishWithResponse(question.value, AwaitingUserInput);
        return;
      }
      var profile := GatherProfile(p);
      if profile.Err? {
        return Err(profile.error);
      }
      var route := PlanRoute(profile.value);
      if route.Err? {
        return Err(route.error);
      }
      r := Answer(route.value);
    }

    /** From the plan to the answer. */
    method Answer(p: Point) returns (r: Result<Response>)
      requires Valid() && p.HasRoute? && Is(p, Deciding)
      modifies `history, `x, `sandboxCommands, `completedSteps, `capacity, ports
      ensures old(history) <= history
      ensures Valid()
      ensures r.Ok? ==> x.pc == Cleanup(Committed(r.value))
      ensures r.Err? ==> x.pc == Handling(r.error)
    {
      hide Lawful, Act, Next, Told, Linked, Valid;
      NoteDecision();
      if p.plan.responseType.ClarificationType? {
        if p.plan.clarification.None? {
          return Err(Failure(Fatal(MODEL_OUTPUT_INVALID)));
        }
        r := FinishWithResponse(ClarificationOf(p.plan.clarification.value), AwaitingUserInput);
        return;
      }
      var q := HasAnalysis(p.ctx, p.profile, p.plan, None);
      if p.plan.requiresData {
        if p.profile.None? {
          return Err(Failure(Fatal(PROFILE_REQUIRED)));
        }
        var analysis := GatherAnalysis(p);
        if analysis.Err? {
          return Err(analysis.error);
        }
        q := analysis.value;
      }
      r := SynthesizeAndFinish(q);
    }

    method SynthesizeAndFinish(p: Point) returns (r: Result<Response>)
      requires Valid() && p.HasAnalysis? && Is(p, Deciding)
      modifies `history, `x, `sandboxCommands, `completedSteps, ports
      ensures old(history) <= history
      ensures Valid()
      ensures r.Ok? ==> x.pc == Cleanup(Committed(r.value))
      ensures r.Err? ==> x.pc == Handling(r.error)
    {
      hide Rely, Preflight, Conclude, ClarificationOf, Lawful, Act, Next, Told, Linked, Valid;
      NoteDecision();
      if p.analysis.Some? {
        var loaded := LoadArtifact(SynthesisStep, p, p.analysis.value);
        if loaded.Lost? {
          return Err(Failure(loaded.fault));
        }
      }
      var response := Assign(SynthesisStep, p);
      if response.Err? {
        return Err(response.error);
      }
      NoteDecision();
      r := FinishWithResponse(response.value.final, Completed);
    }

    /** The `catch` block: pause on a yield, otherwise cancel or fail the run. */
    method Catch(error: Error) returns (outcome: Outcome)
      requires Valid() && x.pc == Handling(error)
      modifies `history, `x, ports
      ensures old(history) <= history
      ensures Valid() && x.pc == if outcome.Paused? then Releasing(outcome) else Cleanup(outcome)
      ensures !outcome.Thrown? ==>
                match error
                case Yield(ms) => outcome == Paused(ms)
                case Failure(fault) => outcome == Ended(if fault.code == CANCELLED then Cancelled else RunStatus.Failed)
    {
      hide Lawful;
      match error
      case Yield(ms) =>
        var suspended := ports.Call();
        match suspended {
          case Lost(fault) =>
            Await(Throws(fault, false));
            return Thrown;
          case Got(_) =>
            Await(Done);
            return Paused(ms);
        }
      case Failure(fault) =>
        if fault.code == CANCELLED {
          var _ := ports.Call();
          Await(Done);
        } else {
          Note(Done);
        }
        outcome := Terminate(fault);
    }

    method Terminate(fault: Fault) returns (outcome: Outcome)
      requires Valid() && x.pc == Terminating(fault)
      modifies `history, `x, ports
      ensures old(history) <= history
      ensures Valid() && x.pc == Cleanup(outcome)
      ensures outcome.Thrown? || outcome == Ended(if fault.code == CANCELLED then Cancelled else RunStatus.Failed)
      ensures outcome.Ended? ==> ports.world.d.status == outcome.status
    {
      hide Lawful;
      var status := StatusFor(fault);
      ghost var before := ports.world;
      var moved := ports.Transition(status);
      match moved
      case Lost(lost) =>
        Await(Throws(lost, ports.world != before));
        return Thrown;
      case Got(_) =>
        Await(Done);
        return Ended(status);
    }

    /** The `finally` block: clean up unless paused, and give the lease back; errors of both are swallowed. */
    method Finally(outcome: Outcome)
      requires Valid() && x.pc == (if outcome.Paused? then Releasing(outcome) else Cleanup(outcome))
      modifies `history, `x, `capacity, ports
      ensures old(history) <= history
      ensures Told() && x.pc == Returned(outcome) && capacity.None?
    {
      hide Lawful;
      if !outcome.Paused? {
        var _ := ports.Call();
        Await(Done);
      }
      if capacity.Some? {
        ghost var before := ports.world;
        var released := ports.ReleaseLease(capacity.value);
        match released {
          case Lost(fault) => Await(Throws(fault, ports.world != before));
          case Got(_) => Await(Done);
        }
      } else {
        Note(Done);
      }
      capacity := None;
    }
 
    /** Claims the run, or answers without touching it when it is over or belongs to another executor. */
    method Claim(claimant: nat) returns (refused: Option<Outcome>)
      requires Valid() && Is(AtStart, Claiming) && x.claimant == claimant && capacity.None?
      modifies `history, `x, `startedAt, ports
      ensures old(history) <= history
      ensures Told() && x.lease.None?
      ensures if refused.Some? then x.pc == Returned(refused.value) else Linked() && Is(AtStart, Deciding)
    {
      hide Lawful;
      var response := ports.world.d.response;
      ghost var before := ports.world;
      var claim := ports.ClaimRun(claimant);
      match claim
      case Lost(fault) =>
        Await(Throws(fault, ports.world != before));
        return Some(Thrown);
      case Got(Busy) =>
        Await(Done);
        return Some(Ignored);
      case Got(Terminal) =>
        Await(Done);
        return Some(Replayed(response));
      case Got(_) =>
        Await(Done);
        refused := ReadStart();
    }

    method ReadStart() returns (refused: Option<Outcome>)
      requires Valid() && Is(AtStart, ReadingStart) && capacity.None?
      modifies `history, `x, `startedAt, ports
      ensures old(history) <= history
      ensures Told() && x.lease.None?
      ensures if refused.Some? then x.pc == Returned(refused.value) else Linked() && Is(AtStart, Deciding)
    {
      hide Lawful;
      var r := ports.GetRun();
      match r
      case Lost(fault) =>
        Await(Throws(fault, false));
        return Some(Thrown);
      case Got(record) =>
        Await(Done);
        startedAt := if record.startedAt.Some? then record.startedAt.value else record.createdAt;
        return None;
    }

    /**
     * One slice of a run. Whatever the ports answer and whoever else acts in between, the call is a history of the
     * machine from a fresh execution to its return.
     */
    method Execute(claimant: nat, maxSteps: Option<nat>, yieldOnWait: bool) returns (outcome: Outcome)
      modifies this, ports
      ensures Told() && x.pc == Returned(outcome)
      ensures start == Moment(old(ports.world), Fresh(ports.run, claimant, maxSteps, yieldOnWait))
    {
      hide Lawful, Act, Next;
      startedAt, sandboxCommands, completedSteps := ports.world.now, 0, 0;
      maxCompletedSteps, yieldOnCapacityWait, capacity := maxSteps, yieldOnWait, None;
      x := Fresh(ports.run, claimant, maxSteps, yieldOnWait);
      start := Moment(ports.world, x);
      history := [start];
      LawfulAtStart(start);
      var refused := Claim(claimant);
      if refused.Some? {
        return refused.value;
      }
      var r := Run();
      match r {
        case Ok(response) =>
          outcome := Committed(response);
        case Err(error) =>
          outcome := Catch(error);
      }
      Finally(outcome);
    }
  }
}
