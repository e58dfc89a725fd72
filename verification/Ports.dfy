/**
 * The ports of the engine as one run sees them: the contracts of the store, the capacity pool, the sandbox, the
 * provider, the artifact store and the clock. A call takes effect at once; a lost call may have taken effect, too.
 */
module Ports {
  import opened RunStatuses
  import opened WorkflowTypes
  import opened EditSafety
  import opened Machine

  datatype World = World(d: Durable, leases: set<Lease>, now: Time)

  datatype Reply<+T> = Got(value: T) | Lost(fault: Fault)

  datatype ClaimOutcome = Claimed | Resume | Busy | Terminal

  /** What a run's record tells the engine. */
  datatype RunRecord = RunRecord(status: RunStatus, cancelRequested: bool, createdAt: Time, startedAt: Option<Time>)

  function RecordOf(d: Durable): RunRecord {
    RunRecord(d.status, d.cancelRequested, d.createdAt, d.startedAt)
  }

  /** What users and other runs may do to a run that a single execution works on: cancel it or supersede it. */
  predicate DurableRely(d: Durable, after: Durable) {
    && after == d.(status := after.status, cancelRequested := after.cancelRequested, active := after.active)
    && (after.status == d.status || (!IsTerminal(d.status) && after.status.Cancelling?))
    && (d.cancelRequested ==> after.cancelRequested)
    && (after.active ==> d.active)
  }

  predicate Rely(w: World, after: World) {
    w.now <= after.now && DurableRely(w.d, after.d)
  }

  /** The smaller of two waits. */
  predicate WaitsAsAsked(ms: int, asked: int, remaining: int) {
    ms <= asked && ms <= remaining && (ms == asked || ms == remaining)
  }

  /** How long a refusal asks to be waited out; fifteen seconds if it does not say. */
  function Asked(refusal: Fault): nat {
    match refusal.retryAfter
    case Some(ms) => ms
    case None => 15_000
  }

  /** The delay before the next attempt: what the fault asks for, two or eight seconds otherwise, a minute at most. */
  predicate IsRetryDelay(ms: int, fault: Fault, attempt: nat) {
    match fault.retryAfter
    case Some(asked) => WaitsAsAsked(ms, asked, 60_000)
    case None => ms == if attempt <= 1 then 2_000 else 8_000
  }

  /** A busy pool asks to be left alone for at least the back-off, or says nothing about it. */
  predicate Patient(fault: Fault) {
    fault.code == CAPACITY_BUSY && fault.retryAfter.Some? ==> fault.retryAfter.value >= CAPACITY_BACKOFF_MS
  }

  class Ports {
    const run: RunId
    var world: World
    /** How long each sleep was asked to take. */
    ghost var slept: seq<nat>

    constructor (run: RunId, world: World)
      ensures this.run == run && this.world == world && slept == []
    {
      this.run := run;
      this.world := world;
      slept := [];
    }

    /** Anything the rest of the system may do while the engine awaits a reply. */
    method Others()
      modifies `world
      ensures Rely(old(world), world)
    {
      var next: World := *;
      if Rely(world, next) {
        world := next;
      }
    }

    method Sleep(ms: nat)
      modifies `world, `slept
      ensures Rely(old(world), world) && world.now >= old(world.now) + ms
      ensures slept == old(slept) + [ms]
    {
      world := world.(now := world.now + ms);
      slept := slept + [ms];
      Others();
    }

    /** A call that only succeeds or fails. */
    method Call() returns (r: Reply<()>)
    {
      r := *;
    }

    /** Whether the reply of a call is lost, and whether that happens only after its effect. */
    method Loses() returns (lost: Option<Fault>, late: bool)
    {
      lost, late := *, *;
    }

    /** The reason of the caller's abort signal, if it was raised. */
    method Aborted() returns (reason: Option<Fault>)
    {
      reason := *;
    }

    method ClaimRun(claimant: nat) returns (r: Reply<ClaimOutcome>)
      modifies `world
      ensures r == Got(Claimed) || (r.Lost? && world != old(world)) ==>
                && old(world.d.status) == Queued
                && world == old(world).(d := old(world).d.(
                     status := Running, claimedBy := Some(claimant), startedAt := Some(old(world.now))))
      ensures r.Got? && !r.value.Claimed? ==> world == old(world)
      ensures r.Got? ==> (r.value.Terminal? <==> IsTerminal(old(world.d.status)))
      ensures r == Got(Resume) ==> old(world.d.status) in {Running, Cancelling} && old(world.d.claimedBy) == Some(claimant)
      ensures r == Got(Busy) ==> old(world.d.status) in {Running, Cancelling} && old(world.d.claimedBy) != Some(claimant)
    {
      var lost, late := Loses();
      if lost.Some? && !late {
        return Lost(lost.value);
      }
      var d := world.d;
      if lost.Some? && !d.status.Queued? {
        return Lost(lost.value);
      }
      if IsTerminal(d.status) {
        return Got(Terminal);
      }
      if d.status.Running? || d.status.Cancelling? {
        return Got(if d.claimedBy == Some(claimant) then Resume else Busy);
      }
      world := world.(d := Machine.Claimed(d, world.now, claimant));
      return if lost.Some? then Lost(lost.value) else Got(Claimed);
    }

    method GetRun() returns (r: Reply<RunRecord>)
      ensures r.Got? ==> r.value == RecordOf(world.d)
    {
      var lost: Option<Fault> := *;
      return if lost.Some? then Lost(lost.value) else Got(RecordOf(world.d));
    }

    method GetContext() returns (r: Reply<Value>)
    {
      r := *;
    }

    method GetStepResult(k: StepKey) returns (r: Reply<Option<Value>>)
      ensures r.Got? ==> r.value == if k in world.d.steps then Some(world.d.steps[k]) else None
    {
      var lost: Option<Fault> := *;
      return if lost.Some? then Lost(lost.value) else Got(if k in world.d.steps then Some(world.d.steps[k]) else None);
    }

    method CompleteStep(k: StepKey, v: Value) returns (r: Reply<()>)
      modifies `world
      ensures r.Got? || world != old(world) ==>
                world == old(world).(d := old(world).d.(steps := old(world).d.steps[k := v]))
    {
      var lost, late := Loses();
      if lost.None? || late {
        world := world.(d := world.d.(steps := world.d.steps[k := v]));
      }
      return if lost.Some? then Lost(lost.value) else Got(());
    }

    /** The bookkeeping record of a granted lease. */
    method CompleteCapacity(purpose: Purpose) returns (r: Reply<()>)
      modifies `world
      ensures r.Got? || world != old(world) ==>
                world == old(world).(d := old(world).d.(marks := old(world).d.marks + {purpose}))
      ensures r.Lost? ==> Patient(r.fault)
    {
      var lost, late := Loses();
      var fails := lost.Some? && Patient(lost.value);
      if !fails || late {
        world := world.(d := world.d.(marks := world.d.marks + {purpose}));
      }
      return if fails then Lost(lost.value) else Got(());
    }

    /** Answers whether the reservation was created by this very call. */
    method ReserveProviderCall(key: CallKey) returns (r: Reply<bool>)
      modifies `world
      ensures r == Got(false) ==> key in old(world.d.reserved) && world == old(world)
      ensures r == Got(true) || world != old(world) ==>
                && key !in old(world.d.reserved) && |old(world.d.reserved)| < MAX_PROVIDER_CALLS
                && world == old(world).(d := old(world).d.(reserved := old(world).d.reserved + {key}))
    {
      var lost, late := Loses();
      if lost.Some? && !late {
        return Lost(lost.value);
      }
      if key in world.d.reserved {
        return if lost.Some? then Lost(lost.value) else Got(false);
      }
      if |world.d.reserved| >= MAX_PROVIDER_CALLS {
        return Lost(if lost.Some? then lost.value else Fatal(PROVIDER_CALL_BUDGET_EXCEEDED));
      }
      world := world.(d := world.d.(reserved := world.d.reserved + {key}));
      return if lost.Some? then Lost(lost.value) else Got(true);
    }

    method Transition(status: RunStatus) returns (r: Reply<()>)
      requires status == Cancelled || status == Failed
      modifies `world
      ensures r.Got? || world != old(world) ==>
                && (old(world.d.status) == status || old(world.d.status) in OPEN)
                && world == old(world).(d := old(world).d.(status := status))
    {
      var lost, late := Loses();
      if lost.Some? && !late {
        return Lost(lost.value);
      }
      if world.d.status != status && world.d.status !in OPEN {
        return Lost(Fatal(INTERNAL_ERROR));
      }
      world := world.(d := world.d.(status := status));
      return if lost.Some? then Lost(lost.value) else Got(());
    }

    /** Persists the answer once, unless the run is over, superseded or asked to cancel. */
    method CommitResponse(answer: Response, status: RunStatus) returns (r: Reply<()>)
      modifies `world
      ensures world != old(world) ==> MayCommit(old(world.d))
      ensures world != old(world) ==>
                world == old(world).(d := old(world).d.(status := status, response := Some(answer)))
      ensures r.Got? ==>
                if IsTerminal(old(world.d.status)) then world == old(world)
                else
                  && MayCommit(old(world.d))
                  && world == old(world).(d := old(world).d.(status := status, response := Some(answer)))
    {
      var lost, late := Loses();
      var d := world.d;
      if lost.Some? && !late {
        return Lost(lost.value);
      }
      if !IsTerminal(d.status) {
        if !MayCommit(d) {
          return Lost(if lost.Some? then lost.value else Fatal(CANCELLED));
        }
        world := world.(d := d.(status := status, response := Some(answer)));
      }
      return if lost.Some? then Lost(lost.value) else Got(());
    }

    method AcquireLease(lease: Lease) returns (r: Reply<()>)
      modifies `world
      ensures r.Lost? ==> Patient(r.fault)
      ensures r.Got? || world != old(world) ==>
                && (lease in old(world.leases) || |old(world.leases)| < SANDBOX_SLOTS)
                && world == old(world).(leases := old(world.leases) + {lease})
    {
      var lost, late := Loses();
      var fails := lost.Some? && Patient(lost.value);
      if fails && !late {
        return Lost(lost.value);
      }
      if lease !in world.leases && |world.leases| >= SANDBOX_SLOTS {
        return Lost(if fails then lost.value else Fault(CAPACITY_BUSY, true, Some(CAPACITY_BACKOFF_MS)));
      }
      world := world.(leases := world.leases + {lease});
      return if fails then Lost(lost.value) else Got(());
    }

    method ReleaseLease(lease: Lease) returns (r: Reply<()>)
      modifies `world
      ensures r.Got? || world != old(world) ==> world == old(world).(leases := old(world.leases) - {lease})
    {
      var lost, late := Loses();
      if lost.None? || late {
        world := world.(leases := world.leases - {lease});
      }
      return if lost.Some? then Lost(lost.value) else Got(());
    }

    /** A sandbox command; what it answers is checked by the engine. */
    method RunSandbox(p: Point, k: StepKey) returns (r: Reply<Value>)
    {
      r := *;
    }

    /** One attempt at a model call; the text it answers is untrusted. */
    method AskProvider(p: Point, c: Machine.Call) returns (r: Reply<Raw>)
    {
      r := *;
    }
  }
}
