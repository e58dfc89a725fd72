/** Which atomic steps may touch which part of the state. */
module Frames {
  import opened Machine

  /** Everything but the program counter, the locals and the counters stays, except for the lease and the start. */
  predicate SameExec(x: Exec, next: Exec) {
    next.run == x.run && next.claimant == x.claimant && next.maxSteps == x.maxSteps && next.yieldOnWait == x.yieldOnWait
  }

  /** A step that only moves the execution along, without issuing anything. */
  predicate JustMoves(d: Durable, leases: set<Lease>, x: Exec, f: Effects) {
    f.d == d && f.leases == leases && f.event.Silent? && Moved(x, f.x)
  }

  /** The steps that do more than move along. */
  predicate Acting(pc: Pc) {
    || pc.Claiming?
    || pc.ReadingStart?
    || pc.CapacityAcquire?
    || pc.CapacityRecord?
    || Issued(pc)
    || (pc.Working? && (pc.work.CountCommand? || pc.work.CallReserve?))
    || pc.Completing?
    || pc.FinishCommit?
    || pc.Terminating?
    || pc.Releasing?
  }

  lemma WorkMovesOnly(d: Durable, leases: set<Lease>, now: Time, x: Exec, a: Answer)
    requires !Acting(x.pc) && x.pc.Working?
    ensures JustMoves(d, leases, x, Act(d, leases, now, x, a))
  {
    hide ActFetchContext, ActiveFault, ActReserve, ActInvoke, ActCount, ActSandbox;
  }

  lemma OtherMovesOnly(d: Durable, leases: set<Lease>, now: Time, x: Exec, a: Answer)
    requires !Acting(x.pc) && !x.pc.Working? && !x.pc.Returned?
    ensures JustMoves(d, leases, x, Act(d, leases, now, x, a))
  {
    hide Decide, Conclude, EnterAnalysis, Arrive, ActWork, FirstWork, ActiveFault, ResultOf;
  }

  lemma MovingOnly(d: Durable, leases: set<Lease>, now: Time, x: Exec, a: Answer)
    requires !Acting(x.pc) && !x.pc.Returned?
    ensures JustMoves(d, leases, x, Act(d, leases, now, x, a))
  {
    hide Act, JustMoves, Acting;
    if x.pc.Working? {
      WorkMovesOnly(d, leases, now, x, a);
    } else {
      OtherMovesOnly(d, leases, now, x, a);
    }
  }

  ghost predicate Keeps(d: Durable, x: Exec, f: Effects) {
    && SameExec(x, f.x)
    && f.d.cancelRequested == d.cancelRequested && f.d.active == d.active && f.d.createdAt == d.createdAt
    && (!x.pc.Completing? ==> f.d.steps == d.steps)
    && (!(x.pc.Working? && x.pc.work.CallReserve?) ==> f.d.reserved == d.reserved)
    && (!x.pc.Claiming? ==> f.d.claimedBy == d.claimedBy && f.d.startedAt == d.startedAt)
    && (x.pc.Claiming? || x.pc.Terminating? || x.pc.FinishCommit? || f.d.status == d.status)
    && (x.pc.FinishCommit? || f.d.response == d.response)
  }

  lemma WorkKeeps(d: Durable, leases: set<Lease>, now: Time, x: Exec, a: Answer)
    requires Acting(x.pc) && x.pc.Working?
    ensures Keeps(d, x, Act(d, leases, now, x, a))
  {
    hide AfterFailedAttempt, Deliver, ActFetchContext, ActSandbox;
  }

  lemma EarlyKeeps(d: Durable, leases: set<Lease>, now: Time, x: Exec, a: Answer)
    requires x.pc.Claiming? || x.pc.ReadingStart? || x.pc.CapacityAcquire? || x.pc.CapacityRecord?
    ensures Keeps(d, x, Act(d, leases, now, x, a))
  {
    hide EnterAnalysis;
  }

  lemma LateKeeps(d: Durable, leases: set<Lease>, now: Time, x: Exec, a: Answer)
    requires x.pc.Completing? || x.pc.FinishCommit? || x.pc.Terminating? || x.pc.Releasing?
    ensures Keeps(d, x, Act(d, leases, now, x, a))
  {
    hide Arrive;
  }

  lemma ActingKeeps(d: Durable, leases: set<Lease>, now: Time, x: Exec, a: Answer)
    requires Acting(x.pc) && !x.pc.Working?
    ensures Keeps(d, x, Act(d, leases, now, x, a))
  {
    hide Act, Keeps;
    if x.pc.Claiming? || x.pc.ReadingStart? || x.pc.CapacityAcquire? || x.pc.CapacityRecord? {
      EarlyKeeps(d, leases, now, x, a);
    } else {
      LateKeeps(d, leases, now, x, a);
    }
  }

  lemma MovingKeeps(d: Durable, leases: set<Lease>, x: Exec, f: Effects)
    requires JustMoves(d, leases, x, f)
    ensures Keeps(d, x, f) && f.d == d
  {
  }

  /** What no step of an execution changes, and the only steps that record a result or reserve a call. */
  lemma ActKeeps(d: Durable, leases: set<Lease>, now: Time, x: Exec, a: Answer)
    requires !x.pc.Returned?
    ensures Keeps(d, x, Act(d, leases, now, x, a))
  {
    hide *;
    if !Acting(x.pc) {
      MovingOnly(d, leases, now, x, a);
      MovingKeeps(d, leases, x, Act(d, leases, now, x, a));
    } else if x.pc.Working? {
      WorkKeeps(d, leases, now, x, a);
    } else {
      ActingKeeps(d, leases, now, x, a);
    }
  }
}
