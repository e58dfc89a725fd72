/** Each provider call is made at most once in the life of a run, whatever crashes, replays and overlaps. */
module AtMostOnce {
  import opened WorkflowTypes
  import opened Machine
  import opened Systems
  import opened Control
  import opened Frames
  import opened Soundness
  import Layouts

  /** The five call keys a run can ever use. */
  const CALL_KEYS: set<CallKey> := {
    CallKey(Route, 1), CallKey(Route, 2), CallKey(RepairCode, 1), CallKey(Synthesize, 1), CallKey(RepairSynthesis, 1)
  }

  predicate IsCall(e: Entry, r: RunId, k: CallKey) {
    e.run == r && e.event == Invoked(k)
  }

  /** How often the operation behind a key was invoked for a run. */
  function Calls(log: seq<Entry>, r: RunId, k: CallKey): nat {
    if log == [] then 0 else Calls(log[..|log| - 1], r, k) + (if IsCall(log[|log| - 1], r, k) then 1 else 0)
  }

  /** How many provider operations were invoked for a run in all. */
  function AllCalls(log: seq<Entry>, r: RunId): nat {
    if log == [] then 0
    else AllCalls(log[..|log| - 1], r) + (if log[|log| - 1].run == r && log[|log| - 1].event.Invoked? then 1 else 0)
  }

  /** The reservation was made and the operation is about to be invoked. */
  predicate Pending(x: Exec, k: CallKey) {
    x.pc.Working? && x.pc.work.CallInvoke? && KeyOf(x.pc.work.call) == k
  }

  predicate Reserving(x: Exec, k: CallKey) {
    x.pc.Working? && x.pc.work.CallReserve? && KeyOf(x.pc.work.call) == k
  }

  lemma BoundedKeys(c: Call)
    requires 1 <= c.attempt <= MaxAttempts(c.op)
    ensures KeyOf(c) in CALL_KEYS
  {
  }

  /** One step: an invocation consumes a pending reservation, and a new pending one reserves its key. */
  ghost predicate CallStep(d: Durable, x: Exec, f: Effects, k: CallKey) {
    && (f.event == Invoked(k) ==> Pending(x, k))
    && d.reserved <= f.d.reserved
    && (Pending(f.x, k) ==> k !in d.reserved && k in f.d.reserved && f.event.Silent?)
    && (k in f.d.reserved && k !in d.reserved ==> Reserving(x, k))
  }

  lemma ReserveCalls(d: Durable, leases: set<Lease>, now: Time, x: Exec, a: Answer, k: CallKey)
    requires x.pc.Working? && x.pc.work.CallReserve?
    ensures CallStep(d, x, Act(d, leases, now, x, a), k)
  {
    hide AfterFailedAttempt;
  }

  lemma WorkCalls(d: Durable, leases: set<Lease>, now: Time, x: Exec, a: Answer, k: CallKey)
    requires x.pc.Working? && Acting(x.pc) && !x.pc.work.CallReserve?
    ensures CallStep(d, x, Act(d, leases, now, x, a), k)
  {
    hide AfterFailedAttempt, Deliver, ActFetchContext, ActSandbox;
  }

  lemma OtherCalls(d: Durable, leases: set<Lease>, now: Time, x: Exec, a: Answer, k: CallKey)
    requires !x.pc.Working? && Acting(x.pc)
    ensures CallStep(d, x, Act(d, leases, now, x, a), k)
  {
    hide Decide, Arrive, EnterAnalysis, ActWork;
  }

  lemma MovingCalls(d: Durable, leases: set<Lease>, x: Exec, f: Effects, k: CallKey)
    requires JustMoves(d, leases, x, f)
    ensures CallStep(d, x, f, k)
  {
  }

  lemma ActCalls(d: Durable, leases: set<Lease>, now: Time, x: Exec, a: Answer, k: CallKey)
    requires !x.pc.Returned?
    ensures CallStep(d, x, Act(d, leases, now, x, a), k)
  {
    hide *;
    if !Acting(x.pc) {
      MovingOnly(d, leases, now, x, a);
      MovingCalls(d, leases, x, Act(d, leases, now, x, a), k);
    } else if x.pc.Working? && x.pc.work.CallReserve? {
      ReserveCalls(d, leases, now, x, a, k);
    } else if x.pc.Working? {
      WorkCalls(d, leases, now, x, a, k);
    } else {
      OtherCalls(d, leases, now, x, a, k);
    }
  }

  lemma ActKeys(d: Durable, leases: set<Lease>, now: Time, x: Exec, a: Answer)
    requires Fits(x) && d.reserved <= CALL_KEYS && !x.pc.Returned?
    ensures var f := Act(d, leases, now, x, a); f.d.reserved <= CALL_KEYS && (f.event.Invoked? ==> f.event.call in CALL_KEYS)
  {
    hide Act, CALL_KEYS, Fits;
    var f := Act(d, leases, now, x, a);
    forall k | k in f.d.reserved
      ensures k in CALL_KEYS
    {
      ActCalls(d, leases, now, x, a, k);
      if k !in d.reserved {
        CallBounds(x);
        BoundedKeys(x.pc.work.call);
      }
    }
    if f.event.Invoked? {
      ActCalls(d, leases, now, x, a, f.event.call);
      CallBounds(x);
      BoundedKeys(x.pc.work.call);
    }
  }

  lemma CallBounds(x: Exec)
    requires Fits(x) && x.pc.Working? && (x.pc.work.CallInvoke? || x.pc.work.CallReserve?)
    ensures 1 <= x.pc.work.call.attempt <= MaxAttempts(x.pc.work.call.op)
  {
  }

  ghost predicate Bounded(s: System) {
    && (forall r :: r in s.runs ==> s.runs[r].reserved <= CALL_KEYS)
    && (forall i :: 0 <= i < |s.log| && s.log[i].event.Invoked? ==> s.log[i].event.call in CALL_KEYS)
  }

  ghost predicate PendingFor(s: System, e: ExecId, r: RunId, k: CallKey) {
    e in s.execs && s.execs[e].run == r && Pending(s.execs[e], k)
  }

  ghost predicate NobodyPending(s: System, r: RunId, k: CallKey) {
    forall e :: !PendingFor(s, e, r, k)
  }

  /** At most one execution is about to make the call, and then nobody made it before. */
  ghost predicate Once(s: System, r: RunId, k: CallKey) {
    && Calls(s.log, r, k) <= 1
    && (r in s.runs && k !in s.runs[r].reserved ==> Calls(s.log, r, k) == 0 && NobodyPending(s, r, k))
    && (Calls(s.log, r, k) == 1 ==> NobodyPending(s, r, k))
    && (forall e, f :: PendingFor(s, e, r, k) && PendingFor(s, f, r, k) ==> e == f)
  }

  ghost predicate IsReserved(s: System, r: RunId, k: CallKey) {
    r in s.runs && k in s.runs[r].reserved
  }

  /** A step of `e` that invokes only what it had pending, and gets pending only what it newly reserves. */
  lemma OnceKept(s: System, s': System, e: ExecId, fired: bool, r: RunId, k: CallKey)
    requires Once(s, r, k) && (r in s.runs <==> r in s'.runs)
    requires forall g :: g != e ==> PendingFor(s', g, r, k) == PendingFor(s, g, r, k)
    requires Calls(s'.log, r, k) == Calls(s.log, r, k) + if fired then 1 else 0
    requires fired ==> PendingFor(s, e, r, k) && !PendingFor(s', e, r, k)
    requires PendingFor(s', e, r, k) ==> r in s.runs && !IsReserved(s, r, k) && IsReserved(s', r, k)
    requires IsReserved(s, r, k) ==> IsReserved(s', r, k)
    ensures Once(s', r, k)
  {
    hide Calls, PendingFor;
    if !PendingFor(s', e, r, k) {
      assert forall g :: PendingFor(s', g, r, k) ==> PendingFor(s, g, r, k);
    }
  }

  lemma OnceAfterStep(s: System, e: ExecId, a: Answer, r: RunId, k: CallKey)
    requires Can(s, Step(e, a), false) && Once(s, r, k)
    ensures Once(Do(s, Step(e, a)), r, k)
  {
    hide Act, Pending, Once;
    var x, s' := s.execs[e], Do(s, Step(e, a));
    var f := StepEffects(s, e, a);
    ActCalls(s.runs[x.run], s.leases, s.now, x, a, k);
    ActKeeps(s.runs[x.run], s.leases, s.now, x, a);
    assert s'.log[..|s'.log| - 1] == s.log;
    assert Calls(s'.log, r, k) == Calls(s.log, r, k) + if IsCall(Entry(x.run, e, f.event), r, k) then 1 else 0;
    assert forall g :: g != e ==> PendingFor(s', g, r, k) == PendingFor(s, g, r, k);
    OnceKept(s, s', e, IsCall(Entry(x.run, e, f.event), r, k), r, k);
  }

  lemma OnceStep(s: System, act: Action, r: RunId, k: CallKey)
    requires Can(s, act, false) && Once(s, r, k)
    ensures Once(Do(s, act), r, k)
  {
    hide Act, Pending, Fresh;
    match act {
      case Begin(e, r', claimant, maxSteps, yieldOnWait) =>
        FreshIsIdle(r', claimant, maxSteps, yieldOnWait, k);
        assert forall g :: PendingFor(Do(s, act), g, r, k) ==> PendingFor(s, g, r, k);
      case Step(e, a) =>
        OnceAfterStep(s, e, a, r, k);
      case _ =>
        assert forall g :: PendingFor(Do(s, act), g, r, k) ==> PendingFor(s, g, r, k);
    }
  }

  lemma FreshIsIdle(r: RunId, claimant: nat, maxSteps: Option<nat>, yieldOnWait: bool, k: CallKey)
    ensures !Pending(Fresh(r, claimant, maxSteps, yieldOnWait), k)
  {
  }

  lemma BoundedStep(s: System, act: Action)
    requires Can(s, act, false) && Bounded(s) && Sound(s)
    ensures Bounded(Do(s, act))
  {
    hide Act, Fits, StepsOk, CALL_KEYS;
    if act.Step? {
      var x := s.execs[act.exec];
      ActKeys(s.runs[x.run], s.leases, s.now, x, act.answer);
    }
  }

  lemma {:induction false} OnceAlways(states: seq<System>, acts: seq<Action>, i: nat, r: RunId, k: CallKey)
    requires Behavior(states, acts, false) && i < |states|
    ensures Once(states[i], r, k) && Bounded(states[i])
  {
    hide Do, Once, Bounded, Initial, Calls;
    if i == 0 {
      InitialOnce(states[0], r, k);
    } else {
      OnceAlways(states, acts, i - 1, r, k);
      assert Moves(states[i - 1], acts[i - 1], states[i - 1 + 1], false);
      OnceStep(states[i - 1], acts[i - 1], r, k);
      SoundAlways(states, acts, false, i - 1);
      BoundedStep(states[i - 1], acts[i - 1]);
    }
  }

  lemma InitialOnce(s: System, r: RunId, k: CallKey)
    requires Initial(s)
    ensures Once(s, r, k) && Bounded(s)
  {
  }

  lemma {:induction false} CallsAddUp(log: seq<Entry>, r: RunId)
    requires forall i :: 0 <= i < |log| && log[i].event.Invoked? ==> log[i].event.call in CALL_KEYS
    ensures AllCalls(log, r) ==
            Calls(log, r, CallKey(Route, 1)) + Calls(log, r, CallKey(Route, 2)) + Calls(log, r, CallKey(RepairCode, 1)) +
            Calls(log, r, CallKey(Synthesize, 1)) + Calls(log, r, CallKey(RepairSynthesis, 1))
  {
    if log == [] {
    } else {
      CallsAddUp(log[..|log| - 1], r);
    }
  }

  /**
   * In every behaviour of the whole system, with overlapping executions of the same run allowed, a run invokes
   * each provider operation at most once and makes at most five provider calls in its life.
   */
  lemma AtMostFiveProviderCalls(states: seq<System>, acts: seq<Action>, i: nat, r: RunId)
    requires Behavior(states, acts, false) && i < |states|
    ensures forall k :: Calls(states[i].log, r, k) <= 1
    ensures AllCalls(states[i].log, r) <= MAX_PROVIDER_CALLS
  {
    forall k
      ensures Calls(states[i].log, r, k) <= 1
    {
      OnceAlways(states, acts, i, r, k);
    }
    OnceAlways(states, acts, i, r, CallKey(Route, 1));
    CallsAddUp(states[i].log, r);
  }

  /** The store's own budget check never fires: an unreserved call of an execution still finds room. */
  lemma BudgetNeverExceeded(states: seq<System>, acts: seq<Action>, i: nat, e: ExecId)
    requires Behavior(states, acts, false) && i < |states|
    requires e in states[i].execs && states[i].execs[e].run in states[i].runs
    requires states[i].execs[e].pc.Working? && states[i].execs[e].pc.work.CallReserve?
    requires KeyOf(states[i].execs[e].pc.work.call) !in states[i].runs[states[i].execs[e].run].reserved
    ensures |states[i].runs[states[i].execs[e].run].reserved| < MAX_PROVIDER_CALLS
  {
    hide Act, Fits, StepsOk, Do, Can, Initial;
    var c, r := states[i].execs[e].pc.work.call, states[i].execs[e].run;
    OnceAlways(states, acts, i, r, KeyOf(c));
    SoundAlways(states, acts, false, i);
    CallBounds(states[i].execs[e]);
    BoundedKeys(c);
    var reserved := states[i].runs[r].reserved;
    Layouts.SubsetSize(reserved, CALL_KEYS - {KeyOf(c)});
    assert |CALL_KEYS - {KeyOf(c)}| == 4;
  }
}
