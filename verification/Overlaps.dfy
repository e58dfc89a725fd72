/**
 * Why the bound on the sandbox needs one live execution per run: a behaviour in which two executions of one run share
 * a lease, the first one gives it back, and two further runs enter beside the second one.
 */
module Overlaps {
  import opened RunStatuses
  import opened WorkflowTypes
  import opened Machine
  import opened Frames
  import opened Systems
  import opened Leases

  // ---------------------------------------------------------------- one execution, step by step

  datatype Local = Local(d: Durable, leases: set<Lease>, x: Exec)

  const CONTEXT := RunContext("run", [Asset("a", "a.csv", 1)], true, false, None, None, "")
  const ANSWER := Gives(ContextV(CONTEXT))
  const REFUSAL := Throws(Fatal(INTERNAL_ERROR), false)

  /** One step at time zero. */
  function Next(l: Local, a: Answer): Local {
    var f := Act(l.d, l.leases, 0, l.x, a);
    Local(f.d, f.leases, f.x)
  }

  function Play(l: Local, answers: seq<Answer>): Local
    decreases |answers|
  {
    if answers == [] then l else Play(Next(l, answers[0]), answers[1..])
  }

  function Answers(n: nat): seq<Answer> {
    if n == 0 then [] else [ANSWER] + Answers(n - 1)
  }

  /** The execution is still live before each of the answers. */
  predicate Awake(l: Local, answers: seq<Answer>)
    decreases |answers|
  {
    answers != [] ==> !l.x.pc.Returned? && Awake(Next(l, answers[0]), answers[1..])
  }

  lemma PlayMore(l: Local, n: nat)
    ensures Play(l, Answers(n + 1)) == Play(Next(l, ANSWER), Answers(n))
    ensures Awake(l, Answers(n + 1)) <==> !l.x.pc.Returned? && Awake(Next(l, ANSWER), Answers(n))
  {
    hide Next;
    assert Answers(n + 1)[0] == ANSWER && Answers(n + 1)[1..] == Answers(n);
  }

  /** The run is claimed at time zero and has no profile yet. */
  predicate Ongoing(d: Durable) {
    && d.status.Running? && !d.cancelRequested && d.claimedBy == Some(0) && d.startedAt == Some(0)
    && ProfileStep !in d.steps
  }

  predicate WithContext(d: Durable) {
    Ongoing(d) && ContextStep in d.steps && d.steps[ContextStep] == ContextV(CONTEXT)
  }

  /** An execution without a lease that has spent nothing yet. */
  predicate Plainly(x: Exec, r: RunId, p: Point, pc: Pc) {
    x == Exec(r, 0, None, false, pc, p, None, 0, 0, x.completed)
  }

  /** Inside the profile command. */
  predicate InsideFor(x: Exec, r: RunId) {
    && x.run == r && x.lease == Some(Lease(r, ForProfile)) && x.pc == Working(ProfileStep, InSandbox)
    && x.point == HasContext(CONTEXT)
  }

  lemma ContextIsValid()
    ensures ValidateContext(CONTEXT).None? && Preflight(CONTEXT).None?
  {
    var a := Asset("a", "a.csv", 1);
    assert (set b | b in [a] :: b.id) == {"a"};
    assert TotalBytes([a]) == 1 + TotalBytes([]);
  }

  function Third(l: Local): Local {
    Next(Next(Next(l, ANSWER), ANSWER), ANSWER)
  }

  function Second(l: Local): Local {
    Next(Next(l, ANSWER), ANSWER)
  }

  predicate LiveForThree(l: Local) {
    !l.x.pc.Returned? && !Next(l, ANSWER).x.pc.Returned? && !Second(l).x.pc.Returned?
  }

  lemma PlayThree(l: Local, n: nat)
    ensures Play(l, Answers(n + 3)) == Play(Third(l), Answers(n))
    ensures LiveForThree(l) && Awake(Third(l), Answers(n)) ==> Awake(l, Answers(n + 3))
  {
    hide Next;
    PlayMore(l, n + 2);
    PlayMore(Next(l, ANSWER), n + 1);
    PlayMore(Second(l), n);
  }

  lemma PlayTwo(l: Local, n: nat)
    ensures Play(l, Answers(n + 2)) == Play(Second(l), Answers(n))
    ensures !l.x.pc.Returned? && !Next(l, ANSWER).x.pc.Returned? && Awake(Second(l), Answers(n)) ==>
              Awake(l, Answers(n + 2))
  {
    hide Next;
    PlayMore(l, n + 1);
    PlayMore(Next(l, ANSWER), n);
  }

  // ---------------------------------------------------------------- from the context into the sandbox

  lemma ToCapacity(l: Local, r: RunId)
    requires WithContext(l.d) && Plainly(l.x, r, HasContext(CONTEXT), Deciding)
    ensures Third(l) == l.(x := To(l.x, CapacityAcquire(ForProfile))) && LiveForThree(l)
  {
    ContextIsValid();
    hide Preflight;
  }

  lemma ToLease(l: Local, r: RunId)
    requires WithContext(l.d) && Plainly(l.x, r, HasContext(CONTEXT), CapacityAcquire(ForProfile))
    requires Lease(r, ForProfile) in l.leases || |l.leases| < SANDBOX_SLOTS
    ensures var lease := Lease(r, ForProfile);
            Second(l) == Local(l.d.(marks := l.d.marks + {ForProfile}), l.leases + {lease},
                               l.x.(lease := Some(lease), pc := Deadline(ProfileStep)))
    ensures !l.x.pc.Returned? && !Next(l, ANSWER).x.pc.Returned?
  {
  }

  lemma ToStart(l: Local)
    requires Ongoing(l.d) && l.x.pc.Deadline? && l.x.pc.key !in l.d.steps && l.x.startedAt == 0
    ensures Third(l) == l.(x := To(l.x, Starting(l.x.pc.key))) && LiveForThree(l)
  {
  }

  lemma ToCommand(l: Local)
    requires l.x.pc == Starting(ProfileStep) && l.x.commands == 0
    ensures Second(l) == l.(x := l.x.(commands := 1, pc := Working(ProfileStep, InSandbox)))
    ensures !l.x.pc.Returned? && !Next(l, ANSWER).x.pc.Returned?
  {
  }

  lemma Enters(l: Local, r: RunId)
    requires WithContext(l.d) && Plainly(l.x, r, HasContext(CONTEXT), Deciding)
    requires Lease(r, ForProfile) in l.leases || |l.leases| < SANDBOX_SLOTS
    ensures var m := Play(l, Answers(10));
            WithContext(m.d) && InsideFor(m.x, r) && m.leases == l.leases + {Lease(r, ForProfile)}
    ensures Awake(l, Answers(10))
  {
    hide Play, Answers, Awake, Third, Second, LiveForThree, Next;
    ToCapacity(l, r);
    PlayThree(l, 7);
    var l3 := Third(l);
    ToLease(l3, r);
    PlayTwo(l3, 5);
    var l5 := Second(l3);
    ToStart(l5);
    PlayThree(l5, 2);
    var l8 := Third(l5);
    ToCommand(l8);
    PlayTwo(l8, 0);
    NothingToPlay(Second(l8));
  }

  lemma NothingToPlay(l: Local)
    ensures Play(l, Answers(0)) == l && Awake(l, Answers(0))
  {
  }

  // ---------------------------------------------------------------- up to the context

  lemma Claims(l: Local, r: RunId)
    requires l.x == Fresh(r, 0, None, false) && (NewRun(l.d) || WithContext(l.d))
    ensures var m := Third(l);
            && Ongoing(m.d) && m.d == (if l.d.status.Queued? then Claimed(l.d, 0, 0) else l.d)
            && m.leases == l.leases && Plainly(m.x, r, AtStart, Deadline(ContextStep)) && LiveForThree(l)
  {
  }

  lemma Fetches(l: Local, r: RunId)
    requires Ongoing(l.d) && Plainly(l.x, r, AtStart, Starting(ContextStep))
    ensures Second(l) == l.(x := To(l.x, Rechecking(ContextStep, ContextV(CONTEXT))))
    ensures !l.x.pc.Returned? && !Next(l, ANSWER).x.pc.Returned?
  {
    ContextIsValid();
    hide ValidateContext;
  }

  lemma Records(l: Local, r: RunId)
    requires Ongoing(l.d) && Plainly(l.x, r, AtStart, Rechecking(ContextStep, ContextV(CONTEXT)))
    ensures var m := Second(l);
            WithContext(m.d) && m.leases == l.leases && Plainly(m.x, r, HasContext(CONTEXT), Deciding)
    ensures !l.x.pc.Returned? && !Next(l, ANSWER).x.pc.Returned?
  {
  }

  lemma FindsContext(l: Local, r: RunId)
    requires WithContext(l.d) && Plainly(l.x, r, AtStart, Deadline(ContextStep))
    ensures Third(l) == l.(x := l.x.(point := HasContext(CONTEXT), pc := Deciding)) && LiveForThree(l)
  {
  }

  lemma RecordsContext(l: Local, r: RunId) returns (m: Local)
    requires Ongoing(l.d) && ContextStep !in l.d.steps && Plainly(l.x, r, AtStart, Deadline(ContextStep))
    ensures WithContext(m.d) && m.leases == l.leases && Plainly(m.x, r, HasContext(CONTEXT), Deciding)
    ensures Play(l, Answers(17)) == Play(m, Answers(10))
    ensures Awake(m, Answers(10)) ==> Awake(l, Answers(17))
  {
    hide Play, Answers, Awake, Third, Second, LiveForThree, Next, Ongoing, WithContext;
    ToStart(l);
    PlayThree(l, 14);
    var l3 := Third(l);
    Fetches(l3, r);
    PlayTwo(l3, 12);
    var l5 := Second(l3);
    Records(l5, r);
    PlayTwo(l5, 10);
    m := Second(l5);
  }

  /** A first execution of a new run gets inside, and shares no lease. */
  lemma FirstEnters(l: Local, r: RunId)
    requires l.x == Fresh(r, 0, None, false) && NewRun(l.d) && |l.leases| < SANDBOX_SLOTS
    ensures var m := Play(l, Answers(20));
            WithContext(m.d) && InsideFor(m.x, r) && m.leases == l.leases + {Lease(r, ForProfile)}
    ensures Awake(l, Answers(20))
  {
    hide Play, Answers, Awake, Third, Second, LiveForThree, Next, Ongoing, WithContext, Plainly, InsideFor;
    Claims(l, r);
    PlayThree(l, 17);
    var m := RecordsContext(Third(l), r);
    Enters(m, r);
  }

  /** A second execution by the same claimant is resumed, and is granted the lease the first one holds. */
  lemma SecondEnters(l: Local, r: RunId)
    requires l.x == Fresh(r, 0, None, false) && WithContext(l.d) && Lease(r, ForProfile) in l.leases
    ensures var m := Play(l, Answers(16));
            WithContext(m.d) && InsideFor(m.x, r) && m.leases == l.leases
    ensures Awake(l, Answers(16))
  {
    hide Play, Answers, Awake, Third, Second, LiveForThree, Next;
    Claims(l, r);
    PlayThree(l, 13);
    var l3 := Third(l);
    FindsContext(l3, r);
    PlayThree(l3, 10);
    Enters(Third(l3), r);
  }

  /** The command fails, the run ends, and the lease is given back. */
  lemma Leaves(l: Local, r: RunId)
    requires Ongoing(l.d) && InsideFor(l.x, r)
    ensures var m := Play(l, [REFUSAL] + Answers(4));
            m.x.pc.Returned? && m.leases == l.leases - {Lease(r, ForProfile)}
    ensures Awake(l, [REFUSAL] + Answers(4))
  {
    hide Play, Answers, Awake, Third, Second, LiveForThree, Next;
    var l1 := Next(l, REFUSAL);
    Refuses(l, r);
    PlayOn(l, REFUSAL, 4);
    PlayTwo(l1, 2);
    HandlesFailure(l1);
    var l3 := Second(l1);
    PlayTwo(l3, 0);
    Releases(l3);
    NothingToPlay(Second(l3));
  }

  lemma Refuses(l: Local, r: RunId)
    requires InsideFor(l.x, r)
    ensures Next(l, REFUSAL) == l.(x := Raise(l.x, Fatal(INTERNAL_ERROR)))
  {
  }

  lemma PlayOn(l: Local, a: Answer, n: nat)
    ensures Play(l, [a] + Answers(n)) == Play(Next(l, a), Answers(n))
    ensures !l.x.pc.Returned? && Awake(Next(l, a), Answers(n)) ==> Awake(l, [a] + Answers(n))
  {
    hide Next;
    assert ([a] + Answers(n))[1..] == Answers(n);
  }

  lemma HandlesFailure(l: Local)
    requires l.x.pc == Handling(Failure(Fatal(INTERNAL_ERROR))) && l.d.status.Running?
    ensures Second(l) == Local(l.d.(status := RunStatus.Failed), l.leases, To(l.x, Cleanup(Ended(RunStatus.Failed))))
    ensures !l.x.pc.Returned? && !Next(l, ANSWER).x.pc.Returned?
  {
  }

  lemma Releases(l: Local)
    requires l.x.pc == Cleanup(Ended(RunStatus.Failed)) && l.x.lease.Some?
    ensures Second(l).x.pc.Returned? && Second(l).leases == l.leases - {l.x.lease.value}
    ensures !l.x.pc.Returned? && !Next(l, ANSWER).x.pc.Returned?
  {
  }

  // ---------------------------------------------------------------- the same in the whole system

  function Steps(e: ExecId, answers: seq<Answer>): seq<Action> {
    if answers == [] then [] else [Step(e, answers[0])] + Steps(e, answers[1..])
  }

  ghost predicate Playable(s: System, acts: seq<Action>)
    decreases |acts|
  {
    acts != [] ==> Can(s, acts[0], false) && Playable(Do(s, acts[0]), acts[1..])
  }

  ghost function Trail(s: System, acts: seq<Action>): (states: seq<System>)
    requires Playable(s, acts)
    ensures |states| == |acts| + 1 && states[0] == s
    ensures forall i :: 0 <= i < |acts| ==> Moves(states[i], acts[i], states[i + 1], false)
    decreases |acts|
  {
    if acts == [] then [s] else [s] + Trail(Do(s, acts[0]), acts[1..])
  }

  ghost function Last(s: System, acts: seq<Action>): (last: System)
    requires Playable(s, acts)
    ensures last == Trail(s, acts)[|acts|]
    decreases |acts|
  {
    if acts == [] then s else Last(Do(s, acts[0]), acts[1..])
  }

  lemma {:induction false} Joins(s: System, a: seq<Action>, b: seq<Action>)
    requires Playable(s, a) && Playable(Last(s, a), b)
    ensures Playable(s, a + b) && Last(s, a + b) == Last(Last(s, a), b)
    decreases |a|
  {
    hide Can, Do;
    if a == [] {
      assert a + b == b;
    } else {
      Joins(Do(s, a[0]), a[1..], b);
      assert (a + b)[0] == a[0] && (a + b)[1..] == a[1..] + b;
    }
  }

  ghost function LocalOf(s: System, e: ExecId): Local
    requires e in s.execs && s.execs[e].run in s.runs
  {
    Local(s.runs[s.execs[e].run], s.leases, s.execs[e])
  }

  /** Only what the execution `e` of the run `r` may touch differs, and it is now as in `l`. */
  ghost predicate Became(s: System, e: ExecId, r: RunId, l: Local, after: System) {
    && l.x.run == r && r in s.runs
    && after.runs == s.runs[r := l.d] && after.execs == s.execs[e := l.x] && after.leases == l.leases
    && after.now == 0
    && forall g :: g != e && Unlogged(s.log, g) ==> Unlogged(after.log, g)
  }

  lemma StepPlays(s: System, e: ExecId, a: Answer)
    requires e in s.execs && s.execs[e].run in s.runs && s.now == 0 && !s.execs[e].pc.Returned?
    ensures Can(s, Step(e, a), false)
    ensures Became(s, e, s.execs[e].run, Next(LocalOf(s, e), a), Do(s, Step(e, a)))
  {
    hide Act;
    var x := s.execs[e];
    ActKeeps(s.runs[x.run], s.leases, s.now, x, a);
  }

  /** What an execution does alone is what it does in the system at time zero, and nothing else changes. */
  lemma {:induction false} PlaysInSystem(s: System, e: ExecId, answers: seq<Answer>)
    requires e in s.execs && s.execs[e].run in s.runs && s.now == 0 && Awake(LocalOf(s, e), answers)
    ensures Playable(s, Steps(e, answers))
    ensures Became(s, e, s.execs[e].run, Play(LocalOf(s, e), answers), Last(s, Steps(e, answers)))
    decreases |answers|
  {
    hide Next, Unlogged, Can, Do;
    if answers == [] {
      assert s.runs[s.execs[e].run := s.runs[s.execs[e].run]] == s.runs && s.execs[e := s.execs[e]] == s.execs;
    } else {
      var r, acts := s.execs[e].run, Steps(e, answers);
      assert acts[0] == Step(e, answers[0]) && acts[1..] == Steps(e, answers[1..]);
      StepPlays(s, e, answers[0]);
      var next := Do(s, acts[0]);
      assert LocalOf(next, e) == Next(LocalOf(s, e), answers[0]);
      PlaysInSystem(next, e, answers[1..]);
      var l := Play(LocalOf(s, e), answers);
      assert s.runs[r := next.runs[r]][r := l.d] == s.runs[r := l.d];
      assert s.execs[e := next.execs[e]][e := l.x] == s.execs[e := l.x];
    }
  }

  function Opening(e: ExecId, r: RunId): Action {
    Begin(e, r, 0, None, false)
  }

  function Block(e: ExecId, r: RunId, answers: seq<Answer>): seq<Action> {
    [Opening(e, r)] + Steps(e, answers)
  }

  /** A fresh execution that plays its answers. */
  lemma BlockPlays(s: System, e: ExecId, r: RunId, answers: seq<Answer>)
    requires e !in s.execs && Unlogged(s.log, e) && r in s.runs && s.now == 0
    requires Awake(Local(s.runs[r], s.leases, Fresh(r, 0, None, false)), answers)
    ensures Playable(s, Block(e, r, answers))
    ensures Became(s, e, r, Play(Local(s.runs[r], s.leases, Fresh(r, 0, None, false)), answers),
                   Last(s, Block(e, r, answers)))
  {
    hide Next, Unlogged, Play, Awake, Act;
    var acts, next := Block(e, r, answers), Do(s, Opening(e, r));
    assert acts[0] == Opening(e, r) && acts[1..] == Steps(e, answers);
    PlaysInSystem(next, e, answers);
    var l := Play(LocalOf(next, e), answers);
    assert s.execs[e := Fresh(r, 0, None, false)][e := l.x] == s.execs[e := l.x];
  }

  // ---------------------------------------------------------------- the behaviour

  const NEW := Durable(Queued, false, true, None, 0, None, map[], {}, {}, None)
  const ORIGIN := System(map[0 := NEW, 1 := NEW, 2 := NEW], {}, 0, map[], [], multiset{})

  lemma OneOfTheRun() returns (acts: seq<Action>)
    ensures Playable(ORIGIN, acts)
    ensures var s := Last(ORIGIN, acts);
            && s.execs.Keys == {0} && InsideFor(s.execs[0], 0) && s.leases == {Lease(0, ForProfile)} && s.now == 0
            && s.runs.Keys == {0, 1, 2} && WithContext(s.runs[0]) && s.runs[1] == NEW && s.runs[2] == NEW
            && forall g :: g > 0 ==> Unlogged(s.log, g)
  {
    hide Next, Play, Awake, Do, Can, Answers, WithContext, InsideFor, Playable;
    assert forall g :: Unlogged(ORIGIN.log, g);
    FirstEnters(Local(NEW, {}, Fresh(0, 0, None, false)), 0);
    BlockPlays(ORIGIN, 0, 0, Answers(20));
    acts := Block(0, 0, Answers(20));
  }

  lemma SecondOfTheRun(s: System) returns (acts: seq<Action>)
    requires s.execs.Keys == {0} && InsideFor(s.execs[0], 0) && s.leases == {Lease(0, ForProfile)} && s.now == 0
    requires s.runs.Keys == {0, 1, 2} && WithContext(s.runs[0]) && s.runs[1] == NEW && s.runs[2] == NEW
    requires forall g :: g > 0 ==> Unlogged(s.log, g)
    ensures Playable(s, acts)
    ensures var t := Last(s, acts);
            && t.execs.Keys == {0, 1} && InsideFor(t.execs[0], 0) && InsideFor(t.execs[1], 0)
            && t.leases == {Lease(0, ForProfile)} && t.now == 0
            && t.runs.Keys == {0, 1, 2} && WithContext(t.runs[0]) && t.runs[1] == NEW && t.runs[2] == NEW
            && forall g :: g > 1 ==> Unlogged(t.log, g)
  {
    hide Next, Play, Awake, Do, Can, Answers, WithContext, InsideFor, Playable;
    SecondEnters(Local(s.runs[0], s.leases, Fresh(0, 0, None, false)), 0);
    BlockPlays(s, 1, 0, Answers(16));
    acts := Block(1, 0, Answers(16));
  }

  lemma OneLeaves(s: System) returns (acts: seq<Action>)
    requires s.execs.Keys == {0, 1} && InsideFor(s.execs[0], 0) && InsideFor(s.execs[1], 0)
    requires s.leases == {Lease(0, ForProfile)} && s.now == 0
    requires s.runs.Keys == {0, 1, 2} && WithContext(s.runs[0]) && s.runs[1] == NEW && s.runs[2] == NEW
    requires forall g :: g > 1 ==> Unlogged(s.log, g)
    ensures Playable(s, acts)
    ensures var t := Last(s, acts);
            && t.execs.Keys == {0, 1} && t.execs[0].pc.Returned? && t.execs[1] == s.execs[1] && t.leases == {} && t.now == 0
            && t.runs.Keys == {0, 1, 2} && t.runs[1] == NEW && t.runs[2] == NEW
            && forall g :: g > 1 ==> Unlogged(t.log, g)
  {
    hide Next, Play, Awake, Do, Can, Answers;
    Leaves(LocalOf(s, 0), 0);
    PlaysInSystem(s, 0, [REFUSAL] + Answers(4));
    acts := Steps(0, [REFUSAL] + Answers(4));
  }

  lemma TwoMoreEnter(s: System) returns (acts: seq<Action>)
    requires s.execs.Keys == {0, 1} && s.leases == {} && s.now == 0
    requires s.runs.Keys == {0, 1, 2} && s.runs[1] == NEW && s.runs[2] == NEW
    requires forall g :: g > 1 ==> Unlogged(s.log, g)
    ensures Playable(s, acts)
    ensures var t := Last(s, acts);
            && t.execs.Keys == {0, 1, 2, 3} && t.execs[0] == s.execs[0] && t.execs[1] == s.execs[1]
            && InsideFor(t.execs[2], 1) && InsideFor(t.execs[3], 2)
            && t.leases == {Lease(1, ForProfile), Lease(2, ForProfile)}
  {
    hide Next, Play, Awake, Do, Can, Answers;
    FirstEnters(Local(NEW, {}, Fresh(1, 0, None, false)), 1);
    BlockPlays(s, 2, 1, Answers(20));
    var t := Last(s, Block(2, 1, Answers(20)));
    assert |t.leases| == 1;
    FirstEnters(Local(NEW, t.leases, Fresh(2, 0, None, false)), 2);
    BlockPlays(t, 3, 2, Answers(20));
    Joins(s, Block(2, 1, Answers(20)), Block(3, 2, Answers(20)));
    acts := Block(2, 1, Answers(20)) + Block(3, 2, Answers(20));
  }

  /**
   * With overlapping executions of a run the bound fails: a behaviour that ends with three runs inside a sandbox
   * command, although the pool never granted more than two leases at a time.
   */
  lemma OverlapBreaksTheBound() returns (states: seq<System>, acts: seq<Action>)
    ensures Behavior(states, acts, false)
    ensures RunsInside(states[|acts|]) == {0, 1, 2}
    ensures |states[|acts|].leases| <= SANDBOX_SLOTS
  {
    hide Next, Play, Awake, Do, Can, Answers, Playable, Trail, Ongoing, WithContext, InsideFor, RunsInside, Last;
    var one := OneOfTheRun();
    var second := SecondOfTheRun(Last(ORIGIN, one));
    Joins(ORIGIN, one, second);
    var shared := one + second;
    var s := Last(ORIGIN, shared);
    var left := OneLeaves(s);
    var t := Last(s, left);
    var more := TwoMoreEnter(t);
    Joins(s, left, more);
    Joins(ORIGIN, shared, left + more);
    acts := shared + (left + more);
    states := Trail(ORIGIN, acts);
    ThreeInside(Last(ORIGIN, acts));
  }

  lemma ThreeInside(s: System)
    requires s.execs.Keys == {0, 1, 2, 3} && s.execs[0].pc.Returned?
    requires InsideFor(s.execs[1], 0) && InsideFor(s.execs[2], 1) && InsideFor(s.execs[3], 2)
    ensures RunsInside(s) == {0, 1, 2}
  {
    assert Inside(s, 1) && Inside(s, 2) && Inside(s, 3) && !Inside(s, 0);
    assert s.execs[1].run in RunsInside(s) && s.execs[2].run in RunsInside(s) && s.execs[3].run in RunsInside(s);
  }
}
