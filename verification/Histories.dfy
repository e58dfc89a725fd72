/** What one execution and its surroundings may do together: the machine's steps, interleaved with everybody else's. */
module Histories {
  import opened Machine
  import opened Ports

  datatype Moment = Moment(w: World, x: Exec)

  /** The next moment of the machine when the port answers `a`. */
  function Next(m: Moment, a: Answer): Moment {
    var f := Act(m.w.d, m.w.leases, m.w.now, m.x, a);
    Moment(World(f.d, f.leases, m.w.now), f.x)
  }

  /** The one assumption on replies: a busy pool does not ask to be called again at once. */
  predicate MayAnswer(x: Exec, a: Answer) {
    (x.pc.CapacityAcquire? || x.pc.CapacityRecord?) && a.Throws? ==> Patient(a.fault)
  }

  ghost predicate Stepped(m: Moment, next: Moment) {
    !m.x.pc.Returned? && exists a :: MayAnswer(m.x, a) && next == Next(m, a)
  }

  ghost predicate Link(m: Moment, next: Moment) {
    Stepped(m, next) || (next.x == m.x && Rely(m.w, next.w))
  }

  ghost predicate Lawful(history: seq<Moment>) {
    forall i :: 0 <= i < |history| - 1 ==> Link(history[i], history[i + 1])
  }

  lemma LawfulExtends(history: seq<Moment>, next: Moment)
    requires Lawful(history) && history != [] && Link(history[|history| - 1], next)
    ensures Lawful(history + [next])
  {
    hide Link;
  }

  lemma LawfulAtStart(m: Moment)
    ensures Lawful([m])
  {
  }
}
