/** The run status table and the terminal set, with the facts about status traces. */
module RunStatuses {

  datatype RunStatus = Queued | Running | AwaitingUserInput | Completed | Failed | Cancelling | Cancelled

  const TERMINAL: set<RunStatus> := {AwaitingUserInput, Completed, Failed, Cancelled}

  predicate IsTerminal(status: RunStatus) {
    status in TERMINAL
  }

  function Transitions(from: RunStatus): set<RunStatus> {
    match from
    case Queued => {Running, Cancelling, Cancelled, Failed}
    case Running => {Running, AwaitingUserInput, Completed, Failed, Cancelling, Cancelled}
    case Cancelling => {Cancelling, Cancelled, Failed}
    case AwaitingUserInput => {}
    case Completed => {}
    case Failed => {}
    case Cancelled => {}
  }

  predicate CanTransition(from: RunStatus, to: RunStatus) {
    to in Transitions(from)
  }

  /** The only statuses a run can still be driven from. */
  const OPEN: set<RunStatus> := {Queued, Running, Cancelling}

  /** The terminal set, which is written down separately from the table, is exactly the table's set of sinks. */
  lemma TerminalIsSink(status: RunStatus)
    ensures IsTerminal(status) <==> forall to :: !CanTransition(status, to)
    ensures IsTerminal(status) <==> status !in OPEN
  {
    if !IsTerminal(status) {
      assert CanTransition(status, Failed);
    }
  }

  /** A history of statuses in which every change is one the table allows; the status may also stay as it is. */
  ghost predicate IsTrace(trace: seq<RunStatus>) {
    forall i :: 0 <= i < |trace| - 1 ==> trace[i] == trace[i + 1] || CanTransition(trace[i], trace[i + 1])
  }

  /** Once terminal, for ever terminal with the same status. */
  lemma {:induction false} TerminalIsForever(trace: seq<RunStatus>, i: nat, j: nat)
    requires IsTrace(trace) && i <= j < |trace|
    requires IsTerminal(trace[i])
    ensures trace[j] == trace[i]
    decreases j - i
  {
    if i == j {
    } else {
      TerminalIsForever(trace, i, j - 1);
      assert trace[j - 1] == trace[j - 1 + 1] || CanTransition(trace[j - 1], trace[j - 1 + 1]);
    }
  }

  /** A run that was ever asked to cancel never delivers a response. */
  lemma {:induction false} CancellingNeverDelivers(trace: seq<RunStatus>, i: nat, j: nat)
    requires IsTrace(trace) && i <= j < |trace|
    requires trace[i] == Cancelling
    ensures trace[j] in {Cancelling, Cancelled, Failed}
    decreases j - i
  {
    if i == j {
    } else {
      CancellingNeverDelivers(trace, i, j - 1);
      assert trace[j - 1] == trace[j - 1 + 1] || CanTransition(trace[j - 1], trace[j - 1 + 1]);
    }
  }
}
