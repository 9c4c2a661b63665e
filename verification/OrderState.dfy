/** Order statuses, the table of allowed transitions, and the transition test. */
module OrderState {

  datatype Status =
    | Pending | Processing | Requested | Accepted | PartialFilled
    | Filled | Canceled | Failed | Timeout

  const TERMINAL_STATES: set<Status> := {Filled, Canceled, Failed, Timeout}

  /** The statuses worker 2 polls. */
  const TRACKED_STATES: set<Status> := {Requested, Accepted, PartialFilled}

  function AllowedNext(s: Status): set<Status> {
    match s
    case Pending => {Processing, Failed}
    case Processing => {Requested, Accepted, Failed, Pending}
    case Requested => {Requested, Accepted, PartialFilled, Filled, Canceled, Failed, Timeout}
    case Accepted => {Accepted, PartialFilled, Filled, Canceled, Failed, Timeout}
    case PartialFilled => {PartialFilled, Filled, Canceled, Failed, Timeout}
    case _ => {}
  }

  /** The test both workers make before writing: a terminal status never moves,
      an unchanged status is always allowed, everything else is looked up. */
  predicate CanTransition(current: Status, next: Status) {
    if current in TERMINAL_STATES then false
    else if current == next then true
    else next in AllowedNext(current)
  }

  /** How far an order has come: 0 before the broker has it, 4 once it is closed. */
  function Rank(s: Status): nat {
    match s
    case Pending => 0
    case Processing => 0
    case Requested => 1
    case Accepted => 2
    case PartialFilled => 3
    case _ => 4
  }

  /** Once the broker has an order, the test lets exactly those moves through that keep the status or raise its
      rank. Before that nothing but a failure skips a stage, and a closed order never moves. */
  lemma TransitionsClimb(current: Status, next: Status)
    ensures current in TRACKED_STATES ==>
              (CanTransition(current, next) <==> current == next || Rank(current) < Rank(next))
    ensures current == Pending ==> (CanTransition(current, next) <==> next in {Pending, Processing, Failed})
    ensures current == Processing ==>
              (CanTransition(current, next) <==> Rank(next) == 0 || next in {Requested, Accepted, Failed})
    ensures CanTransition(current, next) ==> current !in {Filled, Canceled, Failed, Timeout}
  {
  }
}
