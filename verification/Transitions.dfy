/** Episode states, roles and principals (valops/store/transitions.py, valops/common/tools.py). */
module Transitions {

  datatype State = Open | Diagnosing | Recommending | Judging | Reporting | AwaitingOperator | Resolved | HandedOff

  datatype Role = Diagnostician | ChangePlanner | ProposalJudge | Reporter

  /** The endpoint a call arrived on, or for stored entries also the agent behind a broker. */
  datatype Principal =
    | Controller
    | Verifier
    | EpisodeBroker
    | ReportBroker
    | ObserverBroker
    | Agent(role: Role)
    | ObserverFor(role: Role)

  predicate Terminal(s: State) {
    s == Resolved || s == HandedOff
  }

  predicate ControllerMay(frm: State, to: State) {
    || (frm == Open && to == Diagnosing)
    || (frm == Diagnosing && (to == Recommending || to == Reporting))
    || (frm == Recommending && to == Judging)
    || (frm == Judging && (to == Recommending || to == Reporting))
    || (frm == Reporting && to == AwaitingOperator)
    || (!Terminal(frm) && to == HandedOff)
  }

  /** DD-11: the verifier resolves, and only from `awaiting_operator`. */
  predicate Allowed(p: Principal, frm: State, to: State) {
    match p
    case Controller => ControllerMay(frm, to)
    case Verifier => frm == AwaitingOperator && to == Resolved
    case _ => false
  }

  predicate EverAllowed(p: Principal, to: State) {
    exists frm :: Allowed(p, frm, to)
  }

  function StateName(s: State): string {
    match s
    case Open => "open"
    case Diagnosing => "diagnosing"
    case Recommending => "recommending"
    case Judging => "judging"
    case Reporting => "reporting"
    case AwaitingOperator => "awaiting_operator"
    case Resolved => "resolved"
    case HandedOff => "handed_off"
  }

  /** The role whose step runs in a state. */
  function StepRole(s: State): Role {
    match s
    case Diagnosing => Diagnostician
    case Recommending => ChangePlanner
    case Judging => ProposalJudge
    case _ => Reporter
  }
}
