/** The controller's episode runner (valops/controller/runner.py) as a step system. Each store call is one
    atomic step; between any two, workers, the sentinel and the verifier may write. */
module RunnerSpec {
  import opened Wrappers
  import opened Transitions
  import opened EpisodeRecord
  import opened StoreSpec
  import opened Visits
  import Artefacts

  /** Where the runner is in `advance` for this episode. */
  datatype Pc =
    | Idle
    | Deciding(rec: Record, to: State)                                     // about to CAS with rec's revision
    | Working(state: State, session: string)                               // the worker runs
    | Checking(state: State, session: string)                              // token revoked, about to validate
    | Recording(state: State, session: string, ok: bool, limitHit: bool)   // about to append_step
    | Recorded(state: State, session: string, ok: bool, limitHit: bool)    // about to re-read and decide

  /** A call the store still works on although the runner has given up on it or died. */
  datatype Orphan =
    | LateCas(rec: Record, to: State)
    | LateStep(state: State, session: string, ok: bool)
    | LateCost(state: State, session: string)

  /** `minted` are the sessions capabilities exist for; `live` is the one not yet revoked. `started` counts
      role steps, `lost` CAS attempts whose revision had moved, `faults` every other store failure,
      exception or crash. */
  datatype System = System(log: seq<Entry>, pc: Pc, minted: map<string, Role>, live: Option<string>,
                           started: nat, lost: nat, faults: nat, orphans: seq<Orphan>)

  datatype BundleStatus = Fine | Unusable | Condemned

  /** `CostLost`: no reply came to `append_cost`, and the step goes on. `Crash` ends the pass where it stands:
      the process dies, or an error leaves the rest to the next tick. `answered` says that no store call was
      then waited for. `Land`: a call the runner no longer waits for takes effect. */
  datatype Label =
    | Begin(session: string, bundle: BundleStatus, llm: bool)
    | Work(rq: Request, env: Env)
    | Outside(rq: Request, env: Env)
    | IsolationFailure
    | EndStep
    | RecordCost(usd: int, turns: int, env: Env)
    | Validate(completed: bool, limitHit: bool, out: Option<Artefacts.Structured>, alerts: seq<Artefacts.Alert>)
    | RecordStep(reason: string, env: Env)
    | Reread
    | Cas(env: Env)
    | CostLost
    | Fault(answered: bool)
    | Crash(answered: bool)
    | Land(which: nat, usd: int, turns: int, reason: string, env: Env)

  // ---------------------------------------------------------------- the controller's decisions

  function Failures(steps: seq<StepRecord>, role: Role, since: int): nat {
    if steps == [] then 0
    else
      var s := steps[|steps|-1];
      Failures(steps[..|steps|-1], role, since) + (if s.role == role && !s.ok && s.ts >= since then 1 else 0)
  }

  /** `_failures_in_state`, counted. */
  function FailuresInState(rec: Record, role: Role): nat {
    if rec.history == [] then 0 else Failures(rec.steps, role, rec.history[|rec.history|-1].ts)
  }

  /** `advance` after a step: where to move the episode, if anywhere. */
  function AfterStep(rec: Record, state: State, ok: bool, limitHit: bool, b: Budgets): Option<State> {
    if !ok then
      if limitHit || FailuresInState(rec, StepRole(state)) > b.p08 then Some(HandedOff) else None
    else
      match state
      case Diagnosing => Some(if rec.recoveries != [] || RefutedAll(rec) then Reporting else Recommending)
      case Recommending => Some(Judging)
      case Judging =>
        if rec.verdicts != [] && rec.verdicts[|rec.verdicts|-1].result == Pass then Some(Reporting)
        else if FailCount(rec.verdicts) <= b.p09 then Some(Recommending)
        else Some(HandedOff)
      case Reporting => Some(AwaitingOperator)
      case _ => None
  }

  /** `_closure`: may the closure reporter run? */
  predicate ClosureDue(rec: Record, b: Budgets) {
    !HasReport(rec, Closure) && ClosureFailures(rec.steps) <= b.p08
  }

  function ClosureFailures(steps: seq<StepRecord>): nat {
    if steps == [] then 0
    else
      var s := steps[|steps|-1];
      ClosureFailures(steps[..|steps|-1]) + (if s.role == Reporter && s.state == Resolved && !s.ok then 1 else 0)
  }

  predicate Steppable(s: State) {
    s == Diagnosing || s == Recommending || s == Judging || s == Reporting
  }

  /** The head of `advance`: read the record and choose. */
  function Chosen(s: System, session: string, bundle: BundleStatus, llm: bool, b: Budgets): System {
    var rec := Fold(s.log);
    if rec.state.None? || rec.state == Some(HandedOff) || rec.state == Some(AwaitingOperator) then s
    else if bundle == Condemned then s.(pc := Deciding(rec, HandedOff))
    else if bundle == Unusable || !llm then s
    else if rec.state == Some(Resolved) then
      if ClosureDue(rec, b) then Launched(s, Resolved, session) else s
    else if rec.state == Some(Open) then s.(pc := Deciding(rec, Diagnosing))
    else Launched(s, rec.state.value, session).(started := s.started + 1)
  }

  /** A capability is minted for a session never used before; session ids are uuids. */
  function Launched(s: System, state: State, session: string): System {
    s.(pc := Working(state, session), minted := s.minted[session := StepRole(state)], live := Some(session))
  }

  // ---------------------------------------------------------------- other parties

  predicate Reserved(key: string) {
    "state:" <= key || "step:" <= key || "cost:" <= key
  }

  /** A worker's call: an agent operation or an observation, under a capability that was minted;
      when revocation is exact, under the live one. */
  predicate WorkerMay(s: System, rq: Request, strict: bool) {
    && (AgentCall(rq.call) || rq.call.Observe?)
    && rq.token.Some? && rq.token.value.session in s.minted
    && s.minted[rq.token.value.session] == rq.token.value.role
    && (strict ==> s.live == Some(rq.token.value.session))
    && !Reserved(rq.key)
  }

  /** The sentinel's writes through store-control, and anything the verifier's endpoint serves. */
  predicate OutsiderMay(rq: Request) {
    && (rq.principal == Controller ==> rq.call.AddSignal? || rq.call.Annotate?)
    && (rq.principal == Controller || rq.principal == Verifier)
    && !Reserved(rq.key)
  }

  /** Time does not run backwards. */
  predicate Timely(log: seq<Entry>, env: Env) {
    log == [] || env.ts >= log[|log|-1].ts
  }

  // ---------------------------------------------------------------- steps

  function StepRequest(state: State, session: string, ok: bool, reason: string): Request {
    Request(Controller, None, "step:" + session, AddStep(StepRole(state), Some(session), ok, reason, state))
  }

  function CostRequest(state: State, session: string, usd: int, turns: int): Request {
    Request(Controller, None, "cost:" + session, AddCost(StepRole(state), usd, turns, Some(session)))
  }

  function CasRequest(rec: Record, to: State): Request {
    Request(Controller, None, StateKey(rec.revision, to), SetState(to, rec.revision, ""))
  }

  /** What the store goes on with when the runner stops waiting for it. */
  function Left(pc: Pc): seq<Orphan> {
    match pc
    case Deciding(rec, to) => [LateCas(rec, to)]
    case Checking(state, session) => [LateCost(state, session)]
    case Recording(state, session, ok, _) => [LateStep(state, session, ok)]
    case _ => []
  }

  function Without(os: seq<Orphan>, i: nat): seq<Orphan>
    requires i < |os|
  {
    os[..i] + os[i + 1..]
  }

  function LateRequest(o: Orphan, usd: int, turns: int, reason: string): Request {
    match o
    case LateCas(rec, to) => CasRequest(rec, to)
    case LateStep(state, session, ok) => StepRequest(state, session, ok, reason)
    case LateCost(state, session) => CostRequest(state, session, usd, turns)
  }

  /** `strict` says that nothing outlives its step: a capability is unusable once its step has ended, and
      no store call takes effect after the runner has given up on it. */
  function Next(s: System, l: Label, b: Budgets, strict: bool): System {
    match l
    case Begin(session, bundle, llm) =>
      if s.pc == Idle && session !in s.minted && |session| <= 100 then Chosen(s, session, bundle, llm, b) else s
    case Work(rq, env) =>
      if WorkerMay(s, rq, strict) && Timely(s.log, env) then s.(log := Perform(s.log, rq, env).0) else s
    case Outside(rq, env) =>
      if OutsiderMay(rq) && Timely(s.log, env) then s.(log := Perform(s.log, rq, env).0) else s
    case IsolationFailure =>
      if s.pc.Checking? && s.pc.state == Judging then s.(pc := Deciding(Fold(s.log), HandedOff)) else s
    case EndStep =>
      if s.pc.Working? then s.(pc := Checking(s.pc.state, s.pc.session), live := None) else s
    case RecordCost(usd, turns, env) =>
      if s.pc.Checking? && Timely(s.log, env) then
        s.(log := Perform(s.log, CostRequest(s.pc.state, s.pc.session, usd, turns), env).0)
      else s
    case Validate(completed, limitHit, out, alerts) =>
      if s.pc.Checking? then
        var kind := if s.pc.state == Resolved then Closure else Incident;
        var ok := completed && Artefacts.StepOk(Fold(s.log), StepRole(s.pc.state), s.pc.session, kind, alerts, out);
        s.(pc := Recording(s.pc.state, s.pc.session, ok, limitHit && !ok))
      else s
    case RecordStep(reason, env) =>
      if s.pc.Recording? && Timely(s.log, env) then
        var rq := StepRequest(s.pc.state, s.pc.session, s.pc.ok, reason);
        if Decide(s.log, rq).Write? && env.auditOk then
          s.(log := Perform(s.log, rq, env).0, pc := Recorded(s.pc.state, s.pc.session, s.pc.ok, s.pc.limitHit))
        else if Decide(s.log, rq).Write? then s.(pc := Idle, faults := s.faults + 1)
        else AfterError(s, true)
      else s
    case Reread =>
      if s.pc.Recorded? then
        var rec := Fold(s.log);
        var to := AfterStep(rec, s.pc.state, s.pc.ok, s.pc.limitHit, b);
        s.(pc := if s.pc.state == Resolved || to.None? then Idle else Deciding(rec, to.value))
      else s
    case Cas(env) =>
      if s.pc.Deciding? && Timely(s.log, env) then
        var rq := CasRequest(s.pc.rec, s.pc.to);
        if Decide(s.log, rq).Write? && env.auditOk then s.(log := Perform(s.log, rq, env).0, pc := Idle)
        else if Fold(s.log).revision != s.pc.rec.revision then s.(pc := Idle, lost := s.lost + 1)
        else s.(pc := Idle, faults := s.faults + 1)
      else s
    case CostLost =>
      if s.pc.Checking? && !strict then s.(orphans := s.orphans + Left(s.pc)) else s
    case Fault(answered) => AfterError(s, strict || answered)
    case Crash(answered) =>
      s.(pc := Idle, live := None, faults := s.faults + 1,
         orphans := s.orphans + (if strict || answered then [] else Left(s.pc)))
    case Land(i, usd, turns, reason, env) =>
      if i < |s.orphans| && Timely(s.log, env) then
        s.(log := Perform(s.log, LateRequest(s.orphans[i], usd, turns, reason), env).0,
           orphans := Without(s.orphans, i))
      else s
  }

  /** R-4: an error ends the step and goes to hand-off from a fresh read. */
  function AfterError(s: System, answered: bool): System {
    s.(pc := Deciding(Fold(s.log), HandedOff), live := None, faults := s.faults + 1,
       orphans := s.orphans + (if answered then [] else Left(s.pc)))
  }

  /** An episode just opened. */
  ghost predicate Initial(s: System) {
    && Legal(s.log) && |s.log| == 1 && !Reserved(s.log[0].key)
    && s == System(s.log, Idle, map[], None, 0, 0, 0, [])
  }

  function Exec(s: System, ls: seq<Label>, b: Budgets, strict: bool): System {
    if ls == [] then s else Next(Exec(s, ls[..|ls|-1], b, strict), ls[|ls|-1], b, strict)
  }
}
