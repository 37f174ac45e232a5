/** What the episode store decides about each call on one episode (valops/store/service.py), as a
    function of that episode's log, and what makes a log legal. */
module StoreSpec {
  import opened Wrappers
  import opened Text
  import opened Transitions
  import opened EpisodeRecord

  datatype ErrorCode =
    | UnknownMethod | NotFound | Invalid | Forbidden | IllegalState | Contract | BundleRefused
    | TerminalEpisode | ForbiddenTransition | Conflict | AuditUnavailable | Unauthenticated

  /** A verified capability; the token gate has already bound it to the episode of the call. */
  datatype Capability = Capability(role: Role, session: string, bundleId: string)

  /** A planner skill of the bound bundle; `modes` None means "any". */
  datatype Skill = Skill(forPlanner: bool, modes: Option<set<Mode>>)

  datatype Call =
    | AddHypothesis(claim: string, test: string, expectedEvidence: string, rank: int)
    | RateHypothesis(hypothesis: string, status: Status, refs: seq<string>)
    | Recommend(onHypothesis: string, action: string, skill: string, preconditions: seq<string>,
                postcondition: string, evidence: seq<string>, wellFormed: bool, skills: map<string, Skill>)
    | RecommendNothing(why: string, evidenceRefs: seq<string>)
    | GiveVerdict(target: string, result: Option<VerdictResult>, checks: seq<Check>, checksWellFormed: bool)
    | FileReport(kind: Option<ReportKind>, ref: string)
    | SetState(to: State, expected: int, reason: string)
    | AddSignal(snapshot: Snapshot)
    | Observe(observation: Snapshot)
    | AddCost(costRole: Role, usd: int, turns: int, costSession: Option<string>)
    | AddStep(stepRole: Role, stepSession: Option<string>, ok: bool, stepReason: string, inState: State)
    | Annotate(noteKind: string, note: string)
    | RecordVerification(rule: string, passed: bool, samples: string)
    | RecordRecovery(recoveredRule: string, remark: string)

  /** A call as it arrives: the endpoint's principal, the outcome of the token check (None: refused),
      and the idempotency key ("" when absent). */
  datatype Request = Request(principal: Principal, token: Option<Capability>, key: string, call: Call)

  /** The world's part in a write: the clock, and whether the audit sequencer acknowledged it. */
  datatype Env = Env(ts: int, auditOk: bool, auditRef: string)

  datatype Decision =
    | Refuse(code: ErrorCode)
    | Replay(reply: Reply)
    | Write(body: Body, author: Principal, session: Option<string>, key: string, reply: Reply)

  datatype Outcome = Failed(code: ErrorCode) | Done(reply: Reply)

  // ---------------------------------------------------------------- the endpoints

  predicate AgentCall(c: Call) {
    c.AddHypothesis? || c.RateHypothesis? || c.Recommend? || c.RecommendNothing? || c.GiveVerdict? || c.FileReport?
  }

  /** Which operations exist on which endpoint (DD-8). */
  predicate Served(p: Principal, c: Call) {
    match p
    case EpisodeBroker => AgentCall(c) && !c.FileReport?
    case ReportBroker => c.FileReport?
    case Controller => c.SetState? || c.AddSignal? || c.AddCost? || c.AddStep? || c.Annotate?
    case Verifier => c.RecordVerification? || c.RecordRecovery? || c.SetState?
    case ObserverBroker => c.Observe?
    case _ => false
  }

  /** The role column of the tool table. */
  function ToolRole(c: Call): Role
    requires AgentCall(c)
  {
    match c
    case AddHypothesis(_, _, _, _) => Diagnostician
    case RateHypothesis(_, _, _) => Diagnostician
    case GiveVerdict(_, _, _, _) => ProposalJudge
    case FileReport(_, _) => Reporter
    case _ => ChangePlanner
  }

  /** The legal-state column of the tool table. */
  predicate ToolLegal(c: Call, s: Option<State>)
    requires AgentCall(c)
  {
    match c
    case AddHypothesis(_, _, _, _) => s == Some(Diagnosing)
    case RateHypothesis(_, _, _) => s == Some(Diagnosing)
    case GiveVerdict(_, _, _, _) => s == Some(Judging)
    case FileReport(_, _) => s == Some(Reporting) || s == Some(Resolved)
    case _ => s == Some(Recommending)
  }

  predicate Ended(rec: Record) {
    rec.state.Some? && Terminal(rec.state.value)
  }

  // ---------------------------------------------------------------- checks before the key lookup

  function AgentGate(log: seq<Entry>, rq: Request): Option<ErrorCode>
    requires AgentCall(rq.call)
  {
    if rq.token.None? then Some(Unauthenticated)
    else if log == [] then Some(NotFound)
    else
      var cap, rec := rq.token.value, Fold(log);
      if rec.opening.None? || cap.bundleId != rec.opening.value.bundleId then Some(BundleRefused)
      else if cap.role != ToolRole(rq.call) then Some(Forbidden)
      else if !ToolLegal(rq.call, rec.state) then Some(IllegalState)
      else None
  }

  function Gate(log: seq<Entry>, rq: Request): Option<ErrorCode> {
    var found := if log == [] then Some(NotFound) else None;
    if !Served(rq.principal, rq.call) then Some(UnknownMethod)
    else if AgentCall(rq.call) then AgentGate(log, rq)
    else
      match rq.call
      case SetState(to, _, _) => if rq.principal == Verifier && to != Resolved then Some(ForbiddenTransition) else found
      case Observe(_) =>
        if rq.token.None? then Some(Unauthenticated)
        else if log == [] then Some(NotFound)
        else if Fold(log).opening.None?
          || rq.token.value.bundleId != Fold(log).opening.value.bundleId then Some(BundleRefused)
        else None
      case Annotate(_, note) => if Blank(note) then Some(Invalid) else found
      case RecordVerification(rule, _, _) => if Blank(rule) then Some(Invalid) else found
      case RecordRecovery(rule, _) => if Blank(rule) then Some(Invalid) else found
      case _ => found
  }

  /** The first locked region of `append_verification`; the write comes in a second one. */
  function CheckVerifiable(log: seq<Entry>, rule: string): Option<ErrorCode> {
    if Blank(rule) then Some(Invalid)
    else if log == [] then Some(NotFound)
    else if Ended(Fold(log)) then Some(TerminalEpisode)
    else None
  }

  // ---------------------------------------------------------------- idempotency

  function StateKey(expected: int, to: State): string {
    "state:" + Decimal(expected) + ":" + StateName(to)
  }

  function EffectiveKey(rq: Request): string {
    if rq.call.SetState? && rq.key == "" then StateKey(rq.call.expected, rq.call.to) else rq.key
  }

  predicate BadKey(key: string) {
    Blank(key) || |key| > 200
  }

  /** The stored reply under a key. */
  function Prior(log: seq<Entry>, key: string): Option<Reply> {
    if log == [] then None
    else if log[|log|-1].key == key then Some(log[|log|-1].reply)
    else Prior(log[..|log|-1], key)
  }

  // ---------------------------------------------------------------- contract checks

  function SignalIds(rec: Record): set<string> {
    set i | 0 <= i < |rec.signals| :: rec.signals[i].id
  }

  function HypothesisIds(rec: Record): set<string> {
    set i | 0 <= i < |rec.hypotheses| :: rec.hypotheses[i].id
  }

  /** Evidence is a non-empty list of signals collected in this episode. */
  predicate EvidenceOk(rec: Record, refs: seq<string>) {
    refs != [] && forall i | 0 <= i < |refs| :: refs[i] in SignalIds(rec)
  }

  predicate RankTaken(rec: Record, session: string, rank: int) {
    exists i :: 0 <= i < |rec.hypotheses| && rec.hypotheses[i].stepSession == session && rec.hypotheses[i].rank == rank
  }

  predicate WroteArtefact(rec: Record, session: string) {
    || (exists i :: 0 <= i < |rec.recommendations| && rec.recommendations[i].session == Some(session))
    || (exists i :: 0 <= i < |rec.noActions| && rec.noActions[i].session == Some(session))
  }

  predicate WroteVerdict(rec: Record, session: string) {
    exists i :: 0 <= i < |rec.verdicts| && rec.verdicts[i].session == Some(session)
  }

  /** The bundle lets the planner use this skill in this consensus mode. */
  predicate SkillApplies(skills: map<string, Skill>, skill: string, mode: Mode) {
    && skill in skills
    && skills[skill].forPlanner
    && (skills[skill].modes.Some? ==> mode != UnknownMode && mode in skills[skill].modes.value)
  }

  const REPORT_PREFIX := "report:sha256:"

  function ComposeAgent(rec: Record, cap: Capability, c: Call, key: string): Decision
    requires AgentCall(c)
  {
    var author, session := Agent(cap.role), Some(cap.session);
    match c
    case AddHypothesis(claim, test, expected, rank) =>
      if Blank(claim) || Blank(test) || Blank(expected) then Refuse(Contract)
      else if rank < 1 || RankTaken(rec, cap.session, rank) then Refuse(Contract)
      else
        var id := Numbered('h', |rec.hypotheses| + 1);
        Write(HypothesisBody(id, cap.session, rank, claim, test, expected), author, session, key, IdReply(id))
    case RateHypothesis(h, status, refs) =>
      if h !in HypothesisIds(rec) || status == Unrated || !EvidenceOk(rec, refs) then Refuse(Contract)
      else Write(StatusBody(h, status, refs), author, session, key, OkReply)
    case Recommend(h, action, skill, pre, post, refs, wellFormed, skills) =>
      if WroteArtefact(rec, cap.session) || !wellFormed || h !in HypothesisIds(rec) then Refuse(Contract)
      else if rec.opening.None? || !SkillApplies(skills, skill, rec.opening.value.mode) then Refuse(Contract)
      else if !EvidenceOk(rec, refs) then Refuse(Contract)
      else
        var id := Numbered('r', |rec.recommendations| + 1);
        Write(RecommendationBody(id, h, action, skill, pre, post, refs), author, session, key, IdReply(id))
    case RecommendNothing(why, refs) =>
      if WroteArtefact(rec, cap.session) || Blank(why) || !EvidenceOk(rec, refs) then Refuse(Contract)
      else
        var id := Numbered('n', |rec.noActions| + 1);
        Write(NoActionBody(id, why, refs), author, session, key, IdReply(id))
    case GiveVerdict(target, result, checks, wellFormed) =>
      var under := UnderJudgement(rec);
      if WroteVerdict(rec, cap.session) || under.None? || target != under.value.id then Refuse(Contract)
      else if result.None? || checks == [] || !wellFormed then Refuse(Contract)
      else Write(VerdictBody(target, result.value, checks), author, session, key, OkReply)
    case FileReport(kind, ref) =>
      if kind.None? || rec.state != Some(if kind.value == Incident then Reporting else Resolved)
        then Refuse(IllegalState)
      else if !(REPORT_PREFIX <= ref) then Refuse(Contract)
      else Write(ReportBody(kind.value, ref), author, session, key, OkReply)
  }

  function ComposeState(rec: Record, p: Principal, to: State, expected: int, reason: string, key: string): Decision {
    if Ended(rec) then Refuse(TerminalEpisode)
    else if !EverAllowed(p, to) then Refuse(ForbiddenTransition)
    else if expected != rec.revision then Refuse(Conflict)
    else if rec.state.None? || !Allowed(p, rec.state.value, to) then Refuse(ForbiddenTransition)
    else Write(StateBody(rec.state.value, to, reason), p, None, key, StateReply(rec.revision + 1, to))
  }

  function ComposeSignal(rec: Record, source: Principal, session: Option<string>, snap: Snapshot,
      key: string): Decision {
    if Ended(rec) then Refuse(TerminalEpisode)
    else if Blank(snap.commandId) then Refuse(Invalid)
    else
      var id := Numbered('s', |rec.signals| + 1);
      Write(SignalBody(id, snap, source), source, session, key, IdReply(id))
  }

  function Compose(rec: Record, rq: Request, key: string): Decision
    requires AgentCall(rq.call) || rq.call.Observe? ==> rq.token.Some?
  {
    if AgentCall(rq.call) then ComposeAgent(rec, rq.token.value, rq.call, key)
    else
      var noted := OkRevision(rec.revision + 1);
      match rq.call
      case SetState(to, expected, reason) => ComposeState(rec, rq.principal, to, expected, reason, key)
      case AddSignal(snap) => ComposeSignal(rec, rq.principal, None, snap, key)
      case Observe(snap) =>
        ComposeSignal(rec, ObserverFor(rq.token.value.role), Some(rq.token.value.session), snap, key)
      case AddCost(role, usd, turns, session) =>
        Write(CostBody(role, usd, turns, session), rq.principal, session, key, noted)
      case AddStep(role, session, ok, reason, state) =>
        Write(StepBody(role, session, ok, reason, state), rq.principal, session, key, noted)
      case Annotate(kind, note) => Write(AnnotationBody(kind, note), rq.principal, None, key, noted)
      case RecordVerification(rule, passed, samples) =>
        Write(VerificationBody(rule, passed, samples), rq.principal, None, key, noted)
      case RecordRecovery(rule, remark) => Write(RecoveryBody(rule, remark), rq.principal, None, key, noted)
  }

  /** The decision on a call: gate first, then the key, then the contract. */
  function Decide(log: seq<Entry>, rq: Request): Decision {
    var refused := Gate(log, rq);
    var key := EffectiveKey(rq);
    if refused.Some? then Refuse(refused.value)
    else if BadKey(key) then Refuse(Invalid)
    else if Prior(log, key).Some? then Replay(Prior(log, key).value)
    else Compose(Fold(log), rq, key)
  }

  function NewEntry(log: seq<Entry>, d: Decision, env: Env): Entry
    requires d.Write?
  {
    Entry(Fold(log).revision + 1, env.ts, d.body, d.author, d.session, env.auditRef, d.key, d.reply)
  }

  /** `_append`: nothing is written unless the audit sequencer acknowledged. */
  function Commit(log: seq<Entry>, d: Decision, env: Env): (seq<Entry>, Outcome) {
    match d
    case Refuse(code) => (log, Failed(code))
    case Replay(reply) => (log, Done(reply))
    case Write(_, _, _, _, reply) =>
      if env.auditOk then (log + [NewEntry(log, d, env)], Done(reply)) else (log, Failed(AuditUnavailable))
  }

  function Perform(log: seq<Entry>, rq: Request, env: Env): (seq<Entry>, Outcome) {
    Commit(log, Decide(log, rq), env)
  }

  lemma {:induction false} WriteAppends(log: seq<Entry>, rq: Request, env: Env)
    requires Decide(log, rq).Write? && env.auditOk
    ensures Perform(log, rq, env).0 == log + [NewEntry(log, Decide(log, rq), env)]
  {
    hide Decide;
  }

  // ---------------------------------------------------------------- legal logs

  /** What an entry may be, given the record before it. */
  ghost predicate EntryOk(rec: Record, e: Entry) {
    && e.rev == rec.revision + 1
    && match e.body
       case OpenedBody(_) => rec == EMPTY_RECORD
       case SignalBody(id, _, _) => rec.state.Some? && !Ended(rec) && id == Numbered('s', |rec.signals| + 1)
       case HypothesisBody(id, session, rank, _, _, _) =>
         && rec.state == Some(Diagnosing) && id == Numbered('h', |rec.hypotheses| + 1)
         && e.session == Some(session) && rank >= 1 && !RankTaken(rec, session, rank)
       case StatusBody(h, status, refs) =>
         && rec.state == Some(Diagnosing) && h in HypothesisIds(rec) && status != Unrated && EvidenceOk(rec, refs)
       case RecommendationBody(id, h, _, _, _, _, refs) =>
         && rec.state == Some(Recommending) && id == Numbered('r', |rec.recommendations| + 1)
         && h in HypothesisIds(rec) && EvidenceOk(rec, refs)
         && e.session.Some? && !WroteArtefact(rec, e.session.value)
       case NoActionBody(id, _, refs) =>
         && rec.state == Some(Recommending) && id == Numbered('n', |rec.noActions| + 1)
         && EvidenceOk(rec, refs) && e.session.Some? && !WroteArtefact(rec, e.session.value)
       case VerdictBody(target, _, checks) =>
         && rec.state == Some(Judging) && checks != []
         && UnderJudgement(rec).Some? && UnderJudgement(rec).value.id == target
         && e.session.Some? && !WroteVerdict(rec, e.session.value)
       case ReportBody(kind, _) => rec.state == Some(if kind == Incident then Reporting else Resolved)
       case StateBody(frm, to, _) => rec.state == Some(frm) && !Terminal(frm) && Allowed(e.principal, frm, to)
       case VerificationBody(_, _, _) => rec.state.Some? && e.principal == Verifier
       case RecoveryBody(_, _) => rec.state.Some? && e.principal == Verifier
       case _ => rec.state.Some? && e.principal == Controller
  }

  /** Every entry was admissible when it was written, under a key of its own. */
  ghost predicate Legal(log: seq<Entry>) {
    log != [] ==>
      var before, e := log[..|log|-1], log[|log|-1];
      && Legal(before)
      && EntryOk(Fold(before), e)
      && Prior(before, e.key).None?
      && (before == [] <==> e.body.OpenedBody?)
  }

  lemma {:induction false} LegalPush(log: seq<Entry>, e: Entry)
    ensures Legal(log + [e]) <==>
      Legal(log) && EntryOk(Fold(log), e) && Prior(log, e.key).None? && (log == [] <==> e.body.OpenedBody?)
  {
    assert (log + [e])[..|log|] == log;
  }

  lemma {:induction false} LegalPrefix(log: seq<Entry>, n: nat)
    requires Legal(log) && n <= |log|
    ensures Legal(log[..n])
  {
    if n < |log| {
      LegalPrefix(log[..|log|-1], n);
      assert log[..|log|-1][..n] == log[..n];
    } else {
      assert log[..n] == log;
    }
  }

  lemma {:induction false} FoldAt(log: seq<Entry>, i: nat)
    requires i < |log|
    ensures Fold(log[..i + 1]) == Apply(Fold(log[..i]), log[i])
  {
    assert log[..i + 1] == log[..i] + [log[i]];
    FoldPush(log[..i], log[i]);
  }

  lemma {:induction false} LegalAt(log: seq<Entry>, i: nat)
    requires Legal(log) && i < |log|
    ensures Legal(log[..i]) && EntryOk(Fold(log[..i]), log[i]) && (i == 0 <==> log[i].body.OpenedBody?)
  {
    var n := |log| - 1;
    if i < n {
      var before := log[..n];
      LegalAt(before, i);
      assert before[..i] == log[..i] && before[i] == log[i];
    }
  }

  lemma {:induction false} LegalRevisions(log: seq<Entry>)
    requires Legal(log)
    ensures Fold(log).revision == |log|
    ensures forall i | 0 <= i < |log| :: log[i].rev == i + 1
    ensures log != [] ==> Fold(log).state.Some? && Fold(log).opening.Some?
    ensures IncreasingRevs(log)
  {
    if log != [] {
      LegalRevisions(log[..|log|-1]);
    }
  }

  lemma {:induction false} ComposeAgentOk(rec: Record, cap: Capability, c: Call, key: string, e: Entry)
    requires AgentCall(c) && ToolLegal(c, rec.state)
    requires var d := ComposeAgent(rec, cap, c, key);
      d.Write? && e.rev == rec.revision + 1 && e.body == d.body && e.principal == d.author && e.session == d.session
    ensures EntryOk(rec, e) && !e.body.OpenedBody?
    ensures e.principal == Agent(cap.role) && e.session == Some(cap.session)
  {
  }

  lemma {:induction false} ComposeOk(rec: Record, rq: Request, key: string, e: Entry)
    requires Served(rq.principal, rq.call) && rec.state.Some?
    requires AgentCall(rq.call) ==> rq.token.Some? && ToolLegal(rq.call, rec.state)
    requires rq.call.Observe? ==> rq.token.Some?
    requires var d := Compose(rec, rq, key);
      d.Write? && e.rev == rec.revision + 1 && e.body == d.body && e.principal == d.author && e.session == d.session
    ensures EntryOk(rec, e) && !e.body.OpenedBody?
  {
    if AgentCall(rq.call) {
      ComposeAgentOk(rec, rq.token.value, rq.call, key, e);
    }
  }

  /** Passing the gate: the operation is served here, the episode exists, and an agent's capability
      has the role and the episode the state that the tool table asks for. */
  lemma {:induction false} GatePassed(log: seq<Entry>, rq: Request)
    requires Gate(log, rq).None?
    ensures Served(rq.principal, rq.call) && log != []
    ensures AgentCall(rq.call) ==>
      && rq.token.Some? && rq.token.value.role == ToolRole(rq.call) && ToolLegal(rq.call, Fold(log).state)
      && Fold(log).opening.Some? && Fold(log).opening.value.bundleId == rq.token.value.bundleId
    ensures rq.call.Observe? ==> rq.token.Some?
  {
  }

  /** Every accepted write is an admissible entry under a fresh key. */
  lemma {:induction false} DecideIsLegal(log: seq<Entry>, rq: Request, env: Env)
    requires Legal(log) && Decide(log, rq).Write?
    ensures var d := Decide(log, rq);
      && log != [] && EntryOk(Fold(log), NewEntry(log, d, env)) && !d.body.OpenedBody?
      && Prior(log, d.key).None?
  {
    LegalRevisions(log);
    GatePassed(log, rq);
    ComposeOk(Fold(log), rq, EffectiveKey(rq), NewEntry(log, Decide(log, rq), env));
    ComposeKey(Fold(log), rq, EffectiveKey(rq));
  }

  /** The writer of an entry and the kind of entry follow from the call. */
  ghost predicate WrittenBy(rq: Request, b: Body, author: Principal, session: Option<string>) {
    && !b.OpenedBody?
    && (b.StateBody? <==> rq.call.SetState?)
    && (b.StepBody? <==> rq.call.AddStep?)
    && (b.CostBody? <==> rq.call.AddCost?)
    && (b.VerificationBody? <==> rq.call.RecordVerification?)
    && (b.RecoveryBody? <==> rq.call.RecordRecovery?)
    && (b.VerdictBody? || b.RecommendationBody? || b.NoActionBody? ==> AgentCall(rq.call))
    && (AgentCall(rq.call) ==>
          rq.token.Some? && author == Agent(rq.token.value.role) && session == Some(rq.token.value.session))
    && (!AgentCall(rq.call) && !rq.call.Observe? ==> author == rq.principal)
  }

  lemma {:induction false} AgentWrites(rec: Record, rq: Request, key: string)
    requires AgentCall(rq.call) && rq.token.Some? && ComposeAgent(rec, rq.token.value, rq.call, key).Write?
    ensures var d := ComposeAgent(rec, rq.token.value, rq.call, key); WrittenBy(rq, d.body, d.author, d.session)
  {
  }

  lemma {:induction false} ComposeWrites(rec: Record, rq: Request, key: string)
    requires AgentCall(rq.call) || rq.call.Observe? ==> rq.token.Some?
    requires Compose(rec, rq, key).Write?
    ensures var d := Compose(rec, rq, key); WrittenBy(rq, d.body, d.author, d.session)
  {
    hide ComposeAgent;
    if AgentCall(rq.call) {
      AgentWrites(rec, rq, key);
    }
  }

  lemma {:induction false} DecideWrites(log: seq<Entry>, rq: Request, env: Env)
    requires Decide(log, rq).Write?
    ensures Served(rq.principal, rq.call)
    ensures var e := NewEntry(log, Decide(log, rq), env);
      WrittenBy(rq, e.body, e.principal, e.session) && e.ts == env.ts
  {
    hide Compose, WrittenBy, Served;
    GatePassed(log, rq);
    ComposeWrites(Fold(log), rq, EffectiveKey(rq));
  }

  lemma {:induction false} ComposeKey(rec: Record, rq: Request, key: string)
    requires AgentCall(rq.call) || rq.call.Observe? ==> rq.token.Some?
    ensures Compose(rec, rq, key).Write? ==> Compose(rec, rq, key).key == key
    ensures !Compose(rec, rq, key).Replay?
  {
  }

  lemma {:induction false} PerformIsLegal(log: seq<Entry>, rq: Request, env: Env)
    requires Legal(log)
    ensures Legal(Perform(log, rq, env).0)
    ensures log <= Perform(log, rq, env).0
  {
    var d := Decide(log, rq);
    if d.Write? {
      DecideIsLegal(log, rq, env);
      LegalPush(log, NewEntry(log, d, env));
    }
  }
}
