/** What each call answers and leaves in the record (valops/store/service.py with valops/store/fold.py): the checks
    in the order in which they refuse, and otherwise the record field by field. */
module StoreAnswers {
  import opened Wrappers
  import opened Text
  import opened Transitions
  import opened EpisodeRecord
  import opened StoreSpec

  /** One check, and the rest of them if it passes. */
  function Require(passes: bool, code: ErrorCode, rest: Option<ErrorCode>): Option<ErrorCode> {
    if passes then rest else Some(code)
  }

  /** The error, or one entry more and this record. */
  ghost predicate Answers(log: seq<Entry>, rq: Request, env: Env, refused: Option<ErrorCode>, author: Principal,
      session: Option<string>, reply: Reply, record: Record) {
    var (after, outcome) := Perform(log, rq, env);
    match refused
    case Some(code) => after == log && outcome == Failed(code)
    case None =>
      if !env.auditOk then after == log && outcome == Failed(AuditUnavailable)
      else
        && outcome == Done(reply) && |after| == |log| + 1 && after[..|log|] == log && Fold(after) == record
        && var e := after[|log|];
           e.principal == author && e.session == session && e.ts == env.ts && e.auditRef == env.auditRef
  }

  lemma {:induction false} RefusedAnswers(log: seq<Entry>, rq: Request, env: Env, code: ErrorCode, author: Principal,
      session: Option<string>, reply: Reply, record: Record)
    requires Decide(log, rq) == Refuse(code)
    ensures Answers(log, rq, env, Some(code), author, session, reply, record)
  {
    hide Decide;
  }

  lemma {:induction false} WrittenAnswers(log: seq<Entry>, rq: Request, env: Env, body: Body, author: Principal,
      session: Option<string>, reply: Reply, record: Record)
    requires Decide(log, rq) == Write(body, author, session, EffectiveKey(rq), reply)
    requires record == Apply(Fold(log), Entry(Fold(log).revision + 1, env.ts, body, author, session, env.auditRef,
                                              EffectiveKey(rq), reply))
    ensures Answers(log, rq, env, None, author, session, reply, record)
  {
    hide Decide, Apply, Fold;
    if env.auditOk {
      WriteAppends(log, rq, env);
      FoldPush(log, NewEntry(log, Decide(log, rq), env));
    }
  }

  /** The decision on a call is a refusal, or a write of this body. */
  ghost predicate Decides(log: seq<Entry>, rq: Request, refused: Option<ErrorCode>, body: Body, author: Principal,
      session: Option<string>, reply: Reply) {
    Decide(log, rq) ==
    match refused
    case Some(code) => Refuse(code)
    case None => Write(body, author, session, EffectiveKey(rq), reply)
  }

  lemma {:induction false} DecidedAnswers(log: seq<Entry>, rq: Request, env: Env, refused: Option<ErrorCode>,
      body: Body, author: Principal, session: Option<string>, reply: Reply, record: Record)
    requires Decides(log, rq, refused, body, author, session, reply)
    requires record == Apply(Fold(log), Entry(Fold(log).revision + 1, env.ts, body, author, session, env.auditRef,
                                              EffectiveKey(rq), reply))
    ensures Answers(log, rq, env, refused, author, session, reply, record)
  {
    hide Decide, Apply, Fold, Answers;
    if refused.Some? {
      RefusedAnswers(log, rq, env, refused.value, author, session, reply, record);
    } else {
      WrittenAnswers(log, rq, env, body, author, session, reply, record);
    }
  }

  predicate GoodKey(key: string) {
    1 <= |key| <= 200 && exists i :: 0 <= i < |key| && !Whitespace(key[i])
  }

  lemma {:induction false} GoodKeyIff(key: string)
    ensures GoodKey(key) <==> !BadKey(key)
  {
  }

  /** The checks before the key lookup that all agents' calls share, in their order. */
  function AgentChecks(log: seq<Entry>, cap: Capability, role: Role, states: set<State>, key: string,
      rest: Option<ErrorCode>): Option<ErrorCode> {
    var rec := Fold(log);
    Require(log != [], NotFound,
    Require(rec.opening.Some? && rec.opening.value.bundleId == cap.bundleId, BundleRefused,
    Require(cap.role == role, Forbidden,
    Require(rec.state.Some? && rec.state.value in states, IllegalState,
    Require(GoodKey(key), Invalid, rest)))))
  }

  predicate Collected(rec: Record, id: string) {
    exists j :: 0 <= j < |rec.signals| && rec.signals[j].id == id
  }

  /** The cited signals exist, and there is one. */
  predicate Cites(rec: Record, refs: seq<string>) {
    |refs| >= 1 && forall i | 0 <= i < |refs| :: Collected(rec, refs[i])
  }

  predicate Hypothesised(rec: Record, id: string) {
    exists i :: 0 <= i < |rec.hypotheses| && rec.hypotheses[i].id == id
  }

  lemma {:induction false} CitesIff(rec: Record, refs: seq<string>)
    ensures Cites(rec, refs) <==> EvidenceOk(rec, refs)
  {
    forall i | 0 <= i < |refs| ensures refs[i] in SignalIds(rec) <==> Collected(rec, refs[i]) {
      if Collected(rec, refs[i]) {
        var j :| 0 <= j < |rec.signals| && rec.signals[j].id == refs[i];
        assert rec.signals[j].id in SignalIds(rec);
      }
    }
  }

  lemma {:induction false} HypothesisedIff(rec: Record, id: string)
    ensures Hypothesised(rec, id) <==> id in HypothesisIds(rec)
  {
  }

  // ---------------------------------------------------------------- the agents' calls

  /** The decision on an agent's call under a new key: these checks, and then the contract. */
  lemma {:induction false} AgentDecision(log: seq<Entry>, p: Principal, cap: Capability, key: string, call: Call,
      serving: Principal, role: Role, states: set<State>)
    requires Prior(log, key).None? && AgentCall(call)
    requires Served(p, call) <==> p == serving
    requires ToolRole(call) == role && forall s :: ToolLegal(call, Some(s)) <==> s in states
    ensures var before := Require(p == serving, UnknownMethod, AgentChecks(log, cap, role, states, key, None));
      Decide(log, Request(p, Some(cap), key, call)) ==
      if before.Some? then Refuse(before.value) else ComposeAgent(Fold(log), cap, call, key)
  {
    hide ComposeAgent, Served, ToolRole, Fold, Prior, GoodKey, BadKey, ToolLegal;
    GoodKeyIff(key);
    NoState(call);
  }

  lemma {:induction false} NoState(call: Call)
    requires AgentCall(call)
    ensures !ToolLegal(call, None)
  {
  }

  /** An agent's call answers with the first error among the shared checks and its own, or is written. */
  lemma {:induction false} AgentAnswered(log: seq<Entry>, p: Principal, cap: Capability, key: string, call: Call,
      env: Env, serving: Principal, role: Role, states: set<State>, own: Option<ErrorCode>, body: Body, reply: Reply,
      record: Record)
    requires Prior(log, key).None? && AgentCall(call)
    requires Served(p, call) <==> p == serving
    requires ToolRole(call) == role && forall s :: ToolLegal(call, Some(s)) <==> s in states
    requires Fold(log).state.Some? && Fold(log).state.value in states && cap.role == role ==>
      ComposeAgent(Fold(log), cap, call, key) ==
      match own
      case Some(code) => Refuse(code)
      case None => Write(body, Agent(role), Some(cap.session), key, reply)
    requires record == Apply(Fold(log), Entry(Fold(log).revision + 1, env.ts, body, Agent(role), Some(cap.session),
                                              env.auditRef, key, reply))
    ensures Answers(log, Request(p, Some(cap), key, call), env,
                    Require(p == serving, UnknownMethod, AgentChecks(log, cap, role, states, key, own)),
                    Agent(role), Some(cap.session), reply, record)
  {
    hide ComposeAgent, Served, ToolRole, Fold, Prior, GoodKey, ToolLegal, Answers, Apply, Decide;
    AgentDecision(log, p, cap, key, call, serving, role, states);
    DecidedAnswers(log, Request(p, Some(cap), key, call), env,
                   Require(p == serving, UnknownMethod, AgentChecks(log, cap, role, states, key, own)), body,
                   Agent(role), Some(cap.session), reply, record);
  }

  /** The rank is positive and the session has not used it. */
  predicate RankFree(rec: Record, session: string, rank: int) {
    rank >= 1 && forall i | 0 <= i < |rec.hypotheses| ::
      rec.hypotheses[i].stepSession != session || rec.hypotheses[i].rank != rank
  }

  function WithHypothesis(rec: Record, h: Hypothesis): Record {
    rec.(revision := rec.revision + 1, hypotheses := rec.hypotheses + [h])
  }

  /** A hypothesis is recorded as it was claimed, under the rank it asked for and the session of its token. */
  lemma {:induction false} HypothesisAnswered(log: seq<Entry>, p: Principal, cap: Capability, key: string,
      claim: string, test: string, expected: string, rank: int, env: Env)
    requires Prior(log, key).None?
    ensures var rec := Fold(log);
      var id := Numbered('h', |rec.hypotheses| + 1);
      Answers(log, Request(p, Some(cap), key, AddHypothesis(claim, test, expected, rank)), env,
        Require(p == EpisodeBroker, UnknownMethod,
        AgentChecks(log, cap, Diagnostician, {Diagnosing}, key,
        Require(!Blank(claim) && !Blank(test) && !Blank(expected), Contract,
        Require(RankFree(rec, cap.session, rank), Contract, None)))),
        Agent(Diagnostician), Some(cap.session), IdReply(id),
        WithHypothesis(rec, Hypothesis(id, cap.session, rank, claim, test, expected, Unrated, [], [])))
  {
    hide Answers, Fold, Prior, Numbered, AgentChecks, Blank;
    var rec := Fold(log);
    var id := Numbered('h', |rec.hypotheses| + 1);
    AgentAnswered(log, p, cap, key, AddHypothesis(claim, test, expected, rank), env, EpisodeBroker, Diagnostician,
      {Diagnosing},
      Require(!Blank(claim) && !Blank(test) && !Blank(expected), Contract,
      Require(RankFree(rec, cap.session, rank), Contract, None)),
      HypothesisBody(id, cap.session, rank, claim, test, expected), IdReply(id),
      WithHypothesis(rec, Hypothesis(id, cap.session, rank, claim, test, expected, Unrated, [], [])));
  }

  /** The hypotheses after one of them has been rated: that one has the new status and evidence, and every other
      is what it was. */
  predicate RatedOnly(before: seq<Hypothesis>, after: seq<Hypothesis>, id: string, status: Status, refs: seq<string>,
      ts: int) {
    && |after| == |before|
    && forall i | 0 <= i < |before| ::
         after[i] ==
         if before[i].id == id then
           before[i].(status := status, refs := refs, ratings := before[i].ratings + [(ts, status)])
         else before[i]
  }

  /** A rating gives the hypothesis it names its status and its evidence. */
  lemma {:induction false} RatingAnswered(log: seq<Entry>, p: Principal, cap: Capability, key: string, id: string,
      status: Status, refs: seq<string>, env: Env) returns (hs: seq<Hypothesis>)
    requires Prior(log, key).None?
    ensures RatedOnly(Fold(log).hypotheses, hs, id, status, refs, env.ts)
    ensures var rec := Fold(log);
      Answers(log, Request(p, Some(cap), key, RateHypothesis(id, status, refs)), env,
        Require(p == EpisodeBroker, UnknownMethod,
        AgentChecks(log, cap, Diagnostician, {Diagnosing}, key,
        Require(Hypothesised(rec, id), Contract,
        Require(status == Supported || status == Refuted, Contract,
        Require(Cites(rec, refs), Contract, None))))),
        Agent(Diagnostician), Some(cap.session), OkReply,
        rec.(revision := rec.revision + 1, hypotheses := hs))
  {
    hide Answers, Fold, Prior, AgentChecks, Hypothesised, Cites;
    var rec := Fold(log);
    hs := Rate(rec.hypotheses, StatusBody(id, status, refs), env.ts);
    CitesIff(rec, refs);
    HypothesisedIff(rec, id);
    AgentAnswered(log, p, cap, key, RateHypothesis(id, status, refs), env, EpisodeBroker, Diagnostician, {Diagnosing},
      Require(Hypothesised(rec, id), Contract,
      Require(status == Supported || status == Refuted, Contract,
      Require(Cites(rec, refs), Contract, None))),
      StatusBody(id, status, refs), OkReply, rec.(revision := rec.revision + 1, hypotheses := hs));
  }

  /** The session has recorded no artefact. */
  predicate NoArtefactBy(rec: Record, session: string) {
    && (forall i | 0 <= i < |rec.recommendations| :: rec.recommendations[i].session != Some(session))
    && forall i | 0 <= i < |rec.noActions| :: rec.noActions[i].session != Some(session)
  }

  /** The bundle's planner may use the skill in the episode's mode: a skill for some modes only needs a known one. */
  predicate Usable(rec: Record, skills: map<string, Skill>, skill: string) {
    && skill in skills && skills[skill].forPlanner && rec.opening.Some?
    && match skills[skill].modes
       case None => true
       case Some(modes) => rec.opening.value.mode in modes && rec.opening.value.mode in {Tower, Alpenglow}
  }

  function WithArtefact(rec: Record, a: Artefact): Record {
    if a.Recommendation? then rec.(revision := rec.revision + 1, recommendations := rec.recommendations + [a])
    else rec.(revision := rec.revision + 1, noActions := rec.noActions + [a])
  }

  function RecommendationChecks(rec: Record, session: string, h: string, skill: string, refs: seq<string>,
      wellFormed: bool, skills: map<string, Skill>): Option<ErrorCode> {
    Require(NoArtefactBy(rec, session), Contract,
    Require(wellFormed, Contract,
    Require(Hypothesised(rec, h), Contract,
    Require(Usable(rec, skills, skill), Contract,
    Require(Cites(rec, refs), Contract, None)))))
  }

  lemma {:induction false} RecommendationComposed(rec: Record, cap: Capability, key: string, h: string, action: string,
      skill: string, pre: seq<string>, post: string, refs: seq<string>, wellFormed: bool, skills: map<string, Skill>)
    requires cap.role == ChangePlanner
    ensures var id := Numbered('r', |rec.recommendations| + 1);
      ComposeAgent(rec, cap, Recommend(h, action, skill, pre, post, refs, wellFormed, skills), key) ==
      match RecommendationChecks(rec, cap.session, h, skill, refs, wellFormed, skills)
      case Some(code) => Refuse(code)
      case None =>
        Write(RecommendationBody(id, h, action, skill, pre, post, refs), Agent(ChangePlanner), Some(cap.session), key,
              IdReply(id))
  {
    hide Hypothesised, Cites, Numbered;
    CitesIff(rec, refs);
    HypothesisedIff(rec, h);
  }

  /** A recommendation is recorded as it was proposed. */
  lemma {:induction false} RecommendationAnswered(log: seq<Entry>, p: Principal, cap: Capability, key: string,
      h: string, action: string, skill: string, pre: seq<string>, post: string, refs: seq<string>, wellFormed: bool,
      skills: map<string, Skill>, env: Env)
    requires Prior(log, key).None?
    ensures var rec := Fold(log);
      var id := Numbered('r', |rec.recommendations| + 1);
      Answers(log, Request(p, Some(cap), key, Recommend(h, action, skill, pre, post, refs, wellFormed, skills)), env,
        Require(p == EpisodeBroker, UnknownMethod,
        AgentChecks(log, cap, ChangePlanner, {Recommending}, key,
                    RecommendationChecks(rec, cap.session, h, skill, refs, wellFormed, skills))),
        Agent(ChangePlanner), Some(cap.session), IdReply(id),
        WithArtefact(rec, Recommendation(id, h, action, skill, pre, post, refs, Some(cap.session),
                                         rec.revision + 1, env.ts)))
  {
    hide Answers, Fold, Prior, Numbered, AgentChecks, RecommendationChecks, ComposeAgent;
    var rec := Fold(log);
    var id := Numbered('r', |rec.recommendations| + 1);
    if cap.role == ChangePlanner {
      RecommendationComposed(rec, cap, key, h, action, skill, pre, post, refs, wellFormed, skills);
    }
    AgentAnswered(log, p, cap, key, Recommend(h, action, skill, pre, post, refs, wellFormed, skills), env,
      EpisodeBroker, ChangePlanner, {Recommending},
      RecommendationChecks(rec, cap.session, h, skill, refs, wellFormed, skills),
      RecommendationBody(id, h, action, skill, pre, post, refs), IdReply(id),
      WithArtefact(rec, Recommendation(id, h, action, skill, pre, post, refs, Some(cap.session),
                                       rec.revision + 1, env.ts)));
  }

  /** And so is the conclusion that nothing is to be done. */
  lemma {:induction false} NoActionAnswered(log: seq<Entry>, p: Principal, cap: Capability, key: string, why: string,
      refs: seq<string>, env: Env)
    requires Prior(log, key).None?
    ensures var rec := Fold(log);
      var id := Numbered('n', |rec.noActions| + 1);
      Answers(log, Request(p, Some(cap), key, RecommendNothing(why, refs)), env,
        Require(p == EpisodeBroker, UnknownMethod,
        AgentChecks(log, cap, ChangePlanner, {Recommending}, key,
        Require(NoArtefactBy(rec, cap.session), Contract,
        Require(!Blank(why), Contract,
        Require(Cites(rec, refs), Contract, None))))),
        Agent(ChangePlanner), Some(cap.session), IdReply(id),
        WithArtefact(rec, NoAction(id, why, refs, Some(cap.session), rec.revision + 1, env.ts)))
  {
    hide Answers, Fold, Prior, Numbered, AgentChecks, Cites, Blank;
    var rec := Fold(log);
    var id := Numbered('n', |rec.noActions| + 1);
    CitesIff(rec, refs);
    AgentAnswered(log, p, cap, key, RecommendNothing(why, refs), env, EpisodeBroker, ChangePlanner, {Recommending},
      Require(NoArtefactBy(rec, cap.session), Contract,
      Require(!Blank(why), Contract,
      Require(Cites(rec, refs), Contract, None))),
      NoActionBody(id, why, refs), IdReply(id),
      WithArtefact(rec, NoAction(id, why, refs, Some(cap.session), rec.revision + 1, env.ts)));
  }

  predicate NoVerdictBy(rec: Record, session: string) {
    forall i | 0 <= i < |rec.verdicts| :: rec.verdicts[i].session != Some(session)
  }

  function VerdictChecks(rec: Record, session: string, target: string, result: Option<VerdictResult>,
      checks: seq<Check>, wellFormed: bool): Option<ErrorCode> {
    Require(NoVerdictBy(rec, session), Contract,
    Require(UnderJudgement(rec).Some? && UnderJudgement(rec).value.id == target, Contract,
    Require(result.Some?, Contract,
    Require(|checks| >= 1, Contract,
    Require(wellFormed, Contract, None)))))
  }

  /** A verdict is recorded with the result and the checks the Judge gave, on the artefact under judgement. */
  lemma {:induction false} VerdictAnswered(log: seq<Entry>, p: Principal, cap: Capability, key: string, target: string,
      result: Option<VerdictResult>, checks: seq<Check>, wellFormed: bool, env: Env)
    requires Prior(log, key).None?
    ensures var rec := Fold(log);
      var v := Verdict(target, if result.Some? then result.value else Fail, checks, Some(cap.session), env.ts);
      Answers(log, Request(p, Some(cap), key, GiveVerdict(target, result, checks, wellFormed)), env,
        Require(p == EpisodeBroker, UnknownMethod,
        AgentChecks(log, cap, ProposalJudge, {Judging}, key,
                    VerdictChecks(rec, cap.session, target, result, checks, wellFormed))),
        Agent(ProposalJudge), Some(cap.session), OkReply,
        rec.(revision := rec.revision + 1, verdicts := rec.verdicts + [v]))
  {
    hide Answers, Fold, Prior, AgentChecks, UnderJudgement;
    var rec := Fold(log);
    var v := Verdict(target, if result.Some? then result.value else Fail, checks, Some(cap.session), env.ts);
    AgentAnswered(log, p, cap, key, GiveVerdict(target, result, checks, wellFormed), env, EpisodeBroker, ProposalJudge,
      {Judging}, VerdictChecks(rec, cap.session, target, result, checks, wellFormed),
      VerdictBody(v.target, v.result, v.checks), OkReply,
      rec.(revision := rec.revision + 1, verdicts := rec.verdicts + [v]));
  }

  /** A report is filed under its kind, an incident report while reporting and a closure report when resolved. */
  lemma {:induction false} ReportAnswered(log: seq<Entry>, p: Principal, cap: Capability, key: string,
      kind: Option<ReportKind>, ref: string, env: Env)
    requires Prior(log, key).None?
    ensures var rec := Fold(log);
      var r := Report(if kind.Some? then kind.value else Incident, ref, Some(cap.session), env.ts);
      Answers(log, Request(p, Some(cap), key, FileReport(kind, ref)), env,
        Require(p == ReportBroker, UnknownMethod,
        AgentChecks(log, cap, Reporter, {Reporting, Resolved}, key,
        Require(|| (kind == Some(Incident) && rec.state == Some(Reporting))
                || (kind == Some(Closure) && rec.state == Some(Resolved)), IllegalState,
        Require("report:sha256:" <= ref, Contract, None)))),
        Agent(Reporter), Some(cap.session), OkReply,
        rec.(revision := rec.revision + 1, reports := rec.reports + [r]))
  {
    hide Answers, Fold, Prior, AgentChecks;
    var rec := Fold(log);
    var r := Report(if kind.Some? then kind.value else Incident, ref, Some(cap.session), env.ts);
    AgentAnswered(log, p, cap, key, FileReport(kind, ref), env, ReportBroker, Reporter, {Reporting, Resolved},
      Require(|| (kind == Some(Incident) && rec.state == Some(Reporting))
              || (kind == Some(Closure) && rec.state == Some(Resolved)), IllegalState,
      Require("report:sha256:" <= ref, Contract, None)),
      ReportBody(r.kind, r.ref), OkReply, rec.(revision := rec.revision + 1, reports := rec.reports + [r]));
  }

  /** Without a capability no agent and no observer gets further than its endpoint. */
  lemma {:induction false} TokenNeeded(log: seq<Entry>, p: Principal, key: string, call: Call, env: Env)
    requires AgentCall(call) || call.Observe?
    ensures Perform(log, Request(p, None, key, call), env) == (log, Failed(
      if p == (if call.Observe? then ObserverBroker else if call.FileReport? then ReportBroker else EpisodeBroker)
      then Unauthenticated else UnknownMethod))
  {
  }

  // ---------------------------------------------------------------- the other endpoints

  /** A call on the other endpoints under a new key: its checks, and then what it composes. */
  lemma {:induction false} PlainAnswered(log: seq<Entry>, rq: Request, env: Env, gate: Option<ErrorCode>,
      own: Option<ErrorCode>, body: Body, author: Principal, session: Option<string>, reply: Reply, record: Record)
    requires !AgentCall(rq.call) && !rq.call.Observe?
    requires Prior(log, EffectiveKey(rq)).None? && Gate(log, rq) == gate
    requires gate.None? ==>
      (Compose(Fold(log), rq, EffectiveKey(rq)) ==
       match own
       case Some(code) => Refuse(code)
       case None => Write(body, author, session, EffectiveKey(rq), reply))
    requires record == Apply(Fold(log), Entry(Fold(log).revision + 1, env.ts, body, author, session, env.auditRef,
                                              EffectiveKey(rq), reply))
    ensures Answers(log, rq, env,
                    if gate.Some? then gate else Require(GoodKey(EffectiveKey(rq)), Invalid, own),
                    author, session, reply, record)
  {
    hide Compose, Gate, Fold, Prior, GoodKey, BadKey, Answers, Apply, EffectiveKey;
    GoodKeyIff(EffectiveKey(rq));
    DecidedAnswers(log, rq, env, if gate.Some? then gate else Require(GoodKey(EffectiveKey(rq)), Invalid, own), body,
                   author, session, reply, record);
  }

  predicate Over(rec: Record) {
    rec.state == Some(Resolved) || rec.state == Some(HandedOff)
  }

  /** The transitions of the controller and of the verifier, as a table. */
  predicate InTable(p: Principal, frm: State, to: State) {
    (p, frm, to) in {
      (Controller, Open, Diagnosing), (Controller, Diagnosing, Recommending), (Controller, Diagnosing, Reporting),
      (Controller, Recommending, Judging), (Controller, Judging, Recommending), (Controller, Judging, Reporting),
      (Controller, Reporting, AwaitingOperator),
      (Controller, Open, HandedOff), (Controller, Diagnosing, HandedOff), (Controller, Recommending, HandedOff),
      (Controller, Judging, HandedOff), (Controller, Reporting, HandedOff), (Controller, AwaitingOperator, HandedOff),
      (Verifier, AwaitingOperator, Resolved)
    }
  }

  lemma {:induction false} TableIff(p: Principal, frm: State, to: State)
    ensures InTable(p, frm, to) <==> Allowed(p, frm, to)
  {
  }

  predicate Reachable(p: Principal, to: State) {
    || (p == Controller && to in {Diagnosing, Recommending, Judging, Reporting, AwaitingOperator, HandedOff})
    || (p == Verifier && to == Resolved)
  }

  lemma {:induction false} ReachableIff(p: Principal, to: State)
    ensures Reachable(p, to) <==> EverAllowed(p, to)
  {
    if Reachable(p, to) {
      var frm := match to
        case Diagnosing => Open
        case Recommending => Diagnosing
        case Judging => Recommending
        case Reporting => Diagnosing
        case AwaitingOperator => Reporting
        case Resolved => AwaitingOperator
        case _ => Open;
      assert Allowed(p, frm, to);
    }
  }

  function TransitionChecks(rec: Record, p: Principal, to: State, expected: int): Option<ErrorCode> {
    Require(!Over(rec), TerminalEpisode,
    Require(Reachable(p, to), ForbiddenTransition,
    Require(expected == rec.revision, Conflict,
    Require(rec.state.Some? && InTable(p, rec.state.value, to), ForbiddenTransition, None))))
  }

  function Moved(rec: Record, p: Principal, to: State, ts: int): Record {
    rec.(revision := rec.revision + 1, state := Some(to),
         history := rec.history + [StateChange(rec.state, to, p, rec.revision + 1, ts)])
  }

  lemma {:induction false} TransitionComposed(rec: Record, p: Principal, to: State, expected: int, reason: string,
      key: string)
    ensures ComposeState(rec, p, to, expected, reason, key) ==
      match TransitionChecks(rec, p, to, expected)
      case Some(code) => Refuse(code)
      case None => Write(StateBody(rec.state.value, to, reason), p, None, key, StateReply(rec.revision + 1, to))
  {
    hide EverAllowed, InTable, Allowed;
    ReachableIff(p, to);
    if rec.state.Some? {
      TableIff(p, rec.state.value, to);
    }
  }

  /** A transition is a compare-and-swap on the revision, along the table of its endpoint. */
  lemma {:induction false} TransitionAnswered(log: seq<Entry>, p: Principal, key: string, to: State, expected: int,
      reason: string, env: Env)
    requires var used := if key == "" then "state:" + Decimal(expected) + ":" + StateName(to) else key;
      Prior(log, used).None?
    ensures var rec := Fold(log);
      var used := if key == "" then "state:" + Decimal(expected) + ":" + StateName(to) else key;
      Answers(log, Request(p, None, key, SetState(to, expected, reason)), env,
        Require(p == Controller || p == Verifier, UnknownMethod,
        Require(p == Verifier ==> to == Resolved, ForbiddenTransition,
        Require(log != [], NotFound,
        Require(GoodKey(used), Invalid, TransitionChecks(rec, p, to, expected))))),
        p, None, StateReply(rec.revision + 1, to), Moved(rec, p, to, env.ts))
  {
    hide Answers, Fold, Prior, GoodKey, Decimal, StateName, TransitionChecks, ComposeState;
    var rec, rq := Fold(log), Request(p, None, key, SetState(to, expected, reason));
    TransitionComposed(rec, p, to, expected, reason, EffectiveKey(rq));
    var gate :=
      Require(p == Controller || p == Verifier, UnknownMethod,
      Require(p == Verifier ==> to == Resolved, ForbiddenTransition,
      Require(log != [], NotFound, None)));
    if rec.state.Some? {
      PlainAnswered(log, rq, env, gate, TransitionChecks(rec, p, to, expected),
        StateBody(rec.state.value, to, reason), p, None, StateReply(rec.revision + 1, to), Moved(rec, p, to, env.ts));
    } else {
      NoStateRefused(rec, p, to, expected);
      var own := TransitionChecks(rec, p, to, expected).value;
      if gate.Some? {
        RefusedAnswers(log, rq, env, gate.value, p, None, StateReply(rec.revision + 1, to), Moved(rec, p, to, env.ts));
      } else {
        GoodKeyIff(EffectiveKey(rq));
        RefusedAnswers(log, rq, env, if GoodKey(EffectiveKey(rq)) then own else Invalid, p, None,
          StateReply(rec.revision + 1, to), Moved(rec, p, to, env.ts));
      }
    }
  }

  lemma {:induction false} NoStateRefused(rec: Record, p: Principal, to: State, expected: int)
    requires rec.state.None?
    ensures TransitionChecks(rec, p, to, expected).Some?
  {
  }

  function WithSignal(rec: Record, snap: Snapshot, source: Principal, env: Env): Record {
    rec.(revision := rec.revision + 1,
         signals := rec.signals + [Signal(Numbered('s', |rec.signals| + 1), snap, source, env.ts, env.auditRef)])
  }

  /** The sentinel's signal, numbered and kept as it was collected. */
  lemma {:induction false} SignalAnswered(log: seq<Entry>, p: Principal, key: string, snap: Snapshot, env: Env)
    requires Prior(log, key).None?
    ensures var rec := Fold(log);
      Answers(log, Request(p, None, key, AddSignal(snap)), env,
        Require(p == Controller, UnknownMethod,
        Require(log != [], NotFound,
        Require(GoodKey(key), Invalid,
        Require(!Over(rec), TerminalEpisode,
        Require(!Blank(snap.commandId), Invalid, None))))),
        Controller, None, IdReply(Numbered('s', |rec.signals| + 1)), WithSignal(rec, snap, Controller, env))
  {
    hide Answers, Fold, Prior, GoodKey, Numbered, Blank;
    var rec, rq := Fold(log), Request(p, None, key, AddSignal(snap));
    var id := Numbered('s', |rec.signals| + 1);
    if p == Controller {
      PlainAnswered(log, rq, env, Require(log != [], NotFound, None),
        Require(!Over(rec), TerminalEpisode, Require(!Blank(snap.commandId), Invalid, None)),
        SignalBody(id, snap, Controller), Controller, None, IdReply(id), WithSignal(rec, snap, Controller, env));
    } else {
      RefusedAnswers(log, rq, env, UnknownMethod, Controller, None, IdReply(id),
        WithSignal(rec, snap, Controller, env));
    }
  }

  function ObservationChecks(log: seq<Entry>, cap: Capability, key: string, snap: Snapshot): Option<ErrorCode> {
    var rec := Fold(log);
    Require(log != [], NotFound,
    Require(rec.opening.Some? && rec.opening.value.bundleId == cap.bundleId, BundleRefused,
    Require(GoodKey(key), Invalid,
    Require(!Over(rec), TerminalEpisode,
    Require(!Blank(snap.commandId), Invalid, None)))))
  }

  lemma {:induction false} ObservationDecision(log: seq<Entry>, cap: Capability, key: string, snap: Snapshot)
    requires Prior(log, key).None?
    ensures var id := Numbered('s', |Fold(log).signals| + 1);
      Decides(log, Request(ObserverBroker, Some(cap), key, Observe(snap)), ObservationChecks(log, cap, key, snap),
              SignalBody(id, snap, ObserverFor(cap.role)), ObserverFor(cap.role), Some(cap.session), IdReply(id))
  {
    hide Fold, Prior, GoodKey, BadKey, Numbered, Blank;
    GoodKeyIff(key);
  }

  /** A worker's observation, numbered and stamped with the role and the session of its token. */
  lemma {:induction false} ObservationAnswered(log: seq<Entry>, p: Principal, cap: Capability, key: string,
      snap: Snapshot, env: Env)
    requires Prior(log, key).None?
    ensures var rec := Fold(log);
      Answers(log, Request(p, Some(cap), key, Observe(snap)), env,
        Require(p == ObserverBroker, UnknownMethod, ObservationChecks(log, cap, key, snap)),
        ObserverFor(cap.role), Some(cap.session), IdReply(Numbered('s', |rec.signals| + 1)),
        WithSignal(rec, snap, ObserverFor(cap.role), env))
  {
    hide Answers, Fold, Prior, Numbered, ObservationChecks, Decides;
    var rec, rq := Fold(log), Request(p, Some(cap), key, Observe(snap));
    var id := Numbered('s', |rec.signals| + 1);
    if p == ObserverBroker {
      ObservationDecision(log, cap, key, snap);
      DecidedAnswers(log, rq, env, ObservationChecks(log, cap, key, snap), SignalBody(id, snap, ObserverFor(cap.role)),
        ObserverFor(cap.role), Some(cap.session), IdReply(id), WithSignal(rec, snap, ObserverFor(cap.role), env));
    } else {
      RefusedAnswers(log, rq, env, UnknownMethod, ObserverFor(cap.role), Some(cap.session), IdReply(id),
        WithSignal(rec, snap, ObserverFor(cap.role), env));
    }
  }

  function PlainChecks(log: seq<Entry>, key: string): Option<ErrorCode> {
    Require(log != [], NotFound, Require(GoodKey(key), Invalid, None))
  }

  /** A bookkeeping call of the controller or the verifier: served on one endpoint, after one check of its own. */
  lemma {:induction false} NotedAnswered(log: seq<Entry>, p: Principal, key: string, call: Call, env: Env,
      serving: Principal, own: bool, body: Body, session: Option<string>, record: Record)
    requires Prior(log, key).None? && !AgentCall(call) && !call.Observe? && !call.SetState? && !call.AddSignal?
    requires Served(p, call) <==> p == serving
    requires Gate(log, Request(serving, None, key, call)) ==
      if !own then Some(Invalid) else if log == [] then Some(NotFound) else None
    requires Compose(Fold(log), Request(serving, None, key, call), key) ==
      Write(body, serving, session, key, OkRevision(Fold(log).revision + 1))
    requires record == Apply(Fold(log), Entry(Fold(log).revision + 1, env.ts, body, serving, session, env.auditRef, key,
                                              OkRevision(Fold(log).revision + 1)))
    ensures Answers(log, Request(p, None, key, call), env,
      Require(p == serving, UnknownMethod, Require(own, Invalid, PlainChecks(log, key))),
      serving, session, OkRevision(Fold(log).revision + 1), record)
  {
    hide Answers, Fold, Prior, GoodKey, Compose, Apply;
    var rq, reply := Request(p, None, key, call), OkRevision(Fold(log).revision + 1);
    if p == serving {
      hide Gate, Served;
      PlainAnswered(log, rq, env, Gate(log, rq), None, body, serving, session, reply, record);
    } else {
      RefusedAnswers(log, rq, env, UnknownMethod, serving, session, reply, record);
    }
  }

  /** The cost after an entry of this role and session: its role's sums grow, and nobody else's. */
  predicate ChargedTo(before: Cost, after: Cost, role: Role, usd: int, turns: int, session: Option<string>) {
    && (forall r: Role ::
          GetOr(after.usd, r, 0) == GetOr(before.usd, r, 0) + (if r == role then usd else 0)
          && GetOr(after.turns, r, 0) == GetOr(before.turns, r, 0) + (if r == role then turns else 0))
    && after.bySession == before.bySession[session := (role, usd, turns)]
  }

  lemma {:induction false} CostAnswered(log: seq<Entry>, p: Principal, key: string, role: Role, usd: int, turns: int,
      session: Option<string>, env: Env) returns (cost: Cost)
    requires Prior(log, key).None?
    ensures ChargedTo(Fold(log).cost, cost, role, usd, turns, session)
    ensures var rec := Fold(log);
      Answers(log, Request(p, None, key, AddCost(role, usd, turns, session)), env,
        Require(p == Controller, UnknownMethod, PlainChecks(log, key)),
        Controller, session, OkRevision(rec.revision + 1), rec.(revision := rec.revision + 1, cost := cost))
  {
    hide Answers, Fold, Prior, PlainChecks;
    var rec := Fold(log);
    cost := Charge(rec.cost, CostBody(role, usd, turns, session));
    NotedAnswered(log, p, key, AddCost(role, usd, turns, session), env, Controller, true,
      CostBody(role, usd, turns, session), session, rec.(revision := rec.revision + 1, cost := cost));
  }

  /** The step record says what the runner found of the step. */
  lemma {:induction false} StepAnswered(log: seq<Entry>, p: Principal, key: string, role: Role, session: Option<string>,
      ok: bool, reason: string, state: State, env: Env)
    requires Prior(log, key).None?
    ensures var rec := Fold(log);
      Answers(log, Request(p, None, key, AddStep(role, session, ok, reason, state)), env,
        Require(p == Controller, UnknownMethod, PlainChecks(log, key)),
        Controller, session, OkRevision(rec.revision + 1),
        rec.(revision := rec.revision + 1, steps := rec.steps + [StepRecord(role, session, ok, reason, state, env.ts)]))
  {
    hide Answers, Fold, Prior, PlainChecks;
    var rec := Fold(log);
    NotedAnswered(log, p, key, AddStep(role, session, ok, reason, state), env, Controller, true,
      StepBody(role, session, ok, reason, state), session,
      rec.(revision := rec.revision + 1, steps := rec.steps + [StepRecord(role, session, ok, reason, state, env.ts)]));
  }

  lemma {:induction false} AnnotationAnswered(log: seq<Entry>, p: Principal, key: string, kind: string, note: string,
      env: Env)
    requires Prior(log, key).None?
    ensures var rec := Fold(log);
      Answers(log, Request(p, None, key, Annotate(kind, note)), env,
        Require(p == Controller, UnknownMethod, Require(!Blank(note), Invalid, PlainChecks(log, key))),
        Controller, None, OkRevision(rec.revision + 1),
        rec.(revision := rec.revision + 1, annotations := rec.annotations + [Annotation(kind, note, env.ts)]))
  {
    hide Answers, Fold, Prior, PlainChecks, Blank;
    var rec := Fold(log);
    NotedAnswered(log, p, key, Annotate(kind, note), env, Controller, !Blank(note), AnnotationBody(kind, note), None,
      rec.(revision := rec.revision + 1, annotations := rec.annotations + [Annotation(kind, note, env.ts)]));
  }

  /** A verification, once its first region has let it through, is recorded with its result, terminal or not. */
  lemma {:induction false} VerificationAnswered(log: seq<Entry>, p: Principal, key: string, rule: string, passed: bool,
      samples: string, env: Env)
    requires Prior(log, key).None?
    ensures var rec := Fold(log);
      Answers(log, Request(p, None, key, RecordVerification(rule, passed, samples)), env,
        Require(p == Verifier, UnknownMethod, Require(!Blank(rule), Invalid, PlainChecks(log, key))),
        Verifier, None, OkRevision(rec.revision + 1),
        rec.(revision := rec.revision + 1,
             verifications := rec.verifications + [Verification(rule, passed, samples, env.ts)]))
  {
    hide Answers, Fold, Prior, PlainChecks, Blank;
    var rec := Fold(log);
    NotedAnswered(log, p, key, RecordVerification(rule, passed, samples), env, Verifier, !Blank(rule),
      VerificationBody(rule, passed, samples), None,
      rec.(revision := rec.revision + 1,
           verifications := rec.verifications + [Verification(rule, passed, samples, env.ts)]));
  }

  /** The first region lets a verification through exactly if the rule is named and the episode has not ended. */
  lemma {:induction false} VerifiableIff(log: seq<Entry>, rule: string)
    ensures CheckVerifiable(log, rule) ==
      Require(!Blank(rule), Invalid, Require(log != [], NotFound, Require(!Over(Fold(log)), TerminalEpisode, None)))
  {
    hide Blank, Fold;
  }

  lemma {:induction false} RecoveryAnswered(log: seq<Entry>, p: Principal, key: string, rule: string, note: string,
      env: Env)
    requires Prior(log, key).None?
    ensures var rec := Fold(log);
      Answers(log, Request(p, None, key, RecordRecovery(rule, note)), env,
        Require(p == Verifier, UnknownMethod, Require(!Blank(rule), Invalid, PlainChecks(log, key))),
        Verifier, None, OkRevision(rec.revision + 1),
        rec.(revision := rec.revision + 1, recoveries := rec.recoveries + [Recovery(rule, note, env.ts)]))
  {
    hide Answers, Fold, Prior, PlainChecks, Blank;
    var rec := Fold(log);
    NotedAnswered(log, p, key, RecordRecovery(rule, note), env, Verifier, !Blank(rule), RecoveryBody(rule, note), None,
      rec.(revision := rec.revision + 1, recoveries := rec.recoveries + [Recovery(rule, note, env.ts)]));
  }
}
