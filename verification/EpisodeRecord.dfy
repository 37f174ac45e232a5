/** The episode record is a fold over the append-only entry log (valops/store/fold.py).
    Snapshots, triggers and other content the store never inspects are opaque strings. */
module EpisodeRecord {
  import opened Wrappers
  import opened Transitions

  // ---------------------------------------------------------------- entries

  datatype EpisodeClass = ValidatorHealth | TelemetryHealth
  datatype Mode = Tower | Alpenglow | UnknownMode
  datatype Status = Unrated | Supported | Refuted
  datatype VerdictResult = Pass | Fail
  datatype ReportKind = Incident | Closure

  datatype Opening = Opening(cls: EpisodeClass, source: string, check: string, severity: string,
                             validatorId: string, bundleId: string, mode: Mode, modeEvidence: string,
                             dedupeKey: string)
  datatype Snapshot = Snapshot(commandId: string, content: string)
  datatype Check = Check(name: string, outcome: string, note: string)

  datatype Body =
    | OpenedBody(opening: Opening)
    | SignalBody(id: string, snapshot: Snapshot, source: Principal)
    | HypothesisBody(id: string, stepSession: string, rank: int, claim: string, test: string, expected: string)
    | StatusBody(hypothesis: string, status: Status, refs: seq<string>)
    | RecommendationBody(id: string, hypothesis: string, action: string, skill: string,
                         preconditions: seq<string>, postcondition: string, refs: seq<string>)
    | NoActionBody(id: string, reason: string, refs: seq<string>)
    | VerdictBody(target: string, result: VerdictResult, checks: seq<Check>)
    | ReportBody(kind: ReportKind, ref: string)
    | VerificationBody(rule: string, passed: bool, samples: string)
    | RecoveryBody(rule: string, note: string)
    | StateBody(frm: State, to: State, reason: string)
    | CostBody(role: Role, usd: int, turns: int, costSession: Option<string>)
    | StepBody(role: Role, stepOf: Option<string>, ok: bool, reason: string, state: State)
    | AnnotationBody(noteKind: string, note: string)

  /** What the caller was told, stored for idempotent replays. */
  datatype Reply =
    | IdReply(id: string)
    | OkReply
    | OkRevision(revision: int)
    | StateReply(revision: int, state: State)
    | OpenReply(episode: string, deduplicated: bool)

  datatype Entry = Entry(rev: int, ts: int, body: Body, principal: Principal, session: Option<string>,
                         auditRef: string, key: string, reply: Reply)

  // ---------------------------------------------------------------- the record

  datatype Signal = Signal(id: string, snapshot: Snapshot, source: Principal, ts: int, auditRef: string)
  datatype Hypothesis = Hypothesis(id: string, stepSession: string, rank: int, claim: string, test: string,
                                   expected: string, status: Status, refs: seq<string>, ratings: seq<(int, Status)>)
  datatype Artefact =
    | Recommendation(id: string, hypothesis: string, action: string, skill: string, preconditions: seq<string>,
                     postcondition: string, refs: seq<string>, session: Option<string>, rev: int, ts: int)
    | NoAction(id: string, reason: string, refs: seq<string>, session: Option<string>, rev: int, ts: int)
  datatype Verdict = Verdict(target: string, result: VerdictResult, checks: seq<Check>, session: Option<string>,
                             ts: int)
  datatype Report = Report(kind: ReportKind, ref: string, session: Option<string>, ts: int)
  datatype Verification = Verification(rule: string, passed: bool, samples: string, ts: int)
  datatype Recovery = Recovery(rule: string, note: string, ts: int)
  datatype Annotation = Annotation(kind: string, note: string, ts: int)
  datatype StepRecord = StepRecord(role: Role, session: Option<string>, ok: bool, reason: string, state: State, ts: int)
  datatype StateChange = StateChange(frm: Option<State>, to: State, mover: Principal, rev: int, ts: int)
  datatype Cost = Cost(usd: map<Role, int>, turns: map<Role, int>, bySession: map<Option<string>, (Role, int, int)>)

  datatype Record = Record(
    revision: int,
    opening: Option<Opening>,
    signals: seq<Signal>,
    hypotheses: seq<Hypothesis>,
    recommendations: seq<Artefact>,
    noActions: seq<Artefact>,
    verdicts: seq<Verdict>,
    verifications: seq<Verification>,
    recoveries: seq<Recovery>,
    reports: seq<Report>,
    annotations: seq<Annotation>,
    steps: seq<StepRecord>,
    state: Option<State>,
    history: seq<StateChange>,
    cost: Cost)

  const EMPTY_RECORD := Record(0, None, [], [], [], [], [], [], [], [], [], [], None, [], Cost(map[], map[], map[]))

  function Rated(h: Hypothesis, b: Body, ts: int): Hypothesis
    requires b.StatusBody?
  {
    if h.id == b.hypothesis then h.(status := b.status, refs := b.refs, ratings := h.ratings + [(ts, b.status)]) else h
  }

  function Rate(hs: seq<Hypothesis>, b: Body, ts: int): (r: seq<Hypothesis>)
    requires b.StatusBody?
    ensures |r| == |hs| && forall i | 0 <= i < |hs| :: r[i] == Rated(hs[i], b, ts)
  {
    seq(|hs|, i requires 0 <= i < |hs| => Rated(hs[i], b, ts))
  }

  function GetOr<K, V>(m: map<K, V>, k: K, d: V): V {
    if k in m then m[k] else d
  }

  function Charge(c: Cost, b: Body): Cost
    requires b.CostBody?
  {
    Cost(c.usd[b.role := GetOr(c.usd, b.role, 0) + b.usd],
         c.turns[b.role := GetOr(c.turns, b.role, 0) + b.turns],
         c.bySession[b.costSession := (b.role, b.usd, b.turns)])
  }

  /** `apply`, as the record after the entry. */
  function Apply(rec: Record, e: Entry): Record {
    var r := rec.(revision := e.rev);
    match e.body
    case OpenedBody(o) =>
      r.(opening := Some(o), state := Some(Open),
         history := r.history + [StateChange(None, Open, e.principal, e.rev, e.ts)])
    case SignalBody(id, snap, source) => r.(signals := r.signals + [Signal(id, snap, source, e.ts, e.auditRef)])
    case HypothesisBody(id, s, rank, claim, test, expected) =>
      r.(hypotheses := r.hypotheses + [Hypothesis(id, s, rank, claim, test, expected, Unrated, [], [])])
    case StatusBody(_, _, _) => r.(hypotheses := Rate(r.hypotheses, e.body, e.ts))
    case RecommendationBody(id, h, action, skill, pre, post, refs) =>
      r.(recommendations := r.recommendations
        + [Recommendation(id, h, action, skill, pre, post, refs, e.session, e.rev, e.ts)])
    case NoActionBody(id, reason, refs) =>
      r.(noActions := r.noActions + [NoAction(id, reason, refs, e.session, e.rev, e.ts)])
    case VerdictBody(target, result, checks) =>
      r.(verdicts := r.verdicts + [Verdict(target, result, checks, e.session, e.ts)])
    case ReportBody(kind, ref) => r.(reports := r.reports + [Report(kind, ref, e.session, e.ts)])
    case VerificationBody(rule, passed, samples) =>
      r.(verifications := r.verifications + [Verification(rule, passed, samples, e.ts)])
    case RecoveryBody(rule, note) => r.(recoveries := r.recoveries + [Recovery(rule, note, e.ts)])
    case StateBody(frm, to, _) =>
      r.(state := Some(to), history := r.history + [StateChange(Some(frm), to, e.principal, e.rev, e.ts)])
    case CostBody(_, _, _, _) => r.(cost := Charge(r.cost, e.body))
    case StepBody(role, session, ok, reason, state) =>
      r.(steps := r.steps + [StepRecord(role, session, ok, reason, state, e.ts)])
    case AnnotationBody(kind, note) => r.(annotations := r.annotations + [Annotation(kind, note, e.ts)])
  }

  function Fold(log: seq<Entry>): Record {
    if log == [] then EMPTY_RECORD else Apply(Fold(log[..|log|-1]), log[|log|-1])
  }

  lemma {:induction false} FoldPush(log: seq<Entry>, e: Entry)
    ensures Fold(log + [e]) == Apply(Fold(log), e)
  {
    assert (log + [e])[..|log|] == log;
  }

  /** `fold`: the loop. The caller answers "no such episode" for an empty log. */
  method FoldEntries(entries: seq<Entry>) returns (rec: Record)
    requires entries != []
    ensures rec == Fold(entries)
  {
    rec := EMPTY_RECORD;
    for i := 0 to |entries|
      invariant rec == Fold(entries[..i])
    {
      FoldPush(entries[..i], entries[i]);
      assert entries[..i + 1] == entries[..i] + [entries[i]];
      rec := Apply(rec, entries[i]);
    }
    assert entries[..|entries|] == entries;
  }

  // ---------------------------------------------------------------- derived views

  /** Session of the latest completed step of a role. */
  function LastOk(steps: seq<StepRecord>, role: Role): Option<StepRecord> {
    if steps == [] then None
    else if steps[|steps|-1].role == role && steps[|steps|-1].ok then Some(steps[|steps|-1])
    else LastOk(steps[..|steps|-1], role)
  }

  function FirstRanked(hs: seq<Hypothesis>, session: Option<string>, rank: int): Option<Hypothesis> {
    if hs == [] then None
    else if Some(hs[0].stepSession) == session && hs[0].rank == rank then Some(hs[0])
    else FirstRanked(hs[1..], session, rank)
  }

  /** Rank-1 hypothesis of the latest completed diagnosis step. */
  function TopHypothesis(rec: Record): Option<Hypothesis> {
    match LastOk(rec.steps, Diagnostician)
    case None => None
    case Some(s) => FirstRanked(rec.hypotheses, s.session, 1)
  }

  /** Python's `max(..., key=rev)`: the first of the largest. */
  function MaxByRev(cands: seq<Artefact>): Option<Artefact> {
    if cands == [] then None
    else
      match MaxByRev(cands[..|cands|-1])
      case None => Some(cands[|cands|-1])
      case Some(best) => if cands[|cands|-1].rev > best.rev then Some(cands[|cands|-1]) else Some(best)
  }

  function UnderJudgement(rec: Record): Option<Artefact> {
    MaxByRev(rec.recommendations + rec.noActions)
  }

  /** What a recommendation or no-action entry adds to the record. */
  function ArtefactOf(e: Entry): Option<Artefact> {
    match e.body
    case RecommendationBody(id, h, action, skill, pre, post, refs) =>
      Some(Recommendation(id, h, action, skill, pre, post, refs, e.session, e.rev, e.ts))
    case NoActionBody(id, reason, refs) => Some(NoAction(id, reason, refs, e.session, e.rev, e.ts))
    case _ => None
  }

  /** The artefact written last, read off the log. */
  function LastArtefact(log: seq<Entry>): Option<Artefact> {
    if log == [] then None
    else if ArtefactOf(log[|log|-1]).Some? then ArtefactOf(log[|log|-1])
    else LastArtefact(log[..|log|-1])
  }

  ghost predicate IncreasingRevs(log: seq<Entry>) {
    forall i, j | 0 <= i < j < |log| :: log[i].rev < log[j].rev
  }

  predicate BelowRev(artefacts: seq<Artefact>, rev: int) {
    forall i | 0 <= i < |artefacts| :: artefacts[i].rev < rev
  }

  lemma {:induction false} MaxByRevNewest(older: seq<Artefact>, newest: Artefact, rest: seq<Artefact>)
    requires BelowRev(older, newest.rev) && BelowRev(rest, newest.rev)
    ensures MaxByRev(older + [newest] + rest) == Some(newest)
    decreases |rest|
  {
    var all := older + [newest] + rest;
    if rest == [] {
      assert all[..|all|-1] == older;
      MaxByRevBelow(older, newest.rev);
    } else {
      assert all[..|all|-1] == older + [newest] + rest[..|rest|-1];
      MaxByRevNewest(older, newest, rest[..|rest|-1]);
    }
  }

  lemma {:induction false} MaxByRevBelow(cands: seq<Artefact>, rev: int)
    requires BelowRev(cands, rev)
    ensures MaxByRev(cands).Some? ==> MaxByRev(cands).value.rev < rev
  {
    if cands != [] {
      MaxByRevBelow(cands[..|cands|-1], rev);
    }
  }

  lemma {:induction false} RevsBelow(log: seq<Entry>, rev: int)
    requires forall i | 0 <= i < |log| :: log[i].rev < rev
    ensures BelowRev(Fold(log).recommendations, rev) && BelowRev(Fold(log).noActions, rev)
  {
    if log != [] {
      RevsBelow(log[..|log|-1], rev);
    }
  }

  lemma {:induction false} UnderJudgementStep(q: Record, e: Entry)
    requires BelowRev(q.recommendations, e.rev) && BelowRev(q.noActions, e.rev)
    ensures UnderJudgement(Apply(q, e)) == if ArtefactOf(e).Some? then ArtefactOf(e) else UnderJudgement(q)
  {
    var r := Apply(q, e);
    match e.body
    case RecommendationBody(_, _, _, _, _, _, _) =>
      assert r.recommendations + r.noActions == q.recommendations + [ArtefactOf(e).value] + q.noActions;
      MaxByRevNewest(q.recommendations, ArtefactOf(e).value, q.noActions);
    case NoActionBody(_, _, _) =>
      assert r.recommendations + r.noActions == (q.recommendations + q.noActions) + [ArtefactOf(e).value] + [];
      MaxByRevNewest(q.recommendations + q.noActions, ArtefactOf(e).value, []);
    case _ =>
  }

  /** `under_judgement`, computed from two lists by their revisions, is whichever artefact entry was
      written last. */
  lemma {:induction false} UnderJudgementIsLatest(log: seq<Entry>)
    requires IncreasingRevs(log)
    ensures UnderJudgement(Fold(log)) == LastArtefact(log)
  {
    if log != [] {
      UnderJudgementIsLatest(log[..|log|-1]);
      RevsBelow(log[..|log|-1], log[|log|-1].rev);
      UnderJudgementStep(Fold(log[..|log|-1]), log[|log|-1]);
    }
  }
}
