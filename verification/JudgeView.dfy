/** The Judge's view of an episode (valops/store/fold.py, `judge_view`) and why it carries no
    reasoning: it is a function of the visible part of the log alone. */
module JudgeView {
  import opened Wrappers
  import opened Transitions
  import opened EpisodeRecord

  datatype Skill = Skill(modes: string, preconditions: seq<string>)

  datatype SkillView = SkillView(name: string, modes: Option<string>, preconditions: seq<string>)

  /** Everything in the view except the skill entry, which is looked up from the artefact. */
  datatype Core = Core(
    opening: Option<Opening>, state: Option<State>, signals: seq<Signal>, underJudgement: Option<Artefact>,
    verifications: seq<Verification>, recoveries: seq<Recovery>)

  datatype View = View(core: Core, skill: Option<SkillView>)

  /** The session and revision of the artefact are popped. */
  function Stripped(a: Option<Artefact>): Option<Artefact> {
    if a.None? then None else Some(a.value.(session := None, rev := 0))
  }

  function CoreOf(rec: Record): Core {
    Core(rec.opening, rec.state, rec.signals, Stripped(UnderJudgement(rec)), rec.verifications, rec.recoveries)
  }

  function SkillOf(a: Option<Artefact>, skills: map<string, Skill>): Option<SkillView> {
    if a.None? || a.value.NoAction? then None
    else if a.value.skill in skills then
      Some(SkillView(a.value.skill, Some(skills[a.value.skill].modes), skills[a.value.skill].preconditions))
    else Some(SkillView(a.value.skill, None, []))
  }

  function JudgeView(rec: Record, skills: map<string, Skill>): View {
    var core := CoreOf(rec);
    View(core, SkillOf(core.underJudgement, skills))
  }

  // ---------------------------------------------------------------- non-interference

  /** Reasoning and bookkeeping: hypotheses, their ratings, verdicts, reports, cost, steps, notes. */
  predicate Hidden(b: Body) {
    b.HypothesisBody? || b.StatusBody? || b.VerdictBody? || b.ReportBody? || b.CostBody? || b.StepBody?
      || b.AnnotationBody?
  }

  /** What is left of an entry for the Judge: neither its revision, session, author nor key. */
  datatype Part = Part(ts: int, body: Body, auditRef: string)

  function VisibleParts(log: seq<Entry>): seq<Part> {
    if log == [] then []
    else
      var e := log[|log|-1];
      VisibleParts(log[..|log|-1]) + (if Hidden(e.body) then [] else [Part(e.ts, e.body, e.auditRef)])
  }

  function Seen(c: Core, p: Part): Core {
    match p.body
    case OpenedBody(o) => c.(opening := Some(o), state := Some(Open))
    case StateBody(_, to, _) => c.(state := Some(to))
    case SignalBody(id, snap, source) => c.(signals := c.signals + [Signal(id, snap, source, p.ts, p.auditRef)])
    case RecommendationBody(id, h, action, skill, pre, post, refs) =>
      c.(underJudgement := Some(Recommendation(id, h, action, skill, pre, post, refs, None, 0, p.ts)))
    case NoActionBody(id, reason, refs) => c.(underJudgement := Some(NoAction(id, reason, refs, None, 0, p.ts)))
    case VerificationBody(rule, passed, samples) =>
      c.(verifications := c.verifications + [Verification(rule, passed, samples, p.ts)])
    case RecoveryBody(rule, note) => c.(recoveries := c.recoveries + [Recovery(rule, note, p.ts)])
    case _ => c
  }

  /** The view built from visible parts only, without a record or revisions. */
  function SeenCore(parts: seq<Part>): Core {
    if parts == [] then Core(None, None, [], None, [], [])
    else Seen(SeenCore(parts[..|parts|-1]), parts[|parts|-1])
  }

  lemma {:induction false} CoreStep(q: Record, e: Entry)
    requires BelowRev(q.recommendations, e.rev) && BelowRev(q.noActions, e.rev)
    ensures CoreOf(Apply(q, e)) == if Hidden(e.body) then CoreOf(q) else Seen(CoreOf(q), Part(e.ts, e.body, e.auditRef))
  {
    UnderJudgementStep(q, e);
  }

  lemma {:induction false} JudgeSeesVisiblePart(log: seq<Entry>)
    requires IncreasingRevs(log)
    ensures CoreOf(Fold(log)) == SeenCore(VisibleParts(log))
  {
    if log != [] {
      var before, e := log[..|log|-1], log[|log|-1];
      JudgeSeesVisiblePart(before);
      RevsBelow(before, e.rev);
      CoreStep(Fold(before), e);
      if Hidden(e.body) {
        assert VisibleParts(log) == VisibleParts(before);
      } else {
        assert VisibleParts(log)[..|VisibleParts(log)|-1] == VisibleParts(before);
      }
    }
  }

  /** Non-interference: two logs that agree on their visible parts, however much reasoning either
      holds and however their entries are numbered, look the same to the Judge. */
  lemma {:induction false} NonInterference(a: seq<Entry>, b: seq<Entry>, skills: map<string, Skill>)
    requires IncreasingRevs(a) && IncreasingRevs(b)
    requires VisibleParts(a) == VisibleParts(b)
    ensures JudgeView(Fold(a), skills) == JudgeView(Fold(b), skills)
  {
    JudgeSeesVisiblePart(a);
    JudgeSeesVisiblePart(b);
  }

  /** The log without the entries at these positions. */
  function Delete(log: seq<Entry>, drop: set<int>): seq<Entry> {
    if log == [] then []
    else Delete(log[..|log|-1], drop) + (if |log| - 1 in drop then [] else [log[|log|-1]])
  }

  lemma {:induction false} VisiblePush(log: seq<Entry>, e: Entry)
    ensures VisibleParts(log + [e]) ==
        VisibleParts(log) + (if Hidden(e.body) then [] else [Part(e.ts, e.body, e.auditRef)])
  {
    assert (log + [e])[..|log|] == log;
  }

  lemma {:induction false} DeleteKeepsVisible(log: seq<Entry>, drop: set<int>)
    requires forall i | i in drop && 0 <= i < |log| :: Hidden(log[i].body)
    ensures VisibleParts(Delete(log, drop)) == VisibleParts(log)
  {
    hide VisibleParts, Hidden;
    if log != [] {
      var before, e := log[..|log|-1], log[|log|-1];
      DeleteKeepsVisible(before, drop);
      VisiblePush(before, e);
      VisiblePush(Delete(before, drop), e);
      assert log == before + [e];
      assert Delete(log, drop) == if |log| - 1 in drop then Delete(before, drop) else Delete(before, drop) + [e];
      assert VisibleParts(before) + [] == VisibleParts(before);
    }
  }

  lemma {:induction false} DeleteKeepsOrder(log: seq<Entry>, drop: set<int>)
    requires IncreasingRevs(log)
    ensures IncreasingRevs(Delete(log, drop))
    ensures forall i | 0 <= i < |Delete(log, drop)| :: log != [] && Delete(log, drop)[i].rev <= log[|log|-1].rev
  {
    if log != [] {
      var before, e := log[..|log|-1], log[|log|-1];
      DeleteKeepsOrder(before, drop);
      var d := Delete(before, drop);
      assert forall i | 0 <= i < |d| :: d[i].rev < e.rev;
      assert Delete(log, drop) == if |log| - 1 in drop then d else d + [e];
    }
  }

  /** Deleting any subset of hypothesis, status, verdict, report, cost, step and annotation entries
      leaves the Judge's view unchanged. */
  lemma {:induction false} DeletionIsInvisible(log: seq<Entry>, drop: set<int>, skills: map<string, Skill>)
    requires IncreasingRevs(log)
    requires forall i | i in drop && 0 <= i < |log| :: Hidden(log[i].body)
    ensures JudgeView(Fold(Delete(log, drop)), skills) == JudgeView(Fold(log), skills)
  {
    DeleteKeepsVisible(log, drop);
    DeleteKeepsOrder(log, drop);
    NonInterference(Delete(log, drop), log, skills);
  }

  // ---------------------------------------------------------------- what the view shows

  predicate IsArtefact(b: Body) {
    b.RecommendationBody? || b.NoActionBody?
  }

  /** The i-th entry is the last that wrote an artefact. */
  predicate WrittenLast(log: seq<Entry>, i: nat) {
    i < |log| && IsArtefact(log[i].body) && forall j | i < j < |log| :: !IsArtefact(log[j].body)
  }

  lemma {:induction false} LastArtefactIs(log: seq<Entry>)
    ensures (forall i: nat | WrittenLast(log, i) :: LastArtefact(log) == ArtefactOf(log[i]))
    ensures (forall i | 0 <= i < |log| :: !IsArtefact(log[i].body)) ==> LastArtefact(log).None?
  {
    if log != [] {
      var n := |log| - 1;
      LastArtefactIs(log[..n]);
      forall i: nat | WrittenLast(log, i) ensures LastArtefact(log) == ArtefactOf(log[i]) {
        if i < n {
          assert WrittenLast(log[..n], i);
        }
      }
    }
  }

  /** The artefact written last is shown as it was written, less its session and revision; a recommendation together
      with its skill's modes and preconditions, if the skill is known. */
  lemma {:induction false} ViewShows(log: seq<Entry>, skills: map<string, Skill>)
    requires IncreasingRevs(log)
    ensures var rec, v := Fold(log), JudgeView(Fold(log), skills);
      && v.core.opening == rec.opening && v.core.state == rec.state && v.core.signals == rec.signals
      && v.core.verifications == rec.verifications && v.core.recoveries == rec.recoveries
    ensures var v := JudgeView(Fold(log), skills);
      forall i: nat | WrittenLast(log, i) ::
        match log[i].body
        case RecommendationBody(id, h, action, skill, pre, post, refs) =>
          && v.core.underJudgement == Some(Recommendation(id, h, action, skill, pre, post, refs, None, 0, log[i].ts))
          && v.skill.Some? && v.skill.value.name == skill
          && (skill in skills ==>
                && v.skill.value.modes == Some(skills[skill].modes)
                && v.skill.value.preconditions == skills[skill].preconditions)
          && (skill !in skills ==> v.skill.value.modes == None && v.skill.value.preconditions == [])
        case NoActionBody(id, reason, refs) =>
          v.core.underJudgement == Some(NoAction(id, reason, refs, None, 0, log[i].ts)) && v.skill == None
        case _ => true
    ensures (forall i | 0 <= i < |log| :: !IsArtefact(log[i].body)) ==>
        JudgeView(Fold(log), skills).core.underJudgement == None && JudgeView(Fold(log), skills).skill == None
  {
    hide Fold, LastArtefact, UnderJudgement;
    UnderJudgementIsLatest(log);
    LastArtefactIs(log);
  }
}
