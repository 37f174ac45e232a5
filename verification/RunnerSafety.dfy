/** Safety of the judgement path: whatever workers, sentinel and verifier do between the runner's steps,
    every transition the controller makes passed its gate at the revision it was taken from. */
module RunnerSafety {
  import opened Wrappers
  import opened Transitions
  import opened EpisodeRecord
  import opened StoreSpec
  import opened Visits
  import opened RunnerSpec
  import LogFacts
  import Artefacts

  // ---------------------------------------------------------------- what one session wrote

  /** If the session has a verdict (artefact), then one was written in this visit; with exact revocation,
      the visit's last one is its own. */
  ghost predicate Owns(log: seq<Entry>, session: string, strict: bool) {
    && (WroteVerdict(Fold(log), session) ==>
          VisitVerdict(log).Some? && (strict ==> VisitVerdict(log).value.session == Some(session)))
    && (WroteArtefact(Fold(log), session) ==>
          VisitArtefact(log).Some? && (strict ==> VisitArtefact(log).value.session == Some(session)))
  }

  predicate Authored(e: Entry) {
    e.body.VerdictBody? || e.body.RecommendationBody? || e.body.NoActionBody?
  }

  lemma {:induction false} WroteStep(rec: Record, e: Entry, session: string)
    ensures WroteVerdict(Apply(rec, e), session) <==>
      WroteVerdict(rec, session) || (e.body.VerdictBody? && e.session == Some(session))
    ensures WroteArtefact(Apply(rec, e), session) <==>
      WroteArtefact(rec, session) || (ArtefactOf(e).Some? && e.session == Some(session))
  {
    var r := Apply(rec, e);
    LogFacts.ArtefactLists(rec, e);
    VerdictsPush(rec, e);
    forall i | 0 <= i < |rec.verdicts| ensures r.verdicts[i] == rec.verdicts[i] {
    }
    if e.body.VerdictBody? {
      assert r.verdicts[|rec.verdicts|].session == e.session;
    }
    WroteArtefactStep(rec, e, session);
  }

  lemma {:induction false} WroteArtefactStep(rec: Record, e: Entry, session: string)
    ensures WroteArtefact(Apply(rec, e), session) <==>
      WroteArtefact(rec, session) || (ArtefactOf(e).Some? && e.session == Some(session))
  {
    var r := Apply(rec, e);
    LogFacts.ArtefactLists(rec, e);
    forall i | 0 <= i < |rec.recommendations| ensures r.recommendations[i] == rec.recommendations[i] {
    }
    forall i | 0 <= i < |rec.noActions| ensures r.noActions[i] == rec.noActions[i] {
    }
    if ArtefactOf(e).Some? {
      if e.body.RecommendationBody? {
        assert r.recommendations[|rec.recommendations|].session == e.session;
      } else {
        assert r.noActions[|rec.noActions|].session == e.session;
      }
    }
  }

  lemma {:induction false} OwnsKept(log: seq<Entry>, e: Entry, session: string, strict: bool)
    requires Owns(log, session, strict) && !Moves(e)
    requires strict && Authored(e) ==> e.session == Some(session)
    ensures Owns(log + [e], session, strict)
  {
    FoldPush(log, e);
    VisitPush(log, e);
    WroteStep(Fold(log), e, session);
  }

  /** Sessions appearing in verdicts and artefacts have been minted. */
  ghost predicate Known(rec: Record, minted: map<string, Role>) {
    forall session | session !in minted :: !WroteVerdict(rec, session) && !WroteArtefact(rec, session)
  }

  lemma {:induction false} KnownKept(rec: Record, e: Entry, minted: map<string, Role>)
    requires Known(rec, minted)
    requires Authored(e) ==> e.session.Some? && e.session.value in minted
    ensures Known(Apply(rec, e), minted)
  {
    forall session | session !in minted
      ensures !WroteVerdict(Apply(rec, e), session) && !WroteArtefact(Apply(rec, e), session)
    {
      WroteStep(rec, e, session);
    }
  }

  /** What a completed step of a state leaves in the record. */
  ghost predicate Produced(state: State, rec: Record, session: string) {
    && (state == Diagnosing ==> Artefacts.HasRankOne(rec, session))
    && (state == Recommending ==> WroteArtefact(rec, session))
    && (state == Judging ==> WroteVerdict(rec, session))
    && (state == Reporting ==> HasReport(rec, Incident))
  }

  lemma {:induction false} RankKept(rec: Record, e: Entry, session: string)
    requires Artefacts.HasRankOne(rec, session)
    ensures Artefacts.HasRankOne(Apply(rec, e), session)
  {
    var i :| 0 <= i < |rec.hypotheses| && rec.hypotheses[i].stepSession == session && rec.hypotheses[i].rank == 1;
    var h := Apply(rec, e).hypotheses[i];
    assert h.stepSession == session && h.rank == 1;
  }

  lemma {:induction false} ReportKept(rec: Record, e: Entry, kind: ReportKind)
    requires HasReport(rec, kind)
    ensures HasReport(Apply(rec, e), kind)
  {
    var i :| 0 <= i < |rec.reports| && rec.reports[i].kind == kind;
    assert Apply(rec, e).reports[i].kind == kind;
  }

  lemma {:induction false} ProducedKept(state: State, rec: Record, e: Entry, session: string)
    requires Produced(state, rec, session)
    ensures Produced(state, Apply(rec, e), session)
  {
    WroteStep(rec, e, session);
    if state == Diagnosing {
      RankKept(rec, e, session);
    }
    if state == Reporting {
      ReportKept(rec, e, Incident);
    }
  }

  lemma {:induction false} StepOkProduces(rec: Record, state: State, session: string, alerts: seq<Artefacts.Alert>,
      out: Option<Artefacts.Structured>)
    requires Steppable(state)
    requires Artefacts.StepOk(rec, StepRole(state), session, Incident, alerts, out)
    ensures Produced(state, rec, session)
  {
    match state
    case Diagnosing => Artefacts.DiagnosisHasRankOne(rec, session);
    case Recommending => Artefacts.PlannerWritten(rec, session);
    case Judging => Artefacts.JudgeWritten(rec, session);
    case Reporting => ReportsOfMembers(rec.reports, session, Incident);
  }

  lemma {:induction false} ReportsOfMembers(rs: seq<Report>, session: string, kind: ReportKind)
    ensures Artefacts.ReportsOf(rs, session, kind) != [] ==> exists i :: 0 <= i < |rs| && rs[i].kind == kind
  {
    if rs != [] {
      var before := rs[..|rs|-1];
      ReportsOfMembers(before, session, kind);
      if Artefacts.ReportsOf(before, session, kind) != [] {
        var i :| 0 <= i < |before| && before[i].kind == kind;
        assert rs[i].kind == kind;
      }
    }
  }

  // ---------------------------------------------------------------- the invariant

  /** A compare-and-swap under way: what it was computed from, and that it passed its gate there. */
  ghost predicate SnapshotGated(log: seq<Entry>, rec: Record, to: State, b: Budgets, strict: bool) {
    && 0 <= rec.revision <= |log| && rec == Fold(log[..rec.revision])
    && MayMove(log[..rec.revision], to, b, strict)
  }

  ghost predicate OrphanOk(log: seq<Entry>, o: Orphan, b: Budgets, strict: bool) {
    match o
    case LateCas(rec, to) => SnapshotGated(log, rec, to, b, strict)
    case LateStep(state, session, ok) => ok && Steppable(state) ==> Produced(state, Fold(log), session)
    case LateCost(_, _) => true
  }

  ghost predicate OrphansOk(log: seq<Entry>, os: seq<Orphan>, b: Budgets, strict: bool) {
    forall i | 0 <= i < |os| :: OrphanOk(log, os[i], b, strict)
  }

  /** No abandoned compare-and-swap can be accepted any more. */
  ghost predicate Stale(os: seq<Orphan>, n: nat) {
    forall i | 0 <= i < |os| && os[i].LateCas? :: os[i].rec.revision < n
  }

  /** An abandoned compare-and-swap landed during the step and took the episode out of its state. */
  ghost predicate MovedOn(actual: State, state: State, os: seq<Orphan>, n: nat) {
    Steppable(state) && (ControllerMay(state, actual) || actual == Resolved) && Stale(os, n)
  }

  ghost predicate StepOn(log: seq<Entry>, os: seq<Orphan>, state: State, session: string, strict: bool) {
    && (Steppable(state) || state == Resolved) && Fold(log).state.Some?
    && (Fold(log).state == Some(state) ==> Owns(log, session, strict))
    && (Fold(log).state != Some(state) ==> !strict && MovedOn(Fold(log).state.value, state, os, |log|))
  }

  ghost predicate Completed(rec: Record, state: State, session: string, strict: bool) {
    && LastOk(rec.steps, StepRole(state)).Some?
    && (strict ==> LastOk(rec.steps, StepRole(state)).value.session == Some(session))
  }

  /** The last completed diagnosis left a rank-1 hypothesis. */
  ghost predicate Diagnosed(rec: Record) {
    var last := LastOk(rec.steps, Diagnostician);
    last.Some? ==> last.value.session.Some? && Artefacts.HasRankOne(rec, last.value.session.value)
  }

  ghost predicate PcOk(s: System, b: Budgets, strict: bool) {
    match s.pc
    case Idle => true
    case Deciding(rec, to) => SnapshotGated(s.log, rec, to, b, strict)
    case Working(state, session) => StepOn(s.log, s.orphans, state, session, strict)
    case Checking(state, session) => StepOn(s.log, s.orphans, state, session, strict)
    case Recording(state, session, ok, _) =>
      && StepOn(s.log, s.orphans, state, session, strict)
      && (ok && Steppable(state) ==> Produced(state, Fold(s.log), session))
    case Recorded(state, session, ok, _) =>
      && StepOn(s.log, s.orphans, state, session, strict)
      && (ok && Steppable(state) ==>
            Produced(state, Fold(s.log), session) && Completed(Fold(s.log), state, session, strict))
  }

  ghost predicate LiveOk(s: System) {
    s.live.Some? ==> s.pc.Working? && s.live == Some(s.pc.session)
  }

  ghost predicate Safe(s: System, b: Budgets, strict: bool) {
    && Legal(s.log) && s.log != [] && Gated(s.log, b, strict)
    && Known(Fold(s.log), s.minted)
    && LiveOk(s)
    && Diagnosed(Fold(s.log))
    && OrphansOk(s.log, s.orphans, b, strict) && (strict ==> s.orphans == [])
    && (strict && Fold(s.log).state == Some(Judging) ==> PlannerOwns(Fold(s.log)))
    && PcOk(s, b, strict)
  }

  // ---------------------------------------------------------------- entries by others

  /** What an entry can be that is neither a transition of the controller nor the record of the step under way:
      a step record among them is an abandoned one. */
  ghost predicate ByOthers(s: System, e: Entry, strict: bool) {
    && !e.body.OpenedBody?
    && (e.body.StateBody? ==> e.principal == Verifier)
    && (Authored(e) ==> e.session.Some? && e.session.value in s.minted && (strict ==> s.live == e.session))
    && (e.body.StepBody? ==> !strict && LateStepOk(Fold(s.log), e.body))
  }

  ghost predicate LateStepOk(rec: Record, body: Body)
    requires body.StepBody?
  {
    body.ok && body.role == Diagnostician ==> body.stepOf.Some? && Artefacts.HasRankOne(rec, body.stepOf.value)
  }

  lemma {:induction false} WorkerEntry(s: System, rq: Request, env: Env, strict: bool)
    requires Legal(s.log) && WorkerMay(s, rq, strict) && Decide(s.log, rq).Write?
    ensures var e := NewEntry(s.log, Decide(s.log, rq), env); ByOthers(s, e, strict) && !e.body.StepBody?
  {
    hide Decide;
    DecideWrites(s.log, rq, env);
  }

  lemma {:induction false} OutsiderEntry(s: System, rq: Request, env: Env, strict: bool)
    requires Legal(s.log) && OutsiderMay(rq) && Decide(s.log, rq).Write?
    ensures var e := NewEntry(s.log, Decide(s.log, rq), env); ByOthers(s, e, strict) && !e.body.StepBody?
  {
    hide Decide;
    DecideWrites(s.log, rq, env);
  }

  lemma {:induction false} OthersKeepStep(s: System, e: Entry, state: State, session: string, strict: bool)
    requires EntryOk(Fold(s.log), e) && ByOthers(s, e, strict)
    requires StepOn(s.log, s.orphans, state, session, strict)
    requires strict && s.live.Some? ==> s.live == Some(session)
    requires strict ==> Authored(e) ==> e.session == Some(session)
    ensures StepOn(s.log + [e], s.orphans, state, session, strict)
  {
    FoldPush(s.log, e);
    VerdictsPush(Fold(s.log), e);
    if !Moves(e) && Fold(s.log).state == Some(state) {
      OwnsKept(s.log, e, session, strict);
    }
  }

  lemma {:induction false} LastOkPush(steps: seq<StepRecord>, x: StepRecord, role: Role)
    ensures LastOk(steps + [x], role) == if x.role == role && x.ok then Some(x) else LastOk(steps, role)
  {
    assert (steps + [x])[..|steps|] == steps;
  }

  function StepRecordOf(e: Entry): StepRecord
    requires e.body.StepBody?
  {
    StepRecord(e.body.role, e.body.stepOf, e.body.ok, e.body.reason, e.body.state, e.ts)
  }

  lemma {:induction false} LastOkStep(rec: Record, e: Entry, role: Role)
    ensures LastOk(Apply(rec, e).steps, role) ==
      if e.body.StepBody? && e.body.role == role && e.body.ok then Some(StepRecordOf(e)) else LastOk(rec.steps, role)
  {
    hide LastOk;
    if e.body.StepBody? {
      LastOkPush(rec.steps, StepRecordOf(e), role);
    }
  }

  lemma {:induction false} CompletedKept(rec: Record, e: Entry, state: State, session: string, strict: bool)
    requires Completed(rec, state, session, strict) && (e.body.StepBody? ==> !strict)
    ensures Completed(Apply(rec, e), state, session, strict)
  {
    hide Apply, LastOk;
    LastOkStep(rec, e, StepRole(state));
  }

  lemma {:induction false} DiagnosedKept(rec: Record, e: Entry)
    requires Diagnosed(rec) && (e.body.StepBody? ==> LateStepOk(rec, e.body))
    ensures Diagnosed(Apply(rec, e))
  {
    hide Apply, LastOk;
    LastOkStep(rec, e, Diagnostician);
    var last := LastOk(Apply(rec, e).steps, Diagnostician);
    if last.Some? {
      RankKept(rec, e, last.value.session.value);
    }
  }

  lemma {:induction false} SnapshotKept(log: seq<Entry>, e: Entry, rec: Record, to: State, b: Budgets, strict: bool)
    requires SnapshotGated(log, rec, to, b, strict)
    ensures SnapshotGated(log + [e], rec, to, b, strict)
  {
    assert (log + [e])[..rec.revision] == log[..rec.revision];
  }

  lemma {:induction false} OrphansKept(log: seq<Entry>, e: Entry, os: seq<Orphan>, b: Budgets, strict: bool)
    requires OrphansOk(log, os, b, strict)
    ensures OrphansOk(log + [e], os, b, strict)
  {
    hide SnapshotGated, Produced;
    FoldPush(log, e);
    forall i | 0 <= i < |os| ensures OrphanOk(log + [e], os[i], b, strict) {
      assert OrphanOk(log, os[i], b, strict);
      match os[i]
      case LateCas(rec, to) => SnapshotKept(log, e, rec, to, b, strict);
      case LateStep(state, session, ok) =>
        if ok && Steppable(state) {
          ProducedKept(state, Fold(log), e, session);
        }
      case LateCost(_, _) =>
    }
  }

  lemma {:induction false} UnderJudgementKept(log: seq<Entry>, e: Entry)
    requires Legal(log + [e]) && Legal(log) && ArtefactOf(e).None?
    ensures UnderJudgement(Apply(Fold(log), e)) == UnderJudgement(Fold(log))
  {
    LegalRevisions(log + [e]);
    assert (log + [e])[..|log|] == log;
    RevsBelow(log, e.rev);
    UnderJudgementStep(Fold(log), e);
  }

  lemma {:induction false} OthersKeepPlanner(s: System, e: Entry, strict: bool)
    requires Legal(s.log) && Legal(s.log + [e]) && EntryOk(Fold(s.log), e) && ByOthers(s, e, strict) && strict
    requires Fold(s.log).state == Some(Judging) ==> PlannerOwns(Fold(s.log))
    ensures Apply(Fold(s.log), e).state == Some(Judging) ==> PlannerOwns(Apply(Fold(s.log), e))
  {
    if Apply(Fold(s.log), e).state == Some(Judging) {
      VerdictsPush(Fold(s.log), e);
      UnderJudgementKept(s.log, e);
    }
  }

  lemma {:induction false} OthersKeepPc(s: System, e: Entry, b: Budgets, strict: bool)
    requires PcOk(s, b, strict) && LiveOk(s) && EntryOk(Fold(s.log), e) && ByOthers(s, e, strict)
    ensures PcOk(s.(log := s.log + [e]), b, strict)
  {
    hide StepOn, Produced, Completed, SnapshotGated, EntryOk;
    FoldPush(s.log, e);
    match s.pc
    case Idle =>
    case Deciding(rec, to) => SnapshotKept(s.log, e, rec, to, b, strict);
    case Working(state, session) => OthersKeepStep(s, e, state, session, strict);
    case Checking(state, session) => OthersKeepStep(s, e, state, session, strict);
    case Recording(state, session, ok, _) =>
      OthersKeepStep(s, e, state, session, strict);
      if ok && Steppable(state) {
        ProducedKept(state, Fold(s.log), e, session);
      }
    case Recorded(state, session, ok, _) =>
      OthersKeepStep(s, e, state, session, strict);
      if ok && Steppable(state) {
        ProducedKept(state, Fold(s.log), e, session);
        CompletedKept(Fold(s.log), e, state, session, strict);
      }
  }

  lemma {:induction false} OthersKeepSafe(s: System, e: Entry, b: Budgets, strict: bool)
    requires Safe(s, b, strict) && Legal(s.log + [e]) && EntryOk(Fold(s.log), e) && ByOthers(s, e, strict)
    ensures Safe(s.(log := s.log + [e]), b, strict)
  {
    hide PcOk, OrphansOk, Legal;
    FoldPush(s.log, e);
    GatedPush(s.log, e, b, strict);
    KnownKept(Fold(s.log), e, s.minted);
    DiagnosedKept(Fold(s.log), e);
    OrphansKept(s.log, e, s.orphans, b, strict);
    OthersKeepPc(s, e, b, strict);
    if strict {
      OthersKeepPlanner(s, e, strict);
    }
  }

  lemma {:induction false} SafeLegal(s: System, b: Budgets, strict: bool)
    requires Safe(s, b, strict)
    ensures Legal(s.log) && s.log != []
  {
  }

  lemma {:induction false} OthersStepSafe(s: System, rq: Request, env: Env, b: Budgets, strict: bool)
    requires Safe(s, b, strict)
    requires Decide(s.log, rq).Write? ==> ByOthers(s, NewEntry(s.log, Decide(s.log, rq), env), strict)
    ensures Safe(s.(log := Perform(s.log, rq, env).0), b, strict)
  {
    hide Decide, Safe, ByOthers;
    var d := Decide(s.log, rq);
    if d.Write? && env.auditOk {
      SafeLegal(s, b, strict);
      WriteAppends(s.log, rq, env);
      DecideIsLegal(s.log, rq, env);
      PerformIsLegal(s.log, rq, env);
      OthersKeepSafe(s, NewEntry(s.log, d, env), b, strict);
    }
  }

  // ---------------------------------------------------------------- the runner's own steps

  lemma {:induction false} SnapshotOk(s: System, to: State, b: Budgets, strict: bool)
    requires Legal(s.log) && MayMove(s.log, to, b, strict)
    ensures SnapshotGated(s.log, Fold(s.log), to, b, strict)
  {
    LegalRevisions(s.log);
    assert s.log[..|s.log|] == s.log;
  }

  lemma {:induction false} HandOffGate(log: seq<Entry>, b: Budgets, strict: bool)
    ensures MayMove(log, HandedOff, b, strict)
  {
  }

  lemma {:induction false} BeginSafe(s: System, session: string, bundle: BundleStatus, llm: bool, b: Budgets,
      strict: bool)
    requires Safe(s, b, strict) && s.pc == Idle && session !in s.minted
    ensures Safe(Chosen(s, session, bundle, llm, b), b, strict)
  {
    hide Gated, Legal, Diagnosed, OrphansOk, PlannerOwns, ClosureDue, SnapshotGated, Produced, Completed, MovedOn;
    HandOffGate(s.log, b, strict);
    SnapshotOk(s, HandedOff, b, strict);
    if Fold(s.log).state == Some(Open) {
      SnapshotOk(s, Diagnosing, b, strict);
    }
    assert Owns(s.log, session, strict);
  }

  lemma {:induction false} StepEntryKeepsPlanner(rec: Record, e: Entry)
    requires e.body.StepBody? && e.body.role != ChangePlanner && PlannerOwns(rec)
    ensures PlannerOwns(Apply(rec, e))
  {
    assert Apply(rec, e).steps[..|rec.steps|] == rec.steps;
  }

  /** The entry `append_step` writes. */
  lemma {:induction false} StepEntry(log: seq<Entry>, state: State, session: string, ok: bool, reason: string, env: Env)
    requires Decide(log, StepRequest(state, session, ok, reason)).Write?
    ensures var e := NewEntry(log, Decide(log, StepRequest(state, session, ok, reason)), env);
      e.body == StepBody(StepRole(state), Some(session), ok, reason, state) && e.principal == Controller
        && e.ts == env.ts
  {
  }

  /** The runner's step record, whose success is what `Completed` reads. */
  predicate StepOf(e: Entry, state: State, session: string, ok: bool) {
    e.body.StepBody? && e.body.role == StepRole(state) && e.body.ok == ok && e.body.stepOf == Some(session)
  }

  lemma {:induction false} StepKeepsOn(s: System, e: Entry, strict: bool)
    requires s.pc.Recording? && StepOn(s.log, s.orphans, s.pc.state, s.pc.session, strict) && e.body.StepBody?
    ensures StepOn(s.log + [e], s.orphans, s.pc.state, s.pc.session, strict)
  {
    hide Owns;
    FoldPush(s.log, e);
    if Fold(s.log).state == Some(s.pc.state) {
      OwnsKept(s.log, e, s.pc.session, strict);
    }
  }

  lemma {:induction false} StepCompletes(rec: Record, e: Entry, state: State, session: string, ok: bool, strict: bool)
    requires StepOf(e, state, session, ok) && Diagnosed(rec)
        && (ok && Steppable(state) ==> Produced(state, rec, session))
    ensures Diagnosed(Apply(rec, e))
    ensures ok && Steppable(state) ==>
        Produced(state, Apply(rec, e), session) && Completed(Apply(rec, e), state, session, strict)
  {
    hide Apply, LastOk, Produced, Diagnosed;
    LastOkStep(rec, e, e.body.role);
    if ok && Steppable(state) {
      ProducedKept(state, rec, e, session);
    }
    LateIsOk(rec, e.body, state, session);
    DiagnosedKept(rec, e);
  }

  /** A completed diagnosis has left its rank-1 hypothesis when its record is written. */
  lemma {:induction false} LateIsOk(rec: Record, body: Body, state: State, session: string)
    requires body.StepBody? && body.role == StepRole(state) && body.stepOf == Some(session)
    requires body.ok && Steppable(state) ==> Produced(state, rec, session)
    ensures LateStepOk(rec, body)
  {
    DiagnosticianIsDiagnosing(state);
  }

  lemma {:induction false} StepWritten(s: System, e: Entry, b: Budgets, strict: bool)
    requires Safe(s, b, strict) && s.pc.Recording? && Legal(s.log + [e]) && e.principal == Controller
    requires StepOf(e, s.pc.state, s.pc.session, s.pc.ok)
    ensures Safe(s.(log := s.log + [e], pc := Recorded(s.pc.state, s.pc.session, s.pc.ok, s.pc.limitHit)), b, strict)
  {
    hide OrphansOk, Legal, Diagnosed, Produced, Completed, StepOn;
    var rec := Fold(s.log);
    FoldPush(s.log, e);
    GatedPush(s.log, e, b, strict);
    KnownKept(rec, e, s.minted);
    OrphansKept(s.log, e, s.orphans, b, strict);
    StepKeepsOn(s, e, strict);
    StepCompletes(rec, e, s.pc.state, s.pc.session, s.pc.ok, strict);
    if strict && rec.state == Some(Judging) {
      InItsState(s.log, s.orphans, s.pc.state, s.pc.session);
      StepEntryKeepsPlanner(rec, e);
    }
  }

  lemma {:induction false} InItsState(log: seq<Entry>, os: seq<Orphan>, state: State, session: string)
    requires StepOn(log, os, state, session, true)
    ensures Fold(log).state == Some(state)
  {
  }

  lemma {:induction false} DiagnosticianIsDiagnosing(state: State)
    ensures StepRole(state) == Diagnostician <==> state == Diagnosing
  {
  }

  lemma {:induction false} RecordStepSafe(s: System, reason: string, env: Env, b: Budgets, strict: bool)
    requires Safe(s, b, strict) && s.pc.Recording? && env.auditOk
    requires Decide(s.log, StepRequest(s.pc.state, s.pc.session, s.pc.ok, reason)).Write?
    ensures Safe(s.(log := Perform(s.log, StepRequest(s.pc.state, s.pc.session, s.pc.ok, reason), env).0,
                    pc := Recorded(s.pc.state, s.pc.session, s.pc.ok, s.pc.limitHit)), b, strict)
  {
    hide Decide, Perform, PcOk;
    var rq := StepRequest(s.pc.state, s.pc.session, s.pc.ok, reason);
    StepEntry(s.log, s.pc.state, s.pc.session, s.pc.ok, reason, env);
    PerformIsLegal(s.log, rq, env);
    WriteAppends(s.log, rq, env);
    StepWritten(s, NewEntry(s.log, Decide(s.log, rq), env), b, strict);
  }

  lemma {:induction false} CostEntry(log: seq<Entry>, rq: Request, env: Env)
    requires rq.principal == Controller && rq.call.AddCost? && Decide(log, rq).Write?
    ensures NewEntry(log, Decide(log, rq), env).body.CostBody?
  {
  }

  // ---------------------------------------------------------------- deciding after a step

  lemma {:induction false} DiagnosisGate(log: seq<Entry>, session: string, to: State, b: Budgets, strict: bool)
    requires Legal(log) && Fold(log).state == Some(Diagnosing) && Diagnosed(Fold(log))
    requires Completed(Fold(log), Diagnosing, session, strict)
    requires AfterStep(Fold(log), Diagnosing, true, false, b) == Some(to)
    ensures MayMove(log, to, b, strict)
  {
    Artefacts.TopHypothesisDefined(Fold(log), LastOk(Fold(log).steps, Diagnostician).value.session.value);
  }

  lemma {:induction false} PlannerGate(log: seq<Entry>, session: string, b: Budgets, strict: bool)
    requires Legal(log) && Fold(log).state == Some(Recommending) && Owns(log, session, strict)
    requires Produced(Recommending, Fold(log), session) && Completed(Fold(log), Recommending, session, strict)
    ensures MayMove(log, Judging, b, strict)
  {
    VisitArtefactIsUnder(log);
  }

  lemma {:induction false} JudgeGate(log: seq<Entry>, session: string, to: State, b: Budgets, strict: bool)
    requires Legal(log) && Fold(log).state == Some(Judging) && Owns(log, session, strict)
    requires Produced(Judging, Fold(log), session) && Completed(Fold(log), Judging, session, strict)
    requires strict ==> PlannerOwns(Fold(log))
    requires AfterStep(Fold(log), Judging, true, false, b) == Some(to)
    ensures MayMove(log, to, b, strict)
  {
    VisitVerdictIsLast(log);
    VerdictTargetsUnderJudgement(log);
  }

  /** When an abandoned transition has overtaken the step, its own conclusion meets no gate: it is not a
      transition of the table. */
  lemma {:induction false} OvertakenGate(log: seq<Entry>, os: seq<Orphan>, state: State, to: State, ok: bool,
      limitHit: bool, b: Budgets)
    requires Fold(log).state.Some? && MovedOn(Fold(log).state.value, state, os, |log|)
    requires AfterStep(Fold(log), state, ok, limitHit, b) == Some(to)
    ensures MayMove(log, to, b, false)
    ensures ControllerMay(Fold(log).state.value, to) ==> to == HandedOff
  {
  }

  lemma {:induction false} RereadSafe(s: System, b: Budgets, strict: bool)
    requires Safe(s, b, strict) && s.pc.Recorded?
    ensures Safe(Next(s, Reread, b, strict), b, strict)
  {
    hide Gated, Known, OrphansOk, Owns, Produced, MayMove, Diagnosed, Completed, SnapshotGated, PlannerOwns, MovedOn;
    var to := AfterStep(Fold(s.log), s.pc.state, s.pc.ok, s.pc.limitHit, b);
    if s.pc.state != Resolved && to.Some? {
      if to.value == HandedOff {
        HandOffGate(s.log, b, strict);
      } else if Fold(s.log).state != Some(s.pc.state) {
        OvertakenGate(s.log, s.orphans, s.pc.state, to.value, s.pc.ok, s.pc.limitHit, b);
      } else {
        match s.pc.state
        case Diagnosing => DiagnosisGate(s.log, s.pc.session, to.value, b, strict);
        case Recommending => PlannerGate(s.log, s.pc.session, b, strict);
        case Judging => JudgeGate(s.log, s.pc.session, to.value, b, strict);
        case Reporting => ReportGate(s.log, s.pc.session, b, strict);
        case _ =>
      }
      SnapshotOk(s, to.value, b, strict);
    }
  }

  lemma {:induction false} ReportGate(log: seq<Entry>, session: string, b: Budgets, strict: bool)
    requires Fold(log).state == Some(Reporting) && Produced(Reporting, Fold(log), session)
    ensures MayMove(log, AwaitingOperator, b, strict)
  {
  }

  // ---------------------------------------------------------------- the compare-and-swap

  /** An accepted CAS happens at the very revision the decision was taken from. */
  lemma {:induction false} CasEntry(log: seq<Entry>, rec: Record, to: State, env: Env, b: Budgets, strict: bool)
    requires Legal(log) && SnapshotGated(log, rec, to, b, strict)
    requires Decide(log, CasRequest(rec, to)).Write?
    ensures rec.revision == |log| && rec == Fold(log) && MayMove(log, to, b, strict)
    ensures var e := NewEntry(log, Decide(log, CasRequest(rec, to)), env);
      && Fold(log).state.Some? && e.principal == Controller && e.session == None
      && e.body == StateBody(Fold(log).state.value, to, "") && ControllerMay(Fold(log).state.value, to)
  {
    hide MayMove;
    LegalRevisions(log);
    LogFacts.TransitionNamesRevision(log, CasRequest(rec, to));
    assert log[..|log|] == log;
  }

  /** Entering `judging` keeps the planner's ownership of the artefact: the gate asked for it. */
  lemma {:induction false} CasKeepsPlanner(log: seq<Entry>, e: Entry, b: Budgets)
    requires Legal(log) && Legal(log + [e])
    requires e.body.StateBody? && Fold(log).state == Some(e.body.frm) && ControllerMay(e.body.frm, e.body.to)
    requires MayMove(log, e.body.to, b, true)
    ensures e.body.to == Judging ==> PlannerOwns(Apply(Fold(log), e))
  {
    if e.body.to == Judging {
      UnderJudgementKept(log, e);
    }
  }

  lemma {:induction false} CasSafe(s: System, env: Env, b: Budgets, strict: bool)
    requires Safe(s, b, strict) && s.pc.Deciding? && env.auditOk
    requires Decide(s.log, CasRequest(s.pc.rec, s.pc.to)).Write?
    ensures Safe(s.(log := Perform(s.log, CasRequest(s.pc.rec, s.pc.to), env).0, pc := Idle), b, strict)
  {
    hide Decide, Perform, Gated, Known, OrphansOk, Diagnosed, PlannerOwns, SnapshotGated, MayMove, CasRequest;
    var rq := CasRequest(s.pc.rec, s.pc.to);
    CasEntry(s.log, s.pc.rec, s.pc.to, env, b, strict);
    PerformIsLegal(s.log, rq, env);
    WriteAppends(s.log, rq, env);
    TransitionSafe(s.(pc := Idle), NewEntry(s.log, Decide(s.log, rq), env), b, strict);
  }

  /** A transition of the controller, waited for or abandoned: a step under way is overtaken by it. */
  lemma {:induction false} TransitionKeepsPc(s: System, e: Entry, b: Budgets, strict: bool)
    requires PcOk(s, b, strict) && OrphansOk(s.log, s.orphans, b, strict)
    requires e.body.StateBody? && Fold(s.log).state == Some(e.body.frm) && ControllerMay(e.body.frm, e.body.to)
    requires !Stale(s.orphans, |s.log|) && !strict
    ensures PcOk(s.(log := s.log + [e]), b, strict)
  {
    hide Produced, Owns, SnapshotGated, Completed;
    FoldPush(s.log, e);
    OrphansStale(s.log, s.orphans, b, strict);
    match s.pc
    case Idle =>
    case Deciding(rec, to) => SnapshotKept(s.log, e, rec, to, b, strict);
    case Working(_, _) =>
    case Checking(_, _) =>
    case Recording(state, session, ok, _) =>
      if ok && Steppable(state) {
        ProducedKept(state, Fold(s.log), e, session);
      }
    case Recorded(state, session, ok, _) =>
      if ok && Steppable(state) {
        ProducedKept(state, Fold(s.log), e, session);
        CompletedKept(Fold(s.log), e, state, session, strict);
      }
  }

  lemma {:induction false} OrphansStale(log: seq<Entry>, os: seq<Orphan>, b: Budgets, strict: bool)
    requires OrphansOk(log, os, b, strict)
    ensures Stale(os, |log| + 1)
  {
    forall i | 0 <= i < |os| && os[i].LateCas? ensures os[i].rec.revision < |log| + 1 {
      assert OrphanOk(log, os[i], b, strict);
    }
  }

  lemma {:induction false} TransitionSafe(s: System, e: Entry, b: Budgets, strict: bool)
    requires Safe(s, b, strict) && Legal(s.log + [e])
    requires e.body.StateBody? && Fold(s.log).state == Some(e.body.frm) && ControllerMay(e.body.frm, e.body.to)
    requires MayMove(s.log, e.body.to, b, strict)
    requires s.pc == Idle || (!strict && !Stale(s.orphans, |s.log|))
    ensures Safe(s.(log := s.log + [e]), b, strict)
  {
    hide PcOk, OrphansOk, Legal;
    FoldPush(s.log, e);
    GatedPush(s.log, e, b, strict);
    KnownKept(Fold(s.log), e, s.minted);
    DiagnosedKept(Fold(s.log), e);
    OrphansKept(s.log, e, s.orphans, b, strict);
    if s.pc == Idle {
      IdleOk(s.(log := s.log + [e]), b, strict);
    } else {
      TransitionKeepsPc(s, e, b, strict);
    }
    if strict {
      CasKeepsPlanner(s.log, e, b);
    }
  }

  lemma {:induction false} IdleOk(s: System, b: Budgets, strict: bool)
    requires s.pc == Idle
    ensures PcOk(s, b, strict)
  {
  }

  // ---------------------------------------------------------------- abandoned calls

  lemma {:induction false} LeftOk(s: System, b: Budgets, strict: bool)
    requires PcOk(s, b, strict) && OrphansOk(s.log, s.orphans, b, strict)
    ensures OrphansOk(s.log, s.orphans + Left(s.pc), b, strict)
  {
    hide StepOn, SnapshotGated, Produced, Completed;
    var os := s.orphans + Left(s.pc);
    forall i | 0 <= i < |os| ensures OrphanOk(s.log, os[i], b, strict) {
      if i < |s.orphans| {
        assert OrphanOk(s.log, s.orphans[i], b, strict);
      }
    }
  }

  lemma {:induction false} CrashSafe(s: System, answered: bool, b: Budgets, strict: bool)
    requires Safe(s, b, strict)
    ensures Safe(Next(s, Crash(answered), b, strict), b, strict)
  {
    hide Gated, Known, OrphansOk, Legal, Diagnosed, PlannerOwns, StepOn, SnapshotGated, Produced, Completed;
    LeftOk(s, b, strict);
    assert s.orphans + [] == s.orphans;
  }

  lemma {:induction false} CostLostSafe(s: System, b: Budgets, strict: bool)
    requires Safe(s, b, strict)
    ensures Safe(Next(s, CostLost, b, strict), b, strict)
  {
    hide Gated, Known, OrphansOk, Legal, Diagnosed, PlannerOwns, SnapshotGated, Produced, Completed, Owns;
    LeftOk(s, b, strict);
  }

  lemma {:induction false} AfterErrorSafe(s: System, answered: bool, b: Budgets, strict: bool)
    requires Safe(s, b, strict) && (strict ==> answered)
    ensures Safe(AfterError(s, answered), b, strict)
  {
    hide Gated, Known, OrphansOk, Diagnosed, PlannerOwns, StepOn, SnapshotGated, Produced, Completed, MayMove;
    HandOffGate(s.log, b, strict);
    SnapshotOk(s, HandedOff, b, strict);
    LeftOk(s, b, strict);
    assert s.orphans + [] == s.orphans;
  }

  lemma {:induction false} FewerOrphans(s: System, i: nat, b: Budgets, strict: bool)
    requires Safe(s, b, strict) && i < |s.orphans|
    ensures Safe(s.(orphans := Without(s.orphans, i)), b, strict)
  {
    hide Gated, Known, Legal, Diagnosed, PlannerOwns, Owns, SnapshotGated, Produced, Completed, OrphanOk;
    var rest := Without(s.orphans, i);
    forall j | 0 <= j < |rest|
      ensures rest[j] == s.orphans[if j < i then j else j + 1] && OrphanOk(s.log, rest[j], b, strict)
    {
      assert OrphanOk(s.log, s.orphans[if j < i then j else j + 1], b, strict);
    }
  }

  /** An abandoned transition is accepted only on the log it was computed from, where it passed its gate. */
  lemma {:induction false} LateCasSafe(s: System, i: nat, env: Env, b: Budgets, strict: bool)
    requires Safe(s, b, strict) && i < |s.orphans| && s.orphans[i].LateCas?
    ensures Safe(s.(log := Perform(s.log, CasRequest(s.orphans[i].rec, s.orphans[i].to), env).0), b, strict)
  {
    hide Decide, Perform, Gated, Known, Diagnosed, PlannerOwns, SnapshotGated, MayMove, CasRequest, PcOk;
    var rec, to := s.orphans[i].rec, s.orphans[i].to;
    var rq := CasRequest(rec, to);
    assert OrphanOk(s.log, s.orphans[i], b, strict);
    if Decide(s.log, rq).Write? && env.auditOk {
      CasEntry(s.log, rec, to, env, b, strict);
      assert !Stale(s.orphans, |s.log|);
      PerformIsLegal(s.log, rq, env);
      WriteAppends(s.log, rq, env);
      TransitionSafe(s, NewEntry(s.log, Decide(s.log, rq), env), b, strict);
    } else {
      Unchanged(s.log, rq, env);
    }
  }

  lemma {:induction false} Unchanged(log: seq<Entry>, rq: Request, env: Env)
    requires !(Decide(log, rq).Write? && env.auditOk)
    ensures Perform(log, rq, env).0 == log
  {
    hide Decide;
  }

  lemma {:induction false} LateStepSafe(s: System, i: nat, reason: string, env: Env, b: Budgets, strict: bool)
    requires Safe(s, b, strict) && i < |s.orphans| && s.orphans[i].LateStep?
    ensures var o := s.orphans[i];
      Safe(s.(log := Perform(s.log, StepRequest(o.state, o.session, o.ok, reason), env).0), b, strict)
  {
    hide Decide, Perform, Gated, Known, Diagnosed, PlannerOwns, SnapshotGated, PcOk, StepRequest;
    var o := s.orphans[i];
    var rq := StepRequest(o.state, o.session, o.ok, reason);
    assert OrphanOk(s.log, s.orphans[i], b, strict);
    DiagnosticianIsDiagnosing(o.state);
    if Decide(s.log, rq).Write? {
      StepEntry(s.log, o.state, o.session, o.ok, reason, env);
    }
    OthersStepSafe(s, rq, env, b, strict);
  }

  lemma {:induction false} CostSafe(s: System, state: State, session: string, usd: int, turns: int, env: Env,
      b: Budgets, strict: bool)
    requires Safe(s, b, strict)
    ensures Safe(s.(log := Perform(s.log, CostRequest(state, session, usd, turns), env).0), b, strict)
  {
    hide Decide, Perform, Safe;
    var rq := CostRequest(state, session, usd, turns);
    if Decide(s.log, rq).Write? {
      CostEntry(s.log, rq, env);
    }
    OthersStepSafe(s, rq, env, b, strict);
  }

  lemma {:induction false} LandSafe(s: System, i: nat, usd: int, turns: int, reason: string, env: Env, b: Budgets,
      strict: bool)
    requires Safe(s, b, strict) && i < |s.orphans|
    ensures Safe(s.(log := Perform(s.log, LateRequest(s.orphans[i], usd, turns, reason), env).0,
                    orphans := Without(s.orphans, i)), b, strict)
  {
    hide Perform, Safe, CasRequest, StepRequest, CostRequest;
    match s.orphans[i] {
      case LateCas(_, _) => LateCasSafe(s, i, env, b, strict);
      case LateStep(_, _, _) => LateStepSafe(s, i, reason, env, b, strict);
      case LateCost(state, session) => CostSafe(s, state, session, usd, turns, env, b, strict);
    }
    FewerOrphans(s.(log := Perform(s.log, LateRequest(s.orphans[i], usd, turns, reason), env).0), i, b, strict);
  }

  // ---------------------------------------------------------------- every reachable state

  lemma {:induction false} ValidateSafe(s: System, completed: bool, limitHit: bool,
      out: Option<Artefacts.Structured>, alerts: seq<Artefacts.Alert>, b: Budgets, strict: bool)
    requires Safe(s, b, strict) && s.pc.Checking?
    ensures Safe(Next(s, Validate(completed, limitHit, out, alerts), b, strict), b, strict)
  {
    var rec := Fold(s.log);
    if Steppable(s.pc.state) && Artefacts.StepOk(rec, StepRole(s.pc.state), s.pc.session, Incident, alerts, out) {
      StepOkProduces(rec, s.pc.state, s.pc.session, alerts, out);
    }
  }

  lemma {:induction false} OthersSafe(s: System, l: Label, b: Budgets, strict: bool)
    requires Safe(s, b, strict) && (l.Work? || l.Outside? || l.RecordCost?)
    ensures Safe(Next(s, l, b, strict), b, strict)
  {
    hide Decide, Perform, Gated, Known, Owns, PcOk;
    match l
    case Work(rq, env) =>
      if WorkerMay(s, rq, strict) {
        if Decide(s.log, rq).Write? {
          WorkerEntry(s, rq, env, strict);
        }
        OthersStepSafe(s, rq, env, b, strict);
      }
    case Outside(rq, env) =>
      if OutsiderMay(rq) {
        if Decide(s.log, rq).Write? {
          OutsiderEntry(s, rq, env, strict);
        }
        OthersStepSafe(s, rq, env, b, strict);
      }
    case RecordCost(usd, turns, env) =>
      if s.pc.Checking? {
        CostSafe(s, s.pc.state, s.pc.session, usd, turns, env, b, strict);
      }
  }

  /** A pass that ends here leaves no step behind. */
  lemma {:induction false} RestSafe(s: System, faults: nat, b: Budgets, strict: bool)
    requires Safe(s, b, strict) && !s.pc.Working?
    ensures Safe(s.(pc := Idle, faults := faults), b, strict)
  {
    hide Gated, Known, OrphansOk, Legal, Diagnosed, PlannerOwns, StepOn, SnapshotGated, Produced, Completed;
  }

  lemma {:induction false} RecordStepNextSafe(s: System, reason: string, env: Env, b: Budgets, strict: bool)
    requires Safe(s, b, strict)
    ensures Safe(Next(s, RecordStep(reason, env), b, strict), b, strict)
  {
    hide Decide, Perform, Safe, Fold;
    AfterErrorSafe(s, true, b, strict);
    if s.pc.Recording? {
      RestSafe(s, s.faults + 1, b, strict);
    }
    if s.pc.Recording? && env.auditOk && Decide(s.log, StepRequest(s.pc.state, s.pc.session, s.pc.ok, reason)).Write? {
      RecordStepSafe(s, reason, env, b, strict);
    }
  }

  lemma {:induction false} CasNextSafe(s: System, env: Env, b: Budgets, strict: bool)
    requires Safe(s, b, strict)
    ensures Safe(Next(s, Cas(env), b, strict), b, strict)
  {
    hide Decide, Perform, Gated, Known, Owns, Passed, OrphansOk, Diagnosed, Legal, PlannerOwns, SnapshotGated;
    if s.pc.Deciding? && env.auditOk && Decide(s.log, CasRequest(s.pc.rec, s.pc.to)).Write? {
      CasSafe(s, env, b, strict);
    }
  }

  lemma {:induction false} EndStepSafe(s: System, b: Budgets, strict: bool)
    requires Safe(s, b, strict)
    ensures Safe(Next(s, EndStep, b, strict), b, strict)
  {
    hide Gated, Known, OrphansOk, Legal, Diagnosed, PlannerOwns, StepOn, SnapshotGated, Produced, Completed;
  }

  lemma {:induction false} IsolationSafe(s: System, b: Budgets, strict: bool)
    requires Safe(s, b, strict)
    ensures Safe(Next(s, IsolationFailure, b, strict), b, strict)
  {
    hide Gated, Known, OrphansOk, Diagnosed, PlannerOwns, StepOn, SnapshotGated, Produced, Completed, MayMove;
    HandOffGate(s.log, b, strict);
    SnapshotOk(s, HandedOff, b, strict);
  }

  lemma {:induction false} NextSafe(s: System, l: Label, b: Budgets, strict: bool)
    requires Safe(s, b, strict)
    ensures Safe(Next(s, l, b, strict), b, strict)
  {
    hide Decide, Perform, Safe, Chosen, AfterStep, AfterError, Fold;
    match l
    case Begin(session, bundle, llm) =>
      if s.pc == Idle && session !in s.minted {
        BeginSafe(s, session, bundle, llm, b, strict);
      }
    case IsolationFailure => IsolationSafe(s, b, strict);
    case EndStep => EndStepSafe(s, b, strict);
    case Validate(completed, limitHit, out, alerts) =>
      if s.pc.Checking? {
        ValidateSafe(s, completed, limitHit, out, alerts, b, strict);
      }
    case RecordStep(reason, env) => RecordStepNextSafe(s, reason, env, b, strict);
    case Reread =>
      if s.pc.Recorded? {
        RereadSafe(s, b, strict);
      }
    case Cas(env) => CasNextSafe(s, env, b, strict);
    case CostLost => CostLostSafe(s, b, strict);
    case Fault(answered) => AfterErrorSafe(s, strict || answered, b, strict);
    case Crash(answered) => CrashSafe(s, answered, b, strict);
    case Land(i, usd, turns, reason, env) =>
      if i < |s.orphans| {
        LandSafe(s, i, usd, turns, reason, env, b, strict);
      }
    case _ => OthersSafe(s, l, b, strict);
  }

  lemma {:induction false} InitialSafe(s: System, b: Budgets, strict: bool)
    requires Initial(s)
    ensures Safe(s, b, strict)
  {
    assert s.log[..0] == [];
  }

  lemma {:induction false} ReachableSafe(s: System, ls: seq<Label>, b: Budgets, strict: bool)
    requires Initial(s)
    ensures Safe(Exec(s, ls, b, strict), b, strict)
  {
    if ls == [] {
      InitialSafe(s, b, strict);
    } else {
      ReachableSafe(s, ls[..|ls|-1], b, strict);
      NextSafe(Exec(s, ls[..|ls|-1], b, strict), ls[|ls|-1], b, strict);
    }
  }

  // ---------------------------------------------------------------- main results

  /** Whatever workers do and however the verifier and sentinel interleave, an episode leaves `judging` for
      `reporting` only when the last verdict was written in that visit, says PASS, and is about the
      artefact under judgement at the transition's revision. When a capability is unusable once its
      step has ended (`strict`), the verdict is by the session of the judge step that completed, and
      its target by the session of the planner step that completed before. */
  lemma {:induction false} ReportingNeedsPass(s: System, ls: seq<Label>, b: Budgets, strict: bool, i: nat)
    requires Initial(s)
    requires var log := Exec(s, ls, b, strict).log;
      i < |log| && log[i].body.StateBody? && log[i].body.frm == Judging && log[i].body.to == Reporting
    ensures Passed(Exec(s, ls, b, strict).log[..i], strict)
  {
    ReachableSafe(s, ls, b, strict);
    var log := Exec(s, ls, b, strict).log;
    LegalAt(log, i);
    GatedAt(log, b, strict, i);
  }

  /** The judge sends an episode back at most P-09 times. */
  lemma {:induction false} AtMostP09Returns(s: System, ls: seq<Label>, b: Budgets, strict: bool)
    requires Initial(s)
    ensures Returns(Fold(Exec(s, ls, b, strict).log).history) <= b.p09
  {
    ReachableSafe(s, ls, b, strict);
    ReturnsBounded(Exec(s, ls, b, strict).log, b, strict);
  }

  /** Leaving `diagnosing` for `reporting` without observed recovery means the top hypothesis exists and is
      itself refuted: the "all hypotheses refuted" test is never vacuous. */
  lemma {:induction false} RefutationIsNotVacuous(s: System, ls: seq<Label>, b: Budgets, strict: bool, i: nat)
    requires Initial(s)
    requires var log := Exec(s, ls, b, strict).log;
      i < |log| && log[i].body.StateBody? && log[i].body.frm == Diagnosing && log[i].body.to == Reporting
    ensures var rec := Fold(Exec(s, ls, b, strict).log[..i]);
      && TopHypothesis(rec).Some?
      && (rec.recoveries == [] ==> TopHypothesis(rec).value.status == Refuted)
  {
    ReachableSafe(s, ls, b, strict);
    var log := Exec(s, ls, b, strict).log;
    LegalAt(log, i);
    GatedAt(log, b, strict, i);
    var rec := Fold(log[..i]);
    var session := LastOk(rec.steps, Diagnostician).value.session;
    FirstRankedMember(rec.hypotheses, session, 1);
  }

  lemma {:induction false} FirstRankedMember(hs: seq<Hypothesis>, session: Option<string>, rank: int)
    ensures FirstRanked(hs, session, rank).Some? ==>
      exists i :: 0 <= i < |hs| && hs[i] == FirstRanked(hs, session, rank).value
  {
    if hs != [] {
      FirstRankedMember(hs[1..], session, rank);
      if FirstRanked(hs, session, rank).Some? {
        if !(Some(hs[0].stepSession) == session && hs[0].rank == rank) {
          var i :| 0 <= i < |hs| - 1 && hs[1..][i] == FirstRanked(hs[1..], session, rank).value;
          assert hs[i + 1] == hs[1..][i];
        }
      }
    }
  }

  // ---------------------------------------------------------------- the top hypothesis of a run

  /** The later hypotheses begin with the earlier ones: same ids, sessions and ranks, whatever their ratings. */
  ghost predicate Extend(earlier: seq<Hypothesis>, later: seq<Hypothesis>) {
    && |earlier| <= |later|
    && forall i | 0 <= i < |earlier| ::
         later[i].id == earlier[i].id && later[i].stepSession == earlier[i].stepSession
           && later[i].rank == earlier[i].rank
  }

  lemma {:induction false} EntryExtends(rec: Record, e: Entry)
    ensures Extend(rec.hypotheses, Apply(rec, e).hypotheses)
  {
  }

  lemma {:induction false} FirstRankedStays(earlier: seq<Hypothesis>, later: seq<Hypothesis>, session: Option<string>,
      rank: int)
    requires Extend(earlier, later) && FirstRanked(earlier, session, rank).Some?
    ensures FirstRanked(later, session, rank).Some?
    ensures FirstRanked(later, session, rank).value.id == FirstRanked(earlier, session, rank).value.id
  {
    if !(Some(earlier[0].stepSession) == session && earlier[0].rank == rank) {
      forall i | 0 <= i < |earlier| - 1
        ensures later[1..][i] == later[i + 1] && earlier[1..][i] == earlier[i + 1]
      {
      }
      FirstRankedStays(earlier[1..], later[1..], session, rank);
    }
  }

  /** A step of the system adds at most one entry. */
  lemma {:induction false} NextGrows(s: System, l: Label, b: Budgets, strict: bool)
    ensures var log := Next(s, l, b, strict).log; log == s.log || (|log| == |s.log| + 1 && log[..|s.log|] == s.log)
  {
    hide Decide, Fold, StepRequest, CasRequest, CostRequest, LateRequest, Chosen, AfterStep, WorkerMay, OutsiderMay;
    if l.Begin? {
      BeginWritesNothing(s, l.session, l.bundle, l.llm, b);
    }
  }

  lemma {:induction false} BeginWritesNothing(s: System, session: string, bundle: BundleStatus, llm: bool, b: Budgets)
    ensures Chosen(s, session, bundle, llm, b).log == s.log
  {
    hide Fold, ClosureDue;
  }

  lemma {:induction false} NextExtends(s: System, l: Label, b: Budgets, strict: bool)
    ensures Extend(Fold(s.log).hypotheses, Fold(Next(s, l, b, strict).log).hypotheses)
  {
    hide Next, Apply;
    NextGrows(s, l, b, strict);
    var log := Next(s, l, b, strict).log;
    if log != s.log {
      EntryExtends(Fold(s.log), log[|s.log|]);
    }
  }

  lemma {:induction false} RunExtends(s: System, ls: seq<Label>, i: nat, b: Budgets, strict: bool)
    requires i <= |ls|
    ensures Extend(Fold(Exec(s, ls[..i], b, strict).log).hypotheses, Fold(Exec(s, ls, b, strict).log).hypotheses)
  {
    hide Next, Fold;
    if i == |ls| {
      assert ls[..i] == ls;
    } else {
      var before := ls[..|ls|-1];
      RunExtends(s, before, i, b, strict);
      assert before[..i] == ls[..i];
      NextExtends(Exec(s, before, b, strict), ls[|ls|-1], b, strict);
    }
  }

  /** Once a diagnosis has completed: the top hypothesis exists, and is the only rank-1 hypothesis of the last
      diagnosis that completed. */
  ghost predicate TopDefined(rec: Record) {
    var last := LastOk(rec.steps, Diagnostician);
    last.Some? ==>
      && last.value.session.Some? && TopHypothesis(rec).Some?
      && var h := TopHypothesis(rec).value;
         && h in rec.hypotheses && h.stepSession == last.value.session.value && h.rank == 1
         && forall g | g in rec.hypotheses && g.stepSession == h.stepSession && g.rank == 1 :: g == h
  }

  lemma {:induction false} TopHypothesisHere(s: System, b: Budgets, strict: bool)
    requires Safe(s, b, strict)
    ensures TopDefined(Fold(s.log))
  {
    hide Gated, Known, PcOk, OrphansOk, PlannerOwns, TopHypothesis;
    var last := LastOk(Fold(s.log).steps, Diagnostician);
    if last.Some? {
      LogFacts.ReferencesHold(s.log);
      Artefacts.TopHypothesisDefined(Fold(s.log), last.value.session.value);
    }
  }

  /** From the first completed diagnosis on, the top hypothesis is defined in every state of every run; and until
      another diagnosis completes it stays the same hypothesis, whatever ratings, refutations and late records
      are written. */
  lemma {:induction false} TopHypothesisThroughout(s: System, ls: seq<Label>, i: nat, b: Budgets, strict: bool)
    requires Initial(s) && i <= |ls|
    ensures
      var earlier, rec := Fold(Exec(s, ls[..i], b, strict).log), Fold(Exec(s, ls, b, strict).log);
      var past, last := LastOk(earlier.steps, Diagnostician), LastOk(rec.steps, Diagnostician);
      && TopDefined(rec)
      && (past.Some? && last.Some? && past.value.session == last.value.session ==>
            TopHypothesis(earlier).Some? && TopHypothesis(earlier).value.id == TopHypothesis(rec).value.id)
  {
    hide Safe, Fold, Initial, Exec;
    var was, now := Exec(s, ls[..i], b, strict), Exec(s, ls, b, strict);
    ReachableSafe(s, ls, b, strict);
    ReachableSafe(s, ls[..i], b, strict);
    TopHypothesisHere(now, b, strict);
    TopHypothesisHere(was, b, strict);
    RunExtends(s, ls, i, b, strict);
    var past, last := LastOk(Fold(was.log).steps, Diagnostician), LastOk(Fold(now.log).steps, Diagnostician);
    if past.Some? && last.Some? && past.value.session == last.value.session {
      FirstRankedStays(Fold(was.log).hypotheses, Fold(now.log).hypotheses, last.value.session, 1);
    }
  }
}
