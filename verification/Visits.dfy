/** Visits: the stretch of an episode's log since its last transition. The controller's gates, read
    off the log alone (valops/controller/runner.py, `advance`; HLD R-3, R-8). */
module Visits {
  import opened Wrappers
  import opened Transitions
  import opened EpisodeRecord
  import opened StoreSpec

  predicate Moves(e: Entry) {
    e.body.StateBody? || e.body.OpenedBody?
  }

  function VerdictOf(e: Entry): Option<Verdict> {
    if e.body.VerdictBody? then Some(Verdict(e.body.target, e.body.result, e.body.checks, e.session, e.ts)) else None
  }

  /** The last verdict written in the current visit. */
  function VisitVerdict(log: seq<Entry>): Option<Verdict> {
    if log == [] || Moves(log[|log|-1]) then None
    else if VerdictOf(log[|log|-1]).Some? then VerdictOf(log[|log|-1])
    else VisitVerdict(log[..|log|-1])
  }

  /** The last planner artefact written in the current visit. */
  function VisitArtefact(log: seq<Entry>): Option<Artefact> {
    if log == [] || Moves(log[|log|-1]) then None
    else if ArtefactOf(log[|log|-1]).Some? then ArtefactOf(log[|log|-1])
    else VisitArtefact(log[..|log|-1])
  }

  function FailCount(vs: seq<Verdict>): nat {
    if vs == [] then 0 else FailCount(vs[..|vs|-1]) + (if vs[|vs|-1].result == Fail then 1 else 0)
  }

  /** FAIL verdicts on record when the current visit began. */
  function FailsAtEntry(log: seq<Entry>): nat {
    if log == [] then 0
    else if Moves(log[|log|-1]) then FailCount(Fold(log).verdicts)
    else FailsAtEntry(log[..|log|-1])
  }

  /** How often the Judge has sent the episode back to the planner. */
  function Returns(history: seq<StateChange>): nat {
    if history == [] then 0
    else
      var c := history[|history|-1];
      Returns(history[..|history|-1]) + (if c.frm == Some(Judging) && c.to == Recommending then 1 else 0)
  }

  lemma {:induction false} VisitPush(log: seq<Entry>, e: Entry)
    ensures VisitVerdict(log + [e]) ==
      if Moves(e) then None else if VerdictOf(e).Some? then VerdictOf(e) else VisitVerdict(log)
    ensures VisitArtefact(log + [e]) ==
      if Moves(e) then None else if ArtefactOf(e).Some? then ArtefactOf(e) else VisitArtefact(log)
    ensures FailsAtEntry(log + [e]) == if Moves(e) then FailCount(Fold(log + [e]).verdicts) else FailsAtEntry(log)
  {
    assert (log + [e])[..|log|] == log;
  }

  lemma {:induction false} VerdictsPush(rec: Record, e: Entry)
    ensures Apply(rec, e).verdicts == rec.verdicts + (if VerdictOf(e).Some? then [VerdictOf(e).value] else [])
    ensures Moves(e) || Apply(rec, e).state == rec.state
    ensures Moves(e) || Apply(rec, e).history == rec.history
  {
  }

  lemma {:induction false} FailCountPush(vs: seq<Verdict>, v: Verdict)
    ensures FailCount(vs + [v]) == FailCount(vs) + (if v.result == Fail then 1 else 0)
  {
    assert (vs + [v])[..|vs|] == vs;
  }

  lemma {:induction false} ReturnsPush(history: seq<StateChange>, c: StateChange)
    ensures Returns(history + [c]) ==
        Returns(history) + (if c.frm == Some(Judging) && c.to == Recommending then 1 else 0)
  {
    assert (history + [c])[..|history|] == history;
  }

  /** The visit's last verdict is the record's last verdict, and verdicts are written only while judging. */
  lemma {:induction false} VisitVerdictIsLast(log: seq<Entry>)
    requires Legal(log) && VisitVerdict(log).Some?
    ensures var rec := Fold(log);
      && rec.state == Some(Judging)
      && rec.verdicts != [] && rec.verdicts[|rec.verdicts|-1] == VisitVerdict(log).value
  {
    var before, e := log[..|log|-1], log[|log|-1];
    VerdictsPush(Fold(before), e);
    if VerdictOf(e).None? {
      VisitVerdictIsLast(before);
    }
  }

  /** Within a judging visit the artefact under judgement is the one the last verdict names. */
  lemma {:induction false} VerdictTargetsUnderJudgement(log: seq<Entry>)
    requires Legal(log) && VisitVerdict(log).Some?
    ensures UnderJudgement(Fold(log)).Some? && UnderJudgement(Fold(log)).value.id == VisitVerdict(log).value.target
  {
    var before, e := log[..|log|-1], log[|log|-1];
    LegalRevisions(log);
    RevsBelow(before, e.rev);
    UnderJudgementStep(Fold(before), e);
    if VerdictOf(e).None? {
      VisitVerdictIsLast(before);
      VerdictTargetsUnderJudgement(before);
    }
  }

  lemma {:induction false} VisitArtefactIsUnder(log: seq<Entry>)
    requires Legal(log) && VisitArtefact(log).Some?
    ensures UnderJudgement(Fold(log)) == VisitArtefact(log)
  {
    var before, e := log[..|log|-1], log[|log|-1];
    LegalRevisions(log);
    RevsBelow(before, e.rev);
    UnderJudgementStep(Fold(before), e);
    if ArtefactOf(e).None? {
      VisitArtefactIsUnder(before);
    }
  }

  lemma {:induction false} FailsStep(rec: Record, e: Entry)
    ensures FailCount(Apply(rec, e).verdicts) ==
      FailCount(rec.verdicts) + (if VerdictOf(e).Some? && VerdictOf(e).value.result == Fail then 1 else 0)
  {
    VerdictsPush(rec, e);
    if VerdictOf(e).Some? {
      FailCountPush(rec.verdicts, VerdictOf(e).value);
    }
  }

  /** A visit that ended in FAIL added at least one FAIL verdict. */
  lemma {:induction false} FailsGrow(log: seq<Entry>)
    ensures FailCount(Fold(log).verdicts) >=
      FailsAtEntry(log) + (if VisitVerdict(log).Some? && VisitVerdict(log).value.result == Fail then 1 else 0)
  {
    if log != [] && !Moves(log[|log|-1]) {
      FailsGrow(log[..|log|-1]);
      FailsStep(Fold(log[..|log|-1]), log[|log|-1]);
    }
  }

  // ---------------------------------------------------------------- the gates

  /** The retry budgets of the bound bundle: P-08 (step retries) and P-09 (Judge FAIL retries). */
  datatype Budgets = Budgets(p08: nat, p09: nat)

  /** `refuted_all`: every hypothesis of the top hypothesis's step is refuted. */
  predicate RefutedAll(rec: Record) {
    forall i | 0 <= i < |rec.hypotheses| && TopSession(rec) == Some(rec.hypotheses[i].stepSession) ::
      rec.hypotheses[i].status == Refuted
  }

  function TopSession(rec: Record): Option<string> {
    match TopHypothesis(rec)
    case None => None
    case Some(h) => Some(h.stepSession)
  }

  predicate HasReport(rec: Record, kind: ReportKind) {
    exists i :: 0 <= i < |rec.reports| && rec.reports[i].kind == kind
  }

  /** The artefact under judgement was written by the session of the last completed planner step. */
  predicate PlannerOwns(rec: Record) {
    && UnderJudgement(rec).Some? && LastOk(rec.steps, ChangePlanner).Some?
    && UnderJudgement(rec).value.session == LastOk(rec.steps, ChangePlanner).value.session
  }

  /** The last verdict was written in this visit, says PASS, and is about the artefact now under
      judgement. With revocation exact (`strict`), it was written by the session of the last
      completed judge step, and its target by that of the last completed planner step. */
  ghost predicate Passed(log: seq<Entry>, strict: bool) {
    var rec := Fold(log);
    && VisitVerdict(log).Some?
    && rec.verdicts != [] && rec.verdicts[|rec.verdicts|-1] == VisitVerdict(log).value
    && VisitVerdict(log).value.result == Pass
    && UnderJudgement(rec).Some? && UnderJudgement(rec).value.id == VisitVerdict(log).value.target
    && (strict ==>
          && LastOk(rec.steps, ProposalJudge).Some?
          && VisitVerdict(log).value.session == LastOk(rec.steps, ProposalJudge).value.session
          && PlannerOwns(rec))
  }

  /** What must hold of the log for the controller to move the episode on. */
  ghost predicate MayMove(log: seq<Entry>, to: State, b: Budgets, strict: bool) {
    var rec := Fold(log);
    match rec.state
    case Some(Diagnosing) =>
      && (to == Recommending ==> TopHypothesis(rec).Some? && rec.recoveries == [] && !RefutedAll(rec))
      && (to == Reporting ==> TopHypothesis(rec).Some? && (rec.recoveries != [] || RefutedAll(rec)))
    case Some(Recommending) =>
      to == Judging ==> VisitArtefact(log).Some? && (strict ==> PlannerOwns(rec))
    case Some(Judging) =>
      && (to == Reporting ==> Passed(log, strict))
      && (to == Recommending ==>
            && VisitVerdict(log).Some? && VisitVerdict(log).value.result == Fail
            && FailCount(rec.verdicts) <= b.p09)
    case Some(Reporting) => to == AwaitingOperator ==> HasReport(rec, Incident)
    case _ => true
  }

  /** Every controller transition in the log passed its gate at the revision it was taken from. */
  ghost predicate Gated(log: seq<Entry>, b: Budgets, strict: bool) {
    log != [] ==>
      var before, e := log[..|log|-1], log[|log|-1];
      Gated(before, b, strict) && (e.body.StateBody? && e.principal == Controller ==>
        MayMove(before, e.body.to, b, strict))
  }

  lemma {:induction false} GatedPush(log: seq<Entry>, e: Entry, b: Budgets, strict: bool)
    ensures Gated(log + [e], b, strict) <==>
      Gated(log, b, strict) && (e.body.StateBody? && e.principal == Controller ==> MayMove(log, e.body.to, b, strict))
  {
    assert (log + [e])[..|log|] == log;
  }

  lemma {:induction false} GatedAt(log: seq<Entry>, b: Budgets, strict: bool, i: nat)
    requires Gated(log, b, strict) && i < |log|
    requires log[i].body.StateBody? && log[i].principal == Controller
    ensures MayMove(log[..i], log[i].body.to, b, strict)
  {
    var n := |log| - 1;
    if i < n {
      var before := log[..n];
      GatedAt(before, b, strict, i);
      assert before[..i] == log[..i] && before[i] == log[i];
    }
  }

  predicate IsReturn(e: Entry) {
    e.body.StateBody? && e.body.frm == Judging && e.body.to == Recommending
  }

  lemma {:induction false} HistoryStep(rec: Record, e: Entry)
    ensures Returns(Apply(rec, e).history) == Returns(rec.history) + (if IsReturn(e) then 1 else 0)
  {
    if e.body.StateBody? {
      ReturnsPush(rec.history, StateChange(Some(e.body.frm), e.body.to, e.principal, e.rev, e.ts));
    } else if e.body.OpenedBody? {
      ReturnsPush(rec.history, StateChange(None, Open, e.principal, e.rev, e.ts));
    }
  }

  lemma {:induction false} ReturnPassedGate(log: seq<Entry>, e: Entry, b: Budgets, strict: bool)
    requires EntryOk(Fold(log), e) && IsReturn(e)
    requires e.principal == Controller ==> MayMove(log, e.body.to, b, strict)
    ensures VisitVerdict(log).Some? && VisitVerdict(log).value.result == Fail
    ensures FailCount(Fold(log).verdicts) <= b.p09
  {
  }

  /** R-3: the Judge sends an episode back at most P-09 times. */
  lemma {:induction false} ReturnsBounded(log: seq<Entry>, b: Budgets, strict: bool)
    requires Legal(log) && Gated(log, b, strict)
    ensures Returns(Fold(log).history) <= FailsAtEntry(log)
    ensures Returns(Fold(log).history) <= b.p09
  {
    if log != [] {
      var before, e := log[..|log|-1], log[|log|-1];
      ReturnsBounded(before, b, strict);
      FailsGrow(before);
      FailsStep(Fold(before), e);
      HistoryStep(Fold(before), e);
      if IsReturn(e) {
        ReturnPassedGate(before, e, b, strict);
      }
    }
  }
}
