/** Artefact validation after a step (valops/controller/artefacts.py): it reads the record, never
    what the worker said, and treats structured output as a cross-check only. */
module Artefacts {
  import opened Wrappers
  import opened Text
  import opened Transitions
  import opened EpisodeRecord
  import StoreSpec
  import LogFacts

  function OfSession(hs: seq<Hypothesis>, session: string): seq<Hypothesis> {
    if hs == [] then []
    else
      OfSession(hs[..|hs|-1], session) +
      (if hs[|hs|-1].stepSession == session then [hs[|hs|-1]] else [])
  }

  function ArtefactsOf(xs: seq<Artefact>, session: string): seq<Artefact> {
    if xs == [] then []
    else ArtefactsOf(xs[..|xs|-1], session) + (if xs[|xs|-1].session == Some(session) then [xs[|xs|-1]] else [])
  }

  function VerdictsOf(vs: seq<Verdict>, session: string): seq<Verdict> {
    if vs == [] then []
    else VerdictsOf(vs[..|vs|-1], session) + (if vs[|vs|-1].session == Some(session) then [vs[|vs|-1]] else [])
  }

  function ReportsOf(rs: seq<Report>, session: string, kind: ReportKind): seq<Report> {
    if rs == [] then []
    else
      ReportsOf(rs[..|rs|-1], session, kind) +
      (if rs[|rs|-1].session == Some(session) && rs[|rs|-1].kind == kind then [rs[|rs|-1]] else [])
  }

  function Ranks(hs: seq<Hypothesis>): seq<int> {
    seq(|hs|, i requires 0 <= i < |hs| => hs[i].rank)
  }

  function UpTo(n: nat): seq<int> {
    seq(n, i => i + 1)
  }

  datatype Alert = Alert(session: string, kind: ReportKind, ack: bool)

  /** The artefact a step is found to have produced. */
  datatype Stored =
    | Hypotheses(ids: set<string>)
    | Planned(id: string)
    | Judged(verdict: Verdict)
    | Reported(ref: string)

  /** Ranks sorted are exactly 1..n: as multisets, they are. */
  function ValidateDiagnostician(rec: Record, session: string): Option<Stored> {
    var hs := OfSession(rec.hypotheses, session);
    if hs == [] then None
    else if exists i | 0 <= i < |hs| :: Blank(hs[i].claim) || Blank(hs[i].test) || Blank(hs[i].expected) then None
    else if multiset(Ranks(hs)) != multiset(UpTo(|hs|)) then None
    else Some(Hypotheses(set i | 0 <= i < |hs| :: hs[i].id))
  }

  function ValidatePlanner(rec: Record, session: string): Option<Stored> {
    var xs := ArtefactsOf(rec.recommendations, session) + ArtefactsOf(rec.noActions, session);
    if |xs| != 1 || xs[0].refs == [] then None else Some(Planned(xs[0].id))
  }

  function ValidateJudge(rec: Record, session: string): Option<Stored> {
    var vs := VerdictsOf(rec.verdicts, session);
    if |vs| != 1 || vs[0].checks == [] then None else Some(Judged(vs[0]))
  }

  function ValidateReporter(rec: Record, session: string, kind: ReportKind, alerts: seq<Alert>): Option<Stored> {
    var rs := ReportsOf(rec.reports, session, kind);
    if rs == [] || !(exists i :: 0 <= i < |alerts| && alerts[i] == Alert(session, kind, true)) then None
    else Some(Reported(rs[|rs|-1].ref))
  }

  /** Structured output; None when the adapter supplies none. */
  datatype Structured =
    | Malformed
    | HypothesisIds(ids: seq<string>)
    | ArtefactId(id: string)
    | VerdictOn(result: VerdictResult, target: string)
    | ReportRef(ref: string)

  /** `cross_check`: disagreement fails the step, silence does not. */
  predicate Agrees(out: Option<Structured>, stored: Stored) {
    out.None? ||
    match (out.value, stored)
    case (HypothesisIds(ids), Hypotheses(have)) => (set i | 0 <= i < |ids| :: ids[i]) == have
    case (ArtefactId(id), Planned(have)) => id == have
    case (VerdictOn(result, target), Judged(v)) => result == v.result && target == v.target
    case (ReportRef(ref), Reported(have)) => ref == have
    case _ => false
  }

  /** `Runner.validate`. */
  predicate StepOk(rec: Record, role: Role, session: string, kind: ReportKind, alerts: seq<Alert>,
      out: Option<Structured>) {
    var stored :=
      match role
      case Diagnostician => ValidateDiagnostician(rec, session)
      case ChangePlanner => ValidatePlanner(rec, session)
      case ProposalJudge => ValidateJudge(rec, session)
      case Reporter => ValidateReporter(rec, session, kind, alerts);
    stored.Some? && Agrees(out, stored.value)
  }

  // ---------------------------------------------------------------- what validation establishes

  lemma {:induction false} OfSessionMembers(hs: seq<Hypothesis>, session: string)
    ensures forall h :: h in OfSession(hs, session) <==> h in hs && h.stepSession == session
  {
    if hs != [] {
      OfSessionMembers(hs[..|hs|-1], session);
      assert hs == hs[..|hs|-1] + [hs[|hs|-1]];
    }
  }

  ghost predicate HasRankOne(rec: Record, session: string) {
    StoreSpec.RankTaken(rec, session, 1)
  }

  /** A valid diagnosis contains a rank-1 hypothesis of its session. */
  lemma {:induction false} DiagnosisHasRankOne(rec: Record, session: string)
    requires ValidateDiagnostician(rec, session).Some?
    ensures HasRankOne(rec, session)
  {
    var hs := OfSession(rec.hypotheses, session);
    OfSessionMembers(rec.hypotheses, session);
    assert UpTo(|hs|)[0] == 1;
    assert 1 in multiset(Ranks(hs));
    assert 1 in Ranks(hs);
    var k :| 0 <= k < |Ranks(hs)| && Ranks(hs)[k] == 1;
    assert hs[k] in OfSession(rec.hypotheses, session);
    var i :| 0 <= i < |rec.hypotheses| && rec.hypotheses[i] == hs[k];
  }

  lemma {:induction false} FirstRankedFinds(hs: seq<Hypothesis>, session: string, rank: int)
    ensures var r := FirstRanked(hs, Some(session), rank);
      && (r.Some? ==> r.value in hs && r.value.stepSession == session && r.value.rank == rank)
      && (r.None? ==> forall h | h in hs :: !(h.stepSession == session && h.rank == rank))
  {
    if hs != [] {
      FirstRankedFinds(hs[1..], session, rank);
      assert hs == [hs[0]] + hs[1..];
    }
  }

  /** After a completed diagnosis step with a rank-1 hypothesis, the top hypothesis is defined, belongs
      to that step, and in a legal record is the only one of its session and rank; whatever is
      appended later to the session. */
  lemma {:induction false} TopHypothesisDefined(rec: Record, session: string)
    requires HasRankOne(rec, session)
    requires LastOk(rec.steps, Diagnostician).Some? && LastOk(rec.steps, Diagnostician).value.session == Some(session)
    ensures TopHypothesis(rec).Some?
    ensures var h := TopHypothesis(rec).value;
      && h in rec.hypotheses && h.stepSession == session && h.rank == 1
      && (LogFacts.OnePerSession(rec) ==>
            forall g | g in rec.hypotheses && g.stepSession == session && g.rank == 1 :: g == h)
  {
    FirstRankedFinds(rec.hypotheses, session, 1);
    var i :| 0 <= i < |rec.hypotheses| && rec.hypotheses[i].stepSession == session && rec.hypotheses[i].rank == 1;
    assert rec.hypotheses[i] in rec.hypotheses;
    var h := TopHypothesis(rec).value;
    if LogFacts.OnePerSession(rec) {
      forall g | g in rec.hypotheses && g.stepSession == session && g.rank == 1 ensures g == h {
        var j :| 0 <= j < |rec.hypotheses| && rec.hypotheses[j] == g;
        var k :| 0 <= k < |rec.hypotheses| && rec.hypotheses[k] == h;
        assert j == k;
      }
    }
  }

  lemma {:induction false} NoArtefactsOf(xs: seq<Artefact>, session: string)
    requires forall i | 0 <= i < |xs| :: xs[i].session != Some(session)
    ensures ArtefactsOf(xs, session) == []
  {
    if xs != [] {
      NoArtefactsOf(xs[..|xs|-1], session);
    }
  }

  lemma {:induction false} NoVerdictsOf(vs: seq<Verdict>, session: string)
    requires forall i | 0 <= i < |vs| :: vs[i].session != Some(session)
    ensures VerdictsOf(vs, session) == []
  {
    if vs != [] {
      NoVerdictsOf(vs[..|vs|-1], session);
    }
  }

  lemma {:induction false} ArtefactsOfMembers(xs: seq<Artefact>, session: string)
    ensures forall a :: a in ArtefactsOf(xs, session) <==> a in xs && a.session == Some(session)
    ensures (forall i, j | 0 <= i < j < |xs| :: xs[i].session != xs[j].session) ==> |ArtefactsOf(xs, session)| <= 1
  {
    if xs != [] {
      var n := |xs| - 1;
      ArtefactsOfMembers(xs[..n], session);
      assert xs == xs[..n] + [xs[n]];
      if (forall i, j | 0 <= i < j < |xs| :: xs[i].session != xs[j].session) && xs[n].session == Some(session) {
        NoArtefactsOf(xs[..n], session);
      }
    }
  }

  lemma {:induction false} VerdictsOfMembers(vs: seq<Verdict>, session: string)
    ensures forall v :: v in VerdictsOf(vs, session) <==> v in vs && v.session == Some(session)
    ensures (forall i, j | 0 <= i < j < |vs| :: vs[i].session != vs[j].session) ==> |VerdictsOf(vs, session)| <= 1
  {
    if vs != [] {
      var n := |vs| - 1;
      VerdictsOfMembers(vs[..n], session);
      assert vs == vs[..n] + [vs[n]];
      if (forall i, j | 0 <= i < j < |vs| :: vs[i].session != vs[j].session) && vs[n].session == Some(session) {
        NoVerdictsOf(vs[..n], session);
      }
    }
  }

  /** On records the store can produce, a judge step validates exactly if it wrote a verdict: absence
      of a verdict is not consent, and a second one cannot exist. */
  lemma {:induction false} JudgeValidIffWritten(rec: Record, session: string)
    requires LogFacts.OnePerSession(rec) && LogFacts.Grounded(rec)
    ensures ValidateJudge(rec, session).Some? <==> StoreSpec.WroteVerdict(rec, session)
  {
    VerdictsOfMembers(rec.verdicts, session);
    var vs := VerdictsOf(rec.verdicts, session);
    if StoreSpec.WroteVerdict(rec, session) {
      var i :| 0 <= i < |rec.verdicts| && rec.verdicts[i].session == Some(session);
      assert rec.verdicts[i] in vs;
    }
    if vs != [] {
      assert vs[0] in vs;
      var i :| 0 <= i < |rec.verdicts| && rec.verdicts[i] == vs[0];
    }
  }

  lemma {:induction false} PlannerWritten(rec: Record, session: string)
    requires ValidatePlanner(rec, session).Some?
    ensures StoreSpec.WroteArtefact(rec, session)
  {
    ArtefactsOfNonempty(rec.recommendations, session);
    ArtefactsOfNonempty(rec.noActions, session);
  }

  lemma {:induction false} JudgeWritten(rec: Record, session: string)
    requires ValidateJudge(rec, session).Some?
    ensures StoreSpec.WroteVerdict(rec, session)
  {
    VerdictsOfMembers(rec.verdicts, session);
    var vs := VerdictsOf(rec.verdicts, session);
    assert vs[0] in vs;
    var i :| 0 <= i < |rec.verdicts| && rec.verdicts[i] == vs[0];
  }

  predicate Mentions(xs: seq<Artefact>, session: string) {
    exists i :: 0 <= i < |xs| && xs[i].session == Some(session)
  }

  lemma {:induction false} ArtefactsOfNonempty(xs: seq<Artefact>, session: string)
    ensures ArtefactsOf(xs, session) != [] <==> Mentions(xs, session)
    ensures ArtefactsOf(xs, session) != [] ==> ArtefactsOf(xs, session)[0] in xs
  {
    ArtefactsOfMembers(xs, session);
    var ys := ArtefactsOf(xs, session);
    if ys != [] {
      assert ys[0] in ys;
      var i :| 0 <= i < |xs| && xs[i] == ys[0];
    }
    if Mentions(xs, session) {
      var i :| 0 <= i < |xs| && xs[i].session == Some(session);
      assert xs[i] in ys;
    }
  }

  /** Likewise a planner step validates exactly if it wrote an artefact. */
  lemma {:induction false} PlannerValidIffWritten(rec: Record, session: string)
    requires LogFacts.OnePerSession(rec) && LogFacts.Grounded(rec)
    ensures ValidatePlanner(rec, session).Some? <==> StoreSpec.WroteArtefact(rec, session)
  {
    ArtefactsOfMembers(rec.recommendations, session);
    ArtefactsOfMembers(rec.noActions, session);
    ArtefactsOfNonempty(rec.recommendations, session);
    ArtefactsOfNonempty(rec.noActions, session);
    NotInBoth(rec, session);
    var rs, ns := ArtefactsOf(rec.recommendations, session), ArtefactsOf(rec.noActions, session);
    if rs + ns != [] {
      GroundedMember(rec, (rs + ns)[0]);
    }
    assert StoreSpec.WroteArtefact(rec, session) <==>
      Mentions(rec.recommendations, session) || Mentions(rec.noActions, session);
  }

  lemma {:induction false} NotInBoth(rec: Record, session: string)
    requires LogFacts.OnePerSession(rec)
    ensures !(Mentions(rec.recommendations, session) && Mentions(rec.noActions, session))
  {
  }

  lemma {:induction false} GroundedMember(rec: Record, a: Artefact)
    requires LogFacts.Grounded(rec) && (a in rec.recommendations || a in rec.noActions)
    ensures a.refs != []
  {
    if a in rec.recommendations {
      var i :| 0 <= i < |rec.recommendations| && rec.recommendations[i] == a;
      assert LogFacts.ArtefactGrounded(rec, rec.recommendations[i]);
    } else {
      var i :| 0 <= i < |rec.noActions| && rec.noActions[i] == a;
      assert LogFacts.ArtefactGrounded(rec, rec.noActions[i]);
    }
  }
}
