/** What a step must have left in the record to count as completed (valops/controller/artefacts.py), role by role:
    exactly which hypotheses, artefact, verdict or report, and what structured output may say about it. */
module StepChecks {
  import opened Wrappers
  import opened Text
  import opened Transitions
  import opened EpisodeRecord
  import opened Artefacts

  // ---------------------------------------------------------------- diagnosis

  /** The hypotheses of a session, by their places. */
  function Places(hs: seq<Hypothesis>, session: string): set<nat> {
    set i: nat | i < |hs| && hs[i].stepSession == session
  }

  /** The places of `OfSession`'s members, in order. */
  ghost predicate Indexed(hs: seq<Hypothesis>, session: string, places: seq<nat>) {
    && |places| == |OfSession(hs, session)|
    && (forall k | 0 <= k < |places| ::
          places[k] < |hs| && hs[places[k]].stepSession == session && OfSession(hs, session)[k] == hs[places[k]])
    && (forall k, l | 0 <= k < l < |places| :: places[k] < places[l])
    && (forall i: nat | i < |hs| && hs[i].stepSession == session :: i in places)
  }

  lemma {:induction false} IndexOf(hs: seq<Hypothesis>, session: string) returns (places: seq<nat>)
    ensures Indexed(hs, session, places)
  {
    places := [];
    if hs != [] {
      var n := |hs| - 1;
      places := IndexOf(hs[..n], session);
      if hs[n].stepSession == session {
        places := places + [n];
      }
    }
  }

  lemma {:induction false} PlacesCounted(hs: seq<Hypothesis>, session: string)
    ensures |Places(hs, session)| == |OfSession(hs, session)|
  {
    if hs != [] {
      var n := |hs| - 1;
      PlacesCounted(hs[..n], session);
      assert Places(hs, session) == Places(hs[..n], session) + (if hs[n].stepSession == session then {n} else {});
    }
  }

  predicate Distinct(xs: seq<int>) {
    forall i, j | 0 <= i < j < |xs| :: xs[i] != xs[j]
  }

  lemma {:induction false} DistinctOnce(xs: seq<int>, x: int)
    requires Distinct(xs)
    ensures multiset(xs)[x] == if x in xs then 1 else 0
  {
    if xs != [] {
      var n := |xs| - 1;
      DistinctOnce(xs[..n], x);
      assert xs == xs[..n] + [xs[n]];
    }
  }

  lemma {:induction false} UpToDistinct(n: nat)
    ensures Distinct(UpTo(n)) && forall x :: x in UpTo(n) <==> 1 <= x <= n
  {
    forall x | 1 <= x <= n ensures x in UpTo(n) {
      assert UpTo(n)[x - 1] == x;
    }
  }

  function Numbers(n: nat): (r: set<int>)
    ensures |r| == n && forall x :: x in r <==> 1 <= x <= n
  {
    if n == 0 then {} else Numbers(n - 1) + {n}
  }

  function Values(xs: seq<int>): (r: set<int>)
    ensures forall x :: x in r <==> x in xs
  {
    if xs == [] then {} else Values(xs[..|xs|-1]) + {xs[|xs|-1]}
  }

  lemma {:induction false} ValuesCounted(xs: seq<int>)
    requires Distinct(xs)
    ensures |Values(xs)| == |xs|
  {
    if xs != [] {
      ValuesCounted(xs[..|xs|-1]);
    }
  }

  lemma {:induction false} SameSize(a: set<int>, b: set<int>)
    requires a <= b && |a| == |b|
    ensures a == b
  {
    assert a * b == a && |b - a| == |b| - |a * b|;
    assert b == a + (b - a);
  }

  /** n different numbers between 1 and n are all of them. */
  lemma {:induction false} Pigeonhole(xs: seq<int>, x: int)
    requires Distinct(xs) && (forall i | 0 <= i < |xs| :: 1 <= xs[i] <= |xs|) && 1 <= x <= |xs|
    ensures x in xs
  {
    ValuesCounted(xs);
    SameSize(Values(xs), Numbers(|xs|));
    assert x in Numbers(|xs|);
  }

  lemma {:induction false} RanksIff(xs: seq<int>)
    ensures multiset(xs) == multiset(UpTo(|xs|)) <==>
      Distinct(xs) && forall i | 0 <= i < |xs| :: 1 <= xs[i] <= |xs|
  {
    var all := UpTo(|xs|);
    UpToDistinct(|xs|);
    if multiset(xs) == multiset(all) {
      forall i, j | 0 <= i < j < |xs| ensures xs[i] != xs[j] {
        DistinctOnce(all, xs[i]);
        if xs[i] == xs[j] {
          TwiceIn(xs, i, j);
          assert false;
        }
      }
      forall i | 0 <= i < |xs| ensures 1 <= xs[i] <= |xs| {
        assert xs[i] in multiset(xs);
        assert xs[i] in all;
      }
    }
    if Distinct(xs) && forall i | 0 <= i < |xs| :: 1 <= xs[i] <= |xs| {
      forall x ensures multiset(xs)[x] == multiset(all)[x] {
        DistinctOnce(xs, x);
        DistinctOnce(all, x);
        if 1 <= x <= |xs| {
          Pigeonhole(xs, x);
        }
      }
    }
  }

  lemma {:induction false} TwiceIn(xs: seq<int>, i: nat, j: nat)
    requires i < j < |xs| && xs[i] == xs[j]
    ensures multiset(xs)[xs[i]] >= 2
  {
    assert xs == xs[..j] + xs[j..] && xs[..j][i] == xs[i] && xs[j..][0] == xs[i];
    assert xs[i] in multiset(xs[..j]) && xs[i] in multiset(xs[j..]);
  }

  /** A diagnosis: at least one hypothesis, none with a blank field, and ranked 1 to their number. */
  ghost predicate Diagnosis(hs: seq<Hypothesis>, session: string) {
    var mine := Places(hs, session);
    && mine != {}
    && (forall i | i in mine :: !Blank(hs[i].claim) && !Blank(hs[i].test) && !Blank(hs[i].expected))
    && (forall i | i in mine :: 1 <= hs[i].rank <= |mine|)
    && (forall i, j | i in mine && j in mine && hs[i].rank == hs[j].rank :: i == j)
  }

  /** The same, of the hypotheses in order. */
  ghost predicate WellRanked(hs: seq<Hypothesis>) {
    && hs != []
    && (forall k | 0 <= k < |hs| ::
          !Blank(hs[k].claim) && !Blank(hs[k].test) && !Blank(hs[k].expected) && 1 <= hs[k].rank <= |hs|)
    && (forall k, l | 0 <= k < l < |hs| :: hs[k].rank != hs[l].rank)
  }

  lemma {:induction false} WellRankedIff(rec: Record, session: string)
    ensures ValidateDiagnostician(rec, session).Some? <==> WellRanked(OfSession(rec.hypotheses, session))
  {
    hide Blank, OfSession;
    var hs := OfSession(rec.hypotheses, session);
    RanksIff(Ranks(hs));
    assert forall k | 0 <= k < |hs| :: Ranks(hs)[k] == hs[k].rank;
  }

  lemma {:induction false} DiagnosisRanks(all: seq<Hypothesis>, session: string)
    requires Diagnosis(all, session)
    ensures WellRanked(OfSession(all, session))
  {
    hide Blank, OfSession;
    var hs, mine := OfSession(all, session), Places(all, session);
    var places := IndexOf(all, session);
    PlacesCounted(all, session);
    forall k | 0 <= k < |hs|
      ensures !Blank(hs[k].claim) && !Blank(hs[k].test) && !Blank(hs[k].expected) && 1 <= hs[k].rank <= |hs| {
      assert places[k] in mine;
    }
    forall k, l | 0 <= k < l < |hs| ensures hs[k].rank != hs[l].rank {
      assert places[k] in mine && places[l] in mine;
    }
  }

  lemma {:induction false} RankedDiagnosis(all: seq<Hypothesis>, session: string)
    requires WellRanked(OfSession(all, session))
    ensures Diagnosis(all, session)
  {
    hide Blank, OfSession;
    var hs, mine := OfSession(all, session), Places(all, session);
    var places := IndexOf(all, session);
    PlacesCounted(all, session);
    forall i | i in mine
      ensures !Blank(all[i].claim) && !Blank(all[i].test) && !Blank(all[i].expected) && 1 <= all[i].rank <= |mine| {
      var k :| 0 <= k < |places| && places[k] == i;
    }
    forall i, j | i in mine && j in mine && all[i].rank == all[j].rank ensures i == j {
      var k :| 0 <= k < |places| && places[k] == i;
      var l :| 0 <= l < |places| && places[l] == j;
    }
  }

  /** A diagnosis step is completed exactly by a diagnosis, unless structured output names other hypotheses. */
  lemma {:induction false} DiagnosisOk(rec: Record, session: string, kind: ReportKind, alerts: seq<Alert>,
      out: Option<Structured>)
    ensures StepOk(rec, Diagnostician, session, kind, alerts, out) <==>
      && Diagnosis(rec.hypotheses, session)
      && (out.Some? ==>
            && out.value.HypothesisIds?
            && forall id :: id in out.value.ids <==>
                 exists i :: i in Places(rec.hypotheses, session) && rec.hypotheses[i].id == id)
  {
    hide Blank, OfSession, Diagnosis, WellRanked;
    WellRankedIff(rec, session);
    if Diagnosis(rec.hypotheses, session) {
      DiagnosisRanks(rec.hypotheses, session);
    }
    if WellRanked(OfSession(rec.hypotheses, session)) {
      RankedDiagnosis(rec.hypotheses, session);
    }
    if Diagnosis(rec.hypotheses, session) && out.Some? && out.value.HypothesisIds? {
      IdsIff(rec, session, out.value.ids);
    }
  }

  lemma {:induction false} IdsIff(rec: Record, session: string, ids: seq<string>)
    ensures var hs := OfSession(rec.hypotheses, session);
      ((set i | 0 <= i < |ids| :: ids[i]) == (set i | 0 <= i < |hs| :: hs[i].id)) <==>
      forall id :: id in ids <==> exists i :: i in Places(rec.hypotheses, session) && rec.hypotheses[i].id == id
  {
    var all, hs := rec.hypotheses, OfSession(rec.hypotheses, session);
    var places := IndexOf(all, session);
    var have, given := set i | 0 <= i < |hs| :: hs[i].id, set i | 0 <= i < |ids| :: ids[i];
    forall id ensures id in have <==> exists i :: i in Places(all, session) && all[i].id == id {
      if id in have {
        var k :| 0 <= k < |hs| && hs[k].id == id;
        assert places[k] in Places(all, session);
      }
      if i :| i in Places(all, session) && all[i].id == id {
        var k :| 0 <= k < |places| && places[k] == i;
        assert hs[k].id == id;
      }
    }
    forall id ensures id in given <==> id in ids {
    }
  }

  // ---------------------------------------------------------------- plans

  /** The i-th, which is a, is the only artefact of the session. */
  ghost predicate OnlyArtefact(xs: seq<Artefact>, session: string, i: nat, a: Artefact) {
    && i < |xs| && xs[i] == a && a.session == Some(session)
    && forall j | 0 <= j < |xs| && xs[j].session == Some(session) :: j == i
  }

  ghost predicate NoArtefact(xs: seq<Artefact>, session: string) {
    forall j | 0 <= j < |xs| :: xs[j].session != Some(session)
  }

  lemma {:induction false} ArtefactsNone(xs: seq<Artefact>, session: string)
    ensures ArtefactsOf(xs, session) == [] <==> NoArtefact(xs, session)
  {
    if xs != [] {
      ArtefactsNone(xs[..|xs|-1], session);
    }
  }

  lemma {:induction false} ArtefactsOne(xs: seq<Artefact>, session: string, a: Artefact)
    ensures ArtefactsOf(xs, session) == [a] <==> exists i: nat :: OnlyArtefact(xs, session, i, a)
  {
    if xs != [] {
      var n := |xs| - 1;
      ArtefactsNone(xs[..n], session);
      ArtefactsOne(xs[..n], session, a);
      if xs[n].session == Some(session) {
        assert ArtefactsOf(xs, session)[|ArtefactsOf(xs[..n], session)|] == xs[n];
        assert NoArtefact(xs[..n], session) && xs[n] == a <==> OnlyArtefact(xs, session, n, a);
      } else {
        forall i: nat ensures OnlyArtefact(xs[..n], session, i, a) <==> OnlyArtefact(xs, session, i, a) {
        }
      }
    }
  }

  /** The step's one artefact, a recommendation or the conclusion that nothing is to be done. */
  ghost predicate Plan(rec: Record, session: string, a: Artefact) {
    || (NoArtefact(rec.noActions, session) && exists i: nat :: OnlyArtefact(rec.recommendations, session, i, a))
    || (NoArtefact(rec.recommendations, session) && exists i: nat :: OnlyArtefact(rec.noActions, session, i, a))
  }

  lemma {:induction false} PlanIff(rec: Record, session: string, a: Artefact)
    ensures Plan(rec, session, a) <==>
      ArtefactsOf(rec.recommendations, session) + ArtefactsOf(rec.noActions, session) == [a]
  {
    hide ArtefactsOf, OnlyArtefact, NoArtefact;
    var rs, ns := ArtefactsOf(rec.recommendations, session), ArtefactsOf(rec.noActions, session);
    ArtefactsNone(rec.recommendations, session);
    ArtefactsNone(rec.noActions, session);
    ArtefactsOne(rec.recommendations, session, a);
    ArtefactsOne(rec.noActions, session, a);
    assert |rs + ns| == |rs| + |ns|;
    assert rs == [] ==> rs + ns == ns;
    assert ns == [] ==> rs + ns == rs;
  }

  /** A planner step is completed exactly by one artefact that cites evidence, unless structured output names
      another. */
  lemma {:induction false} PlanOk(rec: Record, session: string, kind: ReportKind, alerts: seq<Alert>,
      out: Option<Structured>)
    ensures StepOk(rec, ChangePlanner, session, kind, alerts, out) <==>
      exists a :: Plan(rec, session, a) && a.refs != [] && (out.Some? ==> out.value == ArtefactId(a.id))
  {
    hide ArtefactsOf, Plan;
    var xs := ArtefactsOf(rec.recommendations, session) + ArtefactsOf(rec.noActions, session);
    if |xs| == 1 {
      PlanIff(rec, session, xs[0]);
    }
    if a :| Plan(rec, session, a) && a.refs != [] && (out.Some? ==> out.value == ArtefactId(a.id)) {
      PlanIff(rec, session, a);
    }
  }

  // ---------------------------------------------------------------- verdicts

  /** The i-th, which is v, is the only verdict of the session. */
  ghost predicate OnlyVerdict(vs: seq<Verdict>, session: string, i: nat, v: Verdict) {
    && i < |vs| && vs[i] == v && v.session == Some(session)
    && forall j | 0 <= j < |vs| && vs[j].session == Some(session) :: j == i
  }

  ghost predicate NoVerdict(vs: seq<Verdict>, session: string) {
    forall j | 0 <= j < |vs| :: vs[j].session != Some(session)
  }

  lemma {:induction false} VerdictsNone(vs: seq<Verdict>, session: string)
    ensures VerdictsOf(vs, session) == [] <==> NoVerdict(vs, session)
  {
    if vs != [] {
      VerdictsNone(vs[..|vs|-1], session);
    }
  }

  lemma {:induction false} VerdictsOne(vs: seq<Verdict>, session: string, v: Verdict)
    ensures VerdictsOf(vs, session) == [v] <==> exists i: nat :: OnlyVerdict(vs, session, i, v)
  {
    if vs != [] {
      var n := |vs| - 1;
      VerdictsNone(vs[..n], session);
      VerdictsOne(vs[..n], session, v);
      if vs[n].session == Some(session) {
        assert VerdictsOf(vs, session)[|VerdictsOf(vs[..n], session)|] == vs[n];
        assert NoVerdict(vs[..n], session) && vs[n] == v <==> OnlyVerdict(vs, session, n, v);
      } else {
        forall i: nat ensures OnlyVerdict(vs[..n], session, i, v) <==> OnlyVerdict(vs, session, i, v) {
        }
      }
    }
  }

  predicate Confirms(out: Option<Structured>, v: Verdict) {
    out.Some? ==> out.value == VerdictOn(v.result, v.target)
  }

  /** A judge step is completed exactly by one verdict with checks, unless structured output says otherwise. */
  lemma {:induction false} VerdictOk(rec: Record, session: string, kind: ReportKind, alerts: seq<Alert>,
      out: Option<Structured>)
    ensures StepOk(rec, ProposalJudge, session, kind, alerts, out) <==>
      exists i: nat, v :: OnlyVerdict(rec.verdicts, session, i, v) && v.checks != [] && Confirms(out, v)
  {
    hide VerdictsOf, OnlyVerdict;
    var vs := VerdictsOf(rec.verdicts, session);
    if |vs| == 1 {
      assert vs == [vs[0]];
      VerdictsOne(rec.verdicts, session, vs[0]);
    }
    if i: nat, v :| OnlyVerdict(rec.verdicts, session, i, v) && v.checks != [] && Confirms(out, v) {
      VerdictsOne(rec.verdicts, session, v);
    }
  }

  // ---------------------------------------------------------------- reports

  /** The i-th, which is r, is the last report of this kind by the session. */
  ghost predicate LastReport(rs: seq<Report>, session: string, kind: ReportKind, i: nat, r: Report) {
    && i < |rs| && rs[i] == r && r.session == Some(session) && r.kind == kind
    && forall j | i < j < |rs| :: !(rs[j].session == Some(session) && rs[j].kind == kind)
  }

  lemma {:induction false} ReportsLast(rs: seq<Report>, session: string, kind: ReportKind, r: Report)
    ensures var of := ReportsOf(rs, session, kind);
      of != [] && of[|of|-1] == r <==> exists i: nat :: LastReport(rs, session, kind, i, r)
  {
    if rs != [] {
      var n := |rs| - 1;
      ReportsLast(rs[..n], session, kind, r);
      if rs[n].session == Some(session) && rs[n].kind == kind {
        assert LastReport(rs, session, kind, n, rs[n]);
      } else {
        forall i: nat ensures LastReport(rs[..n], session, kind, i, r) <==> LastReport(rs, session, kind, i, r) {
        }
      }
    }
  }

  /** A reporter step is completed exactly by a report of the kind and an alert of it that the sink acknowledged,
      unless structured output names another report than the last. */
  lemma {:induction false} ReportOk(rec: Record, session: string, kind: ReportKind, alerts: seq<Alert>,
      out: Option<Structured>)
    ensures StepOk(rec, Reporter, session, kind, alerts, out) <==>
      && (exists i :: 0 <= i < |alerts| && alerts[i].session == session && alerts[i].kind == kind && alerts[i].ack)
      && exists i: nat, r ::
           LastReport(rec.reports, session, kind, i, r) && (out.Some? ==> out.value == ReportRef(r.ref))
  {
    hide ReportsOf, LastReport;
    var of := ReportsOf(rec.reports, session, kind);
    if of != [] {
      ReportsLast(rec.reports, session, kind, of[|of|-1]);
    }
    if i: nat, r :| LastReport(rec.reports, session, kind, i, r) && (out.Some? ==> out.value == ReportRef(r.ref)) {
      ReportsLast(rec.reports, session, kind, r);
    }
    if i :| 0 <= i < |alerts| && alerts[i].session == session && alerts[i].kind == kind && alerts[i].ack {
      assert alerts[i] == Alert(session, kind, true);
    }
  }
}
