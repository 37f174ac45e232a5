/** Why `ReportingNeedsPass` speaks of the owner of a verdict only when a capability is unusable once its step
    has ended: a judge whose step was abandoned can decide the episode in place of the one that completed. */
module RunnerWitness {
  import opened Wrappers
  import opened Transitions
  import opened EpisodeRecord
  import opened StoreSpec
  import opened Visits
  import opened RunnerSpec
  import opened RunnerSafety
  import opened RunnerFaults
  import Artefacts
  import LogFacts

  const CHECKS := [Check("recommendation", "pass", "")]

  predicate Judgeable(rec: Record) {
    rec.state == Some(Judging) && rec.opening.Some? && UnderJudgement(rec).Some?
  }

  function VerdictBy(rec: Record, session: string, key: string, result: VerdictResult): Request
    requires Judgeable(rec)
  {
    Request(EpisodeBroker, Some(Capability(ProposalJudge, session, rec.opening.value.bundleId)), key,
            GiveVerdict(UnderJudgement(rec).value.id, Some(result), CHECKS, true))
  }

  predicate Unused(log: seq<Entry>, key: string) {
    !BadKey(key) && !Reserved(key) && Prior(log, key).None?
  }

  /** What a verdict of this session adds. */
  ghost predicate Given(before: seq<Entry>, log: seq<Entry>, session: string, key: string, result: VerdictResult,
      ts: int) {
    && |log| == |before| + 1 && log[..|before|] == before
    && log[|before|].key == key && log[|before|].ts == ts
    && Judgeable(Fold(before))
    && log[|before|].body == VerdictBody(UnderJudgement(Fold(before)).value.id, result, CHECKS)
    && log[|before|].session == Some(session)
  }

  lemma {:induction false} VerdictAccepted(log: seq<Entry>, session: string, key: string, result: VerdictResult,
      env: Env)
    requires log != [] && Judgeable(Fold(log)) && !WroteVerdict(Fold(log), session) && Unused(log, key) && env.auditOk
    ensures Given(log, Perform(log, VerdictBy(Fold(log), session, key, result), env).0, session, key, result, env.ts)
  {
    hide Fold, Prior, UnderJudgement;
  }

  lemma {:induction false} MayGive(s: System, session: string, key: string, result: VerdictResult)
    requires Judgeable(Fold(s.log)) && Unused(s.log, key) && session in s.minted && s.minted[session] == ProposalJudge
    ensures WorkerMay(s, VerdictBy(Fold(s.log), session, key, result), false)
  {
    hide Fold, Prior, BadKey;
  }

  lemma {:induction false} VerdictGiven(s: System, session: string, key: string, result: VerdictResult, env: Env,
      b: Budgets)
    requires s.log != [] && Judgeable(Fold(s.log)) && !WroteVerdict(Fold(s.log), session) && Unused(s.log, key)
    requires env.auditOk && Timely(s.log, env) && session in s.minted && s.minted[session] == ProposalJudge
    ensures var t := Next(s, Work(VerdictBy(Fold(s.log), session, key, result), env), b, false);
      t == s.(log := t.log) && Given(s.log, t.log, session, key, result, env.ts)
  {
    hide Decide, Perform, Fold, Unused, WorkerMay;
    VerdictAccepted(s.log, session, key, result, env);
    MayGive(s, session, key, result);
  }

  lemma {:induction false} VerdictFolds(before: seq<Entry>, log: seq<Entry>, session: string, key: string,
      result: VerdictResult, ts: int)
    requires Legal(before) && Legal(log) && Given(before, log, session, key, result, ts)
    ensures var old_, rec := Fold(before), Fold(log);
      && Judgeable(rec) && UnderJudgement(rec) == UnderJudgement(old_) && rec.steps == old_.steps
      && rec.verdicts == old_.verdicts + [Verdict(UnderJudgement(old_).value.id, result, CHECKS, Some(session), ts)]
      && WroteVerdict(rec, session)
      && forall other :: other != session ==> (WroteVerdict(rec, other) <==> WroteVerdict(old_, other))
    ensures forall k :: k != key ==> Prior(log, k) == Prior(before, k)
  {
    var e := log[|before|];
    assert log == before + [e];
    FoldPush(before, e);
    UnderJudgementKept(before, e);
    forall other ensures WroteVerdict(Fold(log), other) <==> WroteVerdict(Fold(before), other) || other == session {
      WroteStep(Fold(before), e, other);
    }
  }

  // ---------------------------------------------------------------- the judge that completes

  /** A judge step `current` is recorded as completed; the session `gone` of an earlier one has not written yet. */
  ghost predicate Relieved(s: System, gone: string, current: string, key: string, ts: int, n: nat, b: Budgets) {
    && Safe(s, b, false) && Keyed(s, false)
    && s.pc == Recorded(Judging, current, true, false)
    && Judgeable(Fold(s.log)) && !WroteVerdict(Fold(s.log), gone)
    && LastOk(Fold(s.log).steps, ProposalJudge).Some?
    && LastOk(Fold(s.log).steps, ProposalJudge).value.session == Some(current)
    && gone in s.minted && s.minted[gone] == ProposalJudge
    && Unused(s.log, key) && |s.log| == n && s.log[n - 1].ts == ts
  }

  /** And now it has, and passed. */
  ghost predicate Overruled(s: System, gone: string, current: string, ts: int, n: nat, b: Budgets) {
    && Safe(s, b, false) && Keyed(s, false)
    && s.pc == Recorded(Judging, current, true, false) && gone != current
    && Fold(s.log).state == Some(Judging)
    && Fold(s.log).verdicts != []
    && (var last := Fold(s.log).verdicts[|Fold(s.log).verdicts|-1]; last.session == Some(gone) && last.result == Pass)
    && LastOk(Fold(s.log).steps, ProposalJudge).Some?
    && LastOk(Fold(s.log).steps, ProposalJudge).value.session == Some(current)
    && |s.log| == n && n > 0 && s.log[n - 1].ts == ts
  }

  lemma {:induction false} CurrentWrote(s: System, gone: string, current: string, key: string, ts: int, n: nat,
      b: Budgets)
    requires n > 0 && Relieved(s, gone, current, key, ts, n, b)
    ensures gone != current && Legal(s.log) && s.log != []
  {
    hide Gated, Known, OrphansOk, Legal, Diagnosed, PlannerOwns, Owns, Completed, MovedOn, Keyed, Judgeable, Unused;
    assert Produced(Judging, Fold(s.log), current);
  }

  lemma {:induction false} Overrule(s: System, gone: string, current: string, key: string, env: Env, n: nat, b: Budgets)
    requires n > 0 && Relieved(s, gone, current, key, env.ts, n, b) && env.auditOk
    ensures var t := Next(s, Work(VerdictBy(Fold(s.log), gone, key, Pass), env), b, false);
      Overruled(t, gone, current, env.ts, n + 1, b) && t.log[..n] == s.log
  {
    hide Next, Fold, Unused, Safe, Keyed, Legal, LastOk;
    CurrentWrote(s, gone, current, key, env.ts, n, b);
    var l := Work(VerdictBy(Fold(s.log), gone, key, Pass), env);
    VerdictGiven(s, gone, key, Pass, env, b);
    NextSafe(s, l, b, false);
    NextKeyed(s, l, b, false);
    SafeLegal(Next(s, l, b, false), b, false);
    VerdictFolds(s.log, Next(s, l, b, false).log, gone, key, Pass, env.ts);
  }

  lemma {:induction false} PassChosen(s: System, gone: string, current: string, ts: int, n: nat, b: Budgets)
    requires Overruled(s, gone, current, ts, n, b)
    ensures Next(s, Reread, b, false) == s.(pc := Deciding(Fold(s.log), Reporting))
  {
    hide Fold, Safe, Keyed, LastOk;
  }

  lemma {:induction false} OverruledPasses(s: System, gone: string, current: string, ts: int, n: nat, b: Budgets)
    requires Overruled(s, gone, current, ts, n, b)
    ensures Passed(s.log, false) && !Passed(s.log, true)
    ensures VisitVerdict(s.log).Some? && VisitVerdict(s.log).value.session == Some(gone)
  {
    hide Fold, Gated, Known, OrphansOk, Diagnosed, PlannerOwns, StepOn, Produced, Completed, Keyed, LastOk;
    PassChosen(s, gone, current, ts, n, b);
    NextSafe(s, Reread, b, false);
    LegalRevisions(s.log);
    assert s.log[..|s.log|] == s.log;
    assert SnapshotGated(s.log, Fold(s.log), Reporting, b, false);
  }

  lemma {:induction false} MoveAccepted(s: System, to: State, env: Env, b: Budgets)
    requires Safe(s, b, false) && Keyed(s, false) && s.pc == Deciding(Fold(s.log), to)
    requires Fold(s.log).state.Some? && ControllerMay(Fold(s.log).state.value, to) && !Ended(Fold(s.log))
    requires Timely(s.log, env) && env.auditOk && |StateKey(|s.log|, to)| <= 200
    ensures var t := Next(s, Cas(env), b, false);
      && t == s.(log := t.log, pc := Idle) && |t.log| == |s.log| + 1 && t.log[..|s.log|] == s.log
      && t.log[|s.log|].body == StateBody(Fold(s.log).state.value, to, "")
      && "state:" <= t.log[|s.log|].key && t.log[|s.log|].ts == env.ts
  {
    hide Decide, Perform, Fold, Safe, Keyed, CasRequest, StateKey, Chosen, AfterStep, AfterError, LateRequest, Ended;
    var rq := CasRequest(Fold(s.log), to);
    CasAccepted(s, b, false);
    SnapshotThere(s, b);
    CasEntry(s.log, Fold(s.log), to, env, b, false);
    WriteAppends(s.log, rq, env);
    EntryKey(s.log, rq, env);
    CasKey(Fold(s.log), to);
    DecideWrites(s.log, rq, env);
  }

  lemma {:induction false} CasKey(rec: Record, to: State)
    ensures "state:" <= EffectiveKey(CasRequest(rec, to))
  {
    StateKeyPrefix(rec.revision, to);
  }

  lemma {:induction false} SnapshotThere(s: System, b: Budgets)
    requires Safe(s, b, false) && s.pc.Deciding?
    ensures Legal(s.log) && SnapshotGated(s.log, s.pc.rec, s.pc.to, b, false)
  {
  }

  /** The late verdict decides: what the completed judge wrote does not matter any more. */
  lemma {:induction false} LateVerdictDecides(s: System, gone: string, current: string, key: string, env: Env, n: nat,
      b: Budgets)
    requires n > 0 && Relieved(s, gone, current, key, env.ts, n, b) && env.auditOk
    requires |StateKey(n + 1, Reporting)| <= 200
    ensures var t := Next(s, Work(VerdictBy(Fold(s.log), gone, key, Pass), env), b, false);
      var u := Next(Next(t, Reread, b, false), Cas(env), b, false);
      && |t.log| == n + 1 && t.log[..n] == s.log && |u.log| == n + 2 && u.log[..n + 1] == t.log
      && u.log[n + 1].body == StateBody(Judging, Reporting, "")
      && Passed(t.log, false) && !Passed(t.log, true)
      && VisitVerdict(t.log).Some? && VisitVerdict(t.log).value.session == Some(gone)
      && LastOk(Fold(t.log).steps, ProposalJudge).Some?
      && LastOk(Fold(t.log).steps, ProposalJudge).value.session == Some(current)
  {
    hide Next, Fold, Safe, Keyed, LastOk, Passed, VerdictBy, Unused, Judgeable;
    Overrule(s, gone, current, key, env, n, b);
    var t := Next(s, Work(VerdictBy(Fold(s.log), gone, key, Pass), env), b, false);
    OverruledPasses(t, gone, current, env.ts, n + 1, b);
    PassChosen(t, gone, current, env.ts, n + 1, b);
    NextSafe(t, Reread, b, false);
    NextKeyed(t, Reread, b, false);
    MoveAccepted(Next(t, Reread, b, false), Reporting, env, b);
  }

  // ---------------------------------------------------------------- how it comes to that

  /** A judge step is under way, and nothing of session `gone` has been written. */
  ghost predicate Waiting(s: System, gone: string, b: Budgets) {
    && Safe(s, b, false) && Keyed(s, false)
    && Judgeable(Fold(s.log)) && !WroteVerdict(Fold(s.log), gone)
    && gone in s.minted && s.minted[gone] == ProposalJudge
  }

  lemma {:induction false} WaitingOn(s: System, t: System, l: Label, gone: string, b: Budgets)
    requires Waiting(s, gone, b) && t == Next(s, l, b, false) && t.log == s.log && gone in t.minted
    requires t.minted[gone] == ProposalJudge
    ensures Waiting(t, gone, b)
  {
    hide Next, Safe, Keyed, Fold, Judgeable;
    NextSafe(s, l, b, false);
    NextKeyed(s, l, b, false);
  }

  /** The process dies during the judge step, and the next pass launches another one. */
  lemma {:induction false} Relaunched(s: System, gone: string, current: string, b: Budgets) returns (t: System)
    requires Waiting(s, gone, b) && current !in s.minted && |current| <= 100
    ensures t == Next(Next(s, Crash(true), b, false), Begin(current, Fine, true), b, false)
    ensures Waiting(t, gone, b) && t.pc == Working(Judging, current) && t.log == s.log
    ensures current in t.minted && t.minted[current] == ProposalJudge && gone != current
    ensures !WroteVerdict(Fold(t.log), current)
  {
    hide Safe, Keyed, Fold;
    var dead := Next(s, Crash(true), b, false);
    WaitingOn(s, dead, Crash(true), gone, b);
    t := Next(dead, Begin(current, Fine, true), b, false);
    WaitingOn(dead, t, Begin(current, Fine, true), gone, b);
    StrangerWroteNothing(s, current, b);
  }

  lemma {:induction false} StrangerWroteNothing(s: System, session: string, b: Budgets)
    requires Safe(s, b, false) && session !in s.minted
    ensures !WroteVerdict(Fold(s.log), session)
  {
    hide Gated, PcOk, OrphansOk, Diagnosed, Fold;
  }

  /** The second judge fails the artefact, and its step ends and validates. */
  lemma {:induction false} Judged(s: System, gone: string, current: string, key: string, env: Env, b: Budgets)
      returns (t: System)
    requires Waiting(s, gone, b) && s.pc == Working(Judging, current) && gone != current && s.log != []
    requires current in s.minted && s.minted[current] == ProposalJudge && !WroteVerdict(Fold(s.log), current)
    requires Unused(s.log, key) && Timely(s.log, env) && env.auditOk
    ensures t == Next(s, Work(VerdictBy(Fold(s.log), current, key, Fail), env), b, false)
    ensures Waiting(t, gone, b) && t.pc == s.pc && WroteVerdict(Fold(t.log), current)
    ensures Given(s.log, t.log, current, key, Fail, env.ts) && t == s.(log := t.log)
    ensures forall k :: k != key ==> Prior(t.log, k) == Prior(s.log, k)
  {
    hide Next, Safe, Keyed, Fold, Unused, Legal, Judgeable;
    var l := Work(VerdictBy(Fold(s.log), current, key, Fail), env);
    VerdictGiven(s, current, key, Fail, env, b);
    t := Next(s, l, b, false);
    NextSafe(s, l, b, false);
    NextKeyed(s, l, b, false);
    SafeLegal(s, b, false);
    SafeLegal(t, b, false);
    VerdictFolds(s.log, t.log, current, key, Fail, env.ts);
  }

  lemma {:induction false} Validated(s: System, gone: string, current: string, b: Budgets) returns (t: System)
    requires Waiting(s, gone, b) && s.pc == Working(Judging, current) && WroteVerdict(Fold(s.log), current)
    ensures t == Next(Next(s, EndStep, b, false), Validate(true, false, None, []), b, false)
    ensures Waiting(t, gone, b) && t.pc == Recording(Judging, current, true, false) && t.log == s.log
  {
    hide Safe, Keyed, Fold, WroteVerdict;
    var ended := Next(s, EndStep, b, false);
    WaitingOn(s, ended, EndStep, gone, b);
    JudgeOk(s, current, b);
    t := Next(ended, Validate(true, false, None, []), b, false);
    WaitingOn(ended, t, Validate(true, false, None, []), gone, b);
  }

  lemma {:induction false} JudgeOk(s: System, session: string, b: Budgets)
    requires Safe(s, b, false) && WroteVerdict(Fold(s.log), session)
    ensures Artefacts.StepOk(Fold(s.log), ProposalJudge, session, Incident, [], None)
  {
    hide Gated, PcOk, OrphansOk, Diagnosed, Fold, Known;
    LogFacts.ReferencesHold(s.log);
    Artefacts.JudgeValidIffWritten(Fold(s.log), session);
  }

  lemma {:induction false} StepAppended(s: System, state: State, session: string, env: Env, b: Budgets)
    requires Safe(s, b, false) && Keyed(s, false) && s.pc == Recording(state, session, true, false)
    requires Timely(s.log, env) && env.auditOk
    ensures var t := Next(s, RecordStep("", env), b, false);
      && t == s.(log := t.log, pc := Recorded(state, session, true, false))
      && |t.log| == |s.log| + 1 && t.log[..|s.log|] == s.log
      && t.log[|s.log|].body == StepBody(StepRole(state), Some(session), true, "", state)
      && t.log[|s.log|].key == "step:" + session && t.log[|s.log|].ts == env.ts
  {
    hide Decide, Perform, Fold, Safe, Keyed, StepRequest;
    SafeLegal(s, b, false);
    StepAccepted(s, "", false);
    StepEntry(s.log, state, session, true, "", env);
    EntryKey(s.log, StepRequest(state, session, true, ""), env);
    StepRequestKey(state, session);
    WriteAppends(s.log, StepRequest(state, session, true, ""), env);
  }

  lemma {:induction false} StepRequestKey(state: State, session: string)
    ensures EffectiveKey(StepRequest(state, session, true, "")) == "step:" + session
  {
  }

  lemma {:induction false} Completes(s: System, gone: string, current: string, next: string, env: Env, b: Budgets)
      returns (t: System)
    requires Waiting(s, gone, b) && s.pc == Recording(Judging, current, true, false)
    requires Unused(s.log, next) && Timely(s.log, env) && env.auditOk
    ensures t == Next(s, RecordStep("", env), b, false)
    ensures Relieved(t, gone, current, next, env.ts, |s.log| + 1, b) && t.log[..|s.log|] == s.log
  {
    hide Next, Safe, Keyed, Fold, Legal, Apply, LastOk, WroteVerdict, UnderJudgement;
    var l := RecordStep("", env);
    t := Next(s, l, b, false);
    StepAppended(s, Judging, current, env, b);
    NextSafe(s, l, b, false);
    NextKeyed(s, l, b, false);
    SafeLegal(s, b, false);
    SafeLegal(t, b, false);
    var e := t.log[|s.log|];
    assert t.log == s.log + [e];
    FoldPush(s.log, e);
    WroteStep(Fold(s.log), e, gone);
    LastOkStep(Fold(s.log), e, ProposalJudge);
    UnderJudgementKept(s.log, e);
    VerdictsPush(Fold(s.log), e);
    LogFacts.OpeningKept(Fold(s.log), e);
    assert "step:" <= "step:" + current;
  }

  /** From every state in which a judge is at work and has not written, if the process dies there: another judge
      is launched and completes with FAIL, the first one writes PASS before the re-read, and the episode goes
      to `reporting` on a verdict that is not of the judge step that completed. */
  lemma {:induction false} AbandonedJudgeDecides(s: System, gone: string, current: string, key: string, next: string,
      env: Env, b: Budgets) returns (ls: seq<Label>)
    requires Waiting(s, gone, b) && s.pc == Working(Judging, gone)
    requires current !in s.minted && |current| <= 100 && Unused(s.log, key) && Unused(s.log, next) && key != next
    requires Timely(s.log, env) && env.auditOk && |StateKey(|s.log| + 3, Reporting)| <= 200
    ensures var log, n := Exec(s, ls, b, false).log, |s.log| + 3;
      && |log| == n + 1 && s.log <= log && log[n].body == StateBody(Judging, Reporting, "")
      && Passed(log[..n], false) && !Passed(log[..n], true)
      && VisitVerdict(log[..n]).Some? && VisitVerdict(log[..n]).value.session == Some(gone)
      && LastOk(Fold(log[..n]).steps, ProposalJudge).Some?
      && LastOk(Fold(log[..n]).steps, ProposalJudge).value.session == Some(current)
  {
    hide Next, Fold, Safe, Keyed, LastOk, Passed, VerdictBy, Legal, Judgeable, StateKey, Chosen, WroteVerdict;
    SafeLegal(s, b, false);
    var launched := Relaunched(s, gone, current, b);
    var judged := Judged(launched, gone, current, key, env, b);
    var validated := Validated(judged, gone, current, b);
    var done := Completes(validated, gone, current, next, env, b);
    LateVerdictDecides(done, gone, current, next, env, |s.log| + 2, b);
    ls := [Crash(true), Begin(current, Fine, true), Work(VerdictBy(Fold(s.log), current, key, Fail), env),
           EndStep, Validate(true, false, None, []), RecordStep("", env),
           Work(VerdictBy(Fold(done.log), gone, next, Pass), env), Reread, Cas(env)];
    Nine(s, ls, b);
  }

  lemma {:induction false} Nine(s: System, ls: seq<Label>, b: Budgets)
    requires |ls| == 9
    ensures Exec(s, ls, b, false) ==
      Next(Next(Next(Next(Next(Next(Next(Next(Next(s, ls[0], b, false), ls[1], b, false), ls[2], b, false),
        ls[3], b, false), ls[4], b, false), ls[5], b, false), ls[6], b, false), ls[7], b, false), ls[8], b, false)
  {
    hide Next;
    ExecStep(s, ls, 0, b);
    ExecStep(s, ls, 1, b);
    ExecStep(s, ls, 2, b);
    ExecStep(s, ls, 3, b);
    ExecStep(s, ls, 4, b);
    ExecStep(s, ls, 5, b);
    ExecStep(s, ls, 6, b);
    ExecStep(s, ls, 7, b);
    ExecStep(s, ls, 8, b);
    assert ls[..9] == ls;
  }

  lemma {:induction false} ExecStep(s: System, ls: seq<Label>, i: nat, b: Budgets)
    requires i < |ls|
    ensures Exec(s, ls[..i + 1], b, false) == Next(Exec(s, ls[..i], b, false), ls[i], b, false)
  {
    hide Next;
    assert ls[..i + 1][..i] == ls[..i];
  }
}
