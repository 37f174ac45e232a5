/** Why the runner does what it does (valops/controller/runner.py, `advance`, `_after_failure` and `_closure`): what
    every hand-off of every run was caused by, when a failed step is retried instead, and what each pass starts. The
    counts are those of the record: indices of steps, verdicts and reports. */
module RunnerCauses {
  import opened Wrappers
  import opened Transitions
  import opened EpisodeRecord
  import opened StoreSpec
  import opened StoreAnswers
  import opened Visits
  import opened RunnerSpec
  import opened RunnerSafety
  import opened RunnerFaults
  import Artefacts

  // ---------------------------------------------------------------- counting in the record

  /** The failed steps of a role since the episode came into its state. */
  function FailedSteps(rec: Record, role: Role): set<nat> {
    set i: nat | i < |rec.steps| && rec.history != []
                 && rec.steps[i].role == role && !rec.steps[i].ok
                 && rec.steps[i].ts >= rec.history[|rec.history|-1].ts
  }

  /** The failed closure steps: those of the reporter while the episode was resolved. */
  function FailedClosures(rec: Record): set<nat> {
    set i: nat | i < |rec.steps| && rec.steps[i].role == Reporter && rec.steps[i].state == Resolved && !rec.steps[i].ok
  }

  function FailVerdicts(rec: Record): set<nat> {
    set i: nat | i < |rec.verdicts| && rec.verdicts[i].result == Fail
  }

  function FailedSince(steps: seq<StepRecord>, role: Role, since: int): set<nat> {
    set i: nat | i < |steps| && steps[i].role == role && !steps[i].ok && steps[i].ts >= since
  }

  lemma {:induction false} FailedSinceLast(steps: seq<StepRecord>, role: Role, since: int)
    requires steps != []
    ensures var n := |steps| - 1;
      && n !in FailedSince(steps[..n], role, since)
      && FailedSince(steps, role, since) == FailedSince(steps[..n], role, since) +
        (if steps[n].role == role && !steps[n].ok && steps[n].ts >= since then {n} else {})
  {
  }

  lemma {:induction false} FailuresCounted(steps: seq<StepRecord>, role: Role, since: int)
    ensures Failures(steps, role, since) == |FailedSince(steps, role, since)|
  {
    if steps != [] {
      var n := |steps| - 1;
      FailuresCounted(steps[..n], role, since);
      FailedSinceLast(steps, role, since);
    }
  }

  lemma {:induction false} FailedStepsCounted(rec: Record, role: Role)
    ensures FailuresInState(rec, role) == |FailedSteps(rec, role)|
  {
    if rec.history == [] {
      assert FailedSteps(rec, role) == {};
    } else {
      var since := rec.history[|rec.history|-1].ts;
      FailuresCounted(rec.steps, role, since);
      assert FailedSteps(rec, role) == FailedSince(rec.steps, role, since);
    }
  }

  lemma {:induction false} FailedClosuresLast(rec: Record, before: Record)
    requires rec.steps != [] && before.steps == rec.steps[..|rec.steps|-1]
    ensures var n, s := |rec.steps| - 1, rec.steps[|rec.steps|-1];
      && n !in FailedClosures(before)
      && FailedClosures(rec) ==
        FailedClosures(before) + (if s.role == Reporter && s.state == Resolved && !s.ok then {n} else {})
  {
  }

  lemma {:induction false} ClosuresCounted(rec: Record)
    ensures ClosureFailures(rec.steps) == |FailedClosures(rec)|
    decreases |rec.steps|
  {
    if rec.steps != [] {
      var n := |rec.steps| - 1;
      var before := rec.(steps := rec.steps[..n]);
      ClosuresCounted(before);
      FailedClosuresLast(rec, before);
    }
  }

  lemma {:induction false} VerdictsCounted(rec: Record)
    ensures FailCount(rec.verdicts) == |FailVerdicts(rec)|
    decreases |rec.verdicts|
  {
    if rec.verdicts != [] {
      var n := |rec.verdicts| - 1;
      var before := rec.(verdicts := rec.verdicts[..n]);
      VerdictsCounted(before);
      assert FailVerdicts(rec) == FailVerdicts(before) + (if rec.verdicts[n].result == Fail then {n} else {});
    }
  }

  // ---------------------------------------------------------------- the re-read

  /** The i-th step is the last completed one of its role. */
  predicate LastCompleted(rec: Record, role: Role, i: nat) {
    && i < |rec.steps| && rec.steps[i].role == role && rec.steps[i].ok
    && forall j | i < j < |rec.steps| :: !(rec.steps[j].role == role && rec.steps[j].ok)
  }

  lemma {:induction false} LastOkIs(steps: seq<StepRecord>, role: Role, i: nat)
    requires i < |steps| && steps[i].role == role && steps[i].ok
    requires forall j | i < j < |steps| :: !(steps[j].role == role && steps[j].ok)
    ensures LastOk(steps, role) == Some(steps[i])
  {
    if i < |steps| - 1 {
      LastOkIs(steps[..|steps|-1], role, i);
    }
  }

  /** Every hypothesis of the last completed diagnosis is refuted. */
  ghost predicate AllRefuted(rec: Record) {
    forall i: nat, k | LastCompleted(rec, Diagnostician, i) && 0 <= k < |rec.hypotheses|
      && rec.steps[i].session == Some(rec.hypotheses[k].stepSession) :: rec.hypotheses[k].status == Refuted
  }

  lemma {:induction false} LastOkIndex(steps: seq<StepRecord>, role: Role) returns (i: nat)
    requires LastOk(steps, role).Some?
    ensures i < |steps| && steps[i].role == role && steps[i].ok && steps[i] == LastOk(steps, role).value
    ensures forall j | i < j < |steps| :: !(steps[j].role == role && steps[j].ok)
  {
    i := |steps| - 1;
    if !(steps[i].role == role && steps[i].ok) {
      i := LastOkIndex(steps[..|steps|-1], role);
    }
  }

  lemma {:induction false} RefutedIff(rec: Record)
    requires LastOk(rec.steps, Diagnostician).Some? && TopHypothesis(rec).Some?
    requires LastOk(rec.steps, Diagnostician).value.session == Some(TopHypothesis(rec).value.stepSession)
    ensures RefutedAll(rec) <==> AllRefuted(rec)
  {
    hide TopHypothesis;
    var i := LastOkIndex(rec.steps, Diagnostician);
    assert LastCompleted(rec, Diagnostician, i);
    forall j: nat | LastCompleted(rec, Diagnostician, j) ensures rec.steps[j] == rec.steps[i] {
      LastOkIs(rec.steps, Diagnostician, j);
    }
  }

  /** Where the re-read record of a step that did not complete leads: to hand-off if a limit was hit or the role has
      failed more than P-08 times in this state, and otherwise nowhere, so that the next pass retries it. */
  lemma {:induction false} FailureAnswered(s: System, b: Budgets, strict: bool)
    requires s.pc.Recorded? && s.pc.state != Resolved && !s.pc.ok
    ensures var rec := Fold(s.log);
      Next(s, Reread, b, strict) == s.(pc :=
        if s.pc.limitHit || |FailedSteps(rec, StepRole(s.pc.state))| > b.p08 then Deciding(rec, HandedOff) else Idle)
  {
    hide Fold, FailuresInState, FailedSteps;
    FailedStepsCounted(Fold(s.log), StepRole(s.pc.state));
  }

  /** And that of one that did. */
  lemma {:induction false} CompletionAnswered(s: System, b: Budgets, strict: bool)
    requires s.pc.Recorded? && Steppable(s.pc.state) && s.pc.ok
    requires s.pc.state == Diagnosing ==>
      && LastOk(Fold(s.log).steps, Diagnostician).Some? && TopHypothesis(Fold(s.log)).Some?
      && LastOk(Fold(s.log).steps, Diagnostician).value.session == Some(TopHypothesis(Fold(s.log)).value.stepSession)
    ensures var rec := Fold(s.log);
      Next(s, Reread, b, strict) == s.(pc := Deciding(rec,
        match s.pc.state
        case Diagnosing => if rec.recoveries != [] || AllRefuted(rec) then Reporting else Recommending
        case Recommending => Judging
        case Judging =>
          if rec.verdicts != [] && rec.verdicts[|rec.verdicts|-1].result == Pass then Reporting
          else if |FailVerdicts(rec)| <= b.p09 then Recommending
          else HandedOff
        case _ => AwaitingOperator))
  {
    hide Fold, LastOk, TopHypothesis, FailVerdicts, AllRefuted, RefutedAll;
    if s.pc.state == Diagnosing {
      RefutedIff(Fold(s.log));
    }
    VerdictsCounted(Fold(s.log));
  }

  /** A completed diagnosis has a top hypothesis, of that diagnosis. */
  lemma {:induction false} DiagnosisCompleted(s: System, b: Budgets, strict: bool)
    requires Safe(s, b, strict) && s.pc.Recorded? && s.pc.state == Diagnosing && s.pc.ok
    ensures var rec := Fold(s.log);
      && LastOk(rec.steps, Diagnostician).Some? && TopHypothesis(rec).Some?
      && LastOk(rec.steps, Diagnostician).value.session == Some(TopHypothesis(rec).value.stepSession)
  {
    hide Gated, Known, OrphansOk, PlannerOwns, TopHypothesis, LastOk, Owns, Produced;
    TopHypothesisHere(s, b, strict);
  }

  /** In every run: where the re-read after a step leads. */
  lemma {:induction false} RereadAnswered(init: System, ls: seq<Label>, b: Budgets, strict: bool)
    requires Initial(init) && Exec(init, ls, b, strict).pc.Recorded?
    ensures var s := Exec(init, ls, b, strict);
      var rec := Fold(s.log);
      Next(s, Reread, b, strict) == s.(pc :=
        if s.pc.state == Resolved then Idle
        else if !s.pc.ok then
          if s.pc.limitHit || |FailedSteps(rec, StepRole(s.pc.state))| > b.p08 then Deciding(rec, HandedOff) else Idle
        else Deciding(rec,
          match s.pc.state
          case Diagnosing => if rec.recoveries != [] || AllRefuted(rec) then Reporting else Recommending
          case Recommending => Judging
          case Judging =>
            if rec.verdicts != [] && rec.verdicts[|rec.verdicts|-1].result == Pass then Reporting
            else if |FailVerdicts(rec)| <= b.p09 then Recommending
            else HandedOff
          case _ => AwaitingOperator))
  {
    hide Fold, FailedSteps, FailVerdicts, AllRefuted, Exec, Safe, AfterStep;
    var s := Exec(init, ls, b, strict);
    ReachableSafe(init, ls, b, strict);
    if s.pc.state != Resolved {
      StepIsOn(s, b, strict);
      if s.pc.ok {
        if s.pc.state == Diagnosing {
          DiagnosisCompleted(s, b, strict);
        }
        CompletionAnswered(s, b, strict);
      } else {
        FailureAnswered(s, b, strict);
      }
    }
  }

  lemma {:induction false} StepIsOn(s: System, b: Budgets, strict: bool)
    requires Safe(s, b, strict) && s.pc.Recorded?
    ensures Steppable(s.pc.state) || s.pc.state == Resolved
  {
    hide Gated, Known, OrphansOk, PlannerOwns, Owns, Produced, Diagnosed, MovedOn, Completed;
  }

  // ---------------------------------------------------------------- what a pass starts

  /** The head of a pass, from what the record says: a worker is started on a good bundle while models may be used, in
      the four states of the analysis, and for a closure report that is still missing and has failed at most P-08
      times; a condemned bundle hands off, and an episode just opened goes to `diagnosing`. */
  lemma {:induction false} BeginAnswered(s: System, session: string, bundle: BundleStatus, llm: bool, b: Budgets,
      strict: bool)
    requires s.pc == Idle && session !in s.minted && |session| <= 100
    ensures var rec := Fold(s.log);
      var t := Next(s, Begin(session, bundle, llm), b, strict);
      var over := rec.state in {None, Some(HandedOff), Some(AwaitingOperator)};
      && (t.pc.Deciding? <==>
            !over && (bundle == Condemned || (rec.state == Some(Open) && bundle == Fine && llm)))
      && (t.pc.Deciding? ==> t == s.(pc := Deciding(rec, if bundle == Condemned then HandedOff else Diagnosing)))
      && (t.pc.Working? <==>
            && !over && bundle == Fine && llm && rec.state != Some(Open)
            && (rec.state == Some(Resolved) ==>
                  && (forall i | 0 <= i < |rec.reports| :: rec.reports[i].kind != Closure)
                  && |FailedClosures(rec)| <= b.p08))
      && (t.pc.Working? ==>
            t == s.(pc := Working(rec.state.value, session), minted := s.minted[session := StepRole(rec.state.value)],
                    live := Some(session), started := s.started + (if rec.state == Some(Resolved) then 0 else 1)))
      && (!t.pc.Deciding? && !t.pc.Working? ==> t == s)
  {
    hide Fold, FailedClosures;
    ClosuresCounted(Fold(s.log));
  }

  /** In every run, a step that failed without hitting a limit is retried as long as its role has failed at most P-08
      times in this state: the re-read writes nothing, and the next pass starts the same role again. */
  lemma {:induction false} FailedStepIsRetried(init: System, ls: seq<Label>, session: string, b: Budgets, strict: bool)
    requires Initial(init) && Exec(init, ls, b, strict).pc.Recorded?
    requires var s := Exec(init, ls, b, strict);
      && Steppable(s.pc.state) && Fold(s.log).state == Some(s.pc.state) && !s.pc.ok && !s.pc.limitHit
      && |FailedSteps(Fold(s.log), StepRole(s.pc.state))| <= b.p08
      && session !in s.minted && |session| <= 100
    ensures var s := Exec(init, ls, b, strict);
      var t := Exec(s, [Reread, Begin(session, Fine, true)], b, strict);
      t == s.(pc := Working(s.pc.state, session), minted := s.minted[session := StepRole(s.pc.state)],
              live := Some(session), started := s.started + 1)
  {
    hide Next, Fold, FailedSteps, FailedClosures, Exec;
    var s := Exec(init, ls, b, strict);
    RereadAnswered(init, ls, b, strict);
    BeginAnswered(Next(s, Reread, b, strict), session, Fine, true, b, strict);
    TwoSteps(s, Reread, Begin(session, Fine, true), b, strict);
  }

  lemma {:induction false} TwoSteps(s: System, l: Label, m: Label, b: Budgets, strict: bool)
    ensures Exec(s, [l, m], b, strict) == Next(Next(s, l, b, strict), m, b, strict)
  {
    hide Next;
    assert [l, m][..1] == [l] && [l][..0] == [];
    assert Exec(s, [l], b, strict) == Next(s, l, b, strict);
  }

  // ---------------------------------------------------------------- the steps between

  /** The cost of a step is charged to its role and session. */
  lemma {:induction false} CostRecorded(s: System, usd: int, turns: int, env: Env, b: Budgets, strict: bool)
      returns (cost: Cost)
    requires s.pc.Checking? && s.log != [] && Timely(s.log, env) && env.auditOk
    requires var key := "cost:" + s.pc.session; GoodKey(key) && Prior(s.log, key).None?
    ensures ChargedTo(Fold(s.log).cost, cost, StepRole(s.pc.state), usd, turns, Some(s.pc.session))
    ensures var rec := Fold(s.log);
      var t := Next(s, RecordCost(usd, turns, env), b, strict);
      t == s.(log := t.log) && Fold(t.log) == rec.(revision := rec.revision + 1, cost := cost)
  {
    hide Fold, GoodKey, ChargedTo, Decide, Prior;
    cost := CostAnswered(s.log, Controller, "cost:" + s.pc.session, StepRole(s.pc.state), usd, turns,
                         Some(s.pc.session), env);
  }

  /** What a step has done is judged from the record, under the report kind of its state. */
  lemma {:induction false} ValidationAnswered(s: System, completed: bool, limitHit: bool,
      out: Option<Artefacts.Structured>, alerts: seq<Artefacts.Alert>, b: Budgets, strict: bool)
    requires s.pc.Checking?
    ensures var kind := if s.pc.state == Resolved then Closure else Incident;
      var t := Next(s, Validate(completed, limitHit, out, alerts), b, strict);
      && t == s.(pc := t.pc) && t.pc.Recording? && t.pc.state == s.pc.state && t.pc.session == s.pc.session
      && (t.pc.ok <==>
            completed && Artefacts.StepOk(Fold(s.log), StepRole(s.pc.state), s.pc.session, kind, alerts, out))
      && (t.pc.limitHit <==> limitHit && !t.pc.ok)
  {
    hide Fold, Artefacts.StepOk;
  }

  /** In every run, the finding is recorded under the step's role, session and state, once the sequencer has
      acknowledged it. */
  lemma {:induction false} RecordAnswered(init: System, ls: seq<Label>, reason: string, env: Env, b: Budgets,
      strict: bool)
    requires Initial(init) && Exec(init, ls, b, strict).pc.Recording? && Timely(Exec(init, ls, b, strict).log, env)
    ensures var s := Exec(init, ls, b, strict);
      var rec := Fold(s.log);
      var t := Next(s, RecordStep(reason, env), b, strict);
      if env.auditOk then
        && t == s.(log := t.log, pc := Recorded(s.pc.state, s.pc.session, s.pc.ok, s.pc.limitHit))
        && Fold(t.log) == rec.(revision := rec.revision + 1, steps := rec.steps +
             [StepRecord(StepRole(s.pc.state), Some(s.pc.session), s.pc.ok, reason, s.pc.state, env.ts)])
      else t == s.(pc := Idle, faults := s.faults + 1)
  {
    hide Fold, Exec, Decide, Safe, Keyed, Legal, GoodKey;
    var s := Exec(init, ls, b, strict);
    ReachableSafe(init, ls, b, strict);
    ReachableKeyed(init, ls, b, strict);
    SafeLegal(s, b, strict);
    var rq := StepRequest(s.pc.state, s.pc.session, s.pc.ok, reason);
    StepAccepted(s, reason, strict);
    StepKeyIsGood(s.log, rq);
    StepAnswered(s.log, Controller, rq.key, StepRole(s.pc.state), Some(s.pc.session), s.pc.ok, reason, s.pc.state, env);
  }

  lemma {:induction false} StepKeyIsGood(log: seq<Entry>, rq: Request)
    requires Decide(log, rq).Write? && !rq.call.SetState?
    ensures GoodKey(rq.key) && Prior(log, rq.key).None? && log != []
  {
    hide Compose;
    GoodKeyIff(rq.key);
  }

  /** In every run, a compare-and-swap at the revision it was decided on moves the episode, unless the episode has
      ended; at any other it writes nothing. */
  lemma {:induction false} CasAnswered(init: System, ls: seq<Label>, env: Env, b: Budgets, strict: bool)
    requires Initial(init) && Exec(init, ls, b, strict).pc.Deciding? && Timely(Exec(init, ls, b, strict).log, env)
    requires var s := Exec(init, ls, b, strict);
      env.auditOk && Plausible(s.pc) && |StateKey(s.pc.rec.revision, s.pc.to)| <= 200
    ensures var s := Exec(init, ls, b, strict);
      var rec := Fold(s.log);
      var t := Next(s, Cas(env), b, strict);
      if rec.revision != s.pc.rec.revision then t == s.(pc := Idle, lost := s.lost + 1)
      else if Over(rec) then t == s.(pc := Idle, faults := s.faults + 1)
      else t == s.(log := t.log, pc := Idle) && Fold(t.log) == Moved(rec, Controller, s.pc.to, env.ts)
  {
    hide Fold, Exec, Decide, Safe, Keyed, Legal, GoodKey, Prior, StateKey, Compose, Plausible;
    var s := Exec(init, ls, b, strict);
    ReachableSafe(init, ls, b, strict);
    ReachableKeyed(init, ls, b, strict);
    SafeLegal(s, b, strict);
    LegalRevisions(s.log);
    var rq := CasRequest(s.pc.rec, s.pc.to);
    if Decide(s.log, rq).Write? {
      TransitionAccepted(s.log, s.pc.rec, s.pc.to, env);
      TransitionAnswered(s.log, Controller, rq.key, s.pc.to, s.pc.rec.revision, "", env);
    } else if Fold(s.log).revision == s.pc.rec.revision && !Ended(Fold(s.log)) {
      CasAccepted(s, b, strict);
    }
  }

  lemma {:induction false} TransitionAccepted(log: seq<Entry>, rec: Record, to: State, env: Env)
    requires Decide(log, CasRequest(rec, to)).Write? && env.auditOk
    ensures rec.revision == Fold(log).revision && !Over(Fold(log)) && Prior(log, StateKey(rec.revision, to)).None?
    ensures StateKey(rec.revision, to) != "" && Perform(log, CasRequest(rec, to), env).1.Done?
  {
    assert StateKey(rec.revision, to)[0] == 's';
  }

  /** An error leaves a decision to hand off, from what the record says now, and so does a Judge that was shown what it
      must not see; a compare-and-swap then does it. */
  lemma {:induction false} TroubleAnswered(s: System, answered: bool, b: Budgets, strict: bool)
    ensures var rec, t := Fold(s.log), Next(s, Fault(answered), b, strict);
      t == s.(pc := Deciding(rec, HandedOff), live := None, faults := s.faults + 1, orphans := t.orphans)
    ensures Next(s, IsolationFailure, b, strict) ==
      if s.pc.Checking? && s.pc.state == Judging then s.(pc := Deciding(Fold(s.log), HandedOff)) else s
  {
    hide Fold;
  }

  /** A call the runner gives up on is left with the store: when it is got on with at once, it has the effect it would
      have had. */
  lemma {:induction false} AbandonedCallLands(s: System, usd: int, turns: int, reason: string, env: Env, b: Budgets)
    requires Timely(s.log, env) && (s.pc.Deciding? || s.pc.Checking? || s.pc.Recording?)
    ensures var t := Next(s, Fault(false), b, false);
      var awaited :=
        if s.pc.Deciding? then Cas(env)
        else if s.pc.Checking? then RecordCost(usd, turns, env)
        else RecordStep(reason, env);
      && |t.orphans| == |s.orphans| + 1 && t.orphans[..|s.orphans|] == s.orphans
      && Next(t, Land(|s.orphans|, usd, turns, reason, env), b, false).log == Next(s, awaited, b, false).log
      && Next(t, Land(|s.orphans|, usd, turns, reason, env), b, false).orphans == s.orphans
  {
    hide Fold, Decide, StepRequest, CostRequest, CasRequest;
    var t := Next(s, Fault(false), b, false);
    assert Without(t.orphans, |s.orphans|) == s.orphans;
  }

  // ---------------------------------------------------------------- every hand-off has a cause

  /** What makes the runner decide to hand off: a condemned bundle, a failed isolation check, an error, a limit, more
      than P-08 failures of the role in this state, or more than P-09 FAIL verdicts after one that did not pass. */
  ghost predicate Cause(s: System, l: Label, b: Budgets) {
    var rec := Fold(s.log);
    match l
    case Begin(_, bundle, _) => bundle == Condemned
    case IsolationFailure => s.pc.Checking? && s.pc.state == Judging
    case Fault(_) => true
    case Reread =>
      && s.pc.Recorded?
      && if s.pc.ok then
           && s.pc.state == Judging && |FailVerdicts(rec)| > b.p09
           && (rec.verdicts != [] ==> rec.verdicts[|rec.verdicts|-1].result != Pass)
         else s.pc.limitHit || |FailedSteps(rec, StepRole(s.pc.state))| > b.p08
    case _ => false
  }

  /** The k-th step of the run had a cause, in this record. */
  ghost predicate CausedAt(init: System, ls: seq<Label>, b: Budgets, strict: bool, rec: Record, k: nat) {
    && k < |ls|
    && var s := Exec(init, ls[..k], b, strict);
       Cause(s, ls[k], b) && Fold(s.log) == rec && |s.log| == rec.revision
  }

  /** The runner, or a call it has given up on, is about to hand off from this record. */
  predicate HandingOff(s: System, rec: Record) {
    s.pc == Deciding(rec, HandedOff) || LateCas(rec, HandedOff) in s.orphans
  }

  lemma {:induction false} RereadCause(s: System, b: Budgets, strict: bool)
    requires s.pc.Recorded? && Next(s, Reread, b, strict).pc == Deciding(Fold(s.log), HandedOff)
    ensures Cause(s, Reread, b)
  {
    hide Fold, FailVerdicts, FailedSteps, RefutedAll, FailCount, FailuresInState;
    FailedStepsCounted(Fold(s.log), StepRole(s.pc.state));
    VerdictsCounted(Fold(s.log));
  }

  /** A decision to hand off is new only with a cause, in the record it is decided on. */
  lemma {:induction false} DecidedWithCause(s: System, l: Label, rec: Record, b: Budgets, strict: bool)
    requires Legal(s.log) && s.log != [] && Keyed(s, strict)
    requires HandingOff(Next(s, l, b, strict), rec) && !HandingOff(s, rec)
    ensures Cause(s, l, b) && Fold(s.log) == rec && |s.log| == rec.revision
  {
    hide Fold, Perform, Decide, Keyed, Legal, AfterStep, Chosen, FailVerdicts, FailedSteps, WorkerMay, OutsiderMay,
      LateRequest;
    LegalRevisions(s.log);
    match l
    case Begin(session, bundle, llm) => BeginDecides(s, session, bundle, llm, b, rec);
    case RecordStep(reason, env) =>
      if s.pc.Recording? {
        StepAccepted(s, reason, strict);
      }
    case Reread =>
      if s.pc.Recorded? {
        RereadDecides(s, b, strict);
        RereadCause(s, b, strict);
      }
    case _ =>
  }

  lemma {:induction false} BeginDecides(s: System, session: string, bundle: BundleStatus, llm: bool, b: Budgets,
      rec: Record)
    requires s.pc == Idle && HandingOff(Chosen(s, session, bundle, llm, b), rec) && !HandingOff(s, rec)
    ensures bundle == Condemned && rec == Fold(s.log)
  {
    hide Fold, ClosureDue;
  }

  lemma {:induction false} RereadDecides(s: System, b: Budgets, strict: bool)
    requires s.pc.Recorded?
    ensures var t := Next(s, Reread, b, strict);
      t.orphans == s.orphans && (t.pc.Deciding? ==> t.pc.rec == Fold(s.log))
  {
    hide Fold, AfterStep;
  }

  /** Where a pending hand-off was decided. */
  lemma {:induction false} HandingOffHasCause(init: System, ls: seq<Label>, b: Budgets, strict: bool, rec: Record)
      returns (k: nat)
    requires Initial(init) && HandingOff(Exec(init, ls, b, strict), rec)
    ensures CausedAt(init, ls, b, strict, rec, k)
  {
    hide Next, Fold, Cause, Legal, Safe, Keyed;
    if ls == [] {
      assert false;
    } else {
      var before := ls[..|ls|-1];
      var s := Exec(init, before, b, strict);
      if HandingOff(s, rec) {
        k := HandingOffHasCause(init, before, b, strict, rec);
        assert before[..k] == ls[..k];
      } else {
        k := |ls| - 1;
        ReachableSafe(init, before, b, strict);
        SafeLegal(s, b, strict);
        ReachableKeyed(init, before, b, strict);
        DecidedWithCause(s, ls[k], rec, b, strict);
      }
    }
  }

  lemma {:induction false} LogGrows(init: System, ls: seq<Label>, k: nat, b: Budgets, strict: bool)
    requires k <= |ls|
    ensures Exec(init, ls[..k], b, strict).log <= Exec(init, ls, b, strict).log
  {
    hide Next;
    if k == |ls| {
      assert ls[..k] == ls;
    } else {
      var before := ls[..|ls|-1];
      LogGrows(init, before, k, b, strict);
      assert before[..k] == ls[..k];
      NextGrows(Exec(init, before, b, strict), ls[|ls|-1], b, strict);
    }
  }

  predicate IsHandOff(e: Entry) {
    e.body.StateBody? && e.body.to == HandedOff
  }

  lemma {:induction false} CasHandsOff(log: seq<Entry>, rec: Record, to: State, env: Env)
    requires Legal(log) && Decide(log, CasRequest(rec, to)).Write?
    requires IsHandOff(NewEntry(log, Decide(log, CasRequest(rec, to)), env))
    ensures to == HandedOff && rec.revision == |log|
  {
    LegalRevisions(log);
  }

  lemma {:induction false} OthersNeverHandOff(s: System, e: Entry, strict: bool)
    requires ByOthers(s, e, strict) && EntryOk(Fold(s.log), e)
    ensures !IsHandOff(e)
  {
  }

  lemma {:induction false} NoteNeverHandsOff(log: seq<Entry>, rq: Request, env: Env)
    requires rq.principal == Controller && (rq.call.AddStep? || rq.call.AddCost?) && Decide(log, rq).Write?
    ensures !IsHandOff(NewEntry(log, Decide(log, rq), env))
  {
  }

  /** Only a pending hand-off is written, and at the revision it was decided on. */
  lemma {:induction false} HandOffWritten(s: System, l: Label, b: Budgets, strict: bool) returns (rec: Record)
    requires Legal(s.log)
    requires var log := Next(s, l, b, strict).log; |log| > |s.log| && IsHandOff(log[|s.log|])
    ensures HandingOff(s, rec) && rec.revision == |s.log|
  {
    hide Fold, Decide, Legal, AfterStep, Chosen, EntryOk, ByOthers, IsHandOff, CasRequest;
    rec := EMPTY_RECORD;
    match l
    case Begin(session, bundle, llm) => BeginWritesNothing(s, session, bundle, llm, b);
    case Work(rq, env) =>
      WorkerEntry(s, rq, env, strict);
      DecideIsLegal(s.log, rq, env);
      OthersNeverHandOff(s, NewEntry(s.log, Decide(s.log, rq), env), strict);
    case Outside(rq, env) =>
      OutsiderEntry(s, rq, env, strict);
      DecideIsLegal(s.log, rq, env);
      OthersNeverHandOff(s, NewEntry(s.log, Decide(s.log, rq), env), strict);
    case RecordCost(usd, turns, env) =>
      NoteNeverHandsOff(s.log, CostRequest(s.pc.state, s.pc.session, usd, turns), env);
    case RecordStep(reason, env) =>
      NoteNeverHandsOff(s.log, StepRequest(s.pc.state, s.pc.session, s.pc.ok, reason), env);
    case Cas(env) =>
      CasHandsOff(s.log, s.pc.rec, s.pc.to, env);
      rec := s.pc.rec;
    case Land(i, usd, turns, reason, env) =>
      match s.orphans[i] {
        case LateCas(r, to) =>
          CasHandsOff(s.log, r, to, env);
          rec := r;
        case LateStep(state, session, ok) =>
          NoteNeverHandsOff(s.log, StepRequest(state, session, ok, reason), env);
        case LateCost(state, session) =>
          NoteNeverHandsOff(s.log, CostRequest(state, session, usd, turns), env);
      }
    case _ =>
  }

  /** Every hand-off in the log of every run was decided with a cause, in the very record it was written to. */
  lemma {:induction false} HandOffHasCause(init: System, ls: seq<Label>, b: Budgets, strict: bool, i: nat)
      returns (k: nat)
    requires Initial(init) && i < |Exec(init, ls, b, strict).log| && IsHandOff(Exec(init, ls, b, strict).log[i])
    ensures k < |ls| && Cause(Exec(init, ls[..k], b, strict), ls[k], b)
    ensures Exec(init, ls[..k], b, strict).log == Exec(init, ls, b, strict).log[..i]
  {
    hide Next, Fold, Cause, Legal, Safe, Keyed;
    if ls == [] {
      OpeningIsNoHandOff(init);
      assert false;
    } else {
      var before := ls[..|ls|-1];
      var s, log := Exec(init, before, b, strict), Exec(init, ls, b, strict).log;
      NextGrows(s, ls[|ls|-1], b, strict);
      if i < |s.log| {
        k := HandOffHasCause(init, before, b, strict, i);
        assert before[..k] == ls[..k] && s.log[..i] == log[..i];
      } else {
        ReachableSafe(init, before, b, strict);
        SafeLegal(s, b, strict);
        var rec := HandOffWritten(s, ls[|ls|-1], b, strict);
        k := HandingOffHasCause(init, before, b, strict, rec);
        LogGrows(init, before, k, b, strict);
        assert before[..k] == ls[..k];
        var t := Exec(init, ls[..k], b, strict);
        assert t.log == s.log[..|t.log|] == s.log;
      }
    }
  }

  lemma {:induction false} OpeningIsNoHandOff(init: System)
    requires Initial(init)
    ensures !IsHandOff(init.log[0])
  {
    assert init.log[..0] == [];
  }
}
