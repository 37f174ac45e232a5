/** A run from a just opened episode to a judge at work, and on to a decision by a judge whose step was abandoned:
    the situations of RunnerWitness do arise. */
module RunnerReach {
  import opened Wrappers
  import opened Text
  import opened Transitions
  import opened EpisodeRecord
  import opened StoreSpec
  import opened Visits
  import opened RunnerSpec
  import opened RunnerSafety
  import opened RunnerFaults
  import opened RunnerWitness
  import Artefacts
  import LogFacts

  /** The runner rests, and the episode is in this state. */
  ghost predicate At(s: System, state: State, n: nat, env: Env, b: Budgets) {
    && Safe(s, b, false) && Keyed(s, false) && s.pc == Idle
    && Fold(s.log).state == Some(state)
    && |s.log| == n && n > 0 && Timely(s.log, env) && env.auditOk
  }

  lemma {:induction false} ExecConcat(s: System, xs: seq<Label>, ys: seq<Label>, b: Budgets)
    ensures Exec(s, xs + ys, b, false) == Exec(Exec(s, xs, b, false), ys, b, false)
  {
    hide Next;
    if ys == [] {
      assert xs + ys == xs;
    } else {
      var init := ys[..|ys|-1];
      ExecConcat(s, xs, init, b);
      assert (xs + ys)[..|xs + ys|-1] == xs + init;
    }
  }

  // ---------------------------------------------------------------- the runner's part of a step

  /** The requests of a worker that does one thing, and its step is recorded as completed. */
  function StepLabels(session: string, rq: Request, env: Env): seq<Label> {
    [Begin(session, Fine, true), Work(rq, env), EndStep, Validate(true, false, None, []), RecordStep("", env)]
  }

  lemma {:induction false} Five(s: System, ls: seq<Label>, b: Budgets)
    requires |ls| == 5
    ensures Exec(s, ls, b, false) ==
      Next(Next(Next(Next(Next(s, ls[0], b, false), ls[1], b, false), ls[2], b, false), ls[3], b, false), ls[4], b,
           false)
  {
    hide Next;
    ExecStep(s, ls, 0, b);
    ExecStep(s, ls, 1, b);
    ExecStep(s, ls, 2, b);
    ExecStep(s, ls, 3, b);
    ExecStep(s, ls, 4, b);
    assert ls[..5] == ls;
  }

  /** The one write the worker makes is accepted, and makes its step valid. */
  ghost predicate Works(log: seq<Entry>, state: State, session: string, rq: Request, env: Env) {
    && AgentCall(rq.call) && rq.token.Some? && !Reserved(rq.key)
    && rq.token.value.session == session && rq.token.value.role == StepRole(state)
    && Decide(log, rq).Write?
    && Artefacts.StepOk(Fold(log + [NewEntry(log, Decide(log, rq), env)]), StepRole(state), session, Incident, [], None)
  }

  lemma {:induction false} Launches(s: System, state: State, session: string, n: nat, env: Env, b: Budgets)
    requires At(s, state, n, env, b) && Steppable(state) && session !in s.minted && |session| <= 100
    ensures var t := Next(s, Begin(session, Fine, true), b, false);
      && Safe(t, b, false) && Keyed(t, false) && t.log == s.log && t.pc == Working(state, session)
      && t.minted == s.minted[session := StepRole(state)]
  {
    NextSafe(s, Begin(session, Fine, true), b, false);
    NextKeyed(s, Begin(session, Fine, true), b, false);
    hide Safe, Keyed, Fold;
  }

  lemma {:induction false} WorkerWrites(s: System, state: State, session: string, rq: Request, env: Env, b: Budgets)
    requires Safe(s, b, false) && Keyed(s, false) && s.pc == Working(state, session)
    requires session in s.minted && s.minted[session] == StepRole(state)
    requires Works(s.log, state, session, rq, env) && Timely(s.log, env) && env.auditOk
    ensures var t := Next(s, Work(rq, env), b, false);
      Safe(t, b, false) && Keyed(t, false) && t == s.(log := s.log + [NewEntry(s.log, Decide(s.log, rq), env)])
  {
    hide Safe, Keyed, Decide, Perform, Fold;
    NextSafe(s, Work(rq, env), b, false);
    NextKeyed(s, Work(rq, env), b, false);
    WriteAppends(s.log, rq, env);
  }

  lemma {:induction false} Validates(s: System, state: State, session: string, b: Budgets)
    requires Safe(s, b, false) && Keyed(s, false) && s.pc == Working(state, session) && Steppable(state)
    requires Artefacts.StepOk(Fold(s.log), StepRole(state), session, Incident, [], None)
    ensures var t := Next(Next(s, EndStep, b, false), Validate(true, false, None, []), b, false);
      && Safe(t, b, false) && Keyed(t, false)
      && t == s.(pc := Recording(state, session, true, false), live := None)
  {
    hide Safe, Keyed, Fold, Artefacts.StepOk;
    NextSafe(s, EndStep, b, false);
    NextKeyed(s, EndStep, b, false);
    NextSafe(Next(s, EndStep, b, false), Validate(true, false, None, []), b, false);
    NextKeyed(Next(s, EndStep, b, false), Validate(true, false, None, []), b, false);
  }

  lemma {:induction false} Stepped(s: System, state: State, session: string, rq: Request, n: nat, env: Env, b: Budgets)
    returns (t: System)
    requires At(s, state, n, env, b) && Steppable(state) && session !in s.minted && |session| <= 100
    requires Works(s.log, state, session, rq, env)
    ensures t == Exec(s, StepLabels(session, rq, env), b, false)
    ensures Safe(t, b, false) && Keyed(t, false) && t.pc == Recorded(state, session, true, false)
    ensures t.minted == s.minted[session := StepRole(state)]
    ensures |t.log| == n + 2 && t.log[..n] == s.log && t.log[n] == NewEntry(s.log, Decide(s.log, rq), env)
    ensures t.log[n + 1].body == StepBody(StepRole(state), Some(session), true, "", state)
    ensures t.log[n + 1].key == "step:" + session && t.log[n + 1].ts == env.ts
  {
    hide Next, Safe, Keyed, Fold, Decide, Artefacts.StepOk;
    Launches(s, state, session, n, env, b);
    var launched := Next(s, Begin(session, Fine, true), b, false);
    WorkerWrites(launched, state, session, rq, env, b);
    var worked := Next(launched, Work(rq, env), b, false);
    Validates(worked, state, session, b);
    var validated := Next(Next(worked, EndStep, b, false), Validate(true, false, None, []), b, false);
    DecideWrites(s.log, rq, env);
    StepAppended(validated, state, session, env, b);
    t := Next(validated, RecordStep("", env), b, false);
    NextSafe(validated, RecordStep("", env), b, false);
    NextKeyed(validated, RecordStep("", env), b, false);
    Five(s, StepLabels(session, rq, env), b);
    assert t.log[..n] == s.log;
  }

  /** And moves the episode on. */
  lemma {:induction false} Concludes(s: System, state: State, session: string, to: State, env: Env, b: Budgets)
    returns (t: System)
    requires Safe(s, b, false) && Keyed(s, false) && s.pc == Recorded(state, session, true, false)
    requires Fold(s.log).state == Some(state) && Steppable(state) && Timely(s.log, env) && env.auditOk
    requires AfterStep(Fold(s.log), state, true, false, b) == Some(to) && |StateKey(|s.log|, to)| <= 200
    ensures t == Exec(s, [Reread, Cas(env)], b, false)
    ensures At(t, to, |s.log| + 1, env, b) && t.minted == s.minted
    ensures t.log[..|s.log|] == s.log && t.log[|s.log|].body == StateBody(state, to, "")
    ensures "state:" <= t.log[|s.log|].key
  {
    hide Safe, Keyed, Fold, StateKey;
    var read := Next(s, Reread, b, false);
    NextSafe(s, Reread, b, false);
    NextKeyed(s, Reread, b, false);
    AfterStepAllowed(Fold(s.log), state, true, false, b);
    t := Moved(read, to, env, b);
    TwoSteps(s, Reread, Cas(env), b);
  }

  lemma {:induction false} TwoSteps(s: System, l: Label, m: Label, b: Budgets)
    ensures Exec(s, [l, m], b, false) == Next(Next(s, l, b, false), m, b, false)
  {
    hide Next;
    ExecStep(s, [l, m], 0, b);
    ExecStep(s, [l, m], 1, b);
    assert [l, m][..2] == [l, m];
  }

  lemma {:induction false} Moved(s: System, to: State, env: Env, b: Budgets) returns (t: System)
    requires Safe(s, b, false) && Keyed(s, false) && s.pc == Deciding(Fold(s.log), to)
    requires Fold(s.log).state.Some? && ControllerMay(Fold(s.log).state.value, to) && !Ended(Fold(s.log))
    requires Timely(s.log, env) && env.auditOk && |StateKey(|s.log|, to)| <= 200
    ensures t == Next(s, Cas(env), b, false) && At(t, to, |s.log| + 1, env, b) && t.minted == s.minted
    ensures t.log[..|s.log|] == s.log && t.log[|s.log|].body == StateBody(Fold(s.log).state.value, to, "")
    ensures "state:" <= t.log[|s.log|].key
  {
    hide Safe, Keyed, Fold, Next, StateKey;
    t := Next(s, Cas(env), b, false);
    MoveAccepted(s, to, env, b);
    NextSafe(s, Cas(env), b, false);
    NextKeyed(s, Cas(env), b, false);
    FoldLast(t.log);
  }

  lemma {:induction false} FoldLast(log: seq<Entry>)
    requires log != []
    ensures Fold(log) == Apply(Fold(log[..|log|-1]), log[|log|-1])
  {
  }

  // ---------------------------------------------------------------- what the workers write

  /** The fields of the record that transitions and step records leave alone. */
  predicate SameWork(a: Record, b: Record) {
    && a.opening == b.opening && a.signals == b.signals && a.hypotheses == b.hypotheses
    && a.recommendations == b.recommendations && a.noActions == b.noActions && a.recoveries == b.recoveries
  }

  lemma {:induction false} BookkeepingKeepsWork(log: seq<Entry>)
    requires log != [] && (log[|log|-1].body.StateBody? || log[|log|-1].body.StepBody?)
    ensures SameWork(Fold(log), Fold(log[..|log|-1]))
    ensures log[|log|-1].body.StepBody? ==> Fold(log).state == Fold(log[..|log|-1]).state
  {
  }

  /** One signal has been collected, and nothing else. */
  predicate Collected(rec: Record, bundle: string) {
    && rec.opening.Some? && rec.opening.value.bundleId == bundle
    && rec.signals != [] && rec.signals[0].id == Numbered('s', 1)
    && rec.hypotheses == [] && rec.recommendations == [] && rec.noActions == [] && rec.recoveries == []
  }

  function SignalRequest(key: string): Request {
    Request(Controller, None, key, AddSignal(Snapshot("c", "")))
  }

  function HypothesisRequest(session: string, bundle: string, key: string): Request {
    Request(EpisodeBroker, Some(Capability(Diagnostician, session, bundle)), key, AddHypothesis("c", "t", "e", 1))
  }

  function NoActionRequest(session: string, bundle: string, key: string): Request {
    Request(EpisodeBroker, Some(Capability(ChangePlanner, session, bundle)), key,
            RecommendNothing("w", [Numbered('s', 1)]))
  }

  /** One signal collected, nothing recommended. */
  predicate Plannable(rec: Record, bundle: string) {
    && rec.opening.Some? && rec.opening.value.bundleId == bundle
    && rec.signals != [] && rec.signals[0].id == Numbered('s', 1)
    && rec.recommendations == [] && rec.noActions == []
  }

  function FirstHypothesis(session: string): Hypothesis {
    Hypothesis(Numbered('h', 1), session, 1, "c", "t", "e", Unrated, [], [])
  }

  lemma {:induction false} Letters(s: string)
    requires |s| > 0 && 'a' <= s[0] <= 'z'
    ensures !Blank(s)
  {
    assert !Whitespace(s[0]);
  }

  lemma {:induction false} HypothesisAccepted(log: seq<Entry>, session: string, bundle: string, key: string, env: Env)
    requires log != [] && Collected(Fold(log), bundle) && Fold(log).state == Some(Diagnosing) && Unused(log, key)
    ensures var d := Decide(log, HypothesisRequest(session, bundle, key));
      && d.Write? && d.key == key && d.body == HypothesisBody(Numbered('h', 1), session, 1, "c", "t", "e")
  {
    hide Fold, Prior;
    Letters("c");
    Letters("t");
    Letters("e");
  }

  lemma {:induction false} OneHypothesisValid(rec: Record, session: string)
    requires rec.hypotheses == [FirstHypothesis(session)]
    ensures Artefacts.StepOk(rec, Diagnostician, session, Incident, [], None)
  {
    var hs := rec.hypotheses;
    assert hs[..0] == [];
    assert Artefacts.OfSession(hs, session) == hs;
    assert Artefacts.Ranks(hs) == [1] && Artefacts.UpTo(1) == [1];
    Letters("c");
    Letters("t");
    Letters("e");
  }

  lemma {:induction false} HypothesisWorks(log: seq<Entry>, session: string, bundle: string, key: string, env: Env)
    requires log != [] && Collected(Fold(log), bundle) && Fold(log).state == Some(Diagnosing) && Unused(log, key)
    ensures Works(log, Diagnosing, session, HypothesisRequest(session, bundle, key), env)
    ensures var e := NewEntry(log, Decide(log, HypothesisRequest(session, bundle, key)), env);
      var rec := Fold(log + [e]);
      && e.key == key && rec.hypotheses == [FirstHypothesis(session)]
      && rec == Fold(log).(revision := rec.revision, hypotheses := rec.hypotheses)
  {
    hide Decide, Prior, Artefacts.StepOk, BadKey;
    var rq := HypothesisRequest(session, bundle, key);
    HypothesisAccepted(log, session, bundle, key, env);
    FoldPush(log, NewEntry(log, Decide(log, rq), env));
    OneHypothesisValid(Fold(log + [NewEntry(log, Decide(log, rq), env)]), session);
  }

  lemma {:induction false} NoActionAccepted(log: seq<Entry>, session: string, bundle: string, key: string, env: Env)
    requires log != [] && Fold(log).state == Some(Recommending) && Unused(log, key)
    requires Plannable(Fold(log), bundle)
    ensures var d := Decide(log, NoActionRequest(session, bundle, key));
      && d.Write? && d.key == key && d.session == Some(session)
      && d.body == NoActionBody(Numbered('n', 1), "w", [Numbered('s', 1)])
  {
    hide Fold, Prior, Numbered;
    Letters("w");
    assert Numbered('s', 1) in SignalIds(Fold(log));
  }

  lemma {:induction false} OneNoActionValid(rec: Record, session: string, x: Artefact)
    requires rec.recommendations == [] && rec.noActions == [x] && x.session == Some(session) && x.refs != []
    ensures Artefacts.StepOk(rec, ChangePlanner, session, Incident, [], None) && UnderJudgement(rec).Some?
  {
    assert rec.noActions[..0] == [] && rec.recommendations + rec.noActions == [x] && [x][..0] == [];
    assert Artefacts.ArtefactsOf(rec.noActions, session) == [x];
    assert Artefacts.ArtefactsOf(rec.recommendations, session) + [x] == [x];
  }

  lemma {:induction false} NoActionWorks(log: seq<Entry>, session: string, bundle: string, key: string, env: Env)
    requires log != [] && Fold(log).state == Some(Recommending) && Unused(log, key)
    requires Plannable(Fold(log), bundle)
    ensures Works(log, Recommending, session, NoActionRequest(session, bundle, key), env)
    ensures var e := NewEntry(log, Decide(log, NoActionRequest(session, bundle, key)), env);
      var rec := Fold(log + [e]);
      && e.key == key && UnderJudgement(rec).Some?
      && rec.opening == Fold(log).opening && rec.state == Some(Recommending)
  {
    hide Decide, Prior, Artefacts.StepOk, BadKey, UnderJudgement, Numbered;
    var rq := NoActionRequest(session, bundle, key);
    NoActionAccepted(log, session, bundle, key, env);
    var e := NewEntry(log, Decide(log, rq), env);
    FoldPush(log, e);
    var rec := Fold(log + [e]);
    OneNoActionValid(rec, session, rec.noActions[0]);
  }

  lemma {:induction false} DiagnosisConcludes(rec: Record, session: string, b: Budgets)
    requires rec.hypotheses == [FirstHypothesis(session)] && rec.recoveries == []
    requires LastOk(rec.steps, Diagnostician).Some? && LastOk(rec.steps, Diagnostician).value.session == Some(session)
    ensures AfterStep(rec, Diagnosing, true, false, b) == Some(Recommending)
  {
    hide LastOk;
    assert TopHypothesis(rec) == Some(FirstHypothesis(session));
    assert TopSession(rec) == Some(rec.hypotheses[0].stepSession);
  }

  // ---------------------------------------------------------------- keys

  /** The keys the others will use are free, and none of the reserved kind. */
  ghost predicate Spare(log: seq<Entry>, keys: seq<string>) {
    && (forall i | 0 <= i < |keys| :: Unused(log, keys[i]))
    && forall i, j | 0 <= i < j < |keys| :: keys[i] != keys[j]
  }

  lemma {:induction false} SpareStays(log: seq<Entry>, later: seq<Entry>, keys: seq<string>)
    requires Spare(log, keys) && |later| == |log| + 1 && later[..|log|] == log
    requires Reserved(later[|log|].key) || later[|log|].key !in keys
    ensures Spare(later, keys)
  {
    hide BadKey, Reserved;
    forall i | 0 <= i < |keys| ensures Unused(later, keys[i]) {
      assert Unused(log, keys[i]) && keys[i] in keys;
    }
  }

  lemma {:induction false} SpareRest(log: seq<Entry>, keys: seq<string>)
    requires Spare(log, keys) && keys != []
    ensures Spare(log, keys[1..]) && keys[0] !in keys[1..] && Unused(log, keys[0])
  {
    hide Unused;
    assert forall i | 0 <= i < |keys[1..]| :: keys[1..][i] == keys[i + 1];
  }

  lemma {:induction false} SmallKey(n: nat, to: State)
    requires n < 100
    ensures |StateKey(n, to)| <= 200
  {
    assert |Digits(n)| <= 2;
    assert |StateName(to)| <= 20;
  }

  // ---------------------------------------------------------------- from the opening to a judge at work

  lemma {:induction false} OpenedBare(init: System)
    requires Initial(init)
    ensures var rec := Fold(init.log);
      && rec.state == Some(Open) && rec.opening.Some? && rec.signals == [] && rec.hypotheses == []
      && rec.recommendations == [] && rec.noActions == [] && rec.recoveries == []
  {
    assert init.log[..0] == [];
  }

  lemma {:induction false} SignalAccepted(log: seq<Entry>, key: string)
    requires log != [] && Fold(log).state == Some(Open) && Fold(log).signals == [] && Unused(log, key)
    ensures var d := Decide(log, SignalRequest(key));
      d.Write? && d.key == key && d.body == SignalBody(Numbered('s', 1), Snapshot("c", ""), Controller)
    ensures OutsiderMay(SignalRequest(key))
  {
    hide Fold, Prior, Numbered;
    Letters("c");
  }

  lemma {:induction false} SignalCollected(s: System, key: string, env: Env, b: Budgets) returns (t: System)
    requires Initial(s) && Timely(s.log, env) && env.auditOk && Unused(s.log, key)
    ensures t == Next(s, Outside(SignalRequest(key), env), b, false) && Safe(t, b, false) && Keyed(t, false)
    ensures t == s.(log := t.log) && |t.log| == 2 && t.log[..1] == s.log && t.log[1].key == key && t.log[1].ts == env.ts
    ensures Collected(Fold(t.log), Fold(s.log).opening.value.bundleId) && Fold(t.log).state == Some(Open)
  {
    hide Decide, Safe, Keyed, Unused, Numbered;
    OpenedBare(s);
    InitialSafe(s, b, false);
    ReachableKeyed(s, [], b, false);
    SignalAccepted(s.log, key);
    var rq := SignalRequest(key);
    WriteAppends(s.log, rq, env);
    t := Next(s, Outside(rq, env), b, false);
    NextSafe(s, Outside(rq, env), b, false);
    NextKeyed(s, Outside(rq, env), b, false);
    FoldPush(s.log, NewEntry(s.log, Decide(s.log, rq), env));
  }

  lemma {:induction false} BegunMove(s: System, env: Env, b: Budgets)
    requires Safe(s, b, false) && Keyed(s, false) && s.pc == Idle && Fold(s.log).state == Some(Open)
    requires s.minted == map[]
    ensures var t := Next(s, Begin("d", Fine, true), b, false);
      t == s.(pc := Deciding(Fold(s.log), Diagnosing)) && Safe(t, b, false) && Keyed(t, false)
  {
    NextSafe(s, Begin("d", Fine, true), b, false);
    NextKeyed(s, Begin("d", Fine, true), b, false);
    hide Safe, Keyed, Fold;
  }

  lemma {:induction false} ReachesDiagnosing(init: System, keys: seq<string>, env: Env, b: Budgets)
    returns (ls: seq<Label>, t: System)
    requires Initial(init) && Timely(init.log, env) && env.auditOk && Spare(init.log, keys) && |keys| >= 1
    ensures t == Exec(init, ls, b, false) && At(t, Diagnosing, 3, env, b) && t.minted == map[]
    ensures Fold(init.log).opening.Some? && Collected(Fold(t.log), Fold(init.log).opening.value.bundleId)
    ensures Spare(t.log, keys[1..])
  {
    hide Safe, Keyed, Fold, Unused, Next, StateKey, Spare, Collected;
    OpenedBare(init);
    SpareRest(init.log, keys);
    var signalled := SignalCollected(init, keys[0], env, b);
    BegunMove(signalled, env, b);
    var deciding := Next(signalled, Begin("d", Fine, true), b, false);
    SmallKey(2, Diagnosing);
    t := Moved(deciding, Diagnosing, env, b);
    ls := [Outside(SignalRequest(keys[0]), env)] + [Begin("d", Fine, true), Cas(env)];
    ExecConcat(init, [Outside(SignalRequest(keys[0]), env)], [Begin("d", Fine, true), Cas(env)], b);
    ExecStep(init, [Outside(SignalRequest(keys[0]), env)], 0, b);
    assert [Outside(SignalRequest(keys[0]), env)][..1] == [Outside(SignalRequest(keys[0]), env)];
    TwoSteps(signalled, Begin("d", Fine, true), Cas(env), b);
    BookkeepingKeepsWork(t.log);
    SameCollected(Fold(t.log), Fold(signalled.log), Fold(init.log).opening.value.bundleId);
    SpareStays(init.log, signalled.log, keys[1..]);
    SpareStays(signalled.log, t.log, keys[1..]);
  }

  lemma {:induction false} SameCollected(a: Record, b: Record, bundle: string)
    requires SameWork(a, b) && Collected(b, bundle)
    ensures Collected(a, bundle)
  {
  }

  /** The record after a completed diagnosis. */
  lemma {:induction false} DiagnosedRecord(log: seq<Entry>, later: seq<Entry>, session: string, bundle: string,
      b: Budgets)
    requires |later| == |log| + 2 && later[..|log|] == log && Collected(Fold(log), bundle)
    requires var rec := Fold(later[..|log| + 1]);
      && rec.hypotheses == [FirstHypothesis(session)]
      && rec == Fold(log).(revision := rec.revision, hypotheses := rec.hypotheses)
    requires later[|log| + 1].body == StepBody(Diagnostician, Some(session), true, "", Diagnosing)
    ensures AfterStep(Fold(later), Diagnosing, true, false, b) == Some(Recommending)
    ensures Fold(later).state == Fold(log).state && Plannable(Fold(later), bundle)
  {
    hide AfterStep, LastOk, Numbered;
    BookkeepingKeepsWork(later);
    LastOkStep(Fold(later[..|log| + 1]), later[|log| + 1], Diagnostician);
    FoldLast(later);
    DiagnosisConcludes(Fold(later), session, b);
  }

  lemma {:induction false} ReachesRecommending(s: System, keys: seq<string>, bundle: string, env: Env, b: Budgets)
    returns (ls: seq<Label>, t: System)
    requires At(s, Diagnosing, 3, env, b) && s.minted == map[] && Collected(Fold(s.log), bundle)
    requires Spare(s.log, keys) && |keys| >= 1
    ensures t == Exec(s, ls, b, false) && At(t, Recommending, 6, env, b) && t.minted == map["d" := Diagnostician]
    ensures Plannable(Fold(t.log), bundle) && Spare(t.log, keys[1..])
  {
    hide Safe, Keyed, Fold, Unused, Next, StateKey, Spare, Works, Collected, Plannable, AfterStep, FirstHypothesis;
    hide Decide;
    SpareRest(s.log, keys);
    var rq := HypothesisRequest("d", bundle, keys[0]);
    HypothesisWorks(s.log, "d", bundle, keys[0], env);
    var stepped := Stepped(s, Diagnosing, "d", rq, 3, env, b);
    assert stepped.log[..4] == s.log + [stepped.log[3]];
    DiagnosedRecord(s.log, stepped.log, "d", bundle, b);
    SmallKey(5, Recommending);
    t := Concludes(stepped, Diagnosing, "d", Recommending, env, b);
    ls := StepLabels("d", rq, env) + [Reread, Cas(env)];
    ExecConcat(s, StepLabels("d", rq, env), [Reread, Cas(env)], b);
    SpareThrough(s.log, stepped.log, t.log, keys, "d");
    BookkeepingKeepsWork(t.log);
    SamePlannable(Fold(t.log), Fold(stepped.log), bundle);
  }

  lemma {:induction false} SamePlannable(a: Record, b: Record, bundle: string)
    requires SameWork(a, b) && Plannable(b, bundle)
    ensures Plannable(a, bundle)
  {
  }

  /** A worker's write under the first key, a step record and a transition leave the other keys free. */
  lemma {:induction false} SpareThrough(log: seq<Entry>, stepped: seq<Entry>, moved: seq<Entry>, keys: seq<string>,
      session: string)
    requires Spare(log, keys) && keys != [] && |stepped| == |log| + 2 && |moved| == |log| + 3
    requires stepped[..|log|] == log && moved[..|stepped|] == stepped
    requires stepped[|log|].key == keys[0] && stepped[|log| + 1].key == "step:" + session
    requires "state:" <= moved[|stepped|].key
    ensures Spare(moved, keys[1..])
  {
    hide Spare;
    SpareRest(log, keys);
    StepKeyForm(session);
    var worked := stepped[..|log| + 1];
    assert worked[..|log|] == log && stepped[..|worked|] == worked;
    SpareStays(log, worked, keys[1..]);
    SpareStays(worked, stepped, keys[1..]);
    SpareStays(stepped, moved, keys[1..]);
  }

  /** And after a completed recommendation, which only waits for the Judge. */
  lemma {:induction false} RecommendedRecord(log: seq<Entry>, later: seq<Entry>, b: Budgets)
    requires |later| == |log| + 2 && later[..|log|] == log && Fold(log).opening.Some?
    requires var rec := Fold(later[..|log| + 1]);
      UnderJudgement(rec).Some? && rec.opening == Fold(log).opening && rec.state == Some(Recommending)
    requires later[|log| + 1].body.StepBody?
    ensures Fold(later).state == Some(Recommending) && UnderJudgement(Fold(later)).Some? && Fold(later).opening.Some?
    ensures AfterStep(Fold(later), Recommending, true, false, b) == Some(Judging)
  {
    hide MaxByRev;
    BookkeepingKeepsWork(later);
  }

  lemma {:induction false} SameUnder(a: Record, b: Record)
    requires SameWork(a, b)
    ensures UnderJudgement(a) == UnderJudgement(b) && a.opening == b.opening
  {
  }

  lemma {:induction false} ReachesJudging(s: System, keys: seq<string>, bundle: string, env: Env, b: Budgets)
    returns (ls: seq<Label>, t: System)
    requires At(s, Recommending, 6, env, b) && "p" !in s.minted && Plannable(Fold(s.log), bundle)
    requires Spare(s.log, keys) && |keys| >= 1
    ensures t == Exec(s, ls, b, false) && At(t, Judging, 9, env, b) && t.minted == s.minted["p" := ChangePlanner]
    ensures Judgeable(Fold(t.log)) && Spare(t.log, keys[1..])
  {
    hide Safe, Keyed, Fold, Unused, Next, StateKey, Spare, Works, AfterStep, UnderJudgement, Decide, Numbered;
    SpareRest(s.log, keys);
    var rq := NoActionRequest("p", bundle, keys[0]);
    NoActionWorks(s.log, "p", bundle, keys[0], env);
    var stepped := Stepped(s, Recommending, "p", rq, 6, env, b);
    assert stepped.log[..7] == s.log + [stepped.log[6]];
    RecommendedRecord(s.log, stepped.log, b);
    SmallKey(8, Judging);
    t := Concludes(stepped, Recommending, "p", Judging, env, b);
    ls := StepLabels("p", rq, env) + [Reread, Cas(env)];
    ExecConcat(s, StepLabels("p", rq, env), [Reread, Cas(env)], b);
    SpareThrough(s.log, stepped.log, t.log, keys, "p");
    BookkeepingKeepsWork(t.log);
    SameUnder(Fold(t.log), Fold(stepped.log));
  }

  lemma {:induction false} JudgeLaunched(s: System, env: Env, b: Budgets) returns (t: System)
    requires At(s, Judging, 9, env, b) && Judgeable(Fold(s.log)) && "j" !in s.minted
    ensures t == Exec(s, [Begin("j", Fine, true)], b, false)
    ensures Waiting(t, "j", b) && t.pc == Working(Judging, "j") && t.log == s.log
    ensures t.minted == s.minted["j" := ProposalJudge]
  {
    hide Next, Safe, Keyed, Fold, WroteVerdict, Judgeable;
    Launches(s, Judging, "j", 9, env, b);
    StrangerWroteNothing(s, "j", b);
    t := Next(s, Begin("j", Fine, true), b, false);
    ExecStep(s, [Begin("j", Fine, true)], 0, b);
    assert [Begin("j", Fine, true)][..1] == [Begin("j", Fine, true)];
  }

  /** Every episode just opened can come to a judge at work that has not written. */
  lemma {:induction false} JudgeAtWorkReached(init: System, keys: seq<string>, env: Env, b: Budgets)
    returns (ls: seq<Label>)
    requires Initial(init) && Timely(init.log, env) && env.auditOk && Spare(init.log, keys) && |keys| >= 3
    ensures var s := Exec(init, ls, b, false);
      && Waiting(s, "j", b) && s.pc == Working(Judging, "j") && |s.log| == 9 && Timely(s.log, env)
      && s.minted.Keys == {"d", "p", "j"} && Spare(s.log, keys[3..])
  {
    hide Next, Safe, Keyed, Fold, Spare, Waiting, Collected, Plannable, Judgeable;
    var bundle := Fold(init.log).opening;
    var ds, diagnosing := ReachesDiagnosing(init, keys, env, b);
    var rs, recommending := ReachesRecommending(diagnosing, keys[1..], bundle.value.bundleId, env, b);
    var js, judging := ReachesJudging(recommending, keys[1..][1..], bundle.value.bundleId, env, b);
    var t := JudgeLaunched(judging, env, b);
    assert keys[1..][1..][1..] == keys[3..];
    ExecConcat(init, ds, rs, b);
    ExecConcat(init, ds + rs, js, b);
    ExecConcat(init, ds + rs + js, [Begin("j", Fine, true)], b);
    ls := ds + rs + js + [Begin("j", Fine, true)];
  }

  /** From every episode just opened, a run to `reporting` on the verdict of a judge whose step was abandoned, not of
      the judge step that completed. */
  lemma {:induction false} AbandonedJudgeReached(init: System, keys: seq<string>, env: Env, b: Budgets)
    returns (ls: seq<Label>)
    requires Initial(init) && Timely(init.log, env) && env.auditOk && Spare(init.log, keys) && |keys| == 5
    ensures var log := Exec(init, ls, b, false).log;
      && |log| == 13 && log[12].body == StateBody(Judging, Reporting, "")
      && Passed(log[..12], false) && !Passed(log[..12], true)
      && VisitVerdict(log[..12]).Some? && VisitVerdict(log[..12]).value.session == Some("j")
      && LastOk(Fold(log[..12]).steps, ProposalJudge).Some?
      && LastOk(Fold(log[..12]).steps, ProposalJudge).value.session == Some("k")
  {
    hide Next, Safe, Keyed, Fold, Waiting, Passed, LastOk, StateKey, Unused, Exec;
    var before := JudgeAtWorkReached(init, keys, env, b);
    var s := Exec(init, before, b, false);
    assert keys[3..][0] == keys[3] && keys[3..][1] == keys[4];
    SmallKey(12, Reporting);
    var after := AbandonedJudgeDecides(s, "j", "k", keys[3], keys[4], env, b);
    ls := before + after;
    ExecConcat(init, before, after, b);
  }
}
