/** The runner's own store calls fail only when the audit sequencer does, when another party wrote first, or
    when the episode has already ended: its keys are fresh and its transitions are in the table. */
module RunnerFaults {
  import opened Wrappers
  import opened Text
  import opened Transitions
  import opened EpisodeRecord
  import opened StoreSpec
  import opened Visits
  import opened RunnerSpec
  import opened RunnerSafety
  import LogFacts

  /** A step is under way whose record has not been written. */
  predicate Unrecorded(pc: Pc) {
    pc.Working? || pc.Checking? || pc.Recording?
  }

  /** Keys under `state:` name the revision they moved, keys under `step:` a minted session. */
  ghost predicate KeyOk(log: seq<Entry>, minted: map<string, Role>, pc: Pc, i: nat)
    requires i < |log|
  {
    var key := log[i].key;
    && ("state:" <= key ==> log[i].body.StateBody? && key == StateKey(i, log[i].body.to))
    && ("step:" <= key ==> key[5..] in minted && (Unrecorded(pc) ==> key[5..] != pc.session))
  }

  /** The transition the table allows from the snapshot, unless that is terminal. */
  predicate Plausible(pc: Pc) {
    pc.Deciding? ==>
      var state := pc.rec.state;
      state.Some? && (Terminal(state.value) || ControllerMay(state.value, pc.to))
  }

  /** An abandoned step record is of an earlier step. */
  predicate OrphanKeyOk(o: Orphan, minted: map<string, Role>, pc: Pc) {
    o.LateStep? ==> o.session in minted && (Unrecorded(pc) ==> o.session != pc.session)
  }

  ghost predicate Keyed(s: System, strict: bool) {
    && (forall i | 0 <= i < |s.log| :: KeyOk(s.log, s.minted, s.pc, i))
    && (forall i | 0 <= i < |s.orphans| :: OrphanKeyOk(s.orphans[i], s.minted, s.pc))
    && (Unrecorded(s.pc) ==> s.pc.session in s.minted && |s.pc.session| <= 100)
    && (strict ==> Plausible(s.pc))
  }

  lemma {:induction false} StateKeyPrefix(m: int, x: State)
    ensures "state:" <= StateKey(m, x) && !("step:" <= StateKey(m, x))
  {
    var k := StateKey(m, x);
    assert k[..6] == "state:";
    assert k[2] == 'a';
  }

  lemma {:induction false} NumbersAgree(m: nat, x: string, n: nat, y: string)
    requires "state:" + Digits(m) + ":" + x == "state:" + Digits(n) + ":" + y
    ensures m == n
  {
    var k, a, b := "state:" + Digits(m) + ":" + x, Digits(m) + ":" + x, Digits(n) + ":" + y;
    assert k[6..] == a;
    assert k[6..] == b;
    NumberThenColon(m, x, n, y);
  }

  lemma {:induction false} StateKeyNamesRevision(m: nat, x: State, n: nat, y: State)
    requires StateKey(m, x) == StateKey(n, y)
    ensures m == n
  {
    NumbersAgree(m, StateName(x), n, StateName(y));
  }

  /** An accepted request's entry carries its key. */
  lemma {:induction false} EntryKey(log: seq<Entry>, rq: Request, env: Env)
    requires Decide(log, rq).Write?
    ensures NewEntry(log, Decide(log, rq), env).key == EffectiveKey(rq)
  {
    GatePassed(log, rq);
    ComposeKey(Fold(log), rq, EffectiveKey(rq));
  }

  lemma {:induction false} TransitionEntry(log: seq<Entry>, rq: Request, env: Env)
    requires Legal(log) && Decide(log, rq).Write? && rq.call.SetState?
    ensures var e := NewEntry(log, Decide(log, rq), env);
      e.body.StateBody? && e.body.to == rq.call.to && rq.call.expected == |log|
  {
    LegalRevisions(log);
    LogFacts.TransitionNamesRevision(log, rq);
  }

  /** Appending an entry under an unreserved key, or under the default key of its transition. */
  lemma {:induction false} AppendKeyed(s: System, e: Entry, strict: bool)
    requires Keyed(s, strict)
    requires "state:" <= e.key ==> e.body.StateBody? && e.key == StateKey(|s.log|, e.body.to)
    requires "step:" <= e.key ==> e.key[5..] in s.minted && (Unrecorded(s.pc) ==> e.key[5..] != s.pc.session)
    ensures Keyed(s.(log := s.log + [e]), strict)
  {
    var t := s.(log := s.log + [e]);
    forall i | 0 <= i < |t.log| ensures KeyOk(t.log, t.minted, t.pc, i) {
      if i < |s.log| {
        assert KeyOk(s.log, s.minted, s.pc, i);
      }
    }
  }

  lemma {:induction false} RequestKeyed(s: System, rq: Request, env: Env, strict: bool)
    requires Legal(s.log) && Keyed(s, strict)
    requires "state:" <= EffectiveKey(rq) ==>
        rq.call.SetState? && EffectiveKey(rq) == StateKey(rq.call.expected, rq.call.to)
    requires "step:" <= EffectiveKey(rq) ==>
      EffectiveKey(rq)[5..] in s.minted && (Unrecorded(s.pc) ==> EffectiveKey(rq)[5..] != s.pc.session)
    ensures Keyed(s.(log := Perform(s.log, rq, env).0), strict)
  {
    hide Decide, Perform, EffectiveKey, StateKey, Legal, Keyed;
    if Decide(s.log, rq).Write? && env.auditOk {
      EntryKey(s.log, rq, env);
      if rq.call.SetState? {
        TransitionEntry(s.log, rq, env);
      }
      WriteAppends(s.log, rq, env);
      AppendKeyed(s, NewEntry(s.log, Decide(s.log, rq), env), strict);
    } else {
      Unchanged(s.log, rq, env);
    }
  }

  lemma {:induction false} StepKeyForm(session: string)
    ensures var key := "step:" + session; "step:" <= key && !("state:" <= key) && key[5..] == session
  {
    assert ("step:" + session)[2] == 'e';
  }

  lemma {:induction false} StepKeyed(s: System, state: State, session: string, ok: bool, reason: string, env: Env,
      strict: bool)
    requires Legal(s.log) && Keyed(s, strict) && session in s.minted && (Unrecorded(s.pc) ==> session != s.pc.session)
    ensures Keyed(s.(log := Perform(s.log, StepRequest(state, session, ok, reason), env).0), strict)
  {
    hide Decide, Perform, Keyed, Legal;
    StepKeyForm(session);
    RequestKeyed(s, StepRequest(state, session, ok, reason), env, strict);
  }

  lemma {:induction false} CostKeyed(s: System, state: State, session: string, usd: int, turns: int, env: Env,
      strict: bool)
    requires Legal(s.log) && Keyed(s, strict)
    ensures Keyed(s.(log := Perform(s.log, CostRequest(state, session, usd, turns), env).0), strict)
  {
    hide Decide, Perform, Keyed, Legal;
    assert ("cost:" + session)[0] == 'c';
    RequestKeyed(s, CostRequest(state, session, usd, turns), env, strict);
  }

  lemma {:induction false} TransitionKeyed(s: System, rec: Record, to: State, env: Env, strict: bool)
    requires Legal(s.log) && Keyed(s, strict)
    ensures Keyed(s.(log := Perform(s.log, CasRequest(rec, to), env).0), strict)
  {
    hide Decide, Perform, Keyed, Legal, StateKey;
    StateKeyPrefix(rec.revision, to);
    RequestKeyed(s, CasRequest(rec, to), env, strict);
  }

  lemma {:induction false} RecordStepKeyed(s: System, reason: string, env: Env, strict: bool)
    requires Legal(s.log) && Keyed(s, strict) && s.pc.Recording?
    ensures Keyed(s.(log := Perform(s.log, StepRequest(s.pc.state, s.pc.session, s.pc.ok, reason), env).0,
                     pc := Recorded(s.pc.state, s.pc.session, s.pc.ok, s.pc.limitHit)), strict)
  {
    hide Decide, Perform, KeyOk, OrphanKeyOk, StepRequest, Legal;
    var done := Recorded(s.pc.state, s.pc.session, s.pc.ok, s.pc.limitHit);
    MoveKeyed(s, done, [], strict);
    assert s.orphans + [] == s.orphans;
    StepKeyed(s.(pc := done), s.pc.state, s.pc.session, s.pc.ok, reason, env, strict);
  }

  lemma {:induction false} FewerKeyed(s: System, i: nat, strict: bool)
    requires Keyed(s, strict) && i < |s.orphans|
    ensures Keyed(s.(orphans := Without(s.orphans, i)), strict)
  {
    hide KeyOk, OrphanKeyOk, Plausible;
    var rest := Without(s.orphans, i);
    forall j | 0 <= j < |rest| ensures OrphanKeyOk(rest[j], s.minted, s.pc) {
      assert rest[j] == s.orphans[if j < i then j else j + 1];
    }
  }

  lemma {:induction false} LandKeyed(s: System, i: nat, usd: int, turns: int, reason: string, env: Env, strict: bool)
    requires Legal(s.log) && Keyed(s, strict) && i < |s.orphans|
    ensures Keyed(s.(log := Perform(s.log, LateRequest(s.orphans[i], usd, turns, reason), env).0,
                     orphans := Without(s.orphans, i)), strict)
  {
    hide Decide, Perform, KeyOk, Legal, CasRequest, StepRequest, CostRequest, Plausible;
    assert OrphanKeyOk(s.orphans[i], s.minted, s.pc);
    match s.orphans[i] {
      case LateCas(rec, to) => TransitionKeyed(s, rec, to, env, strict);
      case LateStep(state, session, ok) => StepKeyed(s, state, session, ok, reason, env, strict);
      case LateCost(state, session) => CostKeyed(s, state, session, usd, turns, env, strict);
    }
    FewerKeyed(s.(log := Perform(s.log, LateRequest(s.orphans[i], usd, turns, reason), env).0), i, strict);
  }

  lemma {:induction false} LaunchKeyed(s: System, state: State, session: string, strict: bool)
    requires Keyed(s, strict) && session !in s.minted && |session| <= 100
    ensures Keyed(Launched(s, state, session), strict)
  {
    var t := Launched(s, state, session);
    forall i | 0 <= i < |t.log| ensures KeyOk(t.log, t.minted, t.pc, i) {
      assert KeyOk(s.log, s.minted, s.pc, i);
    }
    forall i | 0 <= i < |t.orphans| ensures OrphanKeyOk(t.orphans[i], t.minted, t.pc) {
      assert OrphanKeyOk(s.orphans[i], s.minted, s.pc);
    }
  }

  /** A place between steps, perhaps leaving a call of this step behind. */
  lemma {:induction false} MoveKeyed(s: System, pc: Pc, left: seq<Orphan>, strict: bool)
    requires Keyed(s, strict)
    requires !Unrecorded(pc) && (strict ==> Plausible(pc)) && (left == [] || left == Left(s.pc))
    ensures Keyed(s.(pc := pc, orphans := s.orphans + left), strict)
  {
    var t := s.(pc := pc, orphans := s.orphans + left);
    forall i | 0 <= i < |t.log| ensures KeyOk(t.log, t.minted, t.pc, i) {
      assert KeyOk(s.log, s.minted, s.pc, i);
    }
    forall i | 0 <= i < |t.orphans| ensures OrphanKeyOk(t.orphans[i], t.minted, t.pc) {
      if i < |s.orphans| {
        assert OrphanKeyOk(s.orphans[i], s.minted, s.pc);
      }
    }
  }

  lemma {:induction false} StayKeyed(s: System, pc: Pc, strict: bool)
    requires Keyed(s, strict) && Unrecorded(s.pc) && Unrecorded(pc) && pc.session == s.pc.session
    ensures Keyed(s.(pc := pc), strict)
  {
    var t := s.(pc := pc);
    forall i | 0 <= i < |t.log| ensures KeyOk(t.log, t.minted, t.pc, i) {
      assert KeyOk(s.log, s.minted, s.pc, i);
    }
    forall i | 0 <= i < |t.orphans| ensures OrphanKeyOk(t.orphans[i], t.minted, t.pc) {
      assert OrphanKeyOk(s.orphans[i], s.minted, s.pc);
    }
  }

  /** The controller's choices after a step are transitions the table allows. */
  lemma {:induction false} AfterStepAllowed(rec: Record, state: State, ok: bool, limitHit: bool, b: Budgets)
    requires rec.state == Some(state) && Steppable(state)
    ensures var to := AfterStep(rec, state, ok, limitHit, b); to.Some? ==> ControllerMay(state, to.value)
  {
  }

  lemma {:induction false} HandOffAllowed(rec: Record)
    requires rec.state.Some?
    ensures Terminal(rec.state.value) || ControllerMay(rec.state.value, HandedOff)
  {
  }

  lemma {:induction false} BeginKeyed(s: System, session: string, bundle: BundleStatus, llm: bool, b: Budgets,
      strict: bool)
    requires Keyed(s, strict) && session !in s.minted && |session| <= 100
    ensures Keyed(Chosen(s, session, bundle, llm, b), strict)
  {
    hide KeyOk, OrphanKeyOk, ClosureDue;
    var rec := Fold(s.log);
    assert s.orphans + [] == s.orphans;
    if rec.state.Some? {
      HandOffAllowed(rec);
      MoveKeyed(s, Deciding(rec, HandedOff), [], strict);
      LaunchKeyed(s, rec.state.value, session, strict);
      if rec.state == Some(Open) {
        MoveKeyed(s, Deciding(rec, Diagnosing), [], strict);
      }
    }
  }

  lemma {:induction false} OthersKeyed(s: System, l: Label, b: Budgets, strict: bool)
    requires Legal(s.log) && Keyed(s, strict) && (l.Work? || l.Outside? || l.RecordCost?)
    ensures Keyed(Next(s, l, b, strict), strict)
  {
    hide Decide, Perform, Keyed, CostRequest, Legal;
    match l
    case Work(rq, env) =>
      if WorkerMay(s, rq, strict) {
        RequestKeyed(s, rq, env, strict);
      }
    case Outside(rq, env) =>
      if OutsiderMay(rq) {
        if rq.call.SetState? {
          StateKeyPrefix(rq.call.expected, rq.call.to);
        }
        RequestKeyed(s, rq, env, strict);
      }
    case RecordCost(usd, turns, env) =>
      if s.pc.Checking? {
        CostKeyed(s, s.pc.state, s.pc.session, usd, turns, env, strict);
      }
  }

  lemma {:induction false} RereadKeyed(s: System, b: Budgets, strict: bool)
    requires Safe(s, b, strict) && Keyed(s, strict) && s.pc.Recorded?
    ensures Keyed(Next(s, Reread, b, strict), strict)
  {
    hide Keyed, Gated, Known, OrphansOk, Legal, Diagnosed, PlannerOwns, SnapshotGated, Produced, Completed;
    hide Owns, MovedOn;
    assert s.orphans + [] == s.orphans;
    MoveKeyed(s, Idle, [], strict);
    var to := AfterStep(Fold(s.log), s.pc.state, s.pc.ok, s.pc.limitHit, b);
    if s.pc.state != Resolved && to.Some? {
      if strict {
        AfterStepAllowed(Fold(s.log), s.pc.state, s.pc.ok, s.pc.limitHit, b);
      }
      MoveKeyed(s, Deciding(Fold(s.log), to.value), [], strict);
    }
  }

  /** What a move to hand-off or to rest does, whatever it leaves behind. */
  lemma {:induction false} LeaveKeyed(s: System, pc: Pc, live: Option<string>, faults: nat, left: seq<Orphan>,
      strict: bool)
    requires Keyed(s, strict) && Fold(s.log).state.Some? && (left == [] || left == Left(s.pc))
    requires pc == Idle || pc == Deciding(Fold(s.log), HandedOff)
    ensures Keyed(s.(pc := pc, live := live, faults := faults, orphans := s.orphans + left), strict)
  {
    hide KeyOk, OrphanKeyOk;
    HandOffAllowed(Fold(s.log));
    MoveKeyed(s, pc, left, strict);
  }

  lemma {:induction false} RecordStepNextKeyed(s: System, reason: string, env: Env, b: Budgets, strict: bool)
    requires Legal(s.log) && Keyed(s, strict) && Fold(s.log).state.Some? && s.pc.Recording?
    ensures Keyed(Next(s, RecordStep(reason, env), b, strict), strict)
  {
    hide Decide, Perform, Keyed, Fold, StepRequest, Legal;
    assert s.orphans + [] == s.orphans;
    LeaveKeyed(s, Deciding(Fold(s.log), HandedOff), None, s.faults + 1, [], strict);
    LeaveKeyed(s, Idle, s.live, s.faults + 1, [], strict);
    RecordStepKeyed(s, reason, env, strict);
  }

  lemma {:induction false} CasKeyed(s: System, env: Env, b: Budgets, strict: bool)
    requires Legal(s.log) && Keyed(s, strict) && Fold(s.log).state.Some? && s.pc.Deciding?
    ensures Keyed(Next(s, Cas(env), b, strict), strict)
  {
    hide Decide, Perform, KeyOk, OrphanKeyOk, Legal, Plausible, CasRequest, Fold;
    assert s.orphans + [] == s.orphans;
    MoveKeyed(s, Idle, [], strict);
    TransitionKeyed(s.(pc := Idle), s.pc.rec, s.pc.to, env, strict);
  }

  lemma {:induction false} StateKnown(s: System, b: Budgets, strict: bool)
    requires Safe(s, b, strict)
    ensures Legal(s.log) && s.log != [] && Fold(s.log).state.Some?
  {
    LegalRevisions(s.log);
  }

  lemma {:induction false} NextKeyed(s: System, l: Label, b: Budgets, strict: bool)
    requires Safe(s, b, strict) && Keyed(s, strict)
    ensures Keyed(Next(s, l, b, strict), strict)
  {
    hide Decide, Perform, Keyed, Safe, Fold, Legal, Chosen, AfterStep, StepRequest, CasRequest, LateRequest;
    StateKnown(s, b, strict);
    assert s.orphans + [] == s.orphans;
    match l
    case Begin(session, bundle, llm) =>
      if s.pc == Idle && session !in s.minted && |session| <= 100 {
        BeginKeyed(s, session, bundle, llm, b, strict);
      }
    case IsolationFailure => LeaveKeyed(s, Deciding(Fold(s.log), HandedOff), s.live, s.faults, [], strict);
    case EndStep =>
      if s.pc.Working? {
        StayKeyed(s, Checking(s.pc.state, s.pc.session), strict);
        LiveIrrelevant(s.(pc := Checking(s.pc.state, s.pc.session)), None, strict);
      }
    case Validate(_, _, _, _) =>
      if s.pc.Checking? {
        StayKeyed(s, Next(s, l, b, strict).pc, strict);
      }
    case RecordStep(reason, env) =>
      if s.pc.Recording? {
        RecordStepNextKeyed(s, reason, env, b, strict);
      }
    case Reread =>
      if s.pc.Recorded? {
        RereadKeyed(s, b, strict);
      }
    case Cas(env) =>
      if s.pc.Deciding? {
        CasKeyed(s, env, b, strict);
      }
    case CostLost =>
      if s.pc.Checking? && !strict {
        CostLostKeyed(s, strict);
      }
    case Fault(answered) =>
      LeaveKeyed(s, Deciding(Fold(s.log), HandedOff), None, s.faults + 1, if strict || answered then [] else Left(s.pc),
                 strict);
    case Crash(answered) =>
      LeaveKeyed(s, Idle, None, s.faults + 1, if strict || answered then [] else Left(s.pc), strict);
    case Land(i, usd, turns, reason, env) =>
      if i < |s.orphans| {
        LandKeyed(s, i, usd, turns, reason, env, strict);
      }
    case _ => OthersKeyed(s, l, b, strict);
  }

  lemma {:induction false} CostLostKeyed(s: System, strict: bool)
    requires Keyed(s, strict) && s.pc.Checking?
    ensures Keyed(s.(orphans := s.orphans + Left(s.pc)), strict)
  {
    var os := s.orphans + Left(s.pc);
    forall i | 0 <= i < |os| ensures OrphanKeyOk(os[i], s.minted, s.pc) {
      if i < |s.orphans| {
        assert OrphanKeyOk(s.orphans[i], s.minted, s.pc);
      }
    }
  }

  lemma {:induction false} LiveIrrelevant(s: System, live: Option<string>, strict: bool)
    requires Keyed(s, strict)
    ensures Keyed(s.(live := live), strict)
  {
  }

  lemma {:induction false} ReachableKeyed(s: System, ls: seq<Label>, b: Budgets, strict: bool)
    requires Initial(s)
    ensures Keyed(Exec(s, ls, b, strict), strict)
  {
    if ls == [] {
      assert KeyOk(s.log, s.minted, s.pc, 0);
    } else {
      var before := ls[..|ls|-1];
      ReachableKeyed(s, before, b, strict);
      ReachableSafe(s, before, b, strict);
      NextKeyed(Exec(s, before, b, strict), ls[|ls|-1], b, strict);
    }
  }

  lemma {:induction false} NotBlank(s: string)
    requires s != [] && 'a' <= s[0] <= 'z'
    ensures !Blank(s)
  {
    assert !Whitespace(s[0]);
  }

  lemma {:induction false} NotYetRecorded(s: System, i: nat, strict: bool)
    requires Keyed(s, strict) && s.pc.Recording? && i < |s.log|
    ensures s.log[i].key != "step:" + s.pc.session
  {
    var key := "step:" + s.pc.session;
    assert key[5..] == s.pc.session && "step:" <= key;
    assert KeyOk(s.log, s.minted, s.pc, i);
  }

  lemma {:induction false} NotYetMoved(s: System, to: State, i: nat, strict: bool)
    requires Keyed(s, strict) && i < |s.log|
    ensures s.log[i].key != StateKey(|s.log|, to)
  {
    StateKeyPrefix(|s.log|, to);
    assert KeyOk(s.log, s.minted, s.pc, i);
    if s.log[i].key == StateKey(|s.log|, to) {
      StateKeyNamesRevision(|s.log|, to, i, s.log[i].body.to);
    }
  }

  /** The step record of a step under way is always acceptable. */
  lemma {:induction false} StepAccepted(s: System, reason: string, strict: bool)
    requires Legal(s.log) && s.log != [] && Keyed(s, strict) && s.pc.Recording?
    ensures Decide(s.log, StepRequest(s.pc.state, s.pc.session, s.pc.ok, reason)).Write?
  {
    var key := "step:" + s.pc.session;
    NotBlank(key);
    if Prior(s.log, key).Some? {
      var i := LogFacts.PriorComesFromEntry(s.log, key);
      NotYetRecorded(s, i, strict);
    }
  }

  lemma {:induction false} FreshStateKey(s: System, to: State, strict: bool)
    requires Keyed(s, strict)
    ensures Prior(s.log, StateKey(|s.log|, to)).None?
  {
    var key := StateKey(|s.log|, to);
    if Prior(s.log, key).Some? {
      var i := LogFacts.PriorComesFromEntry(s.log, key);
      NotYetMoved(s, to, i, strict);
    }
  }

  /** A compare-and-swap at the revision it was computed from is accepted unless the episode ended: its
      key is fresh, and when nothing outlives its step its move is always in the table. */
  lemma {:induction false} CasAccepted(s: System, b: Budgets, strict: bool)
    requires Safe(s, b, strict) && Keyed(s, strict) && s.pc.Deciding? && Plausible(s.pc)
    requires Fold(s.log).revision == s.pc.rec.revision && !Ended(Fold(s.log))
    requires |StateKey(|s.log|, s.pc.to)| <= 200
    ensures Decide(s.log, CasRequest(s.pc.rec, s.pc.to)).Write?
  {
    LegalRevisions(s.log);
    assert s.log[..|s.log|] == s.log;
    assert s.pc.rec == Fold(s.log);
    StateKeyPrefix(|s.log|, s.pc.to);
    NotBlank(StateKey(|s.log|, s.pc.to));
    FreshStateKey(s, s.pc.to, strict);
    AllowedIsAccepted(s.log, s.pc.to);
  }

  lemma {:induction false} AllowedIsAccepted(log: seq<Entry>, to: State)
    requires log != [] && Fold(log).state.Some? && ControllerMay(Fold(log).state.value, to) && !Ended(Fold(log))
    requires !BadKey(StateKey(Fold(log).revision, to)) && Prior(log, StateKey(Fold(log).revision, to)).None?
    ensures Decide(log, CasRequest(Fold(log), to)).Write?
  {
    assert Allowed(Controller, Fold(log).state.value, to);
  }

  /** Why a step's own store call may fail. */
  predicate Excused(s: System, l: Label, strict: bool) {
    || l.Fault? || l.Crash?
    || (l.RecordStep? && !l.env.auditOk)
    || (l.Cas? && s.pc.Deciding? && (!l.env.auditOk || Ended(Fold(s.log)) || |StateKey(|s.log|, s.pc.to)| > 200))
    || (l.Cas? && !strict && !Plausible(s.pc))
  }

  lemma {:induction false} StepFaultExcused(s: System, reason: string, env: Env, b: Budgets, strict: bool)
    requires Legal(s.log) && s.log != [] && Keyed(s, strict) && env.auditOk
    ensures Next(s, RecordStep(reason, env), b, strict).faults == s.faults
  {
    hide Decide, Perform, Keyed;
    if s.pc.Recording? {
      StepAccepted(s, reason, strict);
    }
  }

  lemma {:induction false} CasFaultExcused(s: System, env: Env, b: Budgets, strict: bool)
    requires Safe(s, b, strict) && Keyed(s, strict) && env.auditOk && s.pc.Deciding? && Plausible(s.pc)
    requires !Ended(Fold(s.log)) && |StateKey(|s.log|, s.pc.to)| <= 200
    ensures Next(s, Cas(env), b, strict).faults == s.faults
  {
    hide Decide, Perform, Keyed, Safe, Ended;
    if Fold(s.log).revision == s.pc.rec.revision {
      CasAccepted(s, b, strict);
    }
  }

  lemma {:induction false} FaultExcused(s: System, l: Label, b: Budgets, strict: bool)
    requires Safe(s, b, strict) && Keyed(s, strict) && Next(s, l, b, strict).faults > s.faults
    ensures Excused(s, l, strict)
  {
    hide Decide, Perform, Keyed, Safe, Fold, Legal, Chosen, AfterStep, LateRequest, Plausible;
    StateKnown(s, b, strict);
    PlausibleIfStrict(s, strict);
    match l
    case Begin(session, bundle, llm) => BeginFaultless(s, session, bundle, llm, b);
    case RecordStep(reason, env) =>
      if env.auditOk {
        StepFaultExcused(s, reason, env, b, strict);
      }
    case Cas(env) =>
      if s.pc.Deciding? && !Excused(s, l, strict) {
        CasFaultExcused(s, env, b, strict);
      }
    case _ =>
  }

  lemma {:induction false} BeginFaultless(s: System, session: string, bundle: BundleStatus, llm: bool, b: Budgets)
    ensures Chosen(s, session, bundle, llm, b).faults == s.faults
  {
    hide Fold, ClosureDue;
  }

  lemma {:induction false} PlausibleIfStrict(s: System, strict: bool)
    requires Keyed(s, strict)
    ensures strict ==> Plausible(s.pc)
  {
  }

  lemma {:induction false} LossMeansOvertaken(s: System, l: Label, b: Budgets, strict: bool)
    requires Safe(s, b, strict) && Next(s, l, b, strict).lost > s.lost
    ensures l.Cas? && s.pc.Deciding? && |s.log| > s.pc.rec.revision
  {
    hide Decide, Perform, Gated, Known;
    LegalRevisions(s.log);
  }

  /** The counters of the bound mean what they say: a lost race is a compare-and-swap after somebody else
      wrote; anything else counted is an injected fault or crash, an audit sequencer that did not
      acknowledge, a transition of an episode that has ended, a revision too long for a key, or, when store
      calls may outlive the runner's wait, the conclusion of a step that an abandoned transition overtook. */
  lemma {:induction false} FaultsAreFailures(init: System, ls: seq<Label>, l: Label, b: Budgets, strict: bool)
    requires Initial(init)
    ensures var s := Exec(init, ls, b, strict); var t := Next(s, l, b, strict);
      && (t.lost > s.lost ==> l.Cas? && s.pc.Deciding? && |s.log| > s.pc.rec.revision)
      && (t.faults > s.faults ==> Excused(s, l, strict))
  {
    var s := Exec(init, ls, b, strict);
    var t := Next(s, l, b, strict);
    ReachableSafe(init, ls, b, strict);
    ReachableKeyed(init, ls, b, strict);
    if t.lost > s.lost {
      LossMeansOvertaken(s, l, b, strict);
    }
    if t.faults > s.faults {
      FaultExcused(s, l, b, strict);
    }
  }
}
