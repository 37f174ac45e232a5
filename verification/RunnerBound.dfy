/** Termination of an episode's analysis (HLD R-3, R-4): the retry budgets bound the role steps the runner
    starts, up to one more for each lost compare-and-swap and each failure of the store or the runner. */
module RunnerBound {
  import opened Wrappers
  import opened Transitions
  import opened EpisodeRecord
  import opened StoreSpec
  import opened Visits
  import opened RunnerSpec
  import opened RunnerSafety

  function Min(a: nat, b: nat): nat {
    if a <= b then a else b
  }

  /** Visits completed before the current one, at most, when the Judge has sent the episode back r times. */
  function VisitsBefore(state: State, r: nat, b: Budgets): nat {
    match state
    case Open => 0
    case Diagnosing => 0
    case Recommending => 1 + 2 * r
    case Judging => 2 + 2 * r
    case Reporting => 3 + 2 * b.p09
    case _ => 4 + 2 * b.p09
  }

  /** Steps started in the current visit, at most, after f failures in it. */
  function InVisit(pc: Pc, f: nat, b: Budgets): nat {
    match pc
    case Idle => Min(f, b.p08)
    case Recorded(_, _, ok, _) => if ok then Min(f, b.p08) + 1 else Min(f, b.p08 + 1)
    case _ => Min(f, b.p08) + 1
  }

  function PerVisit(visits: nat, b: Budgets): nat {
    visits * (b.p08 + 1)
  }

  /** The step under way is of an earlier visit: an abandoned transition has landed since. */
  predicate Overtaken(state: State, pc: Pc) {
    (pc.Working? || pc.Checking? || pc.Recording? || pc.Recorded?) && pc.state != state
  }

  function Allowance(rec: Record, pc: Pc, b: Budgets): nat
    requires rec.state.Some?
  {
    var state := rec.state.value;
    PerVisit(VisitsBefore(state, Returns(rec.history), b), b) +
    (if Steppable(state) && !Overtaken(state, pc) then InVisit(pc, FailuresInState(rec, StepRole(state)), b) else 0)
  }

  /** The current visit was entered no later than the last entry was written. */
  ghost predicate Entered(log: seq<Entry>) {
    && log != []
    && Fold(log).history != []
    && Fold(log).history[|Fold(log).history|-1].ts <= log[|log|-1].ts
  }

  ghost predicate Within(s: System, b: Budgets) {
    && Entered(s.log)
    && Fold(s.log).state.Some?
    && s.started <= Allowance(Fold(s.log), s.pc, b) + s.lost + s.faults
  }

  lemma {:induction false} OneMoreVisit(v: nat, w: nat, b: Budgets)
    requires v + 1 <= w
    ensures PerVisit(v, b) + b.p08 + 1 <= PerVisit(w, b)
  {
    var k := b.p08 + 1;
    assert (w - v - 1) * k >= 0;
    assert w * k == v * k + k + (w - v - 1) * k;
  }

  // ---------------------------------------------------------------- entries and the allowance

  /** An entry that is neither a step record nor a transition of the controller. */
  predicate Bystander(e: Entry) {
    !e.body.StepBody? && !e.body.OpenedBody? && (e.body.StateBody? ==> e.principal == Verifier)
  }

  lemma {:induction false} BystanderApplied(rec: Record, e: Entry, pc: Pc, b: Budgets)
    requires rec.state.Some? && EntryOk(rec, e) && Bystander(e)
    ensures Apply(rec, e).state.Some?
    ensures e.body.StateBody? || Apply(rec, e).history == rec.history
    ensures Allowance(Apply(rec, e), pc, b) == Allowance(rec, pc, b)
  {
    HistoryStep(rec, e);
    if !e.body.StateBody? {
      VerdictsPush(rec, e);
      assert Apply(rec, e).steps == rec.steps;
    }
  }

  lemma {:induction false} EnteredKept(log: seq<Entry>, e: Entry)
    requires Entered(log) && e.ts >= log[|log|-1].ts && !e.body.OpenedBody?
    requires e.body.StateBody? || Apply(Fold(log), e).history == Fold(log).history
    ensures Entered(log + [e])
  {
    FoldPush(log, e);
  }

  lemma {:induction false} OthersKeepAllowance(s: System, e: Entry, b: Budgets)
    requires Within(s, b) && EntryOk(Fold(s.log), e) && e.ts >= s.log[|s.log|-1].ts && Bystander(e)
    ensures Within(s.(log := s.log + [e]), b)
  {
    hide Allowance, EntryOk, Apply, Fold;
    BystanderApplied(Fold(s.log), e, s.pc, b);
    EnteredKept(s.log, e);
    FoldPush(s.log, e);
  }

  lemma {:induction false} OthersStepWithin(s: System, rq: Request, env: Env, b: Budgets)
    requires Within(s, b) && Legal(s.log) && Timely(s.log, env)
    requires Decide(s.log, rq).Write? ==> Bystander(NewEntry(s.log, Decide(s.log, rq), env))
    ensures Within(s.(log := Perform(s.log, rq, env).0), b)
  {
    hide Decide, Within, Fold, EntryOk;
    var d := Decide(s.log, rq);
    if d.Write? && env.auditOk {
      DecideIsLegal(s.log, rq, env);
      WriteAppends(s.log, rq, env);
      OthersKeepAllowance(s, NewEntry(s.log, d, env), b);
    }
  }

  lemma {:induction false} FailuresPush(steps: seq<StepRecord>, x: StepRecord, role: Role, since: int)
    ensures Failures(steps + [x], role, since) ==
      Failures(steps, role, since) + (if x.role == role && !x.ok && x.ts >= since then 1 else 0)
  {
    assert (steps + [x])[..|steps|] == steps;
  }

  lemma {:induction false} StepAdds(rec: Record, e: Entry)
    requires e.body.StepBody?
    ensures var r := Apply(rec, e);
      r.state == rec.state && r.history == rec.history && r.steps == rec.steps + [StepRecordOf(e)]
  {
  }

  /** Recorded failures never shrink the allowance. */
  lemma {:induction false} LateStepApplied(rec: Record, e: Entry, pc: Pc, b: Budgets)
    requires rec.state.Some? && e.body.StepBody?
    ensures Apply(rec, e).state == rec.state && Apply(rec, e).history == rec.history
    ensures Allowance(Apply(rec, e), pc, b) >= Allowance(rec, pc, b)
  {
    hide PerVisit, VisitsBefore, Returns, Apply, Failures;
    StepAdds(rec, e);
    var x := StepRecordOf(e);
    if rec.history != [] {
      FailuresPush(rec.steps, x, StepRole(rec.state.value), rec.history[|rec.history|-1].ts);
    }
  }

  lemma {:induction false} LateStepKept(s: System, e: Entry, b: Budgets)
    requires Within(s, b) && e.ts >= s.log[|s.log|-1].ts && e.body.StepBody?
    ensures Within(s.(log := s.log + [e]), b)
  {
    hide Allowance, Apply, Fold;
    LateStepApplied(Fold(s.log), e, s.pc, b);
    EnteredKept(s.log, e);
    FoldPush(s.log, e);
  }

  /** A step record raises the failure count of its visit exactly if it failed. */
  lemma {:induction false} StepApplied(rec: Record, e: Entry, pc: Pc, b: Budgets)
    requires rec.state.Some? && rec.history != [] && rec.history[|rec.history|-1].ts <= e.ts
    requires pc.Recording? && e.body.StepBody? && e.body.role == StepRole(pc.state) && e.body.ok == pc.ok
    ensures Allowance(Apply(rec, e), Recorded(pc.state, pc.session, pc.ok, pc.limitHit), b) >= Allowance(rec, pc, b)
  {
    hide PerVisit, VisitsBefore, Returns, Apply, Failures;
    StepAdds(rec, e);
    FailuresPush(rec.steps, StepRecordOf(e), StepRole(pc.state), rec.history[|rec.history|-1].ts);
  }

  lemma {:induction false} StepRecorded(s: System, e: Entry, b: Budgets)
    requires Within(s, b) && s.pc.Recording? && e.ts >= s.log[|s.log|-1].ts
    requires e.body.StepBody? && e.body.role == StepRole(s.pc.state) && e.body.ok == s.pc.ok
    ensures Within(s.(log := s.log + [e], pc := Recorded(s.pc.state, s.pc.session, s.pc.ok, s.pc.limitHit)), b)
  {
    hide Allowance, Fold, Apply;
    FoldPush(s.log, e);
    LateStepApplied(Fold(s.log), e, s.pc, b);
    EnteredKept(s.log, e);
    StepApplied(Fold(s.log), e, s.pc, b);
  }

  lemma {:induction false} RecordStepWithin(s: System, reason: string, env: Env, b: Budgets, strict: bool)
    requires Safe(s, b, strict) && Within(s, b) && s.pc.Recording? && Timely(s.log, env) && env.auditOk
    requires Decide(s.log, StepRequest(s.pc.state, s.pc.session, s.pc.ok, reason)).Write?
    ensures Within(s.(log := Perform(s.log, StepRequest(s.pc.state, s.pc.session, s.pc.ok, reason), env).0,
                      pc := Recorded(s.pc.state, s.pc.session, s.pc.ok, s.pc.limitHit)), b)
  {
    var rq := StepRequest(s.pc.state, s.pc.session, s.pc.ok, reason);
    var e := NewEntry(s.log, Decide(s.log, rq), env);
    StepEntry(s.log, s.pc.state, s.pc.session, s.pc.ok, reason, env);
    assert Perform(s.log, rq, env).0 == s.log + [e];
    StepRecorded(s, e, b);
  }

  // ---------------------------------------------------------------- transitions

  /** Every controller transition completes a visit of the current state. */
  lemma {:induction false} VisitDone(frm: State, to: State, r: nat, b: Budgets)
    requires ControllerMay(frm, to) && r <= b.p09
    ensures var r' := r + (if frm == Judging && to == Recommending then 1 else 0);
      VisitsBefore(frm, r, b) + (if Steppable(frm) then 1 else 0) <= VisitsBefore(to, r', b)
  {
  }

  lemma {:induction false} TransitionApplied(rec: Record, e: Entry, pc: Pc, b: Budgets)
    requires e.body.StateBody? && rec.state == Some(e.body.frm) && ControllerMay(e.body.frm, e.body.to)
    requires Returns(rec.history) <= b.p09
    ensures Apply(rec, e).state == Some(e.body.to)
    ensures Allowance(rec, pc, b) <= PerVisit(VisitsBefore(e.body.to, Returns(Apply(rec, e).history), b), b)
  {
    var frm, to, r := e.body.frm, e.body.to, Returns(rec.history);
    HistoryStep(rec, e);
    VisitDone(frm, to, r, b);
    if Steppable(frm) {
      OneMoreVisit(VisitsBefore(frm, r, b), VisitsBefore(to, Returns(Apply(rec, e).history), b), b);
    }
  }

  /** A transition, waited for or abandoned, pays for all steps of the visit it ends. */
  lemma {:induction false} TransitionPays(s: System, e: Entry, pc: Pc, b: Budgets, strict: bool)
    requires Safe(s, b, strict) && Within(s, b) && e.ts >= s.log[|s.log|-1].ts
    requires e.body.StateBody? && Fold(s.log).state == Some(e.body.frm) && ControllerMay(e.body.frm, e.body.to)
    ensures Within(s.(log := s.log + [e], pc := pc), b)
  {
    hide Safe, PerVisit, VisitsBefore, InVisit, FailuresInState;
    SafeGated(s, b, strict);
    FoldPush(s.log, e);
    ReturnsBounded(s.log, b, strict);
    TransitionApplied(Fold(s.log), e, s.pc, b);
  }

  lemma {:induction false} SafeGated(s: System, b: Budgets, strict: bool)
    requires Safe(s, b, strict)
    ensures Legal(s.log) && s.log != [] && Gated(s.log, b, strict)
  {
  }

  lemma {:induction false} Stamped(log: seq<Entry>, rq: Request, env: Env)
    requires Decide(log, rq).Write?
    ensures NewEntry(log, Decide(log, rq), env).ts == env.ts
  {
    hide Decide;
  }

  lemma {:induction false} CasWithin(s: System, rec: Record, to: State, env: Env, pc: Pc, b: Budgets, strict: bool)
    requires Safe(s, b, strict) && Within(s, b) && Timely(s.log, env) && env.auditOk
    requires SnapshotGated(s.log, rec, to, b, strict) && Decide(s.log, CasRequest(rec, to)).Write?
    ensures Within(s.(log := Perform(s.log, CasRequest(rec, to), env).0, pc := pc), b)
  {
    hide Decide, Perform, Safe, Within, CasRequest, SnapshotGated, MayMove;
    var rq := CasRequest(rec, to);
    SafeGated(s, b, strict);
    CasEntry(s.log, rec, to, env, b, strict);
    WriteAppends(s.log, rq, env);
    Stamped(s.log, rq, env);
    TransitionPays(s, NewEntry(s.log, Decide(s.log, rq), env), pc, b, strict);
  }

  // ---------------------------------------------------------------- abandoned calls

  lemma {:induction false} LateCasWithin(s: System, i: nat, env: Env, b: Budgets, strict: bool)
    requires Safe(s, b, strict) && Within(s, b) && Timely(s.log, env) && i < |s.orphans| && s.orphans[i].LateCas?
    ensures Within(s.(log := Perform(s.log, CasRequest(s.orphans[i].rec, s.orphans[i].to), env).0), b)
  {
    hide Decide, Perform, CasRequest, SnapshotGated, Gated, Known, PcOk, Legal, Allowance;
    var rec, to := s.orphans[i].rec, s.orphans[i].to;
    assert OrphanOk(s.log, s.orphans[i], b, strict);
    if Decide(s.log, CasRequest(rec, to)).Write? && env.auditOk {
      CasWithin(s, rec, to, env, s.pc, b, strict);
    } else {
      Unchanged(s.log, CasRequest(rec, to), env);
    }
  }

  lemma {:induction false} LateStepWithin(s: System, o: Orphan, reason: string, env: Env, b: Budgets, strict: bool)
    requires Within(s, b) && Timely(s.log, env) && o.LateStep?
    ensures Within(s.(log := Perform(s.log, StepRequest(o.state, o.session, o.ok, reason), env).0), b)
  {
    hide Decide, Perform, StepRequest, Allowance;
    var rq := StepRequest(o.state, o.session, o.ok, reason);
    if Decide(s.log, rq).Write? && env.auditOk {
      StepEntry(s.log, o.state, o.session, o.ok, reason, env);
      WriteAppends(s.log, rq, env);
      LateStepKept(s, NewEntry(s.log, Decide(s.log, rq), env), b);
    } else {
      Unchanged(s.log, rq, env);
    }
  }

  lemma {:induction false} CostWithin(s: System, state: State, session: string, usd: int, turns: int, env: Env,
      b: Budgets)
    requires Legal(s.log) && Within(s, b) && Timely(s.log, env)
    ensures Within(s.(log := Perform(s.log, CostRequest(state, session, usd, turns), env).0), b)
  {
    hide Decide, Perform, Within, Legal;
    var rq := CostRequest(state, session, usd, turns);
    if Decide(s.log, rq).Write? {
      CostEntry(s.log, rq, env);
    }
    OthersStepWithin(s, rq, env, b);
  }

  lemma {:induction false} LandWithin(s: System, i: nat, usd: int, turns: int, reason: string, env: Env, b: Budgets,
      strict: bool)
    requires Safe(s, b, strict) && Within(s, b) && Timely(s.log, env) && i < |s.orphans|
    ensures Within(s.(log := Perform(s.log, LateRequest(s.orphans[i], usd, turns, reason), env).0,
                      orphans := Without(s.orphans, i)), b)
  {
    hide Perform, Safe, Allowance, CasRequest, StepRequest, CostRequest, Legal;
    SafeGated(s, b, strict);
    match s.orphans[i]
    case LateCas(_, _) => LateCasWithin(s, i, env, b, strict);
    case LateStep(_, _, _) => LateStepWithin(s, s.orphans[i], reason, env, b, strict);
    case LateCost(state, session) => CostWithin(s, state, session, usd, turns, env, b);
  }

  // ---------------------------------------------------------------- every step keeps the bound

  lemma {:induction false} RereadWithin(s: System, b: Budgets, strict: bool)
    requires Safe(s, b, strict) && Within(s, b) && s.pc.Recorded?
    ensures Within(Next(s, Reread, b, strict), b)
  {
    hide Gated, Known, OrphansOk, Legal, Diagnosed, PlannerOwns, Owns, Produced, Completed, MovedOn, PerVisit;
    hide VisitsBefore;
    hide Returns, RefutedAll, FailCount;
  }

  predicate Quiet(l: Label) {
    l.Begin? || l.IsolationFailure? || l.EndStep? || l.Validate? || l.Fault? || l.Crash? || l.CostLost?
  }

  /** The steps that write nothing. */
  lemma {:induction false} QuietWithin(s: System, l: Label, b: Budgets, strict: bool)
    requires Within(s, b) && Quiet(l)
    ensures Within(Next(s, l, b, strict), b)
  {
    hide Decide, Perform, PerVisit, VisitsBefore, Returns, FailuresInState, ClosureDue;
    assert Next(s, l, b, strict).log == s.log;
  }

  lemma {:induction false} WorkWithin(s: System, rq: Request, env: Env, b: Budgets, strict: bool)
    requires Legal(s.log) && Within(s, b) && Timely(s.log, env) && WorkerMay(s, rq, strict)
    ensures Within(s.(log := Perform(s.log, rq, env).0), b)
  {
    hide Decide, Perform, Within, Legal, WorkerMay;
    if Decide(s.log, rq).Write? {
      WorkerEntry(s, rq, env, strict);
    }
    OthersStepWithin(s, rq, env, b);
  }

  lemma {:induction false} OutsideWithin(s: System, rq: Request, env: Env, b: Budgets, strict: bool)
    requires Legal(s.log) && Within(s, b) && Timely(s.log, env) && OutsiderMay(rq)
    ensures Within(s.(log := Perform(s.log, rq, env).0), b)
  {
    hide Decide, Perform, Within, Legal, OutsiderMay;
    if Decide(s.log, rq).Write? {
      OutsiderEntry(s, rq, env, strict);
    }
    OthersStepWithin(s, rq, env, b);
  }

  lemma {:induction false} OthersWithin(s: System, l: Label, b: Budgets, strict: bool)
    requires Safe(s, b, strict) && Within(s, b) && (l.Work? || l.Outside? || l.RecordCost?)
    ensures Within(Next(s, l, b, strict), b)
  {
    hide Decide, Perform, Safe, Within, Legal, WorkerMay, OutsiderMay, CostRequest, Fold;
    SafeGated(s, b, strict);
    match l
    case Work(rq, env) =>
      if WorkerMay(s, rq, strict) && Timely(s.log, env) {
        WorkWithin(s, rq, env, b, strict);
      }
    case Outside(rq, env) =>
      if OutsiderMay(rq) && Timely(s.log, env) {
        OutsideWithin(s, rq, env, b, strict);
      }
    case RecordCost(usd, turns, env) =>
      if s.pc.Checking? && Timely(s.log, env) {
        CostWithin(s, s.pc.state, s.pc.session, usd, turns, env, b);
      }
  }

  lemma {:induction false} RecordStepNextWithin(s: System, reason: string, env: Env, b: Budgets, strict: bool)
    requires Safe(s, b, strict) && Within(s, b)
    ensures Within(Next(s, RecordStep(reason, env), b, strict), b)
  {
    hide Decide, Perform, Safe, FailuresInState, PerVisit, VisitsBefore, Returns;
    if s.pc.Recording? && Timely(s.log, env) && env.auditOk
      && Decide(s.log, StepRequest(s.pc.state, s.pc.session, s.pc.ok, reason)).Write? {
      RecordStepWithin(s, reason, env, b, strict);
    }
  }

  lemma {:induction false} SnapshotHeld(s: System, b: Budgets, strict: bool)
    requires Safe(s, b, strict) && s.pc.Deciding?
    ensures SnapshotGated(s.log, s.pc.rec, s.pc.to, b, strict)
  {
  }

  lemma {:induction false} CasNextWithin(s: System, env: Env, b: Budgets, strict: bool)
    requires Safe(s, b, strict) && Within(s, b)
    ensures Within(Next(s, Cas(env), b, strict), b)
  {
    hide Decide, Perform, Safe, FailuresInState, PerVisit, VisitsBefore, Returns, CasRequest, SnapshotGated, Entered;
    if s.pc.Deciding? && Timely(s.log, env) && env.auditOk && Decide(s.log, CasRequest(s.pc.rec, s.pc.to)).Write? {
      SnapshotHeld(s, b, strict);
      CasWithin(s, s.pc.rec, s.pc.to, env, Idle, b, strict);
    }
  }

  lemma {:induction false} NextWithin(s: System, l: Label, b: Budgets, strict: bool)
    requires Safe(s, b, strict) && Within(s, b)
    ensures Within(Next(s, l, b, strict), b)
  {
    hide Safe, Within, Decide, Perform, Fold, Chosen, AfterStep, AfterError, LateRequest;
    match l
    case RecordStep(reason, env) => RecordStepNextWithin(s, reason, env, b, strict);
    case Cas(env) => CasNextWithin(s, env, b, strict);
    case Reread =>
      if s.pc.Recorded? {
        RereadWithin(s, b, strict);
      }
    case Land(i, usd, turns, reason, env) =>
      if i < |s.orphans| && Timely(s.log, env) {
        LandWithin(s, i, usd, turns, reason, env, b, strict);
      }
    case _ =>
      if Quiet(l) {
        QuietWithin(s, l, b, strict);
      } else {
        OthersWithin(s, l, b, strict);
      }
  }

  lemma {:induction false} ReachableWithin(s: System, ls: seq<Label>, b: Budgets, strict: bool)
    requires Initial(s)
    ensures Within(Exec(s, ls, b, strict), b)
  {
    if ls == [] {
      LegalRevisions(s.log);
      assert s.log[..0] == [];
    } else {
      var before := ls[..|ls|-1];
      ReachableWithin(s, before, b, strict);
      ReachableSafe(s, before, b, strict);
      NextWithin(Exec(s, before, b, strict), ls[|ls|-1], b, strict);
    }
  }

  lemma {:induction false} AllowanceBounded(rec: Record, pc: Pc, b: Budgets)
    requires rec.state.Some? && Returns(rec.history) <= b.p09
    ensures Allowance(rec, pc, b) <= (2 * b.p09 + 4) * (b.p08 + 1)
  {
    var v := VisitsBefore(rec.state.value, Returns(rec.history), b);
    if v < 2 * b.p09 + 4 {
      OneMoreVisit(v, 2 * b.p09 + 4, b);
    }
  }

  /** The retry budgets bound the role steps of an episode, whatever workers, sentinel and verifier do:
      (P-08 + 1) per visit, and at most 2 * P-09 + 4 visits. */
  lemma {:induction false} StepsBounded(s: System, ls: seq<Label>, b: Budgets, strict: bool)
    requires Initial(s)
    ensures var t := Exec(s, ls, b, strict);
      t.started <= (2 * b.p09 + 4) * (b.p08 + 1) + t.lost + t.faults
  {
    var t := Exec(s, ls, b, strict);
    ReachableWithin(s, ls, b, strict);
    ReachableSafe(s, ls, b, strict);
    ReturnsBounded(t.log, b, strict);
    AllowanceBounded(Fold(t.log), t.pc, b);
  }
}
