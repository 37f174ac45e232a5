/** The controller's `Runner` for one episode (valops/controller/runner.py), as it reads and writes the store. Every
    method is proved to be a run of the step system RunnerSpec, so what RunnerSafety, RunnerBound and
    RunnerFaults prove of all its runs holds of this code. */
module Runner {
  import opened Wrappers
  import opened Transitions
  import opened EpisodeRecord
  import opened StoreSpec
  import opened StoreRuns
  import opened Visits
  import Steps = RunnerSpec
  import Table = EpisodeStore
  import RunnerSafety
  import RunnerBound
  import RunnerFaults
  import Artefacts

  type Label = Steps.Label

  /** Whether an error is raised where the runner reads or spawns: one that `tick` leaves to the next tick
      (`unavailable`, `audit_unavailable`), or any other, after which it hands the episode off. */
  datatype Trouble = Fine | Away | Broken

  /** What the world does during one pass: other parties' calls at each point where the runner is between two
      of its own, the clock and audit sequencer at each of its writes, what the worker comes back with, which
      reads raise an error, and which writes get no reply. */
  datatype World = World(
    during: seq<Label>, beforeCost: seq<Label>, beforeCheck: seq<Label>, beforeRecord: seq<Label>,
    beforeRead: seq<Label>, beforeMove: seq<Label>, beforeHandOff: seq<Label>,
    atHead: Trouble, inStep: Trouble, atCheck: Trouble, atRead: Trouble, unread: bool,
    costLost: bool, stepLost: bool, moveLost: bool, handOffLost: bool,
    isolated: bool, metered: bool, usd: int, turns: int, completed: bool, limitHit: bool,
    output: Option<Artefacts.Structured>, alerts: seq<Artefacts.Alert>, reason: string,
    costEnv: Env, stepEnv: Env, moveEnv: Env, handOffEnv: Env)

  /** Other parties' calls, and calls of the runner that the store finishes after the runner gave up on them. */
  predicate Foreign(ls: seq<Label>) {
    forall l | l in ls :: l.Work? || l.Outside? || l.Land?
  }

  predicate ForeignWorld(w: World) {
    && Foreign(w.during) && Foreign(w.beforeCost) && Foreign(w.beforeCheck) && Foreign(w.beforeRecord)
    && Foreign(w.beforeRead) && Foreign(w.beforeMove) && Foreign(w.beforeHandOff)
  }

  /** The clock does not run backwards: a write is stamped no earlier than the last entry. */
  function Clocked(log: seq<Entry>, env: Env): (e: Env)
    ensures Steps.Timely(log, e) && e.auditOk == env.auditOk
  {
    if log != [] && env.ts < log[|log|-1].ts then env.(ts := log[|log|-1].ts) else env
  }

  /** The trace is a run of the step system from a just opened episode to this state. */
  ghost predicate Follows(init: Steps.System, trace: seq<Label>, s: Steps.System, b: Budgets, strict: bool) {
    Steps.Initial(init) && s == Steps.Exec(init, trace, b, strict)
  }

  /** What the head of `advance` decides on. */
  datatype Choice = Stop | Move(rec: Record, to: State) | Launch(state: State)

  /** How `run_step` ends: with an outcome, with the judge's view not isolated, with another error, or with
      its record not written. */
  datatype Result = Finished(ok: bool, limitHit: bool) | NotIsolated | Raised(trouble: Trouble) | Interrupted

  /** One pass of `advance`: it begins at most once, and first. */
  ghost predicate OnePass(trace: seq<Label>, from: nat) {
    from <= |trace| && forall i | from < i < |trace| :: !trace[i].Begin?
  }

  /** One more step of the same pass. */
  lemma {:induction false} StepFollows(init: Steps.System, trace: seq<Label>, mark: nat, s: Steps.System, l: Label,
      b: Budgets, strict: bool)
    requires Follows(init, trace, s, b, strict)
    ensures Follows(init, trace + [l], Steps.Next(s, l, b, strict), b, strict)
    ensures !l.Begin? && OnePass(trace, mark) ==> OnePass(trace + [l], mark)
    ensures OnePass(trace + [l], |trace|)
  {
    hide Steps.Next, Steps.Initial;
    assert (trace + [l])[..|trace|] == trace;
  }

  function Head(rec: Record, bundle: Steps.BundleStatus, llm: bool, b: Budgets): Choice {
    if rec.state.None? || rec.state == Some(HandedOff) || rec.state == Some(AwaitingOperator) then Stop
    else if bundle == Steps.Condemned then Move(rec, HandedOff)
    else if bundle == Steps.Unusable || !llm then Stop
    else if rec.state == Some(Resolved) && !Steps.ClosureDue(rec, b) then Stop
    else if rec.state == Some(Open) then Move(rec, Diagnosing)
    else Launch(rec.state.value)
  }

  lemma {:induction false} BeginNext(s: Steps.System, session: string, bundle: Steps.BundleStatus, llm: bool,
      b: Budgets, strict: bool)
    requires s.pc == Steps.Idle && session !in s.minted && |session| <= 100
    ensures Steps.Next(s, Steps.Begin(session, bundle, llm), b, strict) ==
      match Head(Fold(s.log), bundle, llm, b)
      case Stop => s
      case Move(rec, to) => s.(pc := Steps.Deciding(rec, to))
      case Launch(state) =>
        s.(pc := Steps.Working(state, session), minted := s.minted[session := StepRole(state)], live := Some(session),
           started := s.started + (if state == Resolved then 0 else 1))
  {
    hide Fold, Steps.ClosureDue;
  }

  class Runner {
    const store: Table.EpisodeStore
    const eid: string
    const b: Budgets
    const strict: bool
    var minted: map<string, Role>
    var live: Option<string>
    /** Calls the store may still be at work on although this runner has given up on them. */
    var orphans: seq<Steps.Orphan>
    ghost var pc: Steps.Pc
    ghost var started: nat
    ghost var lost: nat
    ghost var faults: nat
    ghost const init: Steps.System
    ghost var trace: seq<Label>
    ghost var mark: nat

    /** The runner meets the episode when it has just been opened. */
    constructor (store: Table.EpisodeStore, eid: string, b: Budgets, strict: bool)
      requires store.Valid() && eid in store.order
      requires Steps.Initial(Steps.System(LogAt(store.State(), eid), Steps.Idle, map[], None, 0, 0, 0, []))
      ensures this.store == store && this.eid == eid && this.b == b && this.strict == strict
      ensures Ready() && trace == []
      ensures init == Steps.System(LogAt(store.State(), eid), Steps.Idle, map[], None, 0, 0, 0, [])
    {
      this.store, this.eid, this.b, this.strict := store, eid, b, strict;
      minted, live, orphans, pc, started, lost, faults := map[], None, [], Steps.Idle, 0, 0, 0;
      init, trace := Steps.System(LogAt(store.State(), eid), Steps.Idle, map[], None, 0, 0, 0, []), [];
    }

    ghost function Log(): seq<Entry>
      reads this, store
    {
      LogAt(store.State(), eid)
    }

    ghost function Now(): Steps.System
      reads this, store
    {
      Steps.System(Log(), pc, minted, live, started, lost, faults, orphans)
    }

    /** The store is in order, and the trace so far is a run of the step system that ends here. */
    ghost predicate Ready()
      reads this, store
    {
      && store.Valid() && eid in store.order
      && Follows(init, trace, Now(), b, strict)
    }

    /** In a pass of `advance` that began at `mark`. */
    ghost predicate Running()
      reads this, store
    {
      Ready() && OnePass(trace, mark)
    }

    // -------------------------------------------------------------- one call at a time

    method Call(rq: Request, env: Env) returns (o: Outcome)
      requires store.Valid() && eid in store.order
      modifies store`rows, store`records
      ensures store.Valid()
      ensures (Log(), o) == Perform(old(Log()), rq, env)
    {
      hide Perform, store.Valid;
      o := store.Dispatch(eid, rq, env);
    }

    method Read() returns (rec: Record)
      requires store.Valid() && eid in store.order
      ensures rec == Fold(Log())
    {
      hide Fold;
      rec := store.records[eid];
    }

    method Other(l: Label)
      requires Running() && (l.Work? || l.Outside? || l.Land?)
      modifies this`orphans, this`trace, store`rows, store`records
      ensures Running() && trace == old(trace) + [l]
    {
      hide Perform, Decide, Fold, store.Valid, Follows, OnePass, Steps.Chosen, Steps.AfterStep, Steps.AfterError;
      hide Steps.LateRequest;
      StepFollows(init, trace, mark, Now(), l, b, strict);
      var log := Table.LogOf(store.rows, eid);
      var seen := Steps.System(log, Steps.Idle, minted, live, 0, 0, 0, []);
      match l {
        case Work(rq, env) =>
          if Steps.WorkerMay(seen, rq, strict) && Steps.Timely(log, env) {
            var o := Call(rq, env);
          }
        case Outside(rq, env) =>
          if Steps.OutsiderMay(rq) && Steps.Timely(log, env) {
            var o := Call(rq, env);
          }
        case Land(i, usd, turns, reason, env) =>
          if i < |orphans| && Steps.Timely(log, env) {
            var o := Call(Steps.LateRequest(orphans[i], usd, turns, reason), env);
            orphans := Steps.Without(orphans, i);
          }
      }
      trace := trace + [l];
    }

    /** Whatever the other parties do before the runner's next call. */
    method Others(ls: seq<Label>)
      requires Running() && Foreign(ls)
      modifies this`orphans, this`trace, store`rows, store`records
      ensures Running() && trace == old(trace) + ls
    {
      hide store.Valid, Follows, OnePass;
      for i := 0 to |ls|
        invariant Running() && trace == old(trace) + ls[..i]
      {
        assert ls[..i + 1] == ls[..i] + [ls[i]];
        Other(ls[i]);
      }
      assert ls[..|ls|] == ls;
    }

    /** `transition`. A lost race is no error, and an audit sequencer that does not answer is left to the next
        tick; any other refusal is raised. */
    method Transition(rec: Record, to: State, env: Env) returns (refused: bool)
      requires Running() && pc == Steps.Deciding(rec, to)
      modifies this`pc, this`lost, this`faults, this`trace, store`rows, store`records
      ensures Running() && pc == Steps.Idle && trace == old(trace) + [Steps.Cas(Clocked(old(Log()), env))]
      ensures var o := Perform(old(Log()), Steps.CasRequest(rec, to), Clocked(old(Log()), env)).1;
        refused == (o.Failed? && o.code != Conflict && o.code != AuditUnavailable)
    {
      hide StateKey, Steps.CasRequest, Perform, Decide, Fold, store.Valid, Follows, OnePass, Steps.Next, Won;
      hide Steps.Timely;
      var now := Clocked(Table.LogOf(store.rows, eid), env);
      StepFollows(init, trace, mark, Now(), Steps.Cas(now), b, strict);
      CasNext(Now(), now, b, strict);
      ghost var won := Won(Log(), Steps.CasRequest(rec, to), now);
      ghost var overtaken := Fold(Log()).revision != rec.revision;
      var o := Call(Steps.CasRequest(rec, to), now);
      refused := o.Failed? && o.code != Conflict && o.code != AuditUnavailable;
      pc, trace := Steps.Idle, trace + [Steps.Cas(now)];
      if !won && overtaken {
        lost := lost + 1;
      } else if !won {
        faults := faults + 1;
      }
    }

    // -------------------------------------------------------------- errors

    /** The pass ends here, and the next tick starts over; what was left unanswered may still happen. */
    method GiveUp(left: seq<Steps.Orphan>, answered: bool)
      requires Running() && left == if strict || answered then [] else Steps.Left(pc)
      modifies this`pc, this`live, this`faults, this`orphans, this`trace
      ensures Running() && pc == Steps.Idle && trace == old(trace) + [Steps.Crash(answered)]
    {
      hide store.Valid, Follows, OnePass, Steps.Chosen, Steps.AfterStep, Steps.AfterError, Perform, Decide, Fold;
      StepFollows(init, trace, mark, Now(), Steps.Crash(answered), b, strict);
      pc, live, faults, orphans := Steps.Idle, None, faults + 1, orphans + left;
      trace := trace + [Steps.Crash(answered)];
    }

    /** `tick`, after any other error: the fresh read for the hand-off. */
    method Reconsider() returns (rec: Record)
      requires Running()
      modifies this`pc, this`live, this`faults, this`trace
      ensures Running() && trace == old(trace) + [Steps.Fault(true)]
      ensures pc == Steps.Deciding(rec, HandedOff)
    {
      hide store.Valid, Follows, OnePass, Steps.Chosen, Steps.AfterStep, Perform, Decide, Fold;
      StepFollows(init, trace, mark, Now(), Steps.Fault(true), b, strict);
      assert orphans + [] == orphans;
      rec := Read();
      pc, live, faults, trace := Steps.Deciding(rec, HandedOff), None, faults + 1, trace + [Steps.Fault(true)];
    }

    /** `tick`, after any other error: hand off; an error in that is passed over. */
    method Rescue(w: World)
      requires Running() && ForeignWorld(w)
      modifies this`pc, this`live, this`lost, this`faults, this`orphans, this`trace, store`rows, store`records
      ensures Running() && pc == Steps.Idle && old(trace) + [Steps.Fault(true)] <= trace
    {
      hide Running, Fold, Perform;
      var rec := Reconsider();
      if w.unread {
        GiveUp([], true);
        return;
      }
      Others(w.beforeHandOff);
      if w.handOffLost {
        GiveUp(if strict then [] else [Steps.LateCas(rec, HandedOff)], false);
        return;
      }
      var refused := Transition(rec, HandedOff, w.handOffEnv);
    }

    /** What `tick` does with an error that `advance` raises. */
    method Handle(trouble: Trouble, w: World)
      requires Running() && ForeignWorld(w) && trouble != Fine
      modifies this`pc, this`live, this`lost, this`faults, this`orphans, this`trace, store`rows, store`records
      ensures Running() && pc == Steps.Idle
      ensures old(trace) + [if trouble == Away then Steps.Crash(true) else Steps.Fault(true)] <= trace
    {
      hide Running;
      if trouble == Away {
        GiveUp([], true);
      } else {
        Rescue(w);
      }
    }

    // -------------------------------------------------------------- the head of advance, and run_step

    /** The head of `advance`: read the record and choose; `mint`, if a step is to run. */
    method Choose(session: string, bundle: Steps.BundleStatus, llm: bool) returns (choice: Choice)
      requires Ready() && pc == Steps.Idle && session !in minted && |session| <= 100
      modifies this`pc, this`minted, this`live, this`started, this`trace, this`mark
      ensures Running() && mark == |old(trace)| && trace == old(trace) + [Steps.Begin(session, bundle, llm)]
      ensures choice.Stop? ==> pc == Steps.Idle
      ensures choice.Move? ==> pc == Steps.Deciding(choice.rec, choice.to) && choice.rec == Fold(Log())
      ensures choice.Launch? ==> pc == Steps.Working(choice.state, session)
    {
      hide Steps.ClosureDue, Perform, Decide, Fold, store.Valid, Follows, OnePass, Steps.Next;
      BeginNext(Now(), session, bundle, llm, b, strict);
      StepFollows(init, trace, mark, Now(), Steps.Begin(session, bundle, llm), b, strict);
      mark, trace := |trace|, trace + [Steps.Begin(session, bundle, llm)];
      var rec := Read();
      choice := Stop;
      if rec.state.None? || rec.state == Some(HandedOff) || rec.state == Some(AwaitingOperator) {
        return;
      }
      if bundle == Steps.Condemned {
        choice, pc := Move(rec, HandedOff), Steps.Deciding(rec, HandedOff);
        return;
      }
      if bundle == Steps.Unusable || !llm {
        return;
      }
      if rec.state == Some(Resolved) && !Steps.ClosureDue(rec, b) {
        return;
      }
      if rec.state == Some(Open) {
        choice, pc := Move(rec, Diagnosing), Steps.Deciding(rec, Diagnosing);
        return;
      }
      var state := rec.state.value;
      minted, live := minted[session := StepRole(state)], Some(session);
      choice, pc := Launch(state), Steps.Working(state, session);
      if state != Resolved {
        started := started + 1;
      }
    }

    /** The `finally` of `run_step`: the token is revoked. */
    method Revoke(state: State, session: string)
      requires Running() && pc == Steps.Working(state, session)
      modifies this`pc, this`live, this`trace
      ensures Running() && pc == Steps.Checking(state, session) && live.None? && trace == old(trace) + [Steps.EndStep]
    {
      hide store.Valid, Follows, OnePass, Steps.Chosen, Steps.AfterStep, Steps.AfterError, Perform, Decide, Fold;
      StepFollows(init, trace, mark, Now(), Steps.EndStep, b, strict);
      live, pc, trace := None, Steps.Checking(state, session), trace + [Steps.EndStep];
    }

    /** And the cost recorded, if there is a meter; a refused cost entry is only logged. */
    method RecordCost(state: State, session: string, w: World)
      requires Running() && pc == Steps.Checking(state, session)
      modifies this`trace, store`rows, store`records
      ensures Running() && trace == old(trace) + [Steps.RecordCost(w.usd, w.turns, Clocked(old(Log()), w.costEnv))]
    {
      hide Perform, Decide, Fold, store.Valid, Follows, OnePass, Steps.Chosen, Steps.AfterStep, Steps.AfterError;
      var now := Clocked(Table.LogOf(store.rows, eid), w.costEnv);
      var l := Steps.RecordCost(w.usd, w.turns, now);
      StepFollows(init, trace, mark, Now(), l, b, strict);
      var o := Call(Steps.CostRequest(state, session, w.usd, w.turns), now);
      trace := trace + [l];
    }

    /** `append_cost` got no reply. */
    method LoseCost(state: State, session: string)
      requires Running() && pc == Steps.Checking(state, session)
      modifies this`orphans, this`trace
      ensures Running() && trace == old(trace) + [Steps.CostLost]
    {
      hide Perform, Decide, Fold, store.Valid, Follows, OnePass, Steps.Chosen, Steps.AfterStep, Steps.AfterError;
      StepFollows(init, trace, mark, Now(), Steps.CostLost, b, strict);
      if !strict {
        orphans := orphans + [Steps.LateCost(state, session)];
      }
      trace := trace + [Steps.CostLost];
    }

    /** `validate`, or the failure of a step that did not complete. */
    method Validate(state: State, session: string, w: World) returns (ok: bool, limitHit: bool)
      requires Running() && pc == Steps.Checking(state, session)
      modifies this`pc, this`trace
      ensures Running() && pc == Steps.Recording(state, session, ok, limitHit)
      ensures trace == old(trace) + [Steps.Validate(w.completed, w.limitHit, w.output, w.alerts)]
    {
      hide Perform, Decide, Fold, store.Valid, Follows, OnePass, Steps.Chosen, Steps.AfterStep;
      hide Steps.AfterError, Artefacts.StepOk;
      var l := Steps.Validate(w.completed, w.limitHit, w.output, w.alerts);
      StepFollows(init, trace, mark, Now(), l, b, strict);
      ok := false;
      if w.completed {
        var rec := Read();
        var kind := if state == Resolved then Closure else Incident;
        ok := Artefacts.StepOk(rec, StepRole(state), session, kind, w.alerts, w.output);
      }
      limitHit := w.limitHit && !ok;
      pc, trace := Steps.Recording(state, session, ok, limitHit), trace + [l];
    }

    /** `append_step`. It is refused only when the audit sequencer does not answer, and then the pass is over. */
    method RecordStep(state: State, session: string, ok: bool, limitHit: bool, w: World) returns (recorded: bool)
      requires Running() && pc == Steps.Recording(state, session, ok, limitHit)
      modifies this`pc, this`faults, this`trace, store`rows, store`records
      ensures Running() && trace == old(trace) + [Steps.RecordStep(w.reason, Clocked(old(Log()), w.stepEnv))]
      ensures recorded == w.stepEnv.auditOk
      ensures pc == if recorded then Steps.Recorded(state, session, ok, limitHit) else Steps.Idle
    {
      hide Perform, Decide, Fold, store.Valid, Steps.Exec, Steps.Next, Steps.Initial;
      var now := Clocked(Table.LogOf(store.rows, eid), w.stepEnv);
      var rq := Steps.StepRequest(state, session, ok, w.reason);
      StepFollows(init, trace, mark, Now(), Steps.RecordStep(w.reason, now), b, strict);
      NeverRefused(init, trace, w.reason, b, strict);
      RecordStepNext(Now(), w.reason, now, b, strict);
      var o := Call(rq, now);
      trace := trace + [Steps.RecordStep(w.reason, now)];
      recorded := o.Done?;
      pc := if recorded then Steps.Recorded(state, session, ok, limitHit) else Steps.Idle;
      faults := faults + (if recorded then 0 else 1);
    }

    /** The judge's view was not isolated: an integrity failure, handed off from a fresh read. */
    method Distrust(session: string) returns (rec: Record)
      requires Running() && pc == Steps.Checking(Judging, session)
      modifies this`pc, this`trace
      ensures Running() && trace == old(trace) + [Steps.IsolationFailure]
      ensures pc == Steps.Deciding(rec, HandedOff)
    {
      hide Perform, Decide, Fold, store.Valid, Follows, OnePass, Steps.Chosen, Steps.AfterStep, Steps.AfterError;
      StepFollows(init, trace, mark, Now(), Steps.IsolationFailure, b, strict);
      rec := Read();
      pc, trace := Steps.Deciding(rec, HandedOff), trace + [Steps.IsolationFailure];
    }

    /** After the step: `_after_failure`, or the move that the completed state calls for. */
    method Settle(state: State, session: string, ok: bool, limitHit: bool) returns (rec: Record, move: Option<State>)
      requires Running() && pc == Steps.Recorded(state, session, ok, limitHit)
      modifies this`pc, this`trace
      ensures Running() && trace == old(trace) + [Steps.Reread]
      ensures pc == if move.Some? then Steps.Deciding(rec, move.value) else Steps.Idle
    {
      hide Perform, Decide, Fold, store.Valid, Follows, OnePass, Steps.Chosen, Steps.AfterError;
      hide Steps.FailuresInState, RefutedAll, FailCount, Steps.Exec, Steps.Initial;
      StepFollows(init, trace, mark, Now(), Steps.Reread, b, strict);
      rec := Read();
      move := None;
      if state == Resolved {
      } else if !ok {
        if limitHit {
          move := Some(HandedOff);
        } else if Steps.FailuresInState(rec, StepRole(state)) > b.p08 {
          move := Some(HandedOff);
        }
      } else {
        match state {
          case Diagnosing =>
            if rec.recoveries != [] || RefutedAll(rec) {
              move := Some(Reporting);
            } else {
              move := Some(Recommending);
            }
          case Recommending => move := Some(Judging);
          case Judging =>
            if rec.verdicts != [] && rec.verdicts[|rec.verdicts|-1].result == Pass {
              move := Some(Reporting);
            } else if FailCount(rec.verdicts) <= b.p09 {
              move := Some(Recommending);
            } else {
              move := Some(HandedOff);
            }
          case Reporting => move := Some(AwaitingOperator);
          case _ =>
        }
      }
      pc, trace := if move.Some? then Steps.Deciding(rec, move.value) else Steps.Idle, trace + [Steps.Reread];
    }

    // -------------------------------------------------------------- advance

    /** The `finally` of `run_step`. */
    method Close(state: State, session: string, w: World)
      requires Running() && pc == Steps.Working(state, session) && ForeignWorld(w)
      modifies this`pc, this`live, this`orphans, this`trace, store`rows, store`records
      ensures Running() && pc == Steps.Checking(state, session) && live.None? && old(trace) <= trace
    {
      hide Running;
      Revoke(state, session);
      Others(w.beforeCost);
      if w.metered && w.costLost {
        LoseCost(state, session);
      } else if w.metered {
        RecordCost(state, session, w);
      }
    }

    /** `run_step`. */
    method RunStep(state: State, session: string, w: World) returns (result: Result)
      requires Running() && pc == Steps.Working(state, session) && ForeignWorld(w)
      modifies this`pc, this`live, this`faults, this`orphans, this`trace, store`rows, store`records
      ensures Running() && old(trace) <= trace
      ensures match result
        case Finished(ok, limitHit) => pc == Steps.Recorded(state, session, ok, limitHit)
        case NotIsolated => state == Judging && pc == Steps.Checking(state, session)
        case Raised(trouble) => trouble != Fine && live.None?
        case Interrupted => pc == Steps.Idle
      ensures w.inStep != Fine ==> result == Raised(w.inStep) && pc == Steps.Checking(state, session)
    {
      hide Running;
      Others(w.during);
      Close(state, session, w);
      if w.inStep != Fine {
        return Raised(w.inStep);
      }
      if !w.isolated && state == Judging {
        return NotIsolated;
      }
      Others(w.beforeCheck);
      if w.atCheck != Fine {
        return Raised(w.atCheck);
      }
      var ok, limitHit := Validate(state, session, w);
      Others(w.beforeRecord);
      if w.stepLost {
        GiveUp(if strict then [] else [Steps.LateStep(state, session, ok)], false);
        return Interrupted;
      }
      var recorded := RecordStep(state, session, ok, limitHit, w);
      return if recorded then Finished(ok, limitHit) else Interrupted;
    }

    /** A transition of `advance`; when the store refuses it for good, `tick` hands the episode off. */
    method MoveTo(rec: Record, to: State, w: World)
      requires Running() && pc == Steps.Deciding(rec, to) && ForeignWorld(w)
      modifies this`pc, this`live, this`lost, this`faults, this`orphans, this`trace, store`rows, store`records
      ensures Running() && pc == Steps.Idle && old(trace) <= trace
    {
      hide Running, Fold, Perform;
      Others(w.beforeMove);
      if w.moveLost {
        GiveUp(if strict then [] else [Steps.LateCas(rec, to)], false);
        return;
      }
      var refused := Transition(rec, to, w.moveEnv);
      if refused {
        Rescue(w);
      }
    }

    /** The part of `advance` from the step on. */
    method StepAndMove(state: State, session: string, w: World)
      requires Running() && pc == Steps.Working(state, session) && ForeignWorld(w)
      modifies this`pc, this`live, this`lost, this`faults, this`orphans, this`trace, store`rows, store`records
      ensures Running() && pc == Steps.Idle && old(trace) <= trace
    {
      hide Running, Fold;
      var result := RunStep(state, session, w);
      match result
      case Interrupted =>
      case Raised(trouble) => Handle(trouble, w);
      case NotIsolated =>
        if w.atRead != Fine {
          Handle(w.atRead, w);
          return;
        }
        var rec := Distrust(session);
        MoveTo(rec, HandedOff, w);
      case Finished(ok, limitHit) =>
        Others(w.beforeRead);
        if state != Resolved && w.atRead != Fine {
          Handle(w.atRead, w);
          return;
        }
        var rec, move := Settle(state, session, ok, limitHit);
        if move.Some? {
          MoveTo(rec, move.value, w);
        }
    }

    /** `advance` as `tick` calls it: one pass over the episode. Whatever the world does, errors included, it is
        one run of the step system to rest, so the Judge has sent the episode back at most P-09 times and
        the steps started are within the retry budgets. */
    method Advance(session: string, bundle: Steps.BundleStatus, llm: bool, w: World)
      requires Ready() && pc == Steps.Idle && session !in minted && |session| <= 100 && ForeignWorld(w)
      modifies this`pc, this`minted, this`live, this`started, this`lost, this`faults, this`orphans, this`trace
      modifies this`mark, store`rows, store`records
      ensures Ready() && pc == Steps.Idle
      ensures old(trace) < trace && OnePass(trace, |old(trace)|)
      ensures trace[|old(trace)|] ==
        match w.atHead
        case Fine => Steps.Begin(session, bundle, llm)
        case Away => Steps.Crash(true)
        case Broken => Steps.Fault(true)
      ensures Returns(Fold(Log()).history) <= b.p09
      ensures started <= (2 * b.p09 + 4) * (b.p08 + 1) + lost + faults
    {
      hide Running, Ready, OnePass, Fold;
      if w.atHead != Fine {
        Enter();
        Handle(w.atHead, w);
      } else {
        var choice := Choose(session, bundle, llm);
        match choice {
          case Stop =>
          case Move(rec, to) => MoveTo(rec, to, w);
          case Launch(state) => StepAndMove(state, session, w);
        }
      }
      Bounded();
    }

    ghost method Enter()
      requires Ready()
      modifies this`mark
      ensures Running() && mark == |trace|
    {
      mark := |trace|;
    }

    lemma {:induction false} Bounded()
      requires Running()
      ensures Ready() && OnePass(trace, mark)
      ensures Returns(Fold(Log()).history) <= b.p09
      ensures started <= (2 * b.p09 + 4) * (b.p08 + 1) + lost + faults
    {
      hide Fold, Steps.Exec, Steps.Initial, store.Valid;
      RunnerSafety.AtMostP09Returns(init, trace, b, strict);
      RunnerBound.StepsBounded(init, trace, b, strict);
    }
  }

  lemma {:induction false} NeverRefused(init: Steps.System, trace: seq<Label>, reason: string, b: Budgets, strict: bool)
    requires Steps.Initial(init)
    ensures var s := Steps.Exec(init, trace, b, strict);
      s.pc.Recording? ==> Decide(s.log, Steps.StepRequest(s.pc.state, s.pc.session, s.pc.ok, reason)).Write?
  {
    hide Decide, RunnerFaults.Keyed, Gated, RunnerSafety.Known, RunnerSafety.PcOk, RunnerSafety.OrphansOk;
    RunnerSafety.ReachableSafe(init, trace, b, strict);
    RunnerFaults.ReachableKeyed(init, trace, b, strict);
    var s := Steps.Exec(init, trace, b, strict);
    if s.pc.Recording? {
      RunnerFaults.StepAccepted(s, reason, strict);
    }
  }

  lemma {:induction false} RecordStepNext(s: Steps.System, reason: string, env: Env, b: Budgets, strict: bool)
    requires s.pc.Recording? && Steps.Timely(s.log, env)
    requires Decide(s.log, Steps.StepRequest(s.pc.state, s.pc.session, s.pc.ok, reason)).Write?
    ensures var (log, outcome) := Perform(s.log, Steps.StepRequest(s.pc.state, s.pc.session, s.pc.ok, reason), env);
      && outcome.Done? == env.auditOk && (outcome.Failed? ==> log == s.log)
      && Steps.Next(s, Steps.RecordStep(reason, env), b, strict) ==
         if env.auditOk then s.(log := log, pc := Steps.Recorded(s.pc.state, s.pc.session, s.pc.ok, s.pc.limitHit))
         else s.(pc := Steps.Idle, faults := s.faults + 1)
  {
    hide Decide;
  }

  predicate Won(log: seq<Entry>, rq: Request, env: Env) {
    Decide(log, rq).Write? && env.auditOk
  }

  lemma {:induction false} CasNext(s: Steps.System, env: Env, b: Budgets, strict: bool)
    requires s.pc.Deciding? && Steps.Timely(s.log, env)
    ensures var rq := Steps.CasRequest(s.pc.rec, s.pc.to);
      var won, overtaken := Won(s.log, rq, env), Fold(s.log).revision != s.pc.rec.revision;
      var rest := s.(log := Perform(s.log, rq, env).0, pc := Steps.Idle);
      Steps.Next(s, Steps.Cas(env), b, strict) ==
      if won then rest else if overtaken then rest.(lost := s.lost + 1) else rest.(faults := s.faults + 1)
  {
    hide Decide, Fold;
  }
}
