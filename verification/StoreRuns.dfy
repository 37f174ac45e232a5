/** The episode store over all episodes (valops/store/service.py): `open_episode` with its deduplication, calls on
    one episode, and restarts. */
module StoreRuns {
  import opened Wrappers
  import opened Text
  import opened Transitions
  import opened EpisodeRecord
  import opened StoreSpec
  import LogFacts
  import StoreAnswers

  /** `order` is the order of the in-memory dictionary: insertion, or after a restart that of the scan. */
  datatype Store = Store(order: seq<string>, logs: map<string, seq<Entry>>, opens: map<string, Reply>)

  /** `open_episode`'s arguments; `None` for a value outside the enumeration. */
  datatype Opens = Opens(key: string, cls: Option<EpisodeClass>, source: string, check: string, severity: string,
                         validatorId: string, mode: Option<Mode>, modeEvidence: string, bundleId: string,
                         bundleOk: bool)

  datatype Step =
    | OpenStep(p: Opens, eid: string, env: Env)
    | CallStep(eid: string, rq: Request, env: Env)
    | RestartStep(order: seq<string>)

  function Members(order: seq<string>): set<string> {
    set e | e in order
  }

  const EMPTY := Store([], map[], map[])

  // ---------------------------------------------------------------- opening

  function ClassName(c: EpisodeClass): string {
    match c
    case ValidatorHealth => "validator_health"
    case TelemetryHealth => "telemetry_health"
  }

  function DedupeKey(cls: EpisodeClass, check: string, validatorId: string): string {
    ClassName(cls) + "|" + check + "|" + validatorId
  }

  function OpeningOf(p: Opens): Opening
    requires p.cls.Some? && p.mode.Some?
  {
    Opening(p.cls.value, p.source, p.check, p.severity, p.validatorId, p.bundleId, p.mode.value, p.modeEvidence,
            DedupeKey(p.cls.value, p.check, p.validatorId))
  }

  function OpenRefusal(p: Opens): Option<ErrorCode> {
    if p.cls.None? then Some(Invalid)
    else if Blank(p.source) || Blank(p.check) || Blank(p.severity) || Blank(p.validatorId) then Some(Invalid)
    else if p.mode.None? then Some(Invalid)
    else if !p.bundleOk then Some(BundleRefused)
    else None
  }

  /** The episode's log has this dedupe key and has not ended. */
  predicate Live(log: seq<Entry>, key: string) {
    Fold(log).opening.Some? && Fold(log).opening.value.dedupeKey == key && !Ended(Fold(log))
  }

  /** The scan of the dictionary: the first live episode with the key. */
  function FirstLive(order: seq<string>, logs: map<string, seq<Entry>>, key: string): Option<string> {
    if order == [] then None
    else if order[0] in logs && Live(logs[order[0]], key) then Some(order[0])
    else FirstLive(order[1..], logs, key)
  }

  function OpeningEntry(p: Opens, eid: string, env: Env): Entry
    requires p.cls.Some? && p.mode.Some?
  {
    Entry(1, env.ts, OpenedBody(OpeningOf(p)), Controller, None, env.auditRef, p.key, OpenReply(eid, false))
  }

  /** `open_episode`; `eid` is the uuid it would draw. */
  function OpenEpisode(s: Store, p: Opens, eid: string, env: Env): (Store, Outcome) {
    if Blank(p.key) then (s, Failed(Invalid))
    else if p.key in s.opens then (s, Done(s.opens[p.key]))
    else if OpenRefusal(p).Some? then (s, Failed(OpenRefusal(p).value))
    else
      var live := FirstLive(s.order, s.logs, DedupeKey(p.cls.value, p.check, p.validatorId));
      if live.Some? then
        var reply := OpenReply(live.value, true);
        (s.(opens := s.opens[p.key := reply]), Done(reply))
      else if !env.auditOk then (s, Failed(AuditUnavailable))
      else
        var reply := OpenReply(eid, false);
        (Store(s.order + [eid], s.logs[eid := [OpeningEntry(p, eid, env)]], s.opens[p.key := reply]), Done(reply))
  }

  function LogAt(s: Store, eid: string): seq<Entry> {
    if eid in s.logs then s.logs[eid] else []
  }

  function CallOn(s: Store, eid: string, rq: Request, env: Env): (Store, Outcome) {
    var (log, outcome) := Perform(LogAt(s, eid), rq, env);
    (if eid in s.logs then s.(logs := s.logs[eid := log]) else s, outcome)
  }

  /** Uuids do not repeat; a restart scans the same episodes in another order. */
  function Next(s: Store, step: Step): Store {
    match step
    case OpenStep(p, eid, env) => if eid in s.logs then s else OpenEpisode(s, p, eid, env).0
    case CallStep(eid, rq, env) => CallOn(s, eid, rq, env).0
    case RestartStep(order) => if Members(order) == Members(s.order) then s.(order := order) else s
  }

  function Exec(steps: seq<Step>): Store {
    if steps == [] then EMPTY else Next(Exec(steps[..|steps|-1]), steps[|steps|-1])
  }

  // ---------------------------------------------------------------- the invariant

  /** A legal, non-empty log whose dedupe key is that of its own class, check and validator. */
  ghost predicate EpisodeOk(log: seq<Entry>) {
    && Legal(log) && log != []
    && Fold(log).opening.Some?
    && var o := Fold(log).opening.value;
       o.dedupeKey == DedupeKey(o.cls, o.check, o.validatorId)
  }

  predicate SameSubject(a: Opening, b: Opening) {
    a.cls == b.cls && a.check == b.check && a.validatorId == b.validatorId
  }

  ghost predicate OneLive(logs: map<string, seq<Entry>>, key: string) {
    forall a, b | a in logs && b in logs && Live(logs[a], key) && Live(logs[b], key) :: a == b
  }

  ghost predicate StoreOk(s: Store) {
    && (forall e :: e in s.logs <==> e in s.order)
    && (forall e | e in s.logs :: EpisodeOk(s.logs[e]))
    && (forall key: string :: OneLive(s.logs, key))
  }

  lemma {:induction false} FirstLiveFinds(order: seq<string>, logs: map<string, seq<Entry>>, key: string)
    ensures var r := FirstLive(order, logs, key);
      && (r.Some? ==> r.value in order && r.value in logs && Live(logs[r.value], key))
      && (r.None? ==> forall e | e in order && e in logs :: !Live(logs[e], key))
  {
    if order != [] {
      FirstLiveFinds(order[1..], logs, key);
      assert order == [order[0]] + order[1..];
    }
  }

  /** The opening stays what it was, and an episode that has ended stays ended. */
  lemma {:induction false} WriteKeeps(log: seq<Entry>, e: Entry)
    requires EpisodeOk(log) && Legal(log + [e])
    ensures EpisodeOk(log + [e]) && Fold(log + [e]).opening == Fold(log).opening
    ensures Ended(Fold(log)) ==> Ended(Fold(log + [e]))
  {
    LegalPush(log, e);
    FoldPush(log, e);
    if Ended(Fold(log)) {
      LogFacts.FreezeStep(Fold(log), e);
    }
  }

  lemma {:induction false} PerformKeeps(log: seq<Entry>, rq: Request, env: Env)
    requires EpisodeOk(log)
    ensures var after := Perform(log, rq, env).0;
      && EpisodeOk(after) && log <= after
      && Fold(after).opening == Fold(log).opening
      && (Ended(Fold(log)) ==> Ended(Fold(after)))
  {
    hide Decide, Fold, EpisodeOk;
    assert Legal(log) by { EpisodeLegal(log); }
    PerformIsLegal(log, rq, env);
    if Decide(log, rq).Write? && env.auditOk {
      WriteAppends(log, rq, env);
      WriteKeeps(log, NewEntry(log, Decide(log, rq), env));
    }
  }

  lemma {:induction false} EpisodeLegal(log: seq<Entry>)
    requires EpisodeOk(log)
    ensures Legal(log) && log != []
  {
  }

  lemma {:induction false} CallKeeps(s: Store, eid: string, rq: Request, env: Env)
    requires StoreOk(s)
    ensures StoreOk(CallOn(s, eid, rq, env).0)
  {
    hide Perform, Decide, Fold, EpisodeOk;
    if eid in s.logs {
      PerformKeeps(s.logs[eid], rq, env);
      var t := CallOn(s, eid, rq, env).0;
      forall key: string ensures OneLive(t.logs, key) {
        assert OneLive(s.logs, key);
      }
    }
  }

  lemma {:induction false} OpenedEpisode(p: Opens, eid: string, env: Env)
    requires p.cls.Some? && p.mode.Some?
    ensures var log := [OpeningEntry(p, eid, env)];
      EpisodeOk(log) && !Ended(Fold(log)) && Fold(log).opening == Some(OpeningOf(p))
  {
    var log := [OpeningEntry(p, eid, env)];
    assert log[..0] == [];
  }

  lemma {:induction false} OpenKeeps(s: Store, p: Opens, eid: string, env: Env)
    requires StoreOk(s) && eid !in s.logs
    ensures StoreOk(OpenEpisode(s, p, eid, env).0)
  {
    hide Fold, EpisodeOk, Ended, Legal;
    if !Blank(p.key) && p.key !in s.opens && OpenRefusal(p).None? {
      var dedupe := DedupeKey(p.cls.value, p.check, p.validatorId);
      FirstLiveFinds(s.order, s.logs, dedupe);
      if FirstLive(s.order, s.logs, dedupe).None? && env.auditOk {
        OpenedEpisode(p, eid, env);
        var t := OpenEpisode(s, p, eid, env).0;
        forall key: string ensures OneLive(t.logs, key) {
          assert OneLive(s.logs, key);
        }
      }
    }
  }

  lemma {:induction false} RestartKeeps(s: Store, order: seq<string>)
    requires StoreOk(s) && Members(order) == Members(s.order)
    ensures StoreOk(s.(order := order))
  {
    forall e ensures e in order <==> e in s.order {
      assert e in order <==> e in Members(order);
      assert e in s.order <==> e in Members(s.order);
    }
  }

  lemma {:induction false} ReachableOk(steps: seq<Step>)
    ensures StoreOk(Exec(steps))
  {
    if steps != [] {
      var s, step := Exec(steps[..|steps|-1]), steps[|steps|-1];
      ReachableOk(steps[..|steps|-1]);
      match step
      case OpenStep(p, eid, env) =>
        if eid !in s.logs {
          OpenKeeps(s, p, eid, env);
        }
      case CallStep(eid, rq, env) => CallKeeps(s, eid, rq, env);
      case RestartStep(order) =>
        if Members(order) == Members(s.order) {
          RestartKeeps(s, order);
        }
    }
  }

  // ---------------------------------------------------------------- main results

  /** In every reachable store at most one episode of a class, check and validator has not ended. */
  lemma {:induction false} OneOpenEpisode(steps: seq<Step>, a: string, b: string)
    requires var s := Exec(steps);
      && a in s.logs && b in s.logs && !Ended(Fold(s.logs[a])) && !Ended(Fold(s.logs[b]))
    ensures var s := Exec(steps);
      && Fold(s.logs[a]).opening.Some? && Fold(s.logs[b]).opening.Some?
      && (SameSubject(Fold(s.logs[a]).opening.value, Fold(s.logs[b]).opening.value) ==> a == b)
  {
    ReachableOk(steps);
    var s := Exec(steps);
    assert EpisodeOk(s.logs[a]) && EpisodeOk(s.logs[b]);
    if SameSubject(Fold(s.logs[a]).opening.value, Fold(s.logs[b]).opening.value) {
      assert OneLive(s.logs, Fold(s.logs[a]).opening.value.dedupeKey);
    }
  }

  lemma {:induction false} NextGrows(s: Store, step: Step, eid: string)
    requires StoreOk(s) && eid in s.logs
    ensures eid in Next(s, step).logs && s.logs[eid] <= Next(s, step).logs[eid]
  {
    hide Perform, Fold, FirstLive, EpisodeOk;
    match step
    case CallStep(other, rq, env) =>
      if other in s.logs {
        PerformKeeps(s.logs[other], rq, env);
      }
    case _ =>
  }

  /** Logs are append-only across all operations and restarts, so what a log says of an ended episode
      (LogFacts.TerminalFreeze) holds of every later store. */
  lemma {:induction false} LogsGrow(steps: seq<Step>, n: nat, eid: string)
    requires n <= |steps| && eid in Exec(steps[..n]).logs
    ensures eid in Exec(steps).logs && Exec(steps[..n]).logs[eid] <= Exec(steps).logs[eid]
    decreases |steps|
  {
    if n < |steps| {
      var before := steps[..|steps|-1];
      assert before[..n] == steps[..n];
      LogsGrow(before, n, eid);
      ReachableOk(before);
      NextGrows(Exec(before), steps[|steps|-1], eid);
    } else {
      assert steps[..n] == steps;
    }
  }

  /** An episode that has ended is never live again: the freeze over whole runs. */
  lemma {:induction false} EndedForGood(steps: seq<Step>, n: nat, eid: string)
    requires n <= |steps| && eid in Exec(steps[..n]).logs && Ended(Fold(Exec(steps[..n]).logs[eid]))
    ensures eid in Exec(steps).logs
    ensures Fold(Exec(steps).logs[eid]).state == Fold(Exec(steps[..n]).logs[eid]).state
  {
    LogsGrow(steps, n, eid);
    ReachableOk(steps);
    var early, late := Exec(steps[..n]).logs[eid], Exec(steps).logs[eid];
    EpisodeLegal(late);
    assert late[..|early|] == early && late[..|late|] == late;
    LogFacts.TerminalFreeze(late, |early|, |late|);
  }

  /** Two stores that differ in the dictionary's order only. */
  predicate SameBut(s: Store, t: Store) {
    s.logs == t.logs && s.opens == t.opens && Members(s.order) == Members(t.order)
  }

  lemma {:induction false} FirstLiveAgrees(s: Store, t: Store, key: string)
    requires StoreOk(s) && StoreOk(t) && s.logs == t.logs
    ensures FirstLive(s.order, s.logs, key) == FirstLive(t.order, t.logs, key)
  {
    hide EpisodeOk, Live;
    FirstLiveFinds(s.order, s.logs, key);
    FirstLiveFinds(t.order, t.logs, key);
    assert OneLive(s.logs, key);
  }

  lemma {:induction false} MembersPush(order: seq<string>, eid: string)
    ensures Members(order + [eid]) == Members(order) + {eid}
  {
  }

  /** A restart is invisible: from stores that differ in order only, every operation answers the same and
      leaves stores that differ in order only. */
  lemma {:induction false} RestartIsInvisible(s: Store, t: Store, p: Opens, fresh': string, eid: string, rq: Request,
      env: Env)
    requires StoreOk(s) && StoreOk(t) && SameBut(s, t)
    ensures OpenEpisode(s, p, fresh', env).1 == OpenEpisode(t, p, fresh', env).1
    ensures SameBut(OpenEpisode(s, p, fresh', env).0, OpenEpisode(t, p, fresh', env).0)
    ensures CallOn(s, eid, rq, env).1 == CallOn(t, eid, rq, env).1
    ensures SameBut(CallOn(s, eid, rq, env).0, CallOn(t, eid, rq, env).0)
  {
    hide Perform, FirstLive, StoreOk;
    MembersPush(s.order, fresh');
    MembersPush(t.order, fresh');
    if p.cls.Some? {
      FirstLiveAgrees(s, t, DedupeKey(p.cls.value, p.check, p.validatorId));
    }
  }

  function WithoutRestarts(steps: seq<Step>): seq<Step> {
    if steps == [] then []
    else WithoutRestarts(steps[..|steps|-1]) + (if steps[|steps|-1].RestartStep? then [] else [steps[|steps|-1]])
  }

  lemma {:induction false} NextAgrees(s: Store, t: Store, step: Step)
    requires StoreOk(s) && StoreOk(t) && SameBut(s, t)
    ensures step.RestartStep? ==> SameBut(Next(s, step), t)
    ensures !step.RestartStep? ==> SameBut(Next(s, step), Next(t, step))
  {
    hide OpenEpisode, CallOn, StoreOk;
    match step
    case OpenStep(p, eid, env) => RestartIsInvisible(s, t, p, eid, "",
      Request(Controller, None, "", AddSignal(Snapshot("", ""))), env);
    case CallStep(eid, rq, env) => RestartIsInvisible(s, t, Opens("", None, "", "", "", "", None, "", "", false), "",
      eid, rq, env);
    case RestartStep(_) =>
  }

  /** Erasing every restart from a run changes at most the order of the dictionary. */
  lemma {:induction false} RestartsErased(steps: seq<Step>)
    ensures SameBut(Exec(steps), Exec(WithoutRestarts(steps)))
  {
    hide Next;
    if steps != [] {
      var before, step := steps[..|steps|-1], steps[|steps|-1];
      RestartsErased(before);
      ReachableOk(before);
      ReachableOk(WithoutRestarts(before));
      NextAgrees(Exec(before), Exec(WithoutRestarts(before)), step);
      var kept := WithoutRestarts(before) + [step];
      assert kept[..|kept|-1] == WithoutRestarts(before);
      if step.RestartStep? {
        assert WithoutRestarts(steps) == WithoutRestarts(before);
      }
    }
  }

  lemma {:induction false} OpenRecorded(s: Store, p: Opens, eid: string, env: Env)
    requires OpenEpisode(s, p, eid, env).1.Done?
    ensures !Blank(p.key)
    ensures var (t, outcome) := OpenEpisode(s, p, eid, env); p.key in t.opens && outcome == Done(t.opens[p.key])
  {
    hide FirstLive, DedupeKey, OpenRefusal;
  }

  lemma {:induction false} OpensKeptOver(steps: seq<Step>, later: seq<Step>, key: string)
    requires key in Exec(steps).opens
    ensures key in Exec(steps + later).opens && Exec(steps + later).opens[key] == Exec(steps).opens[key]
    decreases |later|
  {
    hide Next;
    if later == [] {
      assert steps + later == steps;
    } else {
      var n := |later| - 1;
      var run := steps + later;
      assert run[..|run|-1] == steps + later[..n];
      OpensKeptOver(steps, later[..n], key);
      OpensKept(Exec(steps + later[..n]), later[n], key);
    }
  }

  /** A repeated `open_episode` key answers as the first time, whatever has happened since, and changes
      nothing. */
  lemma {:induction false} OpenReplays(steps: seq<Step>, p: Opens, eid: string, env: Env, later: seq<Step>, q: Opens,
      other: string, env': Env)
    requires OpenEpisode(Exec(steps), p, eid, env).1.Done? && q.key == p.key && eid !in Exec(steps).logs
    ensures var s := Exec(steps + [OpenStep(p, eid, env)] + later);
      OpenEpisode(s, q, other, env') == (s, OpenEpisode(Exec(steps), p, eid, env).1)
  {
    var run := steps + [OpenStep(p, eid, env)];
    assert run[..|run|-1] == steps;
    assert Exec(run) == OpenEpisode(Exec(steps), p, eid, env).0;
    hide FirstLive, DedupeKey, OpenRefusal, Exec;
    OpenRecorded(Exec(steps), p, eid, env);
    OpensKeptOver(run, later, p.key);
  }

  lemma {:induction false} OpensKept(s: Store, step: Step, key: string)
    requires key in s.opens
    ensures key in Next(s, step).opens && Next(s, step).opens[key] == s.opens[key]
  {
    hide FirstLive, Perform, OpenRefusal, DedupeKey;
  }

  // ---------------------------------------------------------------- the dedupe key

  predicate NoBar(s: string) {
    forall i | 0 <= i < |s| :: s[i] != '|'
  }

  lemma {:induction false} BarInside(a: string, x: string, b: string, y: string)
    requires |a| < |b| && NoBar(b)
    ensures a + "|" + x != b + "|" + y
  {
    var k, l := a + "|" + x, b + "|" + y;
    assert k[|a|] == '|';
    assert l[|a|] == b[|a|];
  }

  lemma {:induction false} BarSplits(a: string, x: string, b: string, y: string)
    requires NoBar(a) && NoBar(b) && a + "|" + x == b + "|" + y
    ensures a == b && x == y
  {
    var k := a + "|" + x;
    if |a| < |b| {
      BarInside(a, x, b, y);
    } else if |b| < |a| {
      BarInside(b, y, a, x);
    } else {
      assert a == k[..|a|] == b;
      assert x == k[|a| + 1..] == y;
    }
  }

  /** No other subject that `open_episode` accepts has this one's key. */
  ghost predicate Unambiguous(c: EpisodeClass, x: string, v: string) {
    forall c', x', v' | !Blank(x') && !Blank(v') && DedupeKey(c', x', v') == DedupeKey(c, x, v) ::
      c' == c && x' == x && v' == v
  }

  /** The bar at j has something other than white space on both sides. */
  predicate SplitsAt(y: string, j: nat)
    requires j < |y|
  {
    y[j] == '|' && !Blank(y[..j]) && !Blank(y[j + 1..])
  }

  lemma {:induction false} KeyParts(c: EpisodeClass, x: string, v: string)
    ensures DedupeKey(c, x, v) == ClassName(c) + "|" + (x + "|" + v)
    ensures NoBar(ClassName(c))
  {
    hide ClassName;
    assert NoBar(ClassName(c)) by { ClassNameBarFree(c); }
  }

  lemma {:induction false} ClassNameBarFree(c: EpisodeClass)
    ensures NoBar(ClassName(c))
  {
  }

  lemma {:induction false} ClassNamed(c: EpisodeClass, c': EpisodeClass)
    requires ClassName(c) == ClassName(c')
    ensures c == c'
  {
    assert ClassName(ValidatorHealth)[0] == 'v' && ClassName(TelemetryHealth)[0] == 't';
  }

  lemma {:induction false} Rejoined(x: string, v: string, x': string, v': string)
    requires x' + "|" + v' == x + "|" + v
    ensures var y := x + "|" + v;
      |x'| < |y| && y[|x'|] == '|' && y[..|x'|] == x' && y[|x'| + 1..] == v' && (|x'| == |x| ==> x' == x && v' == v)
  {
    var y := x + "|" + v;
    assert y == x' + "|" + v';
    assert y[..|x|] == x && y[|x| + 1..] == v;
  }

  lemma {:induction false} SplitShares(c: EpisodeClass, x: string, v: string, j: nat)
    requires j < |x| + 1 + |v| && (x + "|" + v)[j] == '|'
    ensures var y := x + "|" + v; DedupeKey(c, y[..j], y[j + 1..]) == DedupeKey(c, x, v)
  {
    var y := x + "|" + v;
    KeyParts(c, x, v);
    KeyParts(c, y[..j], y[j + 1..]);
    assert y[..j] + "|" + y[j + 1..] == y;
  }

  /** Exactly when no other bar splits check and validator into two non-blank parts does an accepted subject have
      a dedupe key of its own. */
  lemma {:induction false} UnambiguousIff(c: EpisodeClass, x: string, v: string)
    requires !Blank(x) && !Blank(v)
    ensures var y := x + "|" + v; Unambiguous(c, x, v) <==> forall j: nat | j < |y| && j != |x| :: !SplitsAt(y, j)
  {
    hide DedupeKey, ClassName, Blank, NoBar;
    var y := x + "|" + v;
    if forall j: nat | j < |y| && j != |x| :: !SplitsAt(y, j) {
      forall c', x', v' | !Blank(x') && !Blank(v') && DedupeKey(c', x', v') == DedupeKey(c, x, v)
        ensures c' == c && x' == x && v' == v
      {
        KeyParts(c, x, v);
        KeyParts(c', x', v');
        BarSplits(ClassName(c), y, ClassName(c'), x' + "|" + v');
        ClassNamed(c, c');
        Rejoined(x, v, x', v');
        assert |x'| != |x| ==> SplitsAt(y, |x'|);
      }
    } else {
      var j: nat :| j < |y| && j != |x| && SplitsAt(y, j);
      SplitShares(c, x, v, j);
      assert |y[..j]| == j;
    }
  }

  /** The name of a class in the key. */
  predicate Named(c: EpisodeClass, name: string) {
    (c == ValidatorHealth && name == "validator_health") || (c == TelemetryHealth && name == "telemetry_health")
  }

  /** The episode was opened on this subject's key, and is neither resolved nor handed off. */
  ghost predicate Unfinished(log: seq<Entry>, p: Opens)
    requires p.cls.Some?
  {
    var rec := Fold(log);
    && rec.opening.Some? && rec.state != Some(Resolved) && rec.state != Some(HandedOff)
    && exists name: string ::
         Named(p.cls.value, name) && rec.opening.value.dedupeKey == name + "|" + p.check + "|" + p.validatorId
  }

  lemma {:induction false} UnfinishedIff(log: seq<Entry>, p: Opens)
    requires p.cls.Some?
    ensures Unfinished(log, p) <==> Live(log, DedupeKey(p.cls.value, p.check, p.validatorId))
  {
    hide Fold;
    assert Named(p.cls.value, ClassName(p.cls.value));
  }

  /** An acceptable opening under a fresh key is answered with episode e exactly if e has its dedupe key and has not
      ended: in every reachable store there is at most one such, and nothing is written. */
  lemma {:induction false} LiveKeyAnswers(steps: seq<Step>, q: Opens, eid: string, env: Env, e: string)
    requires !Blank(q.key) && q.key !in Exec(steps).opens && OpenRefusal(q).None?
    ensures var s := Exec(steps); var (t, o) := OpenEpisode(s, q, eid, env);
      var live := e in s.logs && Unfinished(s.logs[e], q);
      && (o == Done(OpenReply(e, true)) <==> live)
      && (live ==> t.logs == s.logs)
  {
    hide Fold, DedupeKey, Live, EpisodeOk, Unfinished;
    var s, key := Exec(steps), DedupeKey(q.cls.value, q.check, q.validatorId);
    ReachableOk(steps);
    if e in s.logs {
      UnfinishedIff(s.logs[e], q);
    }
    FirstLiveFinds(s.order, s.logs, key);
    assert OneLive(s.logs, key);
  }

  /** What a new episode's record says: the subject it was opened on, the bundle it is bound to, and nothing yet. */
  ghost predicate OpenedOn(rec: Record, p: Opens, ts: int) {
    && p.cls.Some? && p.mode.Some? && rec.opening.Some?
    && var o := rec.opening.value;
    && o.cls == p.cls.value && o.source == p.source && o.check == p.check && o.severity == p.severity
    && o.validatorId == p.validatorId && o.bundleId == p.bundleId && o.mode == p.mode.value
    && o.modeEvidence == p.modeEvidence
    && (exists name: string :: Named(o.cls, name) && o.dedupeKey == name + "|" + p.check + "|" + p.validatorId)
    && rec == EMPTY_RECORD.(revision := 1, opening := rec.opening, state := Some(Open),
                            history := [StateChange(None, Open, Controller, 1, ts)])
  }

  /** Why an opening is refused: the checks in their order. */
  function OpenChecks(p: Opens): Option<ErrorCode> {
    StoreAnswers.Require(p.cls.Some?, Invalid,
    StoreAnswers.Require(!Blank(p.source) && !Blank(p.check) && !Blank(p.severity) && !Blank(p.validatorId), Invalid,
    StoreAnswers.Require(p.mode.Some?, Invalid,
    StoreAnswers.Require(p.bundleOk, BundleRefused, None))))
  }

  lemma {:induction false} OpenChecksIff(p: Opens)
    ensures OpenChecks(p) == OpenRefusal(p)
  {
    hide Blank;
  }

  lemma {:induction false} OpenedRecord(p: Opens, eid: string, env: Env)
    requires p.cls.Some? && p.mode.Some?
    ensures OpenedOn(Fold([OpeningEntry(p, eid, env)]), p, env.ts)
  {
    var log := [OpeningEntry(p, eid, env)];
    assert log[..0] == [];
    assert Named(p.cls.value, ClassName(p.cls.value));
  }

  /** A refused opening answers with the first failing check, and changes nothing. */
  lemma {:induction false} OpenRefused(s: Store, p: Opens, eid: string, env: Env)
    requires p.key !in s.opens
    ensures var refused := StoreAnswers.Require(!Blank(p.key), Invalid, OpenChecks(p));
      refused.Some? ==> OpenEpisode(s, p, eid, env) == (s, Failed(refused.value))
  {
    hide Blank;
    OpenChecksIff(p);
  }

  /** In every reachable store, an opening that passes its checks and whose key no unfinished episode has makes a new
      episode on exactly this subject, bundle and mode, and touches no other; or nothing, if it is not audited. */
  lemma {:induction false} OpenedNew(steps: seq<Step>, p: Opens, eid: string, env: Env)
    requires !Blank(p.key) && p.key !in Exec(steps).opens && OpenChecks(p).None?
    requires p.cls.Some? && forall e | e in Exec(steps).logs :: !Unfinished(Exec(steps).logs[e], p)
    ensures var s := Exec(steps); var (t, o) := OpenEpisode(s, p, eid, env);
      if !env.auditOk then t == s && o == Failed(AuditUnavailable)
      else
        && o == Done(OpenReply(eid, false)) && t.order == s.order + [eid]
        && t.opens == s.opens[p.key := OpenReply(eid, false)]
        && eid in t.logs && |t.logs[eid]| == 1 && t.logs == s.logs[eid := t.logs[eid]]
        && OpenedOn(Fold(t.logs[eid]), p, env.ts)
  {
    hide Fold, DedupeKey, Live, EpisodeOk, Blank, OpenedOn, Exec, Unfinished;
    var s := Exec(steps);
    forall e | e in s.logs ensures !Live(s.logs[e], DedupeKey(p.cls.value, p.check, p.validatorId)) {
      UnfinishedIff(s.logs[e], p);
    }
    OpenChecksIff(p);
    ReachableOk(steps);
    FirstLiveFinds(s.order, s.logs, DedupeKey(p.cls.value, p.check, p.validatorId));
    OpenedRecord(p, eid, env);
  }

  /** Every accepted subject whose key has a second splitting bar shares its episode with another accepted
      subject: in whatever run the first is opened, the second is answered with the first one's episode for as
      long as that has not ended. */
  lemma {:induction false} SplitSubjectShares(steps: seq<Step>, p: Opens, e: string, env: Env, later: seq<Step>,
      q: Opens, eid: string, j: nat)
    requires p.cls.Some? && OpenEpisode(Exec(steps), p, e, env).1 == Done(OpenReply(e, false)) && e !in Exec(steps).logs
    requires p.key !in Exec(steps).opens
    requires var y := p.check + "|" + p.validatorId;
      j < |y| && j != |p.check| && SplitsAt(y, j) && q.check == y[..j] && q.validatorId == y[j + 1..] && q.cls == p.cls
    requires var s := Exec(steps + [OpenStep(p, e, env)] + later);
      !Blank(q.key) && q.key !in s.opens && OpenRefusal(q).None? && e in s.logs && !Ended(Fold(s.logs[e]))
    ensures p.check != q.check
    ensures OpenEpisode(Exec(steps + [OpenStep(p, e, env)] + later), q, eid, env).1 == Done(OpenReply(e, true))
  {
    hide Fold, DedupeKey, OpenRefusal, EpisodeOk, Ended, Blank, OpenEpisode, Unfinished;
    var run := steps + [OpenStep(p, e, env)];
    assert |q.check| == j;
    UnfinishedIff(Exec(run + later).logs[e], q);
    SplitShares(p.cls.value, p.check, p.validatorId, j);
    OpenedStays(steps, p, e, env, later);
    LiveKeyAnswers(run + later, q, eid, env, e);
  }

  lemma {:induction false} OpenedHere(s: Store, p: Opens, e: string, env: Env)
    requires OpenEpisode(s, p, e, env).1 == Done(OpenReply(e, false)) && p.key !in s.opens && e !in s.logs
    ensures p.cls.Some? && p.mode.Some? && e in OpenEpisode(s, p, e, env).0.logs
    ensures OpenEpisode(s, p, e, env).0.logs[e] == [OpeningEntry(p, e, env)]
  {
    hide Fold, DedupeKey, FirstLive;
  }

  /** An opened episode keeps its opening. */
  lemma {:induction false} OpenedStays(steps: seq<Step>, p: Opens, e: string, env: Env, later: seq<Step>)
    requires OpenEpisode(Exec(steps), p, e, env).1 == Done(OpenReply(e, false)) && e !in Exec(steps).logs
    requires p.key !in Exec(steps).opens
    ensures var s := Exec(steps + [OpenStep(p, e, env)] + later);
      p.cls.Some? && p.mode.Some? && e in s.logs && Fold(s.logs[e]).opening == Some(OpeningOf(p))
  {
    hide Fold, DedupeKey, OpenRefusal, EpisodeOk, Ended, Blank, OpenEpisode, OpeningOf;
    var run := steps + [OpenStep(p, e, env)];
    OpenedHere(Exec(steps), p, e, env);
    if later == [] {
      assert run[..|steps|] == steps;
      assert run + later == run;
      OpenedEpisode(p, e, env);
    } else {
      var before := later[..|later|-1];
      OpenedStays(steps, p, e, env, before);
      assert (run + later)[..|run + later|-1] == run + before;
      ReachableOk(run + before);
      OpeningStays(Exec(run + before), later[|later|-1], e);
    }
  }

  lemma {:induction false} OpeningStays(s: Store, step: Step, e: string)
    requires StoreOk(s) && e in s.logs
    ensures e in Next(s, step).logs && Fold(Next(s, step).logs[e]).opening == Fold(s.logs[e]).opening
  {
    hide Perform, Fold, FirstLive, EpisodeOk;
    match step
    case CallStep(other, rq, env) =>
      if other in s.logs {
        PerformKeeps(s.logs[other], rq, env);
      }
    case _ =>
  }

  lemma {:induction false} SharedKeyShares(p: Opens, q: Opens, first: string, second: string, env: Env)
    requires !Blank(p.key) && !Blank(q.key) && p.key != q.key && env.auditOk
    requires OpenRefusal(p).None? && OpenRefusal(q).None?
    requires DedupeKey(p.cls.value, p.check, p.validatorId) == DedupeKey(q.cls.value, q.check, q.validatorId)
    ensures var (s, o) := OpenEpisode(EMPTY, p, first, env);
      o == Done(OpenReply(first, false)) && OpenEpisode(s, q, second, env).1 == Done(OpenReply(first, true))
  {
    hide DedupeKey, Blank, Fold, Ended;
    OpenedEpisode(p, first, env);
  }

  lemma {:induction false} Solid(s: string)
    requires |s| > 0 && !Whitespace(s[0])
    ensures !Blank(s)
  {
  }

  function SampleOpening(key: string, check: string, validatorId: string): Opens {
    Opens(key, Some(ValidatorHealth), "sentinel", check, "high", validatorId, Some(Tower), "", "bundle", true)
  }

  lemma {:induction false} OpeningAccepted(key: string, check: string, validatorId: string)
    requires !Blank(check) && !Blank(validatorId)
    ensures OpenRefusal(SampleOpening(key, check, validatorId)).None?
  {
    hide Blank;
    Solid("sentinel");
    Solid("high");
  }

  /** Two different subjects with one key: while the first is open, the second is answered with its episode. */
  lemma {:induction false} DedupeKeysCollide(first: string, second: string, env: Env)
    requires env.auditOk
    ensures DedupeKey(ValidatorHealth, "a|b", "c") == DedupeKey(ValidatorHealth, "a", "b|c")
    ensures !Unambiguous(ValidatorHealth, "a|b", "c")
    ensures var (s, o) := OpenEpisode(EMPTY, SampleOpening("k", "a|b", "c"), first, env);
      && o == Done(OpenReply(first, false))
      && OpenEpisode(s, SampleOpening("l", "a", "b|c"), second, env).1 == Done(OpenReply(first, true))
  {
    var c := ClassName(ValidatorHealth);
    assert DedupeKey(ValidatorHealth, "a|b", "c") == c + "|a|b|c";
    assert DedupeKey(ValidatorHealth, "a", "b|c") == c + "|a|b|c";
    hide OpenEpisode, OpenRefusal, DedupeKey, Blank, Fold;
    Solid("a|b");
    Solid("c");
    Solid("a");
    Solid("b|c");
    Solid("k");
    Solid("l");
    OpeningAccepted("k", "a|b", "c");
    OpeningAccepted("l", "a", "b|c");
    SharedKeyShares(SampleOpening("k", "a|b", "c"), SampleOpening("l", "a", "b|c"), first, second, env);
  }
}
