/** `EpisodeStore` itself (valops/store/service.py): the table of entries, and the live records that every write
    updates in place. Each method is one locked region. */
module EpisodeStore {
  import opened Wrappers
  import opened Text
  import opened Transitions
  import opened EpisodeRecord
  import opened StoreSpec
  import opened StoreRuns
  import LogFacts

  datatype Row = Row(eid: string, entry: Entry)

  /** One episode's entries, in the order of the rows. */
  function LogOf(rows: seq<Row>, eid: string): seq<Entry> {
    if rows == [] then []
    else
      var r := rows[|rows|-1];
      if r.eid == eid then LogOf(rows[..|rows|-1], eid) + [r.entry] else LogOf(rows[..|rows|-1], eid)
  }

  lemma {:induction false} LogOfPush(rows: seq<Row>, r: Row, eid: string)
    ensures LogOf(rows + [r], eid) == if r.eid == eid then LogOf(rows, eid) + [r.entry] else LogOf(rows, eid)
  {
    assert (rows + [r])[..|rows|] == rows;
  }

  // ---------------------------------------------------------------- a scan by episode and revision

  /** Rows ordered by revision within each episode. */
  ghost predicate Scanned(rows: seq<Row>) {
    forall i, j | 0 <= i < j < |rows| && rows[i].eid == rows[j].eid :: rows[i].entry.rev < rows[j].entry.rev
  }

  lemma {:induction false} LogCounts(rows: seq<Row>, eid: string, e: Entry)
    ensures multiset(LogOf(rows, eid))[e] == multiset(rows)[Row(eid, e)]
  {
    if rows != [] {
      var before, r := rows[..|rows|-1], rows[|rows|-1];
      LogCounts(before, eid, e);
      assert rows == before + [r];
      assert multiset(rows) == multiset(before) + multiset([r]);
      assert multiset(LogOf(rows, eid)) ==
        multiset(LogOf(before, eid)) + multiset(if r.eid == eid then [r.entry] else []);
    }
  }

  lemma {:induction false} LogMembers(rows: seq<Row>, eid: string, k: nat)
    requires k < |LogOf(rows, eid)|
    ensures Row(eid, LogOf(rows, eid)[k]) in rows
  {
    var before, r := rows[..|rows|-1], rows[|rows|-1];
    if k < |LogOf(before, eid)| {
      LogMembers(before, eid, k);
      assert LogOf(rows, eid)[k] == LogOf(before, eid)[k];
    }
  }

  lemma {:induction false} ScanIncreases(rows: seq<Row>, eid: string)
    requires Scanned(rows)
    ensures IncreasingRevs(LogOf(rows, eid))
  {
    if rows != [] {
      var before, r := rows[..|rows|-1], rows[|rows|-1];
      ScanIncreases(before, eid);
      var log := LogOf(before, eid);
      forall k | 0 <= k < |log| && r.eid == eid ensures log[k].rev < r.entry.rev {
        LogMembers(before, eid, k);
        var i :| 0 <= i < |before| && before[i] == Row(eid, log[k]);
        assert rows[i] == before[i];
      }
    }
  }

  lemma {:induction false} LargestAgree(a: seq<Entry>, b: seq<Entry>)
    requires IncreasingRevs(a) && IncreasingRevs(b) && a != [] && b != []
    requires a[|a|-1] in b && b[|b|-1] in a
    ensures a[|a|-1] == b[|b|-1]
  {
    var i :| 0 <= i < |b| && b[i] == a[|a|-1];
    var j :| 0 <= j < |a| && a[j] == b[|b|-1];
  }

  lemma {:induction false} MultisetInit(a: seq<Entry>)
    requires a != []
    ensures multiset(a[..|a|-1]) == multiset(a) - multiset{a[|a|-1]}
    ensures a[|a|-1] in multiset(a)
  {
    assert a == a[..|a|-1] + [a[|a|-1]];
  }

  lemma {:induction false} InitIncreases(a: seq<Entry>)
    requires IncreasingRevs(a) && a != []
    ensures IncreasingRevs(a[..|a|-1])
  {
  }

  lemma {:induction false} SameLength(a: seq<Entry>, b: seq<Entry>)
    requires multiset(a) == multiset(b)
    ensures |a| == |b|
  {
    assert |multiset(a)| == |a| && |multiset(b)| == |b|;
  }

  /** Two orderings of the same entries, both by strictly increasing revision, are the same. */
  lemma {:induction false} SortedUnique(a: seq<Entry>, b: seq<Entry>)
    requires IncreasingRevs(a) && IncreasingRevs(b) && multiset(a) == multiset(b)
    ensures a == b
  {
    hide IncreasingRevs;
    SameLength(a, b);
    if a != [] {
      var n := |a| - 1;
      MultisetInit(a);
      MultisetInit(b);
      assert a[n] in b && b[n] in a;
      LargestAgree(a, b);
      InitIncreases(a);
      InitIncreases(b);
      SortedUnique(a[..n], b[..n]);
      assert a == a[..n] + [a[n]];
      assert b == b[..n] + [b[n]];
    }
  }

  /** Reading the table by episode and revision gives back each episode's log. */
  lemma {:induction false} ScanKeepsLogs(rows: seq<Row>, scan: seq<Row>, eid: string)
    requires multiset(scan) == multiset(rows) && Scanned(scan) && IncreasingRevs(LogOf(rows, eid))
    ensures LogOf(scan, eid) == LogOf(rows, eid)
  {
    ScanIncreases(scan, eid);
    var a, b := LogOf(scan, eid), LogOf(rows, eid);
    forall e: Entry ensures multiset(a)[e] == multiset(b)[e] {
      LogCounts(scan, eid, e);
      LogCounts(rows, eid, e);
    }
    assert multiset(a) == multiset(b);
    SortedUnique(a, b);
  }

  // ---------------------------------------------------------------- the object

  function Logs(rows: seq<Row>, order: seq<string>): map<string, seq<Entry>> {
    map e | e in order :: LogOf(rows, e)
  }

  ghost predicate Logged(rows: seq<Row>, order: seq<string>) {
    forall e | e in order :: LogOf(rows, e) != []
  }

  /** One episode's log replaced, the others as they were. */
  lemma {:induction false} LogsUpdated(rows: seq<Row>, order: seq<string>, row: Row)
    requires row.eid in order
    ensures Logs(rows + [row], order) == Logs(rows, order)[row.eid := LogOf(rows, row.eid) + [row.entry]]
    ensures Logged(rows, order) ==> Logged(rows + [row], order)
  {
    forall e ensures LogOf(rows + [row], e) == if e == row.eid then LogOf(rows, e) + [row.entry] else LogOf(rows, e) {
      LogOfPush(rows, row, e);
    }
  }

  lemma {:induction false} LogsSame(rows: seq<Row>, order: seq<string>, eid: string)
    requires eid in order
    ensures Logs(rows, order)[eid := LogOf(rows, eid)] == Logs(rows, order)
  {
  }

  /** A call that is refused or answered from the log. */
  lemma {:induction false} Untouched(s: Store, eid: string, rq: Request, env: Env)
    requires !Decide(LogAt(s, eid), rq).Write?
    ensures var d := Decide(LogAt(s, eid), rq);
      CallOn(s, eid, rq, env) == (s, if d.Refuse? then Failed(d.code) else Done(d.reply))
  {
    hide Decide;
    if eid in s.logs {
      assert s.logs[eid := s.logs[eid]] == s.logs;
    }
  }

  /** A call that is written. */
  lemma {:induction false} Written(s: Store, eid: string, rq: Request, env: Env)
    requires eid in s.logs && Decide(LogAt(s, eid), rq).Write?
    ensures var (log, outcome) := Commit(s.logs[eid], Decide(LogAt(s, eid), rq), env);
      CallOn(s, eid, rq, env) == (s.(logs := s.logs[eid := log]), outcome)
  {
    hide Decide;
  }

  lemma {:induction false} AgentDecision(log: seq<Entry>, rq: Request)
    requires AgentCall(rq.call) && Served(rq.principal, rq.call)
    ensures AgentGate(log, rq).Some? ==> Decide(log, rq) == Refuse(AgentGate(log, rq).value)
    ensures AgentGate(log, rq).None? ==> rq.token.Some? && log != []
    ensures AgentGate(log, rq).None? ==>
      (Decide(log, rq) ==
       if BadKey(rq.key) then Refuse(Invalid)
       else if Prior(log, rq.key).Some? then Replay(Prior(log, rq.key).value)
       else ComposeAgent(Fold(log), rq.token.value, rq.call, rq.key))
  {
    hide ComposeAgent, BadKey, ToolLegal;
  }

  /** The live records are the folds of the logs, one for each episode with an entry and perhaps for one
      that is about to get its first. */
  ghost predicate Mirrors(rows: seq<Row>, order: seq<string>, records: map<string, Record>) {
    && (forall e :: e in records <==> e in order)
    && (forall e | e in records :: records[e] == Fold(LogOf(rows, e)))
    && (forall e :: LogOf(rows, e) != [] ==> e in order)
  }

  lemma {:induction false} MirrorsPush(rows: seq<Row>, order: seq<string>, records: map<string, Record>, r: Row)
    requires Mirrors(rows, order, records) && r.eid in records
    ensures Mirrors(rows + [r], order, records[r.eid := Apply(records[r.eid], r.entry)])
  {
    hide Apply, Fold;
    var after := records[r.eid := Apply(records[r.eid], r.entry)];
    FoldPush(LogOf(rows, r.eid), r.entry);
    forall e | e in after ensures after[e] == Fold(LogOf(rows + [r], e)) {
      LogOfPush(rows, r, e);
    }
    forall e ensures LogOf(rows + [r], e) != [] ==> e in order {
      LogOfPush(rows, r, e);
    }
  }

  lemma {:induction false} MirrorsOne(rows: seq<Row>, order: seq<string>, records: map<string, Record>, eid: string)
    requires Mirrors(rows, order, records) && eid in records
    ensures eid in order && records[eid] == Fold(LogOf(rows, eid))
  {
  }

  lemma {:induction false} CommitWrites(log: seq<Entry>, body: Body, author: Principal, session: Option<string>,
      key: string, reply: Reply, env: Env)
    ensures Commit(log, Write(body, author, session, key, reply), env) ==
      if env.auditOk then
        (log + [Entry(Fold(log).revision + 1, env.ts, body, author, session, env.auditRef, key, reply)], Done(reply))
      else (log, Failed(AuditUnavailable))
  {
  }

  lemma {:induction false} MirrorsNothing()
    ensures Mirrors([], [], map[]) && Logged([], [])
  {
  }

  lemma {:induction false} MirrorsUnknown(rows: seq<Row>, order: seq<string>, records: map<string, Record>, eid: string)
    requires Mirrors(rows, order, records) && eid !in order
    ensures LogOf(rows, eid) == []
  {
  }

  /** An episode about to get its first entry. */
  lemma {:induction false} MirrorsEmpty(rows: seq<Row>, order: seq<string>, records: map<string, Record>, eid: string)
    requires Mirrors(rows, order, records) && eid !in records
    ensures Mirrors(rows, order + [eid], records[eid := EMPTY_RECORD])
  {
  }

  lemma {:induction false} LoggedExcept(rows: seq<Row>, order: seq<string>, eid: string)
    requires Logged(rows, order)
    ensures forall e | e in order + [eid] :: e == eid || LogOf(rows, e) != []
  {
  }

  lemma {:induction false} LoggedPush(rows: seq<Row>, order: seq<string>, r: Row)
    requires forall e | e in order :: e == r.eid || LogOf(rows, e) != []
    ensures Logged(rows + [r], order)
  {
    forall e | e in order ensures LogOf(rows + [r], e) != [] {
      LogOfPush(rows, r, e);
    }
  }

  /** What mirrors a scan mirrors the table. */
  lemma {:induction false} MirrorsScan(table: seq<Row>, scan: seq<Row>, order: seq<string>, records: map<string,
      Record>)
    requires Mirrors(scan, order, records) && Logged(scan, order)
    requires multiset(scan) == multiset(table) && Scanned(scan) && forall e :: IncreasingRevs(LogOf(table, e))
    ensures Mirrors(table, order, records) && Logged(table, order)
    ensures forall e :: e in order <==> LogOf(table, e) != []
  {
    forall e ensures LogOf(scan, e) == LogOf(table, e) {
      ScanKeepsLogs(table, scan, e);
    }
  }

  lemma {:induction false} LogsOpened(rows: seq<Row>, order: seq<string>, eid: string, log: seq<Entry>)
    requires LogOf(rows, eid) == [] && eid !in order
    ensures Logs(rows, order + [eid])[eid := log] == Logs(rows, order)[eid := log]
  {
  }

  lemma {:induction false} FirstCommit(p: Opens, eid: string, env: Env)
    requires p.cls.Some? && p.mode.Some?
    ensures Commit([], Write(OpenedBody(OpeningOf(p)), Controller, None, p.key, OpenReply(eid, false)), env) ==
      if env.auditOk then ([OpeningEntry(p, eid, env)], Done(OpenReply(eid, false))) else ([], Failed(AuditUnavailable))
  {
    assert Fold([]).revision == 0;
    assert [] + [OpeningEntry(p, eid, env)] == [OpeningEntry(p, eid, env)];
  }

  lemma {:induction false} LoggedMore(rows: seq<Row>, order: seq<string>, after: seq<Row>, eid: string)
    requires Logged(rows, order) && LogOf(after, eid) != []
    requires Logs(after, order + [eid]) == Logs(rows, order + [eid])[eid := LogOf(after, eid)]
    ensures Logged(after, order + [eid])
  {
    var all := order + [eid];
    forall e | e in all ensures LogOf(after, e) != [] {
      if e != eid {
        assert e in order && LogOf(rows, e) != [];
        LogsAt(after, all, e);
        LogsAt(rows, all, e);
      }
    }
  }

  lemma {:induction false} LogsAt(rows: seq<Row>, order: seq<string>, eid: string)
    requires eid in order
    ensures eid in Logs(rows, order) && Logs(rows, order)[eid] == LogOf(rows, eid)
  {
  }

  lemma {:induction false} ArgumentsPresent(p: Opens)
    requires OpenRefusal(p).None?
    ensures p.cls.Some? && p.mode.Some?
  {
  }

  /** What the key lookup finds. */
  datatype Lookup = Unusable | Seen(reply: Reply) | Unseen

  class EpisodeStore {
    var rows: seq<Row>
    var order: seq<string>
    var records: map<string, Record>
    var opens: map<string, Reply>

    ghost function State(): Store
      reads this
    {
      Store(order, Logs(rows, order), opens)
    }

    ghost predicate Valid()
      reads this
    {
      Mirrors(rows, order, records) && Logged(rows, order)
    }

    /** `__init__`: the table as it is on disk, read by episode and revision, and `_rebuild`. */
    constructor (table: seq<Row>, scan: seq<Row>, opens: map<string, Reply>)
      requires multiset(scan) == multiset(table) && Scanned(scan)
      requires forall e :: IncreasingRevs(LogOf(table, e))
      ensures Valid() && rows == table && this.opens == opens
      ensures forall e :: e in order <==> LogOf(table, e) != []
    {
      rows, this.opens := table, opens;
      var met: seq<string>, live: map<string, Record> := [], map[];
      MirrorsNothing();
      hide Mirrors, Logged, Fold, Apply, Scanned, IncreasingRevs;
      for i := 0 to |scan|
        invariant Mirrors(scan[..i], met, live) && Logged(scan[..i], met)
      {
        var e := scan[i];
        assert scan[..i + 1] == scan[..i] + [e];
        LoggedExcept(scan[..i], met, e.eid);
        MirrorsKnows(scan[..i], met, live, e.eid);
        if e.eid !in live {
          MirrorsEmpty(scan[..i], met, live, e.eid);
          live, met := live[e.eid := EMPTY_RECORD], met + [e.eid];
        }
        MirrorsPush(scan[..i], met, live, e);
        LoggedPush(scan[..i], met, e);
        live := live[e.eid := Apply(live[e.eid], e.entry)];
      }
      assert scan[..|scan|] == scan;
      MirrorsScan(table, scan, met, live);
      order, records := met, live;
    }

    /** `_append`. */
    method Append(eid: string, body: Body, author: Principal, session: Option<string>, key: string, reply: Reply,
        env: Env)
      returns (o: Outcome)
      requires Mirrors(rows, order, records) && eid in records
      modifies this`rows, this`records
      ensures Mirrors(rows, order, records)
      ensures var (log, outcome) := Commit(old(LogOf(rows, eid)), Write(body, author, session, key, reply), env);
        o == outcome && LogOf(rows, eid) == log && State() == old(State()).(logs := old(State()).logs[eid := log])
      ensures old(Logged(rows, order)) ==> Logged(rows, order)
      ensures o.Failed? ==> rows == old(rows) && records == old(records)
    {
      hide Mirrors, Apply, Fold, LogOf, Commit, NewEntry, Logs, Logged;
      MirrorsOne(rows, order, records, eid);
      LogsSame(rows, order, eid);
      CommitWrites(LogOf(rows, eid), body, author, session, key, reply, env);
      if !env.auditOk {
        return Failed(AuditUnavailable);
      }
      var rec := records[eid];
      var entry := Entry(rec.revision + 1, env.ts, body, author, session, env.auditRef, key, reply);
      var row := Row(eid, entry);
      LogOfPush(rows, row, eid);
      LogsUpdated(rows, order, row);
      MirrorsPush(rows, order, records, row);
      rows := rows + [row];
      records := records[eid := Apply(rec, entry)];
      return Done(reply);
    }

    /** `_idem`: the reply stored with the episode's entry under the key. */
    method Idem(eid: string, key: string) returns (found: Lookup)
      ensures found == if BadKey(key) then Unusable
                       else if Prior(LogOf(rows, eid), key).Some? then Seen(Prior(LogOf(rows, eid), key).value)
                       else Unseen
    {
      if Blank(key) || |key| > 200 {
        return Unusable;
      }
      found := Unseen;
      for i := 0 to |rows|
        invariant found ==
          if Prior(LogOf(rows[..i], eid), key).Some? then Seen(Prior(LogOf(rows[..i], eid), key).value) else Unseen
      {
        LogOfPush(rows[..i], rows[i], eid);
        assert rows[..i + 1] == rows[..i] + [rows[i]];
        PriorPush(LogOf(rows[..i], eid), rows[i].entry, key);
        if rows[i].eid == eid && rows[i].entry.key == key {
          found := Seen(rows[i].entry.reply);
        }
      }
      assert rows[..|rows|] == rows;
    }

    /** `_agent_gate`, for the operations of the agent endpoints. */
    method PassAgentGate(eid: string, rq: Request) returns (refused: Option<ErrorCode>)
      requires Valid() && AgentCall(rq.call)
      ensures refused == AgentGate(LogAt(State(), eid), rq)
      ensures refused.None? ==> eid in records && rq.token.Some? && LogAt(State(), eid) == LogOf(rows, eid)
    {
      if rq.token.None? {
        return Some(Unauthenticated);
      }
      if eid !in records {
        return Some(NotFound);
      }
      var cap, rec := rq.token.value, records[eid];
      if rec.opening.None? || cap.bundleId != rec.opening.value.bundleId {
        return Some(BundleRefused);
      }
      if cap.role != ToolRole(rq.call) {
        return Some(Forbidden);
      }
      if !ToolLegal(rq.call, rec.state) {
        return Some(IllegalState);
      }
      return None;
    }

    /** The loop of `open_episode` over the live records. */
    method FindLive(key: string) returns (found: Option<string>)
      requires Valid()
      ensures found == FirstLive(order, Logs(rows, order), key)
    {
      hide Mirrors, Logged, Fold, Ended;
      found := None;
      for i := 0 to |order|
        invariant FirstLive(order, Logs(rows, order), key) == FirstLive(order[i..], Logs(rows, order), key)
      {
        MirrorsKnows(rows, order, records, order[i]);
        MirrorsOne(rows, order, records, order[i]);
        assert order[i..][1..] == order[i + 1..];
        var rec := records[order[i]];
        if rec.opening.Some? && rec.opening.value.dedupeKey == key && !Ended(rec) {
          return Some(order[i]);
        }
      }
    }

    /** The rest of it: a new record, its opening entry, and the record taken back if that is refused. */
    method Create(p: Opens, eid: string, env: Env) returns (o: Outcome)
      requires Valid() && eid !in order && p.cls.Some? && p.mode.Some?
      modifies this
      ensures Valid()
      ensures o == if env.auditOk then Done(OpenReply(eid, false)) else Failed(AuditUnavailable)
      ensures env.auditOk ==>
        State() == Store(old(order) + [eid], old(State()).logs[eid := [OpeningEntry(p, eid, env)]],
                         old(opens)[p.key := OpenReply(eid, false)])
      ensures !env.auditOk ==> State() == old(State())
    {
      hide Mirrors, Logged, Logs, Fold, DedupeKey;
      MirrorsKnows(rows, order, records, eid);
      MirrorsUnknown(rows, order, records, eid);
      MirrorsEmpty(rows, order, records, eid);
      LogsOpened(rows, order, eid, [OpeningEntry(p, eid, env)]);
      FirstCommit(p, eid, env);
      ghost var listed := Logged(rows, order);
      order, records := order + [eid], records[eid := EMPTY_RECORD];
      o := Append(eid, OpenedBody(OpeningOf(p)), Controller, None, p.key, OpenReply(eid, false), env);
      if o.Failed? {
        order, records := order[..|order| - 1], records - {eid};
        assert order == old(order) && records == old(records);
      } else {
        LoggedMore(old(rows), old(order), rows, eid);
        opens := opens[p.key := OpenReply(eid, false)];
      }
    }

    /** `open_episode`: a repeated key, the arguments, a live episode on the same subject, a new one. */
    method OpenEpisode(p: Opens, eid: string, env: Env) returns (o: Outcome)
      requires Valid() && eid !in order
      modifies this
      ensures Valid() && (State(), o) == StoreRuns.OpenEpisode(old(State()), p, eid, env)
    {
      hide Mirrors, Logged, FirstLive, OpenRefusal, DedupeKey;
      if Blank(p.key) {
        return Failed(Invalid);
      }
      if p.key in opens {
        return Done(opens[p.key]);
      }
      if OpenRefusal(p).Some? {
        return Failed(OpenRefusal(p).value);
      }
      ArgumentsPresent(p);
      var live := FindLive(DedupeKey(p.cls.value, p.check, p.validatorId));
      if live.Some? {
        var reply := OpenReply(live.value, true);
        opens := opens[p.key := reply];
        return Done(reply);
      }
      o := Create(p, eid, env);
    }

    /** What the sockets do: each endpoint serves its own operations. */
    method Dispatch(eid: string, rq: Request, env: Env) returns (o: Outcome)
      requires Valid()
      modifies this`rows, this`records
      ensures Valid() && (State(), o) == CallOn(old(State()), eid, rq, env)
    {
      hide Mirrors, Logged, Decide, Perform, CallOn;
      if !Served(rq.principal, rq.call) {
        UnservedRefused(State(), eid, rq, env);
        return Failed(UnknownMethod);
      }
      match rq.call
      case AddHypothesis(_, _, _, _) => o := AppendHypothesis(eid, rq, env);
      case RateHypothesis(_, _, _) => o := AppendHypothesisStatus(eid, rq, env);
      case Recommend(_, _, _, _, _, _, _, _) => o := AppendRecommendation(eid, rq, env);
      case RecommendNothing(_, _) => o := AppendNoAction(eid, rq, env);
      case GiveVerdict(_, _, _, _) => o := AppendVerdict(eid, rq, env);
      case FileReport(_, _) => o := AppendReport(eid, rq, env);
      case SetState(_, _, _) => o := SetState(eid, rq, env);
      case AddSignal(_) => o := AppendSignal(eid, rq, env);
      case Observe(_) => o := AppendObservation(eid, rq, env);
      case AddCost(_, _, _, _) => o := AppendCost(eid, rq, env);
      case AddStep(_, _, _, _, _) => o := AppendStep(eid, rq, env);
      case Annotate(_, _) => o := Annotate(eid, rq, env);
      case RecordVerification(_, _, _) => o := WriteVerification(eid, rq, env);
      case RecordRecovery(_, _) => o := AppendRecoveryObservation(eid, rq, env);
    }

    // -------------------------------------------------------------- agent operations

    /** How every agent operation begins: the gate, then the key. */
    method Enter(eid: string, rq: Request) returns (answer: Option<Outcome>)
      requires Valid() && AgentCall(rq.call) && Served(rq.principal, rq.call)
      ensures var d := Decide(LogAt(State(), eid), rq);
        answer.Some? ==> !d.Write? && answer.value == if d.Refuse? then Failed(d.code) else Done(d.reply)
      ensures answer.None? ==>
        && rq.token.Some? && eid in records && records[eid].opening.Some?
        && Decide(LogAt(State(), eid), rq) == ComposeAgent(records[eid], rq.token.value, rq.call, rq.key)
      ensures answer.None? ==> eid in order && LogAt(State(), eid) == LogOf(rows, eid)
    {
      hide Mirrors, Logged, Decide, ComposeAgent;
      AgentDecision(LogAt(State(), eid), rq);
      var refused := PassAgentGate(eid, rq);
      if refused.Some? {
        return Some(Failed(refused.value));
      }
      MirrorsOne(rows, order, records, eid);
      var found := Idem(eid, rq.key);
      match found
      case Unusable => return Some(Failed(Invalid));
      case Seen(reply) => return Some(Done(reply));
      case Unseen => return None;
    }

    method AppendHypothesis(eid: string, rq: Request, env: Env) returns (o: Outcome)
      requires Valid() && rq.call.AddHypothesis? && Served(rq.principal, rq.call)
      modifies this`rows, this`records
      ensures Valid() && (State(), o) == CallOn(old(State()), eid, rq, env)
    {
      hide Mirrors, Logged, Decide, Perform;
      CallAnswers(State(), eid, rq, env);
      var answer := Enter(eid, rq);
      if answer.Some? {
        return answer.value;
      }
      var rec, cap, c := records[eid], rq.token.value, rq.call;
      if Blank(c.claim) || Blank(c.test) || Blank(c.expectedEvidence) {
        return Failed(Contract);
      }
      if c.rank < 1 || RankTaken(rec, cap.session, c.rank) {
        return Failed(Contract);
      }
      var id := Numbered('h', |rec.hypotheses| + 1);
      o := Append(eid, HypothesisBody(id, cap.session, c.rank, c.claim, c.test, c.expectedEvidence), Agent(cap.role),
                  Some(cap.session), rq.key, IdReply(id), env);
    }

    method AppendHypothesisStatus(eid: string, rq: Request, env: Env) returns (o: Outcome)
      requires Valid() && rq.call.RateHypothesis? && Served(rq.principal, rq.call)
      modifies this`rows, this`records
      ensures Valid() && (State(), o) == CallOn(old(State()), eid, rq, env)
    {
      hide Mirrors, Logged, Decide, Perform;
      CallAnswers(State(), eid, rq, env);
      var answer := Enter(eid, rq);
      if answer.Some? {
        return answer.value;
      }
      var rec, cap, c := records[eid], rq.token.value, rq.call;
      if c.hypothesis !in HypothesisIds(rec) {
        return Failed(Contract);
      }
      if c.status == Unrated {
        return Failed(Contract);
      }
      if !EvidenceOk(rec, c.refs) {
        return Failed(Contract);
      }
      o := Append(eid, StatusBody(c.hypothesis, c.status, c.refs), Agent(cap.role), Some(cap.session), rq.key,
        OkReply, env);
    }

    method AppendRecommendation(eid: string, rq: Request, env: Env) returns (o: Outcome)
      requires Valid() && rq.call.Recommend? && Served(rq.principal, rq.call)
      modifies this`rows, this`records
      ensures Valid() && (State(), o) == CallOn(old(State()), eid, rq, env)
    {
      hide Mirrors, Logged, Decide, Perform;
      CallAnswers(State(), eid, rq, env);
      var answer := Enter(eid, rq);
      if answer.Some? {
        return answer.value;
      }
      var rec, cap, c := records[eid], rq.token.value, rq.call;
      if WroteArtefact(rec, cap.session) || !c.wellFormed {
        return Failed(Contract);
      }
      if c.onHypothesis !in HypothesisIds(rec) {
        return Failed(Contract);
      }
      if c.skill !in c.skills || !c.skills[c.skill].forPlanner {
        return Failed(Contract);
      }
      var modes := c.skills[c.skill].modes;
      if modes.Some? {
        if rec.opening.value.mode == UnknownMode {
          return Failed(Contract);
        }
        if rec.opening.value.mode !in modes.value {
          return Failed(Contract);
        }
      }
      if !EvidenceOk(rec, c.evidence) {
        return Failed(Contract);
      }
      var id := Numbered('r', |rec.recommendations| + 1);
      o := Append(eid,
                  RecommendationBody(id, c.onHypothesis, c.action, c.skill, c.preconditions, c.postcondition,
                                     c.evidence),
                  Agent(cap.role), Some(cap.session), rq.key, IdReply(id), env);
    }

    method AppendNoAction(eid: string, rq: Request, env: Env) returns (o: Outcome)
      requires Valid() && rq.call.RecommendNothing? && Served(rq.principal, rq.call)
      modifies this`rows, this`records
      ensures Valid() && (State(), o) == CallOn(old(State()), eid, rq, env)
    {
      hide Mirrors, Logged, Decide, Perform;
      CallAnswers(State(), eid, rq, env);
      var answer := Enter(eid, rq);
      if answer.Some? {
        return answer.value;
      }
      var rec, cap, c := records[eid], rq.token.value, rq.call;
      if WroteArtefact(rec, cap.session) || Blank(c.why) {
        return Failed(Contract);
      }
      if !EvidenceOk(rec, c.evidenceRefs) {
        return Failed(Contract);
      }
      var id := Numbered('n', |rec.noActions| + 1);
      o := Append(eid, NoActionBody(id, c.why, c.evidenceRefs), Agent(cap.role), Some(cap.session), rq.key,
        IdReply(id), env);
    }

    method AppendVerdict(eid: string, rq: Request, env: Env) returns (o: Outcome)
      requires Valid() && rq.call.GiveVerdict? && Served(rq.principal, rq.call)
      modifies this`rows, this`records
      ensures Valid() && (State(), o) == CallOn(old(State()), eid, rq, env)
    {
      hide Mirrors, Logged, Decide, Perform;
      CallAnswers(State(), eid, rq, env);
      var answer := Enter(eid, rq);
      if answer.Some? {
        return answer.value;
      }
      var rec, cap, c := records[eid], rq.token.value, rq.call;
      if WroteVerdict(rec, cap.session) {
        return Failed(Contract);
      }
      var under := UnderJudgement(rec);
      if under.None? || c.target != under.value.id {
        return Failed(Contract);
      }
      if c.result.None? || c.checks == [] || !c.checksWellFormed {
        return Failed(Contract);
      }
      o := Append(eid, VerdictBody(under.value.id, c.result.value, c.checks), Agent(cap.role), Some(cap.session),
                  rq.key, OkReply, env);
    }

    method AppendReport(eid: string, rq: Request, env: Env) returns (o: Outcome)
      requires Valid() && rq.call.FileReport? && Served(rq.principal, rq.call)
      modifies this`rows, this`records
      ensures Valid() && (State(), o) == CallOn(old(State()), eid, rq, env)
    {
      hide Mirrors, Logged, Decide, Perform;
      CallAnswers(State(), eid, rq, env);
      var answer := Enter(eid, rq);
      if answer.Some? {
        return answer.value;
      }
      var rec, cap, c := records[eid], rq.token.value, rq.call;
      if c.kind.None? || rec.state != Some(if c.kind.value == Incident then Reporting else Resolved) {
        return Failed(IllegalState);
      }
      if !(REPORT_PREFIX <= c.ref) {
        return Failed(Contract);
      }
      o := Append(eid, ReportBody(c.kind.value, c.ref), Agent(cap.role), Some(cap.session), rq.key, OkReply, env);
    }

    // -------------------------------------------------------------- the other endpoints

    /** How the remaining operations go on once their own arguments are in order: the record, then the key. */
    method Find(eid: string, rq: Request) returns (answer: Option<Outcome>)
      requires Valid() && OwnChecksPass(LogAt(State(), eid), rq)
      ensures var d := Decide(LogAt(State(), eid), rq);
        answer.Some? ==> !d.Write? && answer.value == if d.Refuse? then Failed(d.code) else Done(d.reply)
      ensures answer.None? ==>
        && eid in records && eid in order && LogAt(State(), eid) == LogOf(rows, eid)
        && Decide(LogAt(State(), eid), rq) == Compose(records[eid], rq, EffectiveKey(rq))
    {
      hide Mirrors, Logged, Decide, Compose, Gate;
      PlainDecision(LogAt(State(), eid), rq);
      MirrorsKnows(rows, order, records, eid);
      if eid !in records {
        return Some(Failed(NotFound));
      }
      LoggedOne(rows, order, eid);
      MirrorsOne(rows, order, records, eid);
      var found := Idem(eid, EffectiveKey(rq));
      match found
      case Unusable => return Some(Failed(Invalid));
      case Seen(reply) => return Some(Done(reply));
      case Unseen => return None;
    }

    /** `set_state` on the controller's endpoint, `_verifier_set_state` on the verifier's. */
    method SetState(eid: string, rq: Request, env: Env) returns (o: Outcome)
      requires Valid() && rq.call.SetState? && Served(rq.principal, rq.call)
      modifies this`rows, this`records
      ensures Valid() && (State(), o) == CallOn(old(State()), eid, rq, env)
    {
      hide Mirrors, Logged, Decide, Perform;
      CallAnswers(State(), eid, rq, env);
      GateDecides(LogAt(State(), eid), rq);
      var c := rq.call;
      if rq.principal == Verifier && c.to != Resolved {
        return Failed(ForbiddenTransition);
      }
      var answer := Find(eid, rq);
      if answer.Some? {
        return answer.value;
      }
      var rec := records[eid];
      if Ended(rec) {
        return Failed(TerminalEpisode);
      }
      if !EverAllowed(rq.principal, c.to) {
        return Failed(ForbiddenTransition);
      }
      if c.expected != rec.revision {
        return Failed(Conflict);
      }
      if rec.state.None? || !Allowed(rq.principal, rec.state.value, c.to) {
        return Failed(ForbiddenTransition);
      }
      var key := if rq.key == "" then StateKey(c.expected, c.to) else rq.key;
      o := Append(eid, StateBody(rec.state.value, c.to, c.reason), rq.principal, None, key,
        StateReply(rec.revision + 1, c.to), env);
    }

    /** `append_signal`, under its own principal or on behalf of the observer broker. */
    method SignalAs(eid: string, rq: Request, snap: Snapshot, source: Principal, session: Option<string>, env: Env)
      returns (o: Outcome)
      requires Valid() && OwnChecksPass(LogAt(State(), eid), rq) && !rq.call.SetState?
      requires forall rec :: Compose(rec, rq, rq.key) == ComposeSignal(rec, source, session, snap, rq.key)
      modifies this`rows, this`records
      ensures Valid() && (State(), o) == CallOn(old(State()), eid, rq, env)
    {
      hide Mirrors, Logged, Decide, Perform, Compose;
      CallAnswers(State(), eid, rq, env);
      var answer := Find(eid, rq);
      if answer.Some? {
        return answer.value;
      }
      var rec := records[eid];
      if Ended(rec) {
        return Failed(TerminalEpisode);
      }
      if Blank(snap.commandId) {
        return Failed(Invalid);
      }
      var id := Numbered('s', |rec.signals| + 1);
      o := Append(eid, SignalBody(id, snap, source), source, session, rq.key, IdReply(id), env);
    }

    method AppendSignal(eid: string, rq: Request, env: Env) returns (o: Outcome)
      requires Valid() && rq.call.AddSignal? && Served(rq.principal, rq.call)
      modifies this`rows, this`records
      ensures Valid() && (State(), o) == CallOn(old(State()), eid, rq, env)
    {
      hide Mirrors, Logged, Decide, Perform;
      CallAnswers(State(), eid, rq, env);
      o := SignalAs(eid, rq, rq.call.snapshot, rq.principal, None, env);
    }

    /** `append_observation`: the token check, then the signal. */
    method AppendObservation(eid: string, rq: Request, env: Env) returns (o: Outcome)
      requires Valid() && rq.call.Observe? && Served(rq.principal, rq.call)
      modifies this`rows, this`records
      ensures Valid() && (State(), o) == CallOn(old(State()), eid, rq, env)
    {
      hide Mirrors, Logged, Decide, Perform;
      CallAnswers(State(), eid, rq, env);
      GateDecides(LogAt(State(), eid), rq);
      MirrorsKnows(rows, order, records, eid);
      if rq.token.None? {
        return Failed(Unauthenticated);
      }
      if eid !in records {
        return Failed(NotFound);
      }
      MirrorsOne(rows, order, records, eid);
      LoggedOne(rows, order, eid);
      var cap, rec := rq.token.value, records[eid];
      if rec.opening.None? || cap.bundleId != rec.opening.value.bundleId {
        return Failed(BundleRefused);
      }
      o := SignalAs(eid, rq, rq.call.observation, ObserverFor(cap.role), Some(cap.session), env);
    }

    /** `_simple`, with the body made of the call's fields. */
    method Simple(eid: string, rq: Request, body: Body, session: Option<string>, env: Env) returns (o: Outcome)
      requires Valid() && OwnChecksPass(LogAt(State(), eid), rq) && !rq.call.SetState?
      requires forall rec ::
        Compose(rec, rq, rq.key) == Write(body, rq.principal, session, rq.key, OkRevision(rec.revision + 1))
      modifies this`rows, this`records
      ensures Valid() && (State(), o) == CallOn(old(State()), eid, rq, env)
    {
      hide Mirrors, Logged, Decide, Perform, Compose;
      CallAnswers(State(), eid, rq, env);
      var answer := Find(eid, rq);
      if answer.Some? {
        return answer.value;
      }
      o := Append(eid, body, rq.principal, session, rq.key, OkRevision(records[eid].revision + 1), env);
    }

    method AppendCost(eid: string, rq: Request, env: Env) returns (o: Outcome)
      requires Valid() && rq.call.AddCost? && Served(rq.principal, rq.call)
      modifies this`rows, this`records
      ensures Valid() && (State(), o) == CallOn(old(State()), eid, rq, env)
    {
      hide Mirrors, Logged, Decide, Perform;
      CallAnswers(State(), eid, rq, env);
      var c := rq.call;
      o := Simple(eid, rq, CostBody(c.costRole, c.usd, c.turns, c.costSession), c.costSession, env);
    }

    method AppendStep(eid: string, rq: Request, env: Env) returns (o: Outcome)
      requires Valid() && rq.call.AddStep? && Served(rq.principal, rq.call)
      modifies this`rows, this`records
      ensures Valid() && (State(), o) == CallOn(old(State()), eid, rq, env)
    {
      hide Mirrors, Logged, Decide, Perform;
      CallAnswers(State(), eid, rq, env);
      var c := rq.call;
      o := Simple(eid, rq, StepBody(c.stepRole, c.stepSession, c.ok, c.stepReason, c.inState), c.stepSession, env);
    }

    method Annotate(eid: string, rq: Request, env: Env) returns (o: Outcome)
      requires Valid() && rq.call.Annotate? && Served(rq.principal, rq.call)
      modifies this`rows, this`records
      ensures Valid() && (State(), o) == CallOn(old(State()), eid, rq, env)
    {
      hide Mirrors, Logged, Decide, Perform;
      CallAnswers(State(), eid, rq, env);
      GateDecides(LogAt(State(), eid), rq);
      var c := rq.call;
      if Blank(c.note) {
        return Failed(Invalid);
      }
      o := Simple(eid, rq, AnnotationBody(c.noteKind, c.note), None, env);
    }

    /** The first locked region of `append_verification`. */
    method CheckVerification(eid: string, rule: string) returns (refused: Option<ErrorCode>)
      requires Valid()
      ensures refused == CheckVerifiable(LogAt(State(), eid), rule)
    {
      hide Mirrors, Logged;
      MirrorsKnows(rows, order, records, eid);
      if Blank(rule) {
        return Some(Invalid);
      }
      if eid !in records {
        return Some(NotFound);
      }
      MirrorsOne(rows, order, records, eid);
      LoggedOne(rows, order, eid);
      if records[eid].state.Some? && Terminal(records[eid].state.value) {
        return Some(TerminalEpisode);
      }
      return None;
    }

    /** The second region: the write, whatever has happened since the first. */
    method WriteVerification(eid: string, rq: Request, env: Env) returns (o: Outcome)
      requires Valid() && rq.call.RecordVerification? && Served(rq.principal, rq.call)
      modifies this`rows, this`records
      ensures Valid() && (State(), o) == CallOn(old(State()), eid, rq, env)
    {
      hide Mirrors, Logged, Decide, Perform;
      CallAnswers(State(), eid, rq, env);
      GateDecides(LogAt(State(), eid), rq);
      var c := rq.call;
      if Blank(c.rule) {
        return Failed(Invalid);
      }
      o := Simple(eid, rq, VerificationBody(c.rule, c.passed, c.samples), None, env);
    }

    method AppendRecoveryObservation(eid: string, rq: Request, env: Env) returns (o: Outcome)
      requires Valid() && rq.call.RecordRecovery? && Served(rq.principal, rq.call)
      modifies this`rows, this`records
      ensures Valid() && (State(), o) == CallOn(old(State()), eid, rq, env)
    {
      hide Mirrors, Logged, Decide, Perform;
      CallAnswers(State(), eid, rq, env);
      GateDecides(LogAt(State(), eid), rq);
      var c := rq.call;
      if Blank(c.recoveredRule) {
        return Failed(Invalid);
      }
      o := Simple(eid, rq, RecoveryBody(c.recoveredRule, c.remark), None, env);
    }
  }

  /** The checks an operation makes on its own arguments, before it looks at the record. */
  predicate OwnChecksPass(log: seq<Entry>, rq: Request) {
    && Served(rq.principal, rq.call) && !AgentCall(rq.call)
    && (rq.call.Observe? ==> rq.token.Some?)
    && Gate(log, rq) == if log == [] then Some(NotFound) else None
  }

  lemma {:induction false} PlainDecision(log: seq<Entry>, rq: Request)
    requires OwnChecksPass(log, rq)
    ensures Decide(log, rq) ==
      if log == [] then Refuse(NotFound)
      else if BadKey(EffectiveKey(rq)) then Refuse(Invalid)
      else if Prior(log, EffectiveKey(rq)).Some? then Replay(Prior(log, EffectiveKey(rq)).value)
      else Compose(Fold(log), rq, EffectiveKey(rq))
  {
    hide Compose, BadKey, Gate;
  }

  lemma {:induction false} GateDecides(log: seq<Entry>, rq: Request)
    ensures Gate(log, rq).Some? ==> Decide(log, rq) == Refuse(Gate(log, rq).value)
  {
  }

  lemma {:induction false} MirrorsKnows(rows: seq<Row>, order: seq<string>, records: map<string, Record>, eid: string)
    requires Mirrors(rows, order, records)
    ensures eid in records <==> eid in order
  {
  }

  lemma {:induction false} LoggedOne(rows: seq<Row>, order: seq<string>, eid: string)
    requires Logged(rows, order) && eid in order
    ensures LogOf(rows, eid) != []
  {
  }

  /** What `CallOn` answers, by the decision on its episode's log. */
  lemma {:induction false} CallAnswers(s: Store, eid: string, rq: Request, env: Env)
    ensures var d := Decide(LogAt(s, eid), rq);
      CallOn(s, eid, rq, env) ==
      if d.Write? && eid in s.logs then
        var (log, outcome) := Commit(s.logs[eid], d, env);
        (s.(logs := s.logs[eid := log]), outcome)
      else (s, CallOn(s, eid, rq, env).1)
    ensures var d := Decide(LogAt(s, eid), rq);
      && (d.Refuse? ==> CallOn(s, eid, rq, env).1 == Failed(d.code))
      && (d.Replay? ==> CallOn(s, eid, rq, env).1 == Done(d.reply))
  {
    hide Decide;
    if eid !in s.logs {
      assert LogAt(s, eid) == [];
    } else if Decide(LogAt(s, eid), rq).Write? {
      Written(s, eid, rq, env);
    } else {
      Untouched(s, eid, rq, env);
    }
  }

  lemma {:induction false} UnservedRefused(s: Store, eid: string, rq: Request, env: Env)
    requires !Served(rq.principal, rq.call)
    ensures CallOn(s, eid, rq, env) == (s, Failed(UnknownMethod))
  {
    GateDecides(LogAt(s, eid), rq);
    Untouched(s, eid, rq, env);
  }

  /** The records are determined by the table. */
  lemma {:induction false} MirrorsUnique(rows: seq<Row>, o: seq<string>, r: map<string, Record>, o': seq<string>,
      r': map<string, Record>)
    requires Mirrors(rows, o, r) && Logged(rows, o) && Mirrors(rows, o', r') && Logged(rows, o')
    ensures r == r' && Members(o) == Members(o') && Logs(rows, o) == Logs(rows, o')
  {
    hide Fold;
    forall e ensures e in o <==> e in o' {
      assert e in o <==> LogOf(rows, e) != [];
    }
  }

  lemma {:induction false} TableIncreases(s: Store, rows: seq<Row>, e: string)
    requires StoreOk(s) && s.logs == Logs(rows, s.order) && (LogOf(rows, e) != [] ==> e in s.order)
    ensures IncreasingRevs(LogOf(rows, e))
  {
    hide Legal, Fold;
    if LogOf(rows, e) != [] {
      EpisodeLegal(s.logs[e]);
      LegalRevisions(s.logs[e]);
    }
  }

  /** A restart: a new object over the table the old one left behind, whatever order the scan puts the
      episodes in, has the same records and answers as the old one would (StoreRuns.RestartIsInvisible). */
  method Reopen(store: EpisodeStore, scan: seq<Row>) returns (again: EpisodeStore)
    requires store.Valid() && StoreOk(store.State())
    requires multiset(scan) == multiset(store.rows) && Scanned(scan)
    ensures fresh(again) && again.Valid()
    ensures again.rows == store.rows && again.records == store.records && SameBut(store.State(), again.State())
  {
    forall e ensures IncreasingRevs(LogOf(store.rows, e)) {
      TableIncreases(store.State(), store.rows, e);
    }
    hide Mirrors, Logged, StoreOk, IncreasingRevs, Scanned;
    again := new EpisodeStore(store.rows, scan, store.opens);
    MirrorsUnique(store.rows, store.order, store.records, again.order, again.records);
  }

  lemma {:induction false} PriorPush(log: seq<Entry>, e: Entry, key: string)
    ensures Prior(log + [e], key) == if e.key == key then Some(e.reply) else Prior(log, key)
  {
    assert (log + [e])[..|log|] == log;
  }
}
