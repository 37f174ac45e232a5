/** Reports of the daemon's position that overlap (valops/audit/sequencer.py, `record_daemon_checkpoint`): exactly
    when the position held can only move along one growing chain. */
module ReportRaces {
  import opened Wrappers
  import opened HashChain
  import opened AuditChain
  import opened DaemonChain

  type Log = seq<Link<Served>>

  /** The position is the end of this chain. */
  ghost predicate Ends(g: Link<Served> -> Digest, p: Option<Position>, f: Log) {
    WellLinked(g, f) && p == Some(End(g, f))
  }

  ghost predicate OnChain(g: Link<Served> -> Digest, p: Option<Position>) {
    p.Some? ==> exists f: Log :: Ends(g, p, f)
  }

  /** The chain that ends at q extends the one that ends at p. */
  ghost predicate Forward(g: Link<Served> -> Digest, p: Option<Position>, q: Option<Position>) {
    p.Some? ==> exists a: Log, b: Log :: Ends(g, p, a) && Ends(g, q, b) && a <= b
  }

  /** The daemon computed the checkpoint from some well-linked file. */
  ghost predicate Genuine(g: Link<Served> -> Digest, ck: Checkpoint) {
    exists s: Shown :: WellLinked(g, s.file) && ck == Ask(g, s)
  }

  lemma {:induction false} EndNamesChain(g: Link<Served> -> Digest, a: Log, b: Log)
    requires Injective(g) && WellLinked(g, a) && WellLinked(g, b) && End(g, a) == End(g, b)
    ensures a == b
  {
    SameHeadSamePrefix(g, a, b, |a|);
    assert a == a[..|a|] == b[..|b|] == b;
  }

  lemma {:induction false} ForwardTransitive(g: Link<Served> -> Digest, p: Option<Position>, q: Option<Position>,
      r: Option<Position>)
    requires Injective(g) && Forward(g, p, q) && Forward(g, q, r)
    ensures Forward(g, p, r)
  {
    if p.Some? {
      var a: Log, b: Log :| Ends(g, p, a) && Ends(g, q, b) && a <= b;
      var c: Log, d: Log :| Ends(g, q, c) && Ends(g, r, d) && c <= d;
      EndNamesChain(g, b, c);
      assert a <= d;
    }
  }

  lemma {:induction false} ForwardReflexive(g: Link<Served> -> Digest, p: Option<Position>)
    requires OnChain(g, p)
    ensures Forward(g, p, p)
  {
    if p.Some? {
      var f: Log :| Ends(g, p, f);
      assert f <= f;
    }
  }

  // ---------------------------------------------------------------- one decision

  /** The position held after deciding on a checkpoint against the position read before. */
  function Taken(held: Option<Position>, read: Option<Position>, ck: Checkpoint): Option<Position> {
    if Judge(read, ck).None? then Some(Position(ck.num, ck.head)) else held
  }

  /** What was read is still held, or extends it; nothing is held, or nothing of any chain. */
  ghost predicate StillHeld(g: Link<Served> -> Digest, held: Option<Position>, read: Option<Position>) {
    held.None? || held == Some(Position(0, GENESIS)) || (read.Some? && Forward(g, held, read))
  }

  lemma {:induction false} TakenForward(g: Link<Served> -> Digest, held: Option<Position>, read: Option<Position>,
      s: Shown)
    requires Injective(g) && OnChain(g, held) && StillHeld(g, held, read) && WellLinked(g, s.file)
    ensures Forward(g, held, Taken(held, read, Ask(g, s)))
  {
    var taken := Taken(held, read, Ask(g, s));
    if Judge(read, Ask(g, s)).Some? {
      ForwardReflexive(g, held);
    } else if held.Some? {
      assert Ends(g, taken, s.file);
      if held == Some(Position(0, GENESIS)) {
        assert Ends(g, held, []) && [] <= s.file;
      } else {
        var a: Log, b: Log :| Ends(g, held, a) && Ends(g, read, b) && a <= b;
        AcceptedIffExtends(g, b, s);
        assert a <= s.file;
      }
    }
  }

  lemma {:induction false} BackAtNothing(g: Link<Served> -> Digest, held: Option<Position>)
    requires Injective(g) && Forward(g, held, Some(Position(0, GENESIS)))
    ensures held.None? || held == Some(Position(0, GENESIS))
  {
    if held.Some? {
      var a: Log, b: Log :| Ends(g, held, a) && Ends(g, Some(Position(0, GENESIS)), b) && a <= b;
      EndNamesChain(g, b, []);
    }
  }

  /** A checkpoint the daemon could have shown that is accepted and takes the position back. */
  lemma {:induction false} TakenBack(g: Link<Served> -> Digest, held: Option<Position>, read: Option<Position>)
    returns (ck: Checkpoint)
    requires Injective(g) && OnChain(g, held) && OnChain(g, read) && !StillHeld(g, held, read)
    ensures Genuine(g, ck) && !Forward(g, held, Taken(held, read, ck))
  {
    if read.Some? {
      var older: Log :| Ends(g, read, older);
      var s := Shown(older, Some(|older|), 0);
      AcceptedIffExtends(g, older, s);
      ck := Ask(g, s);
      assert Taken(held, read, ck) == read;
    } else {
      var s := Shown([], None, 0);
      ck := Ask(g, s);
      if Forward(g, held, Some(Position(0, GENESIS))) {
        BackAtNothing(g, held);
      }
    }
  }

  /** No checkpoint a daemon can show takes the position back exactly when the report is decided against a position
      that is still held. */
  lemma {:induction false} DecisionForwardIff(g: Link<Served> -> Digest, held: Option<Position>, read: Option<Position>)
    requires Injective(g) && OnChain(g, held) && OnChain(g, read)
    ensures (forall ck | Genuine(g, ck) :: Forward(g, held, Taken(held, read, ck))) <==> StillHeld(g, held, read)
  {
    if StillHeld(g, held, read) {
      forall ck | Genuine(g, ck) ensures Forward(g, held, Taken(held, read, ck)) {
        var s: Shown :| WellLinked(g, s.file) && ck == Ask(g, s);
        TakenForward(g, held, read, s);
      }
    } else {
      var ck := TakenBack(g, held, read);
    }
  }

  /** In particular, of a chain and an earlier state of it: only if they are the same. */
  lemma {:induction false} OlderIsStillHeldIff(g: Link<Served> -> Digest, older: Log, recorded: Log)
    requires Injective(g) && WellLinked(g, older) && WellLinked(g, recorded) && older <= recorded
    ensures StillHeld(g, Some(End(g, recorded)), Some(End(g, older))) <==> older == recorded
    ensures StillHeld(g, Some(End(g, recorded)), None) <==> recorded == []
  {
    var held, read := Some(End(g, recorded)), Some(End(g, older));
    if Forward(g, held, read) {
      var a: Log, b: Log :| Ends(g, held, a) && Ends(g, read, b) && a <= b;
      EndNamesChain(g, a, recorded);
      EndNamesChain(g, b, older);
    }
    if older == recorded {
      assert Ends(g, held, recorded);
      ForwardReflexive(g, held);
    }
    if held == Some(Position(0, GENESIS)) {
      EndNamesChain(g, recorded, []);
    }
  }

  // ---------------------------------------------------------------- runs

  /** Signed checkpoints come from the daemon, and checkpoint entries from reports only. */
  ghost predicate GenuineStep(g: Link<Served> -> Digest, step: Step) {
    match step
    case Submit(e) => !e.note.CheckpointNote?
    case ReportRead(ck, signed, _) => signed ==> Genuine(g, ck)
    case _ => true
  }

  ghost predicate GenuineRun(g: Link<Served> -> Digest, steps: seq<Step>) {
    forall i | 0 <= i < |steps| :: GenuineStep(g, steps[i])
  }

  ghost predicate NoteOnChain(g: Link<Served> -> Digest, n: Note) {
    n.CheckpointNote? && n.accepted ==> OnChain(g, Some(Position(n.num, n.head)))
  }

  ghost predicate ReportOnChain(g: Link<Served> -> Digest, r: Reporting) {
    match r
    case Judging(ck, last, _) => Genuine(g, ck) && OnChain(g, last)
    case Writing(notes, _) => forall i | 0 <= i < |notes| :: NoteOnChain(g, notes[i])
  }

  ghost predicate Traced(g: Link<Served> -> Digest, s: Sequencer) {
    && OnChain(g, s.daemonLast) && OnChain(g, LastAccepted(s.file))
    && forall i | 0 <= i < |s.reports| :: ReportOnChain(g, s.reports[i])
  }

  lemma {:induction false} AcceptedOnChain(g: Link<Served> -> Digest, last: Option<Position>, ck: Checkpoint)
    requires Genuine(g, ck)
    ensures OnChain(g, Some(Position(ck.num, ck.head)))
    ensures forall i | 0 <= i < |Verdict(last, ck)| :: NoteOnChain(g, Verdict(last, ck)[i])
  {
    var s: Shown :| WellLinked(g, s.file) && ck == Ask(g, s);
    assert Ends(g, Some(Position(ck.num, ck.head)), s.file);
  }

  lemma {:induction false} DecidedTraced(g: Link<Served> -> Digest, s: Sequencer, i: nat)
    requires Traced(g, s) && i < |s.reports| && s.reports[i].Judging?
    ensures Traced(g, Decided(s, i))
    ensures Decided(s, i).daemonLast == Taken(s.daemonLast, s.reports[i].last, s.reports[i].ck)
  {
    hide Judge, OnChain, Verdict, NoteOnChain;
    var r, t := s.reports[i], Decided(s, i);
    assert ReportOnChain(g, r);
    AcceptedOnChain(g, r.last, r.ck);
    forall n | 0 <= n < |t.reports| ensures ReportOnChain(g, t.reports[n]) {
      if n < |t.reports| - 1 {
        assert t.reports[n] == s.reports[if n < i then n else n + 1];
      }
    }
  }

  lemma {:induction false} WrittenTraced(g: Link<Served> -> Digest, rs: seq<Reporting>, i: nat)
    requires i < |rs| && rs[i].Writing? && rs[i].notes != []
    requires forall n | 0 <= n < |rs| :: ReportOnChain(g, rs[n])
    ensures forall n | 0 <= n < |OneWritten(rs, i)| :: ReportOnChain(g, OneWritten(rs, i)[n])
  {
    var ws := OneWritten(rs, i);
    forall n | 0 <= n < |ws| ensures ReportOnChain(g, ws[n]) {
      if |rs[i].notes| == 1 {
        assert ws[n] == rs[if n < i then n else n + 1];
      } else {
        assert ReportOnChain(g, rs[n]);
      }
    }
  }

  lemma {:induction false} StepTraced(h: Link<Entry> -> Digest, g: Link<Served> -> Digest, s: Sequencer, step: Step)
    requires Traced(g, s) && GenuineStep(g, step)
    ensures Traced(g, Next(h, s, step))
  {
    hide Decided, OneWritten, OnChain, Genuine;
    match step
    case Submit(e) => LastAcceptedPush(s.file, Link(s.num + 1, s.head, e));
    case AnchorWrite(i, ts) =>
      if i < |s.running| && s.running[i].put {
        LastAcceptedPush(s.file, Next(h, s, step).file[|s.file|]);
      }
    case ReportDecide(i) =>
      if i < |s.reports| && s.reports[i].Judging? {
        DecidedTraced(g, s, i);
      }
    case ReportWrite(i, ts) =>
      if i < |s.reports| && s.reports[i].Writing? && s.reports[i].notes != [] {
        assert ReportOnChain(g, s.reports[i]) && NoteOnChain(g, s.reports[i].notes[0]);
        WrittenTraced(g, s.reports, i);
        LastAcceptedPush(s.file, Next(h, s, step).file[|s.file|]);
      }
    case _ =>
  }

  lemma {:induction false} ReachableTraced(h: Link<Entry> -> Digest, g: Link<Served> -> Digest, steps: seq<Step>)
    requires GenuineRun(g, steps)
    ensures Traced(g, Exec(h, steps))
  {
    hide Next, GenuineStep;
    if steps != [] {
      ReachableTraced(h, g, steps[..|steps|-1]);
      assert GenuineStep(g, steps[|steps|-1]);
      StepTraced(h, g, Exec(h, steps[..|steps|-1]), steps[|steps|-1]);
    }
  }

  predicate Decides(s: Sequencer, step: Step) {
    step.ReportDecide? && step.which < |s.reports| && s.reports[step.which].Judging?
  }

  /** Every report decides against a position that is still held. */
  ghost predicate DecidesOnHeld(h: Link<Entry> -> Digest, g: Link<Served> -> Digest, steps: seq<Step>) {
    steps != [] ==>
      var s, step := Exec(h, steps[..|steps|-1]), steps[|steps|-1];
      && DecidesOnHeld(h, g, steps[..|steps|-1])
      && (Decides(s, step) ==> StillHeld(g, s.daemonLast, s.reports[step.which].last))
  }

  /** No decision takes the position back. */
  ghost predicate Advances(h: Link<Entry> -> Digest, g: Link<Served> -> Digest, steps: seq<Step>) {
    steps != [] ==>
      var s, step := Exec(h, steps[..|steps|-1]), steps[|steps|-1];
      && Advances(h, g, steps[..|steps|-1])
      && (Decides(s, step) ==> Forward(g, s.daemonLast, Next(h, s, step).daemonLast))
  }

  lemma {:induction false} HeldAdvances(h: Link<Entry> -> Digest, g: Link<Served> -> Digest, steps: seq<Step>)
    requires Injective(g) && GenuineRun(g, steps) && DecidesOnHeld(h, g, steps)
    ensures Advances(h, g, steps)
  {
    hide Forward, StillHeld, Judge;
    if steps != [] {
      var before, step := steps[..|steps|-1], steps[|steps|-1];
      HeldAdvances(h, g, before);
      ReachableTraced(h, g, before);
      var s := Exec(h, before);
      if Decides(s, step) {
        assert ReportOnChain(g, s.reports[step.which]);
        DecidedTraced(g, s, step.which);
        DecisionForwardIff(g, s.daemonLast, s.reports[step.which].last);
      }
    }
  }

  // ---------------------------------------------------------------- the same schedule, other checkpoints

  /** The same steps, except for what the daemon shows. */
  predicate Alike(steps: seq<Step>, run: seq<Step>) {
    && |steps| == |run|
    && forall i | 0 <= i < |steps| :: AlikeStep(steps[i], run[i])
  }

  predicate AlikeStep(a: Step, b: Step) {
    a == b || (a.ReportRead? && b.ReportRead? && a.signed && b == a.(ck := b.ck))
  }

  function Shows(s: Sequencer, i: nat, ck: Checkpoint): Sequencer
    requires i < |s.reports| && s.reports[i].Judging?
  {
    s.(reports := s.reports[i := s.reports[i].(ck := ck)])
  }

  lemma {:induction false} AlikePush(a: seq<Step>, b: seq<Step>, x: Step, y: Step)
    requires Alike(a, b) && AlikeStep(x, y)
    ensures Alike(a + [x], b + [y])
  {
  }

  lemma {:induction false} ExecSnoc(h: Link<Entry> -> Digest, steps: seq<Step>)
    requires steps != []
    ensures Exec(h, steps) == Next(h, Exec(h, steps[..|steps|-1]), steps[|steps|-1])
    ensures steps == steps[..|steps|-1] + [steps[|steps|-1]]
  {
  }

  /** Where a report that has not decided was before the last step; None if that step began it. */
  function Before(s: Sequencer, step: Step, i: nat): Option<nat> {
    match step
    case ReportRead(_, _, _) => if i == |s.reports| then None else Some(i)
    case ReportDecide(j) => Some(if Decides(s, step) && i >= j then i + 1 else i)
    case ReportWrite(j, _) =>
      Some(if j < |s.reports| && s.reports[j].Writing? && |s.reports[j].notes| == 1 && i >= j then i + 1 else i)
    case _ => Some(i)
  }

  lemma {:induction false} WithoutUpdate<T>(xs: seq<T>, k: nat, i: nat, x: T)
    requires k < |xs| && i < |xs| - 1
    ensures var j := if i >= k then i + 1 else i;
      Without(xs, k)[i] == xs[j] && Without(xs[j := x], k) == Without(xs, k)[i := x]
  {
  }

  lemma {:induction false} DecideShows(s: Sequencer, k: nat, i: nat, ck: Checkpoint)
    requires k < |s.reports| && s.reports[k].Judging?
    requires i < |s.reports| - 1 && Decided(s, k).reports[i].Judging?
    ensures var j := if i >= k then i + 1 else i;
      s.reports[j].Judging? && Decided(Shows(s, j, ck), k) == Shows(Decided(s, k), i, ck)
  {
    hide Judge, Verdict;
    var j := if i >= k then i + 1 else i;
    WithoutUpdate(s.reports, k, i, s.reports[j].(ck := ck));
    assert Decided(Shows(s, j, ck), k).reports == Shows(Decided(s, k), i, ck).reports;
  }

  lemma {:induction false} WriteShows(rs: seq<Reporting>, k: nat, i: nat, r: Reporting)
    requires k < |rs| && rs[k].Writing? && rs[k].notes != [] && i < |OneWritten(rs, k)| && OneWritten(rs, k)[i].Judging?
    ensures var j := if |rs[k].notes| == 1 && i >= k then i + 1 else i;
      j < |rs| && j != k && rs[j] == OneWritten(rs, k)[i] && OneWritten(rs[j := r], k) == OneWritten(rs, k)[i := r]
  {
    if |rs[k].notes| == 1 {
      WithoutUpdate(rs, k, i, r);
    } else {
      assert i != k;
      var rest := Writing(rs[k].notes[1..], rs[k].actor);
      assert rs[i := r][k := rest] == rs[k := rest][i := r];
    }
  }

  /** A step commutes with changing what a report that does not decide in it shows. */
  lemma {:induction false} StepShows(h: Link<Entry> -> Digest, s: Sequencer, step: Step, i: nat, ck: Checkpoint)
    requires i < |Next(h, s, step).reports| && Next(h, s, step).reports[i].Judging? && Before(s, step, i).Some?
    ensures var j := Before(s, step, i).value;
      && j < |s.reports| && s.reports[j].Judging?
      && Next(h, Shows(s, j, ck), step) == Shows(Next(h, s, step), i, ck)
  {
    hide Decided, OneWritten, HeadAt, LastAccepted, Without;
    match step
    case ReportRead(shown, signed, actor) =>
      assert Next(h, Shows(s, i, ck), step).reports == Shows(Next(h, s, step), i, ck).reports;
    case ReportDecide(k) =>
      if Decides(s, step) {
        DecidedAt(s, k);
        DecideShows(s, k, i, ck);
      }
    case ReportWrite(k, _) =>
      if k < |s.reports| && s.reports[k].Writing? && s.reports[k].notes != [] {
        var t := Next(h, s, step);
        WriteShows(s.reports, k, i, t.reports[i].(ck := ck));
      }
    case _ =>
  }

  lemma {:induction false} DecidedAt(s: Sequencer, k: nat)
    requires k < |s.reports| && s.reports[k].Judging?
    ensures |Decided(s, k).reports| == |s.reports| && !Decided(s, k).reports[|s.reports| - 1].Judging?
  {
  }

  /** Any report still to decide could have shown any other checkpoint. */
  lemma {:induction false} ShownOtherwise(h: Link<Entry> -> Digest, g: Link<Served> -> Digest, steps: seq<Step>, i: nat,
      ck: Checkpoint) returns (run: seq<Step>)
    requires GenuineRun(g, steps) && Genuine(g, ck)
    requires i < |Exec(h, steps).reports| && Exec(h, steps).reports[i].Judging?
    ensures Alike(steps, run) && GenuineRun(g, run) && Exec(h, run) == Shows(Exec(h, steps), i, ck)
  {
    hide Next, GenuineStep, Genuine;
    var before, step := steps[..|steps|-1], steps[|steps|-1];
    var s := Exec(h, before);
    ExecSnoc(h, steps);
    if Before(s, step, i).None? {
      BegunShowing(h, s, step, ck);
      run := before + [step.(ck := ck)];
      AuditChain.ExecPush(h, before, step.(ck := ck));
      GenuinePush(g, before, step.(ck := ck));
      AlikePush(before, before, step, step.(ck := ck));
    } else {
      StepShows(h, s, step, i, ck);
      var other := ShownOtherwise(h, g, before, Before(s, step, i).value, ck);
      run := other + [step];
      AuditChain.ExecPush(h, other, step);
      assert GenuineStep(g, step);
      GenuinePush(g, other, step);
      AlikePush(before, other, step, step);
    }
  }

  lemma {:induction false} GenuinePush(g: Link<Served> -> Digest, steps: seq<Step>, step: Step)
    requires GenuineRun(g, steps) && GenuineStep(g, step)
    ensures GenuineRun(g, steps + [step])
  {
    hide GenuineStep;
  }

  lemma {:induction false} BegunShowing(h: Link<Entry> -> Digest, s: Sequencer, step: Step, ck: Checkpoint)
    requires step.ReportRead? && Next(h, s, step).reports[|s.reports|].Judging?
    ensures step.signed && Next(h, s, step.(ck := ck)) == Shows(Next(h, s, step), |s.reports|, ck)
    ensures forall g: Link<Served> -> Digest :: Genuine(g, ck) ==> GenuineStep(g, step.(ck := ck))
  {
    var left, right := Next(h, s, step.(ck := ck)), Shows(Next(h, s, step), |s.reports|, ck);
    assert left.reports == right.reports;
  }

  lemma {:induction false} AlikePrefix(steps: seq<Step>, run: seq<Step>, k: nat)
    requires Alike(steps, run) && k <= |run|
    ensures Alike(steps[..k], run[..k])
  {
  }

  lemma {:induction false} AlikeJoin(steps: seq<Step>, run: seq<Step>, head: seq<Step>)
    requires Alike(steps, run) && |head| <= |run| && Alike(run[..|head|], head)
    ensures Alike(steps, head + run[|head|..])
  {
    var full := head + run[|head|..];
    forall i | 0 <= i < |steps| ensures AlikeStep(steps[i], full[i]) {
      assert AlikeStep(steps[i], run[i]);
      if i < |head| {
        assert AlikeStep(run[..|head|][i], head[i]);
      }
    }
  }

  lemma {:induction false} AdvancesPrefix(h: Link<Entry> -> Digest, g: Link<Served> -> Digest, steps: seq<Step>, k: nat)
    requires Advances(h, g, steps) && k <= |steps|
    ensures Advances(h, g, steps[..k])
  {
    hide Exec, Next, Forward, Decides;
    if k < |steps| {
      var before := steps[..|steps|-1];
      AdvancesPrefix(h, g, before, k);
      assert before[..k] == steps[..k];
    } else {
      assert steps[..k] == steps;
    }
  }

  /** A report about to decide against a position no longer held: in another run of the same schedule, its decision
      takes the position back. */
  lemma {:induction false} StaleDecisionRegresses(h: Link<Entry> -> Digest, g: Link<Served> -> Digest, steps: seq<Step>,
      i: nat) returns (run: seq<Step>)
    requires Injective(g) && GenuineRun(g, steps) && Decides(Exec(h, steps), ReportDecide(i))
    requires !StillHeld(g, Exec(h, steps).daemonLast, Exec(h, steps).reports[i].last)
    ensures Alike(steps, run) && GenuineRun(g, run) && Decides(Exec(h, run), ReportDecide(i))
    ensures !Forward(g, Exec(h, run).daemonLast, Next(h, Exec(h, run), ReportDecide(i)).daemonLast)
  {
    hide Exec, Forward, StillHeld, Genuine, GenuineStep, Judge;
    var s := Exec(h, steps);
    ReachableTraced(h, g, steps);
    assert ReportOnChain(g, s.reports[i]);
    var ck := TakenBack(g, s.daemonLast, s.reports[i].last);
    run := ShownOtherwise(h, g, steps, i, ck);
    ReachableTraced(h, g, run);
    DecidedTraced(g, Exec(h, run), i);
  }

  lemma {:induction false} RegressesOn(h: Link<Entry> -> Digest, g: Link<Served> -> Digest, head: seq<Step>, step: Step,
      rest: seq<Step>)
    requires Decides(Exec(h, head), step)
    requires !Forward(g, Exec(h, head).daemonLast, Next(h, Exec(h, head), step).daemonLast)
    ensures !Advances(h, g, head + [step] + rest)
  {
    hide Exec, Next, Forward, Decides;
    var full, n := head + [step] + rest, |head| + 1;
    assert full[..n] == head + [step] && (head + [step])[..|head|] == head;
    if Advances(h, g, full) {
      AdvancesPrefix(h, g, full, n);
    }
  }

  lemma {:induction false} AllAdvanceAllHeld(h: Link<Entry> -> Digest, g: Link<Served> -> Digest, steps: seq<Step>,
      run: seq<Step>, k: nat)
    requires Injective(g) && Alike(steps, run) && GenuineRun(g, run) && k <= |run|
    requires forall other | Alike(steps, other) && GenuineRun(g, other) :: Advances(h, g, other)
    ensures DecidesOnHeld(h, g, run[..k])
  {
    hide Exec, Next, Forward, StillHeld, GenuineStep, Alike;
    if k > 0 {
      var n := k - 1;
      AllAdvanceAllHeld(h, g, steps, run, n);
      assert run[..k][..n] == run[..n];
      var s, step := Exec(h, run[..n]), run[n];
      if Decides(s, step) && !StillHeld(g, s.daemonLast, s.reports[step.which].last) {
        var head := StaleDecisionRegresses(h, g, run[..n], step.which);
        AlikeLength(run[..n], head);
        AlikeJoin(steps, run, head);
        assert head + run[n..] == head + [step] + run[k..];
        RegressesOn(h, g, head, step, run[k..]);
      }
    }
  }

  lemma {:induction false} AlikeLength(a: seq<Step>, b: seq<Step>)
    requires Alike(a, b)
    ensures |a| == |b|
  {
  }

  /** Exactly when the position held moves only forward: for any schedule of submissions, anchorings, reports and
      restarts, no decision takes it back, whatever the daemon shows, if and only if every report decides
      against a position that is still held, whatever the daemon shows. */
  lemma {:induction false} AdvancesIff(h: Link<Entry> -> Digest, g: Link<Served> -> Digest, steps: seq<Step>)
    requires Injective(g)
    ensures (forall run | Alike(steps, run) && GenuineRun(g, run) :: Advances(h, g, run)) <==>
      (forall run | Alike(steps, run) && GenuineRun(g, run) :: DecidesOnHeld(h, g, run))
  {
    hide Alike, GenuineRun, Advances, DecidesOnHeld;
    if forall run | Alike(steps, run) && GenuineRun(g, run) :: DecidesOnHeld(h, g, run) {
      forall run | Alike(steps, run) && GenuineRun(g, run) ensures Advances(h, g, run) {
        HeldAdvances(h, g, run);
      }
    }
    if forall run | Alike(steps, run) && GenuineRun(g, run) :: Advances(h, g, run) {
      forall run | Alike(steps, run) && GenuineRun(g, run) ensures DecidesOnHeld(h, g, run) {
        AllAdvanceAllHeld(h, g, steps, run, |run|);
        assert run[..|run|] == run;
      }
    }
  }

  // ---------------------------------------------------------------- whole stretches, and one report at a time

  /** Every restart from this point on finds the position held in the file (AuditChain.ReachableReloads says when). */
  ghost predicate RestartsExact(h: Link<Entry> -> Digest, steps: seq<Step>, from: nat) {
    from < |steps| ==>
      && RestartsExact(h, steps[..|steps|-1], from)
      && (steps[|steps|-1].Restart? ==> Reloads(h, Exec(h, steps[..|steps|-1])))
  }

  lemma {:induction false} OnlyDecisionsMove(h: Link<Entry> -> Digest, s: Sequencer, step: Step)
    requires !Decides(s, step) && (step.Restart? ==> Reloads(h, s))
    ensures Next(h, s, step).daemonLast == s.daemonLast
  {
  }

  /** Then over any stretch of such a run the position at its end is of a chain that extends the one before. */
  lemma {:induction false} PositionOnlyExtends(h: Link<Entry> -> Digest, g: Link<Served> -> Digest, steps: seq<Step>,
      from: nat)
    requires Injective(g) && GenuineRun(g, steps) && from <= |steps|
    requires DecidesOnHeld(h, g, steps) && RestartsExact(h, steps, from)
    ensures Forward(g, Exec(h, steps[..from]).daemonLast, Exec(h, steps).daemonLast)
  {
    hide Forward, StillHeld, Next, Decides, GenuineStep;
    HeldAdvances(h, g, steps);
    if from == |steps| {
      assert steps[..from] == steps;
      ReachableTraced(h, g, steps);
      ForwardReflexive(g, Exec(h, steps).daemonLast);
    } else {
      var before, step := steps[..|steps|-1], steps[|steps|-1];
      PositionOnlyExtends(h, g, before, from);
      assert before[..from] == steps[..from];
      if Decides(Exec(h, before), step) {
        ForwardTransitive(g, Exec(h, steps[..from]).daemonLast, Exec(h, before).daemonLast, Exec(h, steps).daemonLast);
      } else {
        OnlyDecisionsMove(h, Exec(h, before), step);
      }
    }
  }

  /** At no point is more than one report under way. */
  ghost predicate OneAtATime(h: Link<Entry> -> Digest, steps: seq<Step>) {
    |Exec(h, steps).reports| <= 1 && (steps != [] ==> OneAtATime(h, steps[..|steps|-1]))
  }

  ghost predicate ReadHeld(s: Sequencer) {
    forall i | 0 <= i < |s.reports| && s.reports[i].Judging? :: s.reports[i].last == s.daemonLast
  }

  lemma {:induction false} SerialReadHeld(h: Link<Entry> -> Digest, s: Sequencer, step: Step)
    requires ReadHeld(s) && |s.reports| <= 1 && |Next(h, s, step).reports| <= 1
    ensures ReadHeld(Next(h, s, step))
  {
    hide Judge, Verdict, LastAccepted;
  }

  /** Reports that do not overlap decide on what is held. */
  lemma {:induction false} SerialDecidesOnHeld(h: Link<Entry> -> Digest, g: Link<Served> -> Digest, steps: seq<Step>)
    requires GenuineRun(g, steps) && OneAtATime(h, steps)
    ensures DecidesOnHeld(h, g, steps) && ReadHeld(Exec(h, steps))
  {
    hide Forward, Next, GenuineStep;
    if steps != [] {
      var before, step := steps[..|steps|-1], steps[|steps|-1];
      SerialDecidesOnHeld(h, g, before);
      SerialReadHeld(h, Exec(h, before), step);
      ReachableTraced(h, g, before);
      ForwardReflexive(g, Exec(h, before).daemonLast);
    }
  }

  /** Two overlapping reports of a daemon that only appends, read against the same chain and decided out of order:
      both are accepted, and the position goes back from the longer chain to the shorter. */
  lemma {:induction false} OverlappedReportsRegress(h: Link<Entry> -> Digest, g: Link<Served> -> Digest, s: Sequencer,
      recorded: Log, shorter: Log, longer: Log, actor: string, ts: int)
    requires Injective(g) && WellLinked(g, longer) && recorded <= shorter < longer
    requires s.daemonLast == Some(End(g, recorded))
    ensures var n, since := |s.reports|, Some(|recorded|);
      var first := Next(h, s, ReportRead(Ask(g, Shown(shorter, since, ts)), true, actor));
      var second := Next(h, first, ReportRead(Ask(g, Shown(longer, since, ts)), true, actor));
      var ahead := Next(h, second, ReportDecide(n + 1));
      var back := Next(h, ahead, ReportDecide(n));
      && ahead.daemonLast == Some(End(g, longer)) && back.daemonLast == Some(End(g, shorter))
      && !Forward(g, ahead.daemonLast, back.daemonLast)
  {
    TakeLinked(g, longer, |shorter|);
    assert shorter == longer[..|shorter|];
    TakeLinked(g, longer, |recorded|);
    assert recorded == longer[..|recorded|];
    AcceptedIffExtends(g, recorded, Shown(shorter, Some(|recorded|), ts));
    AcceptedIffExtends(g, recorded, Shown(longer, Some(|recorded|), ts));
    NotBack(g, shorter, longer);
    hide Forward, Judge;
    var n := |s.reports|;
    var first := Next(h, s, ReportRead(Ask(g, Shown(shorter, Some(|recorded|), ts)), true, actor));
    var second := Next(h, first, ReportRead(Ask(g, Shown(longer, Some(|recorded|), ts)), true, actor));
    var ahead := Next(h, second, ReportDecide(n + 1));
    assert ahead.reports[n] == first.reports[n];
  }

  lemma {:induction false} NotBack(g: Link<Served> -> Digest, shorter: Log, longer: Log)
    requires Injective(g) && WellLinked(g, longer) && WellLinked(g, shorter) && |shorter| < |longer|
    ensures !Forward(g, Some(End(g, longer)), Some(End(g, shorter)))
  {
  }
}
