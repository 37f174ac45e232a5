/** What the recovery verifier can bring about (valops/verifier/verifier.py), over every run of RecoverySafety: the
    resolution of an episode, recovery observations, and verifications after the end. */
module RecoveryOutcomes {
  import opened Wrappers
  import opened Text
  import opened Transitions
  import opened EpisodeRecord
  import opened StoreSpec
  import opened RecoveryVerifier
  import opened RecoverySafety
  import LogFacts
  import Rules

  lemma {:induction false} ExecPush(s: System, ls: seq<Label>, l: Label, c: Setting)
    ensures Exec(s, ls + [l], c) == Next(Exec(s, ls, c), l, c)
  {
    hide Next;
    assert (ls + [l])[..|ls|] == ls;
  }

  // ---------------------------------------------------------------- logs grow

  lemma {:induction false} NextGrows(s: System, l: Label, c: Setting)
    requires Legal(s.log)
    ensures Legal(Next(s, l, c).log) && s.log <= Next(s, l, c).log
  {
    hide Perform, Legal, CheckVerifiable, VerifKey, Fold, StateKey;
    match l
    case Other(rq, env) => PerformIsLegal(s.log, rq, env);
    case Note(key, note, env) =>
      if s.pc.Observing? {
        PerformIsLegal(s.log, NoteRequest(s.pc.rule, key, note), env);
      }
    case WritePass(samples, env) =>
      if s.pc.Writing? {
        PerformIsLegal(s.log, PassRequest(c.ep, s.pc.rule, s.pc.rev, samples), env);
      }
    case Cas(reason, env) =>
      if s.pc.Moving? {
        PerformIsLegal(s.log, ResolveRequest(s.pc.rev, reason), env);
      }
    case Land(i, key, text, env) =>
      if i < |s.orphans| {
        LandGrows(s, i, key, text, env, c);
      }
    case _ =>
  }

  lemma {:induction false} LandGrows(s: System, i: nat, key: string, text: string, env: Env, c: Setting)
    requires Legal(s.log) && i < |s.orphans|
    ensures Legal(Landed(s, i, key, text, env, c).log) && s.log <= Landed(s, i, key, text, env, c).log
  {
    hide Perform, Legal, CheckVerifiable, VerifKey, StateKey;
    match s.orphans[i]
    case LateNote(rule) => PerformIsLegal(s.log, NoteRequest(rule, key, text), env);
    case LateWrite(rule, rev) => PerformIsLegal(s.log, PassRequest(c.ep, rule, rev, text), env);
    case LateMove(_, rev) => PerformIsLegal(s.log, ResolveRequest(rev, text), env);
    case _ =>
  }

  lemma {:induction false} LogGrows(init: System, ls: seq<Label>, k: nat, c: Setting)
    requires Initial(init) && k <= |ls|
    ensures Exec(init, ls[..k], c).log <= Exec(init, ls, c).log
    decreases |ls|
  {
    hide Next, Inv;
    if k < |ls| {
      var before := ls[..|ls|-1];
      assert before[..k] == ls[..k];
      LogGrows(init, before, k, c);
      ReachableInv(init, before, c);
      InvLegal(Exec(init, before, c), c);
      NextGrows(Exec(init, before, c), ls[|ls|-1], c);
    } else {
      assert ls[..k] == ls;
    }
  }

  // ---------------------------------------------------------------- resolution is earned

  /** No other endpoint, and no other call of the verifier, makes an episode resolved. */
  lemma {:induction false} OnlyVerifierResolves(log: seq<Entry>, rq: Request, env: Env)
    requires Legal(log) && (rq.principal != Verifier || !rq.call.SetState?) && Fold(log).state != Some(Resolved)
    ensures Fold(Perform(log, rq, env).0).state != Some(Resolved)
  {
    hide Decide, Legal;
    var d := Decide(log, rq);
    if d.Write? && env.auditOk {
      var e := NewEntry(log, d, env);
      WriteAppends(log, rq, env);
      DecideIsLegal(log, rq, env);
      DecideWrites(log, rq, env);
      FoldPush(log, e);
    }
  }

  lemma {:induction false} ResolveEntry(log: seq<Entry>, rev: nat, reason: string, env: Env)
    requires Decide(log, ResolveRequest(rev, reason)).Write?
    ensures Fold(log).state == Some(AwaitingOperator) && rev == Fold(log).revision
  {
  }

  /** A compare-and-swap of the verifier that resolves does so from `awaiting_operator`, on the log it was
      computed from. */
  lemma {:induction false} ResolvingCas(log: seq<Entry>, rev: nat, reason: string, env: Env)
    requires Legal(log) && Fold(log).state != Some(Resolved)
    requires Fold(Perform(log, ResolveRequest(rev, reason), env).0).state == Some(Resolved)
    ensures Fold(log).state == Some(AwaitingOperator) && rev == |log|
  {
    hide Decide, Legal, Fold, StateKey;
    LegalRevisions(log);
    if Decide(log, ResolveRequest(rev, reason)).Write? {
      ResolveEntry(log, rev, reason, env);
    }
  }

  /** The verifier's call that resolves, still waited for or abandoned. */
  ghost predicate Resolving(s: System, l: Label, rule: Rule) {
    || (l.Cas? && s.pc == Moving(rule, |s.log|))
    || (l.Land? && l.which < |s.orphans| && s.orphans[l.which] == LateMove(rule, |s.log|))
  }

  lemma {:induction false} PromiseKeptWaiting(log: seq<Entry>, rule: string)
    requires Promised(log, rule) && Fold(log).state == Some(AwaitingOperator)
    ensures VerifiedBefore(log, rule)
  {
  }

  lemma {:induction false} LandResolves(s: System, i: nat, key: string, text: string, env: Env, c: Setting)
      returns (rule: Rule)
    requires Inv(s, c) && i < |s.orphans| && Fold(s.log).state != Some(Resolved)
    requires Fold(Landed(s, i, key, text, env, c).log).state == Some(Resolved)
    ensures s.orphans[i] == LateMove(rule, |s.log|)
    ensures Fold(s.log).state == Some(AwaitingOperator) && VerifiedBefore(s.log, rule.id)
  {
    hide Perform, Inv, CheckVerifiable, Fold, VerifKey, StateKey;
    InvLegal(s, c);
    assert OrphanOk(s.log, s.orphans[i]);
    rule := s.orphans[i].rule;
    match s.orphans[i]
    case LateNote(r) => OnlyVerifierResolves(s.log, NoteRequest(r, key, text), env);
    case LateAsk(_, _) =>
    case LateWrite(r, rev) => OnlyVerifierResolves(s.log, PassRequest(c.ep, r, rev, text), env);
    case LateMove(_, rev) =>
      ResolvingCas(s.log, rev, text, env);
      PromiseKeptWaiting(s.log, rule.id);
  }

  /** The one kind of step that resolves an episode is a compare-and-swap of the verifier, on the log it was
      computed from, with a pass of its rule on the record. */
  lemma {:induction false} ResolutionIsVerified(s: System, l: Label, c: Setting) returns (rule: Rule)
    requires Inv(s, c)
    requires Fold(s.log).state != Some(Resolved) && Fold(Next(s, l, c).log).state == Some(Resolved)
    ensures Resolving(s, l, rule)
    ensures Fold(s.log).state == Some(AwaitingOperator) && VerifiedBefore(s.log, rule.id)
  {
    hide Perform, Inv, Fold, Landed, VerifKey, StateKey, CheckVerifiable, Legal, VerifiedBefore, ResolveRequest;
    hide Held, Bumped, React;
    InvLegal(s, c);
    match l
    case Other(rq, env) => OnlyVerifierResolves(s.log, rq, env);
    case Note(key, note, env) =>
      if s.pc.Observing? {
        OnlyVerifierResolves(s.log, NoteRequest(s.pc.rule, key, note), env);
      }
    case WritePass(samples, env) =>
      if s.pc.Writing? {
        OnlyVerifierResolves(s.log, PassRequest(c.ep, s.pc.rule, s.pc.rev, samples), env);
      }
    case Cas(reason, env) =>
      if s.pc.Moving? {
        rule := s.pc.rule;
        ResolvingCas(s.log, s.pc.rev, reason, env);
        PromiseKeptWaiting(s.log, rule.id);
      }
    case Land(i, key, text, env) =>
      if i < |s.orphans| {
        rule := LandResolves(s, i, key, text, env, c);
      }
    case _ =>
  }

  /** Where an orphan was before the last step: already an orphan, or the call just given up. */
  lemma {:induction false} MoveOrphanCameFrom(s: System, l: Label, c: Setting, i: nat) returns (j: nat)
    requires i < |Next(s, l, c).orphans| && Next(s, l, c).orphans[i].LateMove?
    ensures var o := Next(s, l, c).orphans[i];
      (j < |s.orphans| && s.orphans[j] == o) || s.pc == Moving(o.rule, o.rev)
  {
    hide Perform, CheckVerifiable, Fold;
    j := i;
    if l.Land? && l.which < |s.orphans| {
      if |Next(s, l, c).orphans| < |s.orphans| && i >= l.which {
        j := i + 1;
      }
    }
  }

  lemma {:induction false} SentMove(init: System, ls: seq<Label>, c: Setting, i: nat) returns (j: nat)
    requires Initial(init) && i < |Exec(init, ls, c).orphans| && Exec(init, ls, c).orphans[i].LateMove?
    ensures var o := Exec(init, ls, c).orphans[i];
      j < |ls| && Exec(init, ls[..j], c).pc == Moving(o.rule, o.rev)
  {
    hide Next;
    var before := ls[..|ls|-1];
    var s := Exec(init, before, c);
    var o := Exec(init, ls, c).orphans[i];
    var i' := MoveOrphanCameFrom(s, ls[|ls|-1], c, i);
    if s.pc == Moving(o.rule, o.rev) {
      j := |ls| - 1;
    } else {
      j := SentMove(init, before, c, i');
      assert before[..j] == ls[..j];
    }
  }

  lemma {:induction false} MovingEarned(s: System, c: Setting)
    requires Inv(s, c) && s.pc.Moving?
    ensures var rule := s.pc.rule;
      rule in c.rules && LastHeld(s.events, rule.id, rule.window, c.param) && s.pc.rev <= |s.log|
  {
    hide HeldRun, LastHeld, Legal, Keyed, StreaksTrue, OrphansOk, Promised;
    RunMeansLastHeld(s.events, s.pc.rule.id, s.pc.rule.window, c.param);
  }

  lemma {:induction false} OpeningIsOpen(init: System)
    requires Initial(init)
    ensures Fold(init.log).state == Some(Open)
  {
    assert init.log[..0] == [];
  }

  /** The step that resolved the episode, and the moment its compare-and-swap was under way. */
  ghost predicate ResolvedAt(init: System, ls: seq<Label>, c: Setting, k: nat, rule: Rule) {
    && k < |ls|
    && Resolving(Exec(init, ls[..k], c), ls[k], rule)
    && Fold(Exec(init, ls[..k], c).log).state == Some(AwaitingOperator)
    && VerifiedBefore(Exec(init, ls[..k], c).log, rule.id)
  }

  lemma {:induction false} ResolvingStep(init: System, ls: seq<Label>, c: Setting) returns (k: nat, rule: Rule)
    requires Initial(init) && Fold(Exec(init, ls, c).log).state == Some(Resolved)
    ensures ResolvedAt(init, ls, c, k, rule)
  {
    hide Next, Inv, Resolving, VerifiedBefore, Fold;
    if ls == [] {
      OpeningIsOpen(init);
      assert false;
    } else {
      var before := ls[..|ls|-1];
      var s := Exec(init, before, c);
      if Fold(s.log).state == Some(Resolved) {
        k, rule := ResolvingStep(init, before, c);
        assert before[..k] == ls[..k];
      } else {
        ReachableInv(init, before, c);
        rule := ResolutionIsVerified(s, ls[|ls|-1], c);
        k := |ls| - 1;
      }
    }
  }

  /** In every run, a resolved episode was moved there by a compare-and-swap of the verifier (step k), from
      `awaiting_operator`, with a pass verification of the rule written while it waited. When that
      compare-and-swap was sent (at j), the rule's last `window` evaluations were all of fresh samples that
      satisfied it, and from then until it landed nothing at all was written to the episode. */
  lemma {:induction false} ResolvedWasEarned(init: System, ls: seq<Label>, c: Setting)
    returns (j: nat, k: nat, rule: Rule)
    requires Initial(init) && Fold(Exec(init, ls, c).log).state == Some(Resolved)
    ensures j <= k && ResolvedAt(init, ls, c, k, rule)
    ensures var sent, at := Exec(init, ls[..j], c), Exec(init, ls[..k], c);
      && sent.pc == Moving(rule, |at.log|) && sent.log == at.log
      && rule in c.rules && LastHeld(sent.events, rule.id, rule.window, c.param)
  {
    hide Next, Inv, LastHeld, Fold, VerifiedBefore;
    k, rule := ResolvingStep(init, ls, c);
    var at := Exec(init, ls[..k], c);
    if ls[k].Cas? {
      j := k;
    } else {
      j := SentMove(init, ls[..k], c, ls[k].which);
      assert ls[..k][..j] == ls[..j];
    }
    ReachableInv(init, ls[..j], c);
    MovingEarned(Exec(init, ls[..j], c), c);
    LogGrows(init, ls[..k], j, c);
    assert ls[..k][..j] == ls[..j];
  }

  // ---------------------------------------------------------------- one observation per streak

  /** Recovery observations of a rule on the record. */
  function Recoveries(log: seq<Entry>, rule: string): nat {
    if log == [] then 0
    else
      var b := log[|log|-1].body;
      Recoveries(log[..|log|-1], rule) + (if b.RecoveryBody? && b.rule == rule then 1 else 0)
  }

  lemma {:induction false} RecoveriesPush(log: seq<Entry>, e: Entry, rule: string)
    ensures Recoveries(log + [e], rule) ==
        Recoveries(log, rule) + (if e.body.RecoveryBody? && e.body.rule == rule then 1 else 0)
  {
    assert (log + [e])[..|log|] == log;
  }

  /** Abandoned calls of a kind: observations of a rule, or verifications past their first region. */
  datatype Kind = Notes(id: string) | Writes

  function Weight(o: Orphan, kind: Kind): nat {
    match kind
    case Notes(id) => if o.LateNote? && o.rule.id == id then 1 else 0
    case Writes => if o.LateWrite? then 1 else 0
  }

  function Tally(os: seq<Orphan>, kind: Kind): nat {
    if os == [] then 0 else Tally(os[..|os|-1], kind) + Weight(os[|os|-1], kind)
  }

  lemma {:induction false} TallyPush(os: seq<Orphan>, o: Orphan, kind: Kind)
    ensures Tally(os + [o], kind) == Tally(os, kind) + Weight(o, kind)
  {
    assert (os + [o])[..|os|] == os;
  }

  lemma {:induction false} TallyWithout(os: seq<Orphan>, i: nat, kind: Kind)
    requires i < |os|
    ensures Tally(Without(os, i), kind) + Weight(os[i], kind) == Tally(os, kind)
  {
    var n := |os| - 1;
    if i < n {
      TallyWithout(os[..n], i, kind);
      assert Without(os, i) == Without(os[..n], i) + [os[n]];
      TallyPush(Without(os[..n], i), os[n], kind);
    } else {
      assert Without(os, i) == os[..n];
    }
  }

  lemma {:induction false} TallyUpdate(os: seq<Orphan>, i: nat, o: Orphan, kind: Kind)
    requires i < |os|
    ensures Tally(os[i := o], kind) + Weight(os[i], kind) == Tally(os, kind) + Weight(o, kind)
  {
    var n := |os| - 1;
    if i < n {
      TallyUpdate(os[..n], i, o, kind);
      assert os[i := o][..n] == os[..n][i := o];
    } else {
      assert os[i := o][..n] == os[..n];
    }
  }

  lemma {:induction false} TallyLeft(os: seq<Orphan>, pc: Pc, kind: Kind)
    ensures Tally(os + Left(pc), kind) == Tally(os, kind) + (if Left(pc) == [] then 0 else Weight(Left(pc)[0], kind))
  {
    if Left(pc) == [] {
      assert os + Left(pc) == os;
    } else {
      assert os + Left(pc) == os + [Left(pc)[0]];
      TallyPush(os, Left(pc)[0], kind);
    }
  }

  /** Observations of a rule asked for so far: on the record, being asked for, or abandoned on the way. */
  function Asked(s: System, id: string): nat {
    Recoveries(s.log, id) + (if s.pc.Observing? && s.pc.rule.id == id then 1 else 0) + Tally(s.orphans, Notes(id))
  }

  lemma {:induction false} NoteWrites(log: seq<Entry>, rule: Rule, key: string, note: string, env: Env)
    requires Decide(log, NoteRequest(rule, key, note)).Write?
    ensures NewEntry(log, Decide(log, NoteRequest(rule, key, note)), env).body == RecoveryBody(rule.id, note)
  {
  }

  lemma {:induction false} RecoveriesAfterNote(log: seq<Entry>, rule: Rule, key: string, note: string, env: Env,
      id: string)
    ensures Recoveries(Perform(log, NoteRequest(rule, key, note), env).0, id) <=
      Recoveries(log, id) + (if rule.id == id then 1 else 0)
  {
    hide Decide;
    var rq := NoteRequest(rule, key, note);
    if Decide(log, rq).Write? && env.auditOk {
      NoteWrites(log, rule, key, note, env);
      WriteAppends(log, rq, env);
      RecoveriesPush(log, NewEntry(log, Decide(log, rq), env), id);
    }
  }

  /** Nobody else writes recovery observations. */
  lemma {:induction false} RecoveriesAfter(log: seq<Entry>, rq: Request, env: Env, id: string)
    requires rq.principal != Verifier || !rq.call.RecordRecovery?
    ensures Recoveries(Perform(log, rq, env).0, id) == Recoveries(log, id)
  {
    hide Decide;
    if Decide(log, rq).Write? && env.auditOk {
      DecideWrites(log, rq, env);
      WriteAppends(log, rq, env);
      RecoveriesPush(log, NewEntry(log, Decide(log, rq), env), id);
    }
  }

  lemma {:induction false} SampleAsks(s: System, sampled: Sampled, c: Setting, id: string)
    requires Inv(s, c) && s.pc.Checking? && s.pc.next < |c.rules|
    ensures var t := Sampling(s, c, sampled);
      && Asked(t, id) + Starts(s.events, id, c.param) <= Asked(s, id) + Starts(t.events, id, c.param)
      && Starts(s.events, id, c.param) <= Starts(t.events, id, c.param)
  {
    InvLegal(s, c);
    hide Inv, HeldRun, Starts, Recoveries, Tally, Held;
    var t, rule := Sampling(s, c, sampled), c.rules[s.pc.next];
    HeldRunPush(s.events, Evaluated(rule, sampled), id, c.param);
    assert Count(s.streak, rule.id) == HeldRun(s.events, rule.id, c.param);
  }

  lemma {:induction false} LandAsks(s: System, i: nat, key: string, text: string, env: Env, c: Setting, id: string)
    requires i < |s.orphans|
    ensures Asked(Landed(s, i, key, text, env, c), id) <= Asked(s, id)
  {
    hide Perform, CheckVerifiable, Recoveries, Tally, VerifKey, StateKey;
    TallyWithout(s.orphans, i, Notes(id));
    match s.orphans[i]
    case LateNote(rule) => RecoveriesAfterNote(s.log, rule, key, text, env, id);
    case LateAsk(rule, rev) => TallyUpdate(s.orphans, i, LateWrite(rule, rev), Notes(id));
    case LateWrite(rule, rev) => RecoveriesAfter(s.log, PassRequest(c.ep, rule, rev, text), env, id);
    case LateMove(_, rev) => RecoveriesAfter(s.log, ResolveRequest(rev, text), env, id);
  }

  lemma {:induction false} RestartStarts(s: System, c: Setting, id: string)
    ensures Starts(s.events + [Restarted], id, c.param) == Starts(s.events, id, c.param)
  {
    hide HeldRun, Starts;
    HeldRunPush(s.events, Restarted, id, c.param);
  }

  /** A step asks for an observation only if it starts a streak. */
  lemma {:induction false} StepAsks(s: System, l: Label, c: Setting, id: string)
    requires Inv(s, c)
    ensures var t := Next(s, l, c);
      && Asked(t, id) + Starts(s.events, id, c.param) <= Asked(s, id) + Starts(t.events, id, c.param)
      && Starts(s.events, id, c.param) <= Starts(t.events, id, c.param)
  {
    hide Perform, Inv, Recoveries, Tally, Starts, Fold, CheckVerifiable, Landed, VerifKey, StateKey;
    match l
    case Other(rq, env) => RecoveriesAfter(s.log, if OtherMay(rq) then rq else ResolveRequest(0, ""), env, id);
    case Sample(sampled) =>
      if s.pc.Checking? && s.pc.next < |c.rules| {
        SampleAsks(s, sampled, c, id);
      }
    case Note(key, note, env) =>
      if s.pc.Observing? {
        RecoveriesAfterNote(s.log, s.pc.rule, key, note, env, id);
      }
    case WritePass(samples, env) =>
      if s.pc.Writing? {
        RecoveriesAfter(s.log, PassRequest(c.ep, s.pc.rule, s.pc.rev, samples), env, id);
      }
    case Cas(reason, env) =>
      if s.pc.Moving? {
        RecoveriesAfter(s.log, ResolveRequest(s.pc.rev, reason), env, id);
      }
    case Abandon => TallyLeft(s.orphans, s.pc, Notes(id));
    case Restart =>
      TallyLeft(s.orphans, s.pc, Notes(id));
      RestartStarts(s, c, id);
    case Land(i, key, text, env) =>
      if i < |s.orphans| {
        LandAsks(s, i, key, text, env, c, id);
        LandKeepsEvents(s, i, key, text, env, c);
      }
    case _ =>
  }

  lemma {:induction false} LandKeepsEvents(s: System, i: nat, key: string, text: string, env: Env, c: Setting)
    requires i < |s.orphans|
    ensures Landed(s, i, key, text, env, c).events == s.events && Landed(s, i, key, text, env, c).pc == s.pc
  {
    hide Perform, CheckVerifiable;
  }

  /** One observation per streak: over any stretch of any run, no more observations of a rule are asked for
      than streaks of it begin. While a streak lasts none but the one its start may bring is added, and
      what was asked for before can only land. */
  lemma {:induction false} OneObservationPerStreak(init: System, ls: seq<Label>, k: nat, c: Setting, id: string)
    requires Initial(init) && k <= |ls|
    ensures var s, t := Exec(init, ls[..k], c), Exec(init, ls, c);
      && Asked(t, id) - Asked(s, id) <= Starts(t.events, id, c.param) - Starts(s.events, id, c.param)
      && Starts(s.events, id, c.param) <= Starts(t.events, id, c.param)
    decreases |ls|
  {
    hide Next, Inv, Asked, Starts;
    if k < |ls| {
      var before := ls[..|ls|-1];
      assert before[..k] == ls[..k];
      OneObservationPerStreak(init, before, k, c, id);
      ReachableInv(init, before, c);
      StepAsks(Exec(init, before, c), ls[|ls|-1], c, id);
    } else {
      assert ls[..k] == ls;
    }
  }

  /** Hence within one streak (no start between k and the end) nothing more than what was already under way
      reaches the record, and from just before its start at most one more. */
  lemma {:induction false} StreakAddsAtMostOne(init: System, ls: seq<Label>, k: nat, c: Setting, id: string)
    requires Initial(init) && k <= |ls|
    requires Starts(Exec(init, ls, c).events, id, c.param) <= Starts(Exec(init, ls[..k], c).events, id, c.param) + 1
    ensures var s, t := Exec(init, ls[..k], c), Exec(init, ls, c);
      Recoveries(t.log, id) <= Asked(s, id) + Starts(t.events, id, c.param) - Starts(s.events, id, c.param)
        <= Asked(s, id) + 1
  {
    hide Exec, Starts, Recoveries, Tally;
    OneObservationPerStreak(init, ls, k, c, id);
  }

  // ---------------------------------------------------------------- verifications after the end

  /** Verifications written after the episode had ended. */
  function Late(log: seq<Entry>): nat {
    if log == [] then 0
    else
      var before := log[..|log|-1];
      Late(before) + (if log[|log|-1].body.VerificationBody? && Ended(Fold(before)) then 1 else 0)
  }

  lemma {:induction false} LatePush(log: seq<Entry>, e: Entry)
    ensures Late(log + [e]) == Late(log) + (if e.body.VerificationBody? && Ended(Fold(log)) then 1 else 0)
  {
    assert (log + [e])[..|log|] == log;
  }

  /** Requests past their first region that have not yet written. */
  function InFlight(s: System): nat {
    (if s.pc.Writing? then 1 else 0) + Tally(s.orphans, Writes)
  }

  lemma {:induction false} LateAfter(log: seq<Entry>, rq: Request, env: Env)
    requires Legal(log)
    ensures var after := Perform(log, rq, env).0;
      && Late(after) <= Late(log) +
         (if rq.call.RecordVerification? && rq.principal == Verifier && Ended(Fold(log)) then 1 else 0)
      && (Ended(Fold(log)) ==> Ended(Fold(after)))
  {
    hide Decide, Legal, Late, Fold, EntryOk;
    var d := Decide(log, rq);
    if d.Write? && env.auditOk {
      var e := NewEntry(log, d, env);
      WriteAppends(log, rq, env);
      DecideIsLegal(log, rq, env);
      DecideWrites(log, rq, env);
      FoldPush(log, e);
      LatePush(log, e);
      if Ended(Fold(log)) {
        LogFacts.FreezeStep(Fold(log), e);
      }
    }
  }

  /** Verifications owed: written late, or still on their way. */
  function Due(s: System): nat {
    Late(s.log) + InFlight(s)
  }

  ghost predicate Settling(s: System, t: System) {
    && (Ended(Fold(s.log)) ==> Ended(Fold(t.log)))
    && (!Ended(Fold(s.log)) ==> Late(t.log) <= Late(s.log))
    && (Due(t) <= Due(s) || (!Ended(Fold(s.log)) && t.log == s.log))
  }

  lemma {:induction false} LandSettles(s: System, i: nat, key: string, text: string, env: Env, c: Setting)
    requires Legal(s.log) && i < |s.orphans|
    ensures Settling(s, Landed(s, i, key, text, env, c))
  {
    hide Perform, Late, Fold, Legal, Tally, VerifKey, StateKey;
    TallyWithout(s.orphans, i, Writes);
    match s.orphans[i]
    case LateNote(rule) => LateAfter(s.log, NoteRequest(rule, key, text), env);
    case LateAsk(rule, rev) => TallyUpdate(s.orphans, i, LateWrite(rule, rev), Writes);
    case LateWrite(rule, rev) => LateAfter(s.log, PassRequest(c.ep, rule, rev, text), env);
    case LateMove(_, rev) => LateAfter(s.log, ResolveRequest(rev, text), env);
  }

  lemma {:induction false} StepSettles(s: System, l: Label, c: Setting)
    requires Legal(s.log)
    ensures Settling(s, Next(s, l, c))
  {
    hide Perform, Late, Fold, Legal, Tally, Landed, VerifKey, StateKey;
    match l
    case Other(rq, env) => LateAfter(s.log, rq, env);
    case Note(key, note, env) =>
      if s.pc.Observing? {
        LateAfter(s.log, NoteRequest(s.pc.rule, key, note), env);
      }
    case WritePass(samples, env) =>
      if s.pc.Writing? {
        LateAfter(s.log, PassRequest(c.ep, s.pc.rule, s.pc.rev, samples), env);
      }
    case Cas(reason, env) =>
      if s.pc.Moving? {
        LateAfter(s.log, ResolveRequest(s.pc.rev, reason), env);
      }
    case Abandon => TallyLeft(s.orphans, s.pc, Writes);
    case Restart => TallyLeft(s.orphans, s.pc, Writes);
    case Land(i, key, text, env) =>
      if i < |s.orphans| {
        LandSettles(s, i, key, text, env, c);
      }
    case _ =>
  }

  /** No verification is late while the episode runs. */
  lemma {:induction false} NoneLateYet(init: System, ls: seq<Label>, c: Setting)
    requires Initial(init)
    ensures !Ended(Fold(Exec(init, ls, c).log)) ==> Late(Exec(init, ls, c).log) == 0
  {
    hide Next, Inv, Fold, Ended, Due;
    if ls == [] {
      assert init.log[..0] == [];
      OpeningNotLate(init);
    } else {
      var before := ls[..|ls|-1];
      NoneLateYet(init, before, c);
      ReachableInv(init, before, c);
      InvLegal(Exec(init, before, c), c);
      StepSettles(Exec(init, before, c), ls[|ls|-1], c);
    }
  }

  lemma {:induction false} OpeningNotLate(init: System)
    requires Initial(init)
    ensures Late(init.log) == 0
  {
    assert init.log[..0] == [];
    assert Late([]) == 0;
  }

  /** The step n ended the episode. */
  ghost predicate EndsAt(init: System, ls: seq<Label>, n: nat, c: Setting) {
    && n < |ls|
    && !Ended(Fold(Exec(init, ls[..n], c).log))
    && Ended(Fold(Exec(init, ls[..n + 1], c).log))
  }

  /** The terminal freeze, for the verification write in two regions: after the end no more verifications land
      than requests had passed their first region, and not yet written, when the episode ended. */
  lemma {:induction false} LateVerificationsBounded(init: System, ls: seq<Label>, n: nat, c: Setting)
    requires Initial(init) && EndsAt(init, ls, n, c)
    ensures Ended(Fold(Exec(init, ls, c).log))
    ensures Due(Exec(init, ls, c)) <= InFlight(Exec(init, ls[..n], c))
    decreases |ls|
  {
    hide Next, Inv, Fold, Ended, InFlight;
    var before := ls[..|ls|-1];
    var s := Exec(init, before, c);
    ReachableInv(init, before, c);
    InvLegal(s, c);
    StepSettles(s, ls[|ls|-1], c);
    assert ls[..n] == if n < |before| then before[..n] else before;
    if n < |before| {
      assert before[..n + 1] == ls[..n + 1];
      LateVerificationsBounded(init, before, n, c);
    } else {
      assert ls[..n + 1] == ls;
      NoneLateYet(init, before, c);
    }
  }

  // ---------------------------------------------------------------- abandoned verifications

  /** The step gives up on an `append_verification` that has not been answered. */
  predicate Abandons(s: System, l: Label) {
    (l.Abandon? || l.Restart?) && (s.pc.Verifying? || s.pc.Writing?)
  }

  ghost predicate NoneAbandoned(init: System, ls: seq<Label>, c: Setting) {
    ls != [] ==>
      NoneAbandoned(init, ls[..|ls|-1], c) && !Abandons(Exec(init, ls[..|ls|-1], c), ls[|ls|-1])
  }

  predicate NoVerification(os: seq<Orphan>) {
    forall i | 0 <= i < |os| :: !os[i].LateAsk? && !os[i].LateWrite?
  }

  lemma {:induction false} NoVerificationTally(os: seq<Orphan>)
    requires NoVerification(os)
    ensures Tally(os, Writes) == 0
  {
    if os != [] {
      NoVerificationTally(os[..|os|-1]);
    }
  }

  lemma {:induction false} NoVerificationStep(s: System, l: Label, c: Setting)
    requires NoVerification(s.orphans) && !Abandons(s, l)
    ensures NoVerification(Next(s, l, c).orphans)
  {
    hide Perform, CheckVerifiable, Fold;
  }

  lemma {:induction false} NoVerificationOrphans(init: System, ls: seq<Label>, c: Setting)
    requires Initial(init) && NoneAbandoned(init, ls, c)
    ensures NoVerification(Exec(init, ls, c).orphans)
  {
    hide Next, Abandons, NoVerification;
    if ls == [] {
      assert NoVerification([]) by { NoOrphans(); }
    } else {
      NoVerificationOrphans(init, ls[..|ls|-1], c);
      NoVerificationStep(Exec(init, ls[..|ls|-1], c), ls[|ls|-1], c);
    }
  }

  lemma {:induction false} NoOrphans()
    ensures NoVerification([])
  {
  }

  /** If no verification request is ever abandoned, at most one verification lands late. */
  lemma {:induction false} AtMostOneLateVerification(init: System, ls: seq<Label>, c: Setting)
    requires Initial(init) && NoneAbandoned(init, ls, c)
    ensures Late(Exec(init, ls, c).log) <= 1
    ensures Ended(Fold(Exec(init, ls, c).log)) ==> Due(Exec(init, ls, c)) <= 1
  {
    hide Next, Inv, Fold, Ended, Late, Tally;
    var t := Exec(init, ls, c);
    NoneLateYet(init, ls, c);
    if ls == [] {
      OpeningNotLate(init);
      assert t.pc == Resting && Tally([], Writes) == 0 by { NoOrphans(); NoVerificationTally([]); }
    } else {
      var before := ls[..|ls|-1];
      var s := Exec(init, before, c);
      AtMostOneLateVerification(init, before, c);
      ReachableInv(init, before, c);
      InvLegal(s, c);
      StepSettles(s, ls[|ls|-1], c);
      NoneLateYet(init, before, c);
      NoVerificationOrphans(init, before, c);
      NoVerificationTally(s.orphans);
    }
  }

  // ---------------------------------------------------------------- what a pending write was told

  /** A request of this rule and revision is past its first region. */
  ghost predicate Pending(s: System, rule: Rule, rev: nat) {
    s.pc == Writing(rule, rev) || exists i :: 0 <= i < |s.orphans| && s.orphans[i] == LateWrite(rule, rev)
  }

  lemma {:induction false} LandedCameFrom(s: System, i: nat, key: string, text: string, env: Env, c: Setting, j: nat,
      o: Orphan)
    requires i < |s.orphans| && o.LateWrite? && o !in s.orphans
    requires var os := Landed(s, i, key, text, env, c).orphans; j < |os| && os[j] == o
    ensures CheckVerifiable(s.log, o.rule.id).None? && Landed(s, i, key, text, env, c).log == s.log
  {
    hide Perform, CheckVerifiable, VerifKey, StateKey;
    assert forall k | 0 <= k < |Without(s.orphans, i)| ::
      Without(s.orphans, i)[k] == s.orphans[if k < i then k else k + 1];
  }

  lemma {:induction false} PendingCameFrom(s: System, l: Label, c: Setting, rule: Rule, rev: nat)
    requires Pending(Next(s, l, c), rule, rev) && !Pending(s, rule, rev)
    ensures (l.Ask? || l.Land?) && CheckVerifiable(s.log, rule.id).None? && Next(s, l, c).log == s.log
  {
    hide Perform, CheckVerifiable, Fold, Held, React, VerifKey, StateKey, Decide, Compose, Landed;
    var t := Next(s, l, c);
    if l.Land? && l.which < |s.orphans| && t.pc != Writing(rule, rev) {
      var j :| 0 <= j < |t.orphans| && t.orphans[j] == LateWrite(rule, rev);
      LandedCameFrom(s, l.which, l.key, l.text, l.env, c, j, LateWrite(rule, rev));
    } else if l.Land? && l.which < |s.orphans| {
      LandKeepsPc(s, l.which, l.key, l.text, l.env, c);
    }
  }

  lemma {:induction false} LandKeepsPc(s: System, i: nat, key: string, text: string, env: Env, c: Setting)
    requires i < |s.orphans|
    ensures Landed(s, i, key, text, env, c).pc == s.pc
  {
    hide Perform, CheckVerifiable, VerifKey, StateKey;
  }

  lemma {:induction false} Checked(log: seq<Entry>, rule: string)
    requires CheckVerifiable(log, rule).None?
    ensures !Ended(Fold(log))
  {
  }

  /** Whenever a verification may be written, its own first region found the episode not ended, and it has been
      on its way ever since. */
  lemma {:induction false} WritingWasChecked(init: System, ls: seq<Label>, c: Setting, rule: Rule, rev: nat)
      returns (k: nat)
    requires Initial(init) && Pending(Exec(init, ls, c), rule, rev)
    ensures k < |ls| && (ls[k].Ask? || ls[k].Land?) && !Ended(Fold(Exec(init, ls[..k], c).log))
    ensures forall i | k < i <= |ls| :: Pending(Exec(init, ls[..i], c), rule, rev)
  {
    hide Next, Pending, Fold, Ended, CheckVerifiable;
    if ls == [] {
      NothingPending(init, rule, rev);
      assert false;
    } else {
      var before := ls[..|ls|-1];
      assert ls[..|ls|] == ls;
      if Pending(Exec(init, before, c), rule, rev) {
        k := WritingWasChecked(init, before, c, rule, rev);
        assert before[..k] == ls[..k];
        forall i | k < i <= |ls| ensures Pending(Exec(init, ls[..i], c), rule, rev) {
          if i < |ls| {
            assert before[..i] == ls[..i];
          }
        }
      } else {
        k := |ls| - 1;
        PendingCameFrom(Exec(init, before, c), ls[k], c, rule, rev);
        Checked(Exec(init, before, c).log, rule.id);
      }
    }
  }

  lemma {:induction false} NothingPending(init: System, rule: Rule, rev: nat)
    requires Initial(init)
    ensures !Pending(init, rule, rev)
  {
  }

  // ---------------------------------------------------------------- abandoned writes do land

  function HandOffRequest(log: seq<Entry>): Request {
    Request(Controller, None, "handoff", SetState(HandedOff, Fold(log).revision, ""))
  }

  function AnnotateRequest(): Request {
    Request(Controller, None, "note", Annotate("stale_signals", "x"))
  }

  /** The log with an entry of this kind appended. */
  ghost predicate Appended(log: seq<Entry>, after: seq<Entry>, key: string, body: Body) {
    |after| == |log| + 1 && after[..|log|] == log && after[|log|].key == key && after[|log|].body == body
  }

  lemma {:induction false} AcceptedAppends(log: seq<Entry>, rq: Request, env: Env, body: Body)
    requires Decide(log, rq).Write? && Decide(log, rq).body == body && env.auditOk
    ensures Appended(log, Perform(log, rq, env).0, EffectiveKey(rq), body)
    ensures Perform(log, rq, env).1.Done?
  {
    hide Decide;
    EntryKey(log, rq, env);
    WriteAppends(log, rq, env);
  }

  lemma {:induction false} HandOffAccepted(log: seq<Entry>)
    requires log != [] && Fold(log).state == Some(AwaitingOperator) && Prior(log, "handoff").None?
    ensures var d := Decide(log, HandOffRequest(log)); d.Write? && d.body == StateBody(AwaitingOperator, HandedOff, "")
  {
    assert !Whitespace("handoff"[0]);
    assert Allowed(Controller, AwaitingOperator, HandedOff);
  }

  lemma {:induction false} NoteAccepted(log: seq<Entry>)
    requires log != [] && Prior(log, "note").None?
    ensures var d := Decide(log, AnnotateRequest()); d.Write? && d.body == AnnotationBody("stale_signals", "x")
  {
    assert !Whitespace("note"[0]) && !Whitespace("x"[0]);
  }

  lemma {:induction false} VerificationAccepted(log: seq<Entry>, rule: string, key: string, samples: string)
    requires log != [] && !Blank(rule) && !BadKey(key) && Prior(log, key).None?
    ensures var d := Decide(log, Request(Verifier, None, key, RecordVerification(rule, true, samples)));
      d.Write? && d.body == VerificationBody(rule, true, samples)
  {
  }

  lemma {:induction false} AppendedPrior(log: seq<Entry>, after: seq<Entry>, key: string, body: Body, other: string)
    requires Appended(log, after, key, body) && key != other
    ensures Prior(after, other) == Prior(log, other)
  {
  }

  lemma {:induction false} AppendedLate(log: seq<Entry>, after: seq<Entry>, key: string, body: Body)
    requires Appended(log, after, key, body)
    ensures Late(after) == Late(log) + (if body.VerificationBody? && Ended(Fold(log)) then 1 else 0)
  {
    hide Fold, Ended;
    assert after == log + [after[|log|]];
    LatePush(log, after[|log|]);
  }

  lemma {:induction false} AppendedState(log: seq<Entry>, after: seq<Entry>, key: string, body: Body)
    requires Appended(log, after, key, body) && !body.OpenedBody?
    ensures Fold(after).state == if body.StateBody? then Some(body.to) else Fold(log).state
  {
    assert after == log + [after[|log|]];
    FoldPush(log, after[|log|]);
  }

  /** From any waiting episode, a hand-off between the two regions of a request leaves a verification in the
      log of an episode that has ended. */
  lemma {:induction false} VerificationCanLandLate(log: seq<Entry>, rule: string, key: string, samples: string,
      env: Env)
    requires Legal(log) && Fold(log).state == Some(AwaitingOperator) && env.auditOk
    requires !Blank(rule) && !BadKey(key) && Prior(log, key).None? && key != "handoff" && Prior(log, "handoff").None?
    ensures var ended := Perform(log, HandOffRequest(log), env).0;
      var after := Perform(ended, Request(Verifier, None, key, RecordVerification(rule, true, samples)), env).0;
      && CheckVerifiable(log, rule).None?
      && Ended(Fold(ended)) && CheckVerifiable(ended, rule) == Some(TerminalEpisode)
      && Late(after) == Late(log) + 1
  {
    hide Decide, Perform, BadKey, Blank, Late, Prior;
    var ended := Perform(log, HandOffRequest(log), env).0;
    HandOffAccepted(log);
    AcceptedAppends(log, HandOffRequest(log), env, StateBody(AwaitingOperator, HandedOff, ""));
    AppendedState(log, ended, "handoff", StateBody(AwaitingOperator, HandedOff, ""));
    AppendedLate(log, ended, "handoff", StateBody(AwaitingOperator, HandedOff, ""));
    AppendedPrior(log, ended, "handoff", StateBody(AwaitingOperator, HandedOff, ""), key);
    var rq := Request(Verifier, None, key, RecordVerification(rule, true, samples));
    VerificationAccepted(ended, rule, key, samples);
    AcceptedAppends(ended, rq, env, VerificationBody(rule, true, samples));
    AppendedLate(ended, Perform(ended, rq, env).0, key, VerificationBody(rule, true, samples));
  }

  lemma {:induction false} ExecConcat(s: System, a: seq<Label>, b: seq<Label>, c: Setting)
    ensures Exec(s, a + b, c) == Exec(Exec(s, a, c), b, c)
    decreases |b|
  {
    hide Next;
    if b == [] {
      assert a + b == a;
    } else {
      var n := |b| - 1;
      ExecConcat(s, a, b[..n], c);
      assert (a + b)[..|a + b| - 1] == a + b[..n];
    }
  }

  lemma {:induction false} ExecTwo(s: System, l: Label, m: Label, c: Setting)
    ensures Exec(s, [l, m], c) == Next(Next(s, l, c), m, c)
  {
    hide Next;
    assert [l, m][..1] == [l] && [l][..0] == [];
    assert Exec(s, [l], c) == Next(s, l, c);
  }

  lemma {:induction false} AnnotateIsOther()
    ensures OtherMay(AnnotateRequest())
  {
    assert AnnotateRequest().key[0] == 'n';
  }

  lemma {:induction false} HandOffIsOther(log: seq<Entry>)
    ensures OtherMay(HandOffRequest(log))
  {
    assert HandOffRequest(log).key[0] == 'h';
  }

  /** The verifier gives up on a write, and somebody moves the revision on. */
  lemma {:induction false} GivesUp(s: System, c: Setting, rule: Rule, rev: nat, env: Env)
    requires s.pc == Writing(rule, rev) && s.orphans == [] && s.log != []
    requires Fold(s.log).state == Some(AwaitingOperator) && env.auditOk && Prior(s.log, "note").None?
    ensures var t := Exec(s, [Abandon, Other(AnnotateRequest(), env)], c);
      && t == s.(pc := Resting, orphans := [LateWrite(rule, rev)], log := t.log)
      && Appended(s.log, t.log, "note", AnnotationBody("stale_signals", "x"))
      && Fold(t.log).state == Some(AwaitingOperator)
  {
    hide Perform, Decide, Fold, Exec, OtherMay;
    ExecTwo(s, Abandon, Other(AnnotateRequest(), env), c);
    AnnotateIsOther();
    NoteAccepted(s.log);
    AcceptedAppends(s.log, AnnotateRequest(), env, AnnotationBody("stale_signals", "x"));
    AppendedState(s.log, Perform(s.log, AnnotateRequest(), env).0, "note", AnnotationBody("stale_signals", "x"));
    assert s.orphans + Left(s.pc) == [LateWrite(rule, rev)];
  }

  /** One more held sample, and it asks again. */
  lemma {:induction false} AsksAgain(s: System, c: Setting, rule: Rule, sampled: Sampled)
    requires s.pc == Resting && s.log != [] && Fold(s.log).state == Some(AwaitingOperator)
    requires c.rules == [rule] && Held(rule, sampled, c.param) && rule.window <= Count(s.streak, rule.id) + 1
    requires !Blank(rule.id)
    ensures var t := Exec(Exec(s, [Begin, Sample(sampled)], c), [Read, Ask], c);
      t.pc == Writing(rule, |s.log|) && t.log == s.log && t.orphans == s.orphans
  {
    hide Perform, Fold, Exec, Held, Blank;
    ExecTwo(s, Begin, Sample(sampled), c);
    ExecTwo(Exec(s, [Begin, Sample(sampled)], c), Read, Ask, c);
  }

  /** The episode is handed off, and both writes land. */
  lemma {:induction false} BothLand(s: System, c: Setting, rule: Rule, rev: nat, again: nat, env: Env)
    requires s.pc == Writing(rule, again) && s.orphans == [LateWrite(rule, rev)] && s.log != [] && rev != again
    requires Fold(s.log).state == Some(AwaitingOperator) && env.auditOk && Prior(s.log, "handoff").None?
    requires !Blank(rule.id) && !BadKey(VerifKey(c.ep, rule.id, rev)) && !BadKey(VerifKey(c.ep, rule.id, again))
    requires Prior(s.log, VerifKey(c.ep, rule.id, rev)).None? && Prior(s.log, VerifKey(c.ep, rule.id, again)).None?
    ensures
      var t := Exec(Exec(s, [Other(HandOffRequest(s.log), env), Land(0, "", "", env)], c), [WritePass("", env)], c);
      Late(t.log) == Late(s.log) + 2
  {
    hide Perform, Decide, Fold, Exec, OtherMay, VerifKey, BadKey, Blank, Late, Prior;
    var k, k' := VerifKey(c.ep, rule.id, rev), VerifKey(c.ep, rule.id, again);
    KeysDiffer(c.ep, rule.id, rev, again);
    var body := VerificationBody(rule.id, true, "");
    var moved := StateBody(AwaitingOperator, HandedOff, "");
    var ended := Perform(s.log, HandOffRequest(s.log), env).0;
    var first := Perform(ended, PassRequest(c.ep, rule, rev, ""), env).0;
    var second := Perform(first, PassRequest(c.ep, rule, again, ""), env).0;
    ExecTwo(s, Other(HandOffRequest(s.log), env), Land(0, "", "", env), c);
    HandOffIsOther(s.log);
    HandOffAccepted(s.log);
    AcceptedAppends(s.log, HandOffRequest(s.log), env, moved);
    AppendedState(s.log, ended, "handoff", moved);
    AppendedLate(s.log, ended, "handoff", moved);
    AppendedPrior(s.log, ended, "handoff", moved, k);
    AppendedPrior(s.log, ended, "handoff", moved, k');
    VerificationAccepted(ended, rule.id, k, "");
    AcceptedAppends(ended, PassRequest(c.ep, rule, rev, ""), env, body);
    AppendedState(ended, first, k, body);
    AppendedLate(ended, first, k, body);
    AppendedPrior(ended, first, k, body, k');
    VerificationAccepted(first, rule.id, k', "");
    AcceptedAppends(first, PassRequest(c.ep, rule, again, ""), env, body);
    AppendedLate(first, second, k', body);
    ExecOne(Exec(s, [Other(HandOffRequest(s.log), env), Land(0, "", "", env)], c), WritePass("", env), c);
  }

  lemma {:induction false} ExecOne(s: System, l: Label, c: Setting)
    ensures Exec(s, [l], c) == Next(s, l, c)
  {
    hide Next;
    assert [l][..0] == [];
  }

  lemma {:induction false} KeysDiffer(ep: string, rule: string, m: nat, n: nat)
    requires m != n
    ensures VerifKey(ep, rule, m) != VerifKey(ep, rule, n)
    ensures VerifKey(ep, rule, m) != "handoff" && VerifKey(ep, rule, n) != "handoff"
    ensures VerifKey(ep, rule, m) != "note" && VerifKey(ep, rule, n) != "note"
  {
    VerifKeyPrefix(ep, rule, m);
    VerifKeyPrefix(ep, rule, n);
    assert "handoff"[0] == 'h' && "note"[0] == 'n' && "verif:"[0] == 'v';
    hide VerifKey;
    if VerifKey(ep, rule, m) == VerifKey(ep, rule, n) {
      VerifKeyNames(ep, rule, m, rule, n);
    }
  }

  lemma {:induction false} WritingStreak(s: System, c: Setting, rule: Rule, rev: nat)
    requires Inv(s, c) && s.pc == Writing(rule, rev)
    ensures rule.window <= Count(s.streak, rule.id) && rev <= |s.log|
  {
    hide HeldRun, Legal, Keyed, OrphansOk;
  }

  lemma {:induction false} NextKeyFree(log: seq<Entry>, c: Setting, rule: string)
    requires Keyed(log, c)
    ensures Prior(log, VerifKey(c.ep, rule, |log|)).None?
  {
    hide VerifKey, Keyed;
    if Prior(log, VerifKey(c.ep, rule, |log|)).Some? {
      var i := LogFacts.PriorComesFromEntry(log, VerifKey(c.ep, rule, |log|));
      KeyMeansTaken(log, c, i, rule, |log|);
    }
  }

  /** Nothing more can be promised of abandoned requests: whenever a lone verification is being written for a
      waiting episode, giving up on it is enough for a run in which two verifications land after the end. */
  lemma {:induction false} AbandonedWriteLandsToo(s: System, c: Setting, rule: Rule, rev: nat, sampled: Sampled,
      env: Env)
    returns (ls: seq<Label>)
    requires Inv(s, c) && s.pc == Writing(rule, rev) && s.orphans == [] && c.rules == [rule]
    requires Fold(s.log).state == Some(AwaitingOperator) && env.auditOk && Held(rule, sampled, c.param)
    requires !Blank(rule.id) && !BadKey(VerifKey(c.ep, rule.id, rev)) && !BadKey(VerifKey(c.ep, rule.id, |s.log| + 1))
    requires Prior(s.log, VerifKey(c.ep, rule.id, rev)).None?
    requires Prior(s.log, "note").None? && Prior(s.log, "handoff").None?
    ensures ls != [] && Abandons(s, ls[0])
    ensures Late(Exec(s, ls, c).log) == Late(s.log) + 2
  {
    hide Next, Exec, Fold, Inv, Held, VerifKey, BadKey, Blank, Late, Prior, Keyed;
    var a := [Abandon, Other(AnnotateRequest(), env)];
    var t := Exec(s, a, c);
    InvLegal(s, c);
    WritingStreak(s, c, rule, rev);
    GivesUp(s, c, rule, rev, env);
    var u := Exec(Exec(t, [Begin, Sample(sampled)], c), [Read, Ask], c);
    AsksAgain(t, c, rule, sampled);
    KeysDiffer(c.ep, rule.id, rev, |t.log|);
    NextKeyAfter(s.log, t.log, c, rule.id);
    AppendedPrior(s.log, t.log, "note", AnnotationBody("stale_signals", "x"), "handoff");
    AppendedPrior(s.log, t.log, "note", AnnotationBody("stale_signals", "x"), VerifKey(c.ep, rule.id, rev));
    AppendedLate(s.log, t.log, "note", AnnotationBody("stale_signals", "x"));
    var z := [Other(HandOffRequest(u.log), env), Land(0, "", "", env)];
    BothLand(u, c, rule, rev, |t.log|, env);
    ls := a + [Begin, Sample(sampled)] + [Read, Ask] + z + [WritePass("", env)];
    ExecConcat(s, a, [Begin, Sample(sampled)], c);
    ExecConcat(s, a + [Begin, Sample(sampled)], [Read, Ask], c);
    ExecConcat(s, a + [Begin, Sample(sampled)] + [Read, Ask], z, c);
    ExecConcat(s, a + [Begin, Sample(sampled)] + [Read, Ask] + z, [WritePass("", env)], c);
    assert ls[0] == Abandon;
  }

  lemma {:induction false} NextKeyAfter(log: seq<Entry>, after: seq<Entry>, c: Setting, rule: string)
    requires Keyed(log, c) && Appended(log, after, "note", AnnotationBody("stale_signals", "x"))
    ensures Prior(after, VerifKey(c.ep, rule, |after|)).None?
  {
    hide VerifKey;
    assert after == log + [after[|log|]];
    assert !("verif:" <= "note");
    KeyedKept(log, after[|log|], c);
    NextKeyFree(after, c, rule);
  }
}
