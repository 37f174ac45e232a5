/** The recovery verifier beside the store (valops/verifier/verifier.py, `check_episode` and `_resolve`), as a step
    system for one episode: each store call is a step (two for `append_verification`), and between any two the
    controller, workers and sentinel may write. */
module RecoverySafety {
  import opened Wrappers
  import opened Text
  import opened Transitions
  import opened EpisodeRecord
  import opened StoreSpec
  import opened RecoveryVerifier
  import LogFacts
  import Rules

  /** Where the verifier is in `check_episode`; `seen` is the state the episode was listed in. */
  datatype Pc =
    | Resting
    | Checking(seen: State, next: nat)                // about to sample rule `next`
    | Observing(seen: State, next: nat, rule: Rule)   // about to append a recovery observation
    | Confirming(rule: Rule)                          // `_resolve`: about to read
    | Verifying(rule: Rule, rev: nat)                 // about to ask for the verification, first region
    | Writing(rule: Rule, rev: nat)                   // between the two locked regions
    | Rereading(rule: Rule)                           // verification written
    | Moving(rule: Rule, rev: nat)                    // about to CAS

  /** A call the store still works on although the verifier has given up on it or died. */
  datatype Orphan =
    | LateNote(rule: Rule)
    | LateAsk(rule: Rule, rev: nat)     // before the first region of `append_verification`
    | LateWrite(rule: Rule, rev: nat)   // between its two regions
    | LateMove(rule: Rule, rev: nat)

  datatype System = System(log: seq<Entry>, streak: map<string, nat>, recovered: bool, events: seq<Event>, pc: Pc,
                           orphans: seq<Orphan>)

  datatype Label =
    | Other(rq: Request, env: Env)
    | Begin
    | Sample(sampled: Sampled)
    | Note(key: string, note: string, env: Env)
    | Read
    | Ask
    | WritePass(samples: string, env: Env)
    | ReadAgain
    | Cas(reason: string, env: Env)
    | Abandon
    | Restart
    | Land(which: nat, key: string, text: string, env: Env)

  /** What is fixed for the episode: its id, its bundle's rules that apply to it, and the parameters. */
  datatype Setting = Setting(ep: string, rules: seq<Rule>, param: Rules.Params)

  function VerifPrefix(ep: string, rule: string): string {
    "verif:" + ep + ":" + rule
  }

  function VerifKey(ep: string, rule: string, rev: nat): string {
    VerifPrefix(ep, rule) + ":" + Digits(rev)
  }

  function PassRequest(ep: string, rule: Rule, rev: nat, samples: string): Request {
    Request(Verifier, None, VerifKey(ep, rule.id, rev), RecordVerification(rule.id, true, samples))
  }

  function NoteRequest(rule: Rule, key: string, note: string): Request {
    Request(Verifier, None, key, RecordRecovery(rule.id, note))
  }

  function ResolveRequest(rev: nat, reason: string): Request {
    Request(Verifier, None, "", SetState(Resolved, rev, reason))
  }

  /** Everybody else is on another endpoint, and leaves the verifier's keys alone. */
  predicate OtherMay(rq: Request) {
    rq.principal != Verifier && !("verif:" <= EffectiveKey(rq))
  }

  function Sampling(s: System, c: Setting, sampled: Sampled): System
    requires s.pc.Checking? && s.pc.next < |c.rules|
  {
    var rule := c.rules[s.pc.next];
    var held := Held(rule, sampled, c.param);
    var streak := Bumped(s.streak, rule.id, held);
    var pc :=
      match React(s.pc.seen, held, streak[rule.id], rule.window)
      case Nothing => Checking(s.pc.seen, s.pc.next + 1)
      case Observe => Observing(s.pc.seen, s.pc.next + 1, rule)
      case Resolve(_) => Confirming(rule);
    s.(streak := streak, events := s.events + [Evaluated(rule, sampled)], pc := pc)
  }

  /** What the store goes on with when the verifier stops waiting for it. */
  function Left(pc: Pc): seq<Orphan> {
    match pc
    case Observing(_, _, rule) => [LateNote(rule)]
    case Verifying(rule, rev) => [LateAsk(rule, rev)]
    case Writing(rule, rev) => [LateWrite(rule, rev)]
    case Moving(rule, rev) => [LateMove(rule, rev)]
    case _ => []
  }

  function Without(os: seq<Orphan>, i: nat): seq<Orphan>
    requires i < |os|
  {
    os[..i] + os[i + 1..]
  }

  /** The store gets on with an abandoned call: its effect is that of the call, and nobody reads the reply. */
  function Landed(s: System, i: nat, key: string, text: string, env: Env, c: Setting): System
    requires i < |s.orphans|
  {
    var rest := Without(s.orphans, i);
    match s.orphans[i]
    case LateNote(rule) =>
      if "verif:" <= key then s else s.(log := Perform(s.log, NoteRequest(rule, key, text), env).0, orphans := rest)
    case LateAsk(rule, rev) =>
      if CheckVerifiable(s.log, rule.id).None? then s.(orphans := s.orphans[i := LateWrite(rule, rev)])
      else s.(orphans := rest)
    case LateWrite(rule, rev) => s.(log := Perform(s.log, PassRequest(c.ep, rule, rev, text), env).0, orphans := rest)
    case LateMove(rule, rev) => s.(log := Perform(s.log, ResolveRequest(rev, text), env).0, orphans := rest)
  }

  function Next(s: System, l: Label, c: Setting): System {
    match l
    case Other(rq, env) => if OtherMay(rq) then s.(log := Perform(s.log, rq, env).0) else s
    case Begin =>
      var seen := Fold(s.log).state;
      if s.pc != Resting || seen.None? || seen == Some(Resolved) || (seen == Some(HandedOff) && s.recovered) then s
      else s.(pc := Checking(seen.value, 0))
    case Sample(sampled) =>
      if !s.pc.Checking? then s
      else if s.pc.next < |c.rules| then Sampling(s, c, sampled)
      else s.(pc := Resting)
    case Note(key, note, env) =>
      if !s.pc.Observing? || "verif:" <= key then s
      else
        var (log, outcome) := Perform(s.log, NoteRequest(s.pc.rule, key, note), env);
        if outcome.Done? then
          s.(log := log, recovered := s.recovered || s.pc.seen == HandedOff, pc := Checking(s.pc.seen, s.pc.next))
        else s.(pc := Resting)
    case Read =>
      if !s.pc.Confirming? then s
      else if Fold(s.log).state == Some(AwaitingOperator) then s.(pc := Verifying(s.pc.rule, |s.log|))
      else s.(pc := Resting)
    case Ask =>
      if !s.pc.Verifying? then s
      else if CheckVerifiable(s.log, s.pc.rule.id).None? then s.(pc := Writing(s.pc.rule, s.pc.rev))
      else s.(pc := Resting)
    case WritePass(samples, env) =>
      if !s.pc.Writing? then s
      else
        var (log, outcome) := Perform(s.log, PassRequest(c.ep, s.pc.rule, s.pc.rev, samples), env);
        if outcome.Done? then s.(log := log, pc := Rereading(s.pc.rule)) else s.(pc := Resting)
    case ReadAgain => if s.pc.Rereading? then s.(pc := Moving(s.pc.rule, |s.log|)) else s
    case Cas(reason, env) =>
      if !s.pc.Moving? then s
      else s.(log := Perform(s.log, ResolveRequest(s.pc.rev, reason), env).0, pc := Resting)
    case Abandon => s.(pc := Resting, orphans := s.orphans + Left(s.pc))
    case Restart =>
      System(s.log, map[], false, s.events + [Restarted], Resting, s.orphans + Left(s.pc))
    case Land(i, key, text, env) => if i < |s.orphans| then Landed(s, i, key, text, env, c) else s
  }

  ghost predicate Initial(s: System) {
    && Legal(s.log) && |s.log| == 1 && !("verif:" <= s.log[0].key)
    && s == System(s.log, map[], false, [], Resting, [])
  }

  function Exec(s: System, ls: seq<Label>, c: Setting): System {
    if ls == [] then s else Next(Exec(s, ls[..|ls|-1], c), ls[|ls|-1], c)
  }

  // ---------------------------------------------------------------- the invariant

  /** A pass verification of the rule, written while the episode was in `awaiting_operator`. */
  ghost predicate PassAt(log: seq<Entry>, j: nat, rule: string) {
    && j < |log|
    && log[j].body.VerificationBody? && log[j].body.rule == rule && log[j].body.passed
    && Fold(log[..j]).state == Some(AwaitingOperator)
  }

  ghost predicate VerifiedBefore(log: seq<Entry>, rule: string) {
    exists j: nat :: PassAt(log, j, rule)
  }

  /** An entry under one of the verifier's keys is a pass verification of the rule in the key, and the
      revision in the key is an earlier one. */
  ghost predicate OwnKey(e: Entry, at: nat, c: Setting) {
    "verif:" <= e.key ==>
      && e.body.VerificationBody? && e.body.passed
      && exists rev: nat :: rev <= at && e.key == VerifKey(c.ep, e.body.rule, rev)
  }

  ghost predicate Keyed(log: seq<Entry>, c: Setting) {
    forall i | 0 <= i < |log| :: OwnKey(log[i], i, c)
  }

  ghost predicate Earned(events: seq<Event>, rule: Rule, c: Setting) {
    rule in c.rules && rule.window <= HeldRun(events, rule.id, c.param)
  }

  ghost predicate AskedAt(log: seq<Entry>, rev: nat) {
    rev <= |log| && Fold(log[..rev]).state == Some(AwaitingOperator)
  }

  /** A pass verification was written, in `awaiting_operator` unless the episode had just ended. */
  ghost predicate Promised(log: seq<Entry>, rule: string) {
    VerifiedBefore(log, rule) || Ended(Fold(log))
  }

  ghost predicate PcOk(s: System, c: Setting) {
    match s.pc
    case Resting => true
    case Checking(_, _) => true
    case Observing(_, _, _) => true
    case Confirming(rule) => Earned(s.events, rule, c)
    case Verifying(rule, rev) => Earned(s.events, rule, c) && AskedAt(s.log, rev)
    case Writing(rule, rev) => Earned(s.events, rule, c) && AskedAt(s.log, rev)
    case Rereading(rule) => Earned(s.events, rule, c) && Promised(s.log, rule.id)
    case Moving(rule, rev) => Earned(s.events, rule, c) && Promised(s.log, rule.id) && rev <= |s.log|
  }

  ghost predicate OrphanOk(log: seq<Entry>, o: Orphan) {
    match o
    case LateNote(_) => true
    case LateAsk(_, rev) => AskedAt(log, rev)
    case LateWrite(_, rev) => AskedAt(log, rev)
    case LateMove(rule, _) => Promised(log, rule.id)
  }

  ghost predicate OrphansOk(log: seq<Entry>, os: seq<Orphan>) {
    forall i | 0 <= i < |os| :: OrphanOk(log, os[i])
  }

  ghost predicate StreaksTrue(streak: map<string, nat>, events: seq<Event>, c: Setting) {
    forall id: string :: Count(streak, id) == HeldRun(events, id, c.param)
  }

  ghost predicate Inv(s: System, c: Setting) {
    && Legal(s.log) && s.log != []
    && Keyed(s.log, c)
    && StreaksTrue(s.streak, s.events, c)
    && PcOk(s, c)
    && OrphansOk(s.log, s.orphans)
  }

  // ---------------------------------------------------------------- entries

  lemma {:induction false} VerifiedKept(log: seq<Entry>, e: Entry, rule: string)
    requires VerifiedBefore(log, rule)
    ensures VerifiedBefore(log + [e], rule)
  {
    var j: nat :| PassAt(log, j, rule);
    assert (log + [e])[..j] == log[..j];
    assert PassAt(log + [e], j, rule);
  }

  lemma {:induction false} PromisedKept(log: seq<Entry>, e: Entry, rule: string)
    requires EntryOk(Fold(log), e) && Promised(log, rule)
    ensures Promised(log + [e], rule)
  {
    FoldPush(log, e);
    if VerifiedBefore(log, rule) {
      VerifiedKept(log, e, rule);
    } else {
      LogFacts.FreezeStep(Fold(log), e);
    }
  }

  lemma {:induction false} AskedKept(log: seq<Entry>, e: Entry, rev: nat)
    requires AskedAt(log, rev)
    ensures AskedAt(log + [e], rev)
  {
    assert (log + [e])[..rev] == log[..rev];
  }

  lemma {:induction false} OrphansKept(log: seq<Entry>, e: Entry, os: seq<Orphan>)
    requires EntryOk(Fold(log), e) && OrphansOk(log, os)
    ensures OrphansOk(log + [e], os)
  {
    hide AskedAt, Promised, EntryOk;
    forall i | 0 <= i < |os| ensures OrphanOk(log + [e], os[i]) {
      assert OrphanOk(log, os[i]);
      match os[i]
      case LateNote(_) =>
      case LateAsk(_, rev) => AskedKept(log, e, rev);
      case LateWrite(_, rev) => AskedKept(log, e, rev);
      case LateMove(rule, _) => PromisedKept(log, e, rule.id);
    }
  }

  lemma {:induction false} KeyedKept(log: seq<Entry>, e: Entry, c: Setting)
    requires Keyed(log, c) && OwnKey(e, |log|, c)
    ensures Keyed(log + [e], c)
  {
    hide OwnKey;
    forall i | 0 <= i < |log + [e]| ensures OwnKey((log + [e])[i], i, c) {
      if i < |log| {
        assert OwnKey(log[i], i, c);
      }
    }
  }

  /** Any admissible entry keeps everything, as long as only pass verifications use the verifier's keys. */
  lemma {:induction false} EntryKeeps(s: System, e: Entry, c: Setting)
    requires Inv(s, c) && Legal(s.log + [e]) && EntryOk(Fold(s.log), e) && OwnKey(e, |s.log|, c)
    ensures Inv(s.(log := s.log + [e]), c)
  {
    hide OwnKey, EntryOk, Keyed, Legal, AskedAt, Promised, HeldRun;
    KeyedKept(s.log, e, c);
    OrphansKept(s.log, e, s.orphans);
    match s.pc
    case Verifying(_, rev) => AskedKept(s.log, e, rev);
    case Writing(_, rev) => AskedKept(s.log, e, rev);
    case Rereading(rule) => PromisedKept(s.log, e, rule.id);
    case Moving(rule, _) => PromisedKept(s.log, e, rule.id);
    case _ =>
  }

  lemma {:induction false} EntryKey(log: seq<Entry>, rq: Request, env: Env)
    requires Decide(log, rq).Write?
    ensures NewEntry(log, Decide(log, rq), env).key == EffectiveKey(rq)
  {
    hide Compose;
    GatePassed(log, rq);
    ComposeKey(Fold(log), rq, EffectiveKey(rq));
  }

  lemma {:induction false} InvLegal(s: System, c: Setting)
    requires Inv(s, c)
    ensures Legal(s.log) && s.log != [] && Keyed(s.log, c) && StreaksTrue(s.streak, s.events, c)
        && OrphansOk(s.log, s.orphans) && PcOk(s, c)
  {
  }

  /** A call under a key that is not the verifier's. */
  lemma {:induction false} CallKeeps(s: System, rq: Request, env: Env, c: Setting)
    requires Inv(s, c) && !("verif:" <= EffectiveKey(rq))
    ensures Inv(s.(log := Perform(s.log, rq, env).0), c)
  {
    hide Decide, Inv, EntryOk;
    var d := Decide(s.log, rq);
    if d.Write? && env.auditOk {
      var e := NewEntry(s.log, d, env);
      InvLegal(s, c);
      WriteAppends(s.log, rq, env);
      DecideIsLegal(s.log, rq, env);
      PerformIsLegal(s.log, rq, env);
      EntryKey(s.log, rq, env);
      EntryKeeps(s, e, c);
    }
  }

  // ---------------------------------------------------------------- the keys of verifications

  lemma {:induction false} VerifKeyPrefix(ep: string, rule: string, rev: nat)
    ensures "verif:" <= VerifKey(ep, rule, rev)
  {
    assert VerifKey(ep, rule, rev)[..6] == "verif:";
  }

  /** The key names both the rule and the revision. */
  lemma {:induction false} VerifKeyNames(ep: string, a: string, m: nat, b: string, n: nat)
    requires VerifKey(ep, a, m) == VerifKey(ep, b, n)
    ensures a == b && m == n
  {
    NumberedKeySuffix(VerifPrefix(ep, a), m, VerifPrefix(ep, b), n);
    SameSuffix(VerifPrefix(ep, a) + ":", VerifPrefix(ep, b) + ":", Digits(m));
    SameSuffix(VerifPrefix(ep, a), VerifPrefix(ep, b), ":");
    SamePrefix("verif:" + ep + ":", a, b);
  }

  lemma {:induction false} SameSuffix(a: string, b: string, t: string)
    requires a + t == b + t
    ensures a == b
  {
    assert |a + t| == |b + t|;
    assert a == (a + t)[..|a|] == (b + t)[..|a|] == b;
  }

  lemma {:induction false} SamePrefix(t: string, a: string, b: string)
    requires t + a == t + b
    ensures a == b
  {
    assert a == (t + a)[|t|..] == (t + b)[|t|..] == b;
  }

  /** Entry i is the pass verification of this rule that a request at this revision wrote. */
  ghost predicate Taken(log: seq<Entry>, c: Setting, i: nat, rule: string, rev: nat) {
    && rev <= i < |log|
    && log[i].key == VerifKey(c.ep, rule, rev)
    && log[i].body.VerificationBody? && log[i].body.rule == rule && log[i].body.passed
  }

  lemma {:induction false} KeyMeansTaken(log: seq<Entry>, c: Setting, i: nat, rule: string, rev: nat)
    requires Keyed(log, c) && i < |log| && log[i].key == VerifKey(c.ep, rule, rev)
    ensures Taken(log, c, i, rule, rev)
  {
    hide VerifKey;
    VerifKeyPrefix(c.ep, rule, rev);
    assert OwnKey(log[i], i, c);
    var m: nat :| m <= i && log[i].key == VerifKey(c.ep, log[i].body.rule, m);
    VerifKeyNames(c.ep, rule, rev, log[i].body.rule, m);
  }

  /** The key of a verification is in use exactly when a request for the same rule, computed from the same
      revision, has already written its verification. */
  lemma {:induction false} VerifKeyUsedIff(s: System, c: Setting, rule: string, rev: nat)
    requires Inv(s, c)
    ensures Prior(s.log, VerifKey(c.ep, rule, rev)).Some? <==> exists i: nat :: Taken(s.log, c, i, rule, rev)
  {
    hide VerifKey;
    var key := VerifKey(c.ep, rule, rev);
    if Prior(s.log, key).Some? {
      var i := LogFacts.PriorComesFromEntry(s.log, key);
      KeyMeansTaken(s.log, c, i, rule, rev);
    }
    if i: nat :| Taken(s.log, c, i, rule, rev) {
      LogFacts.PriorAt(s.log, i);
    }
  }

  // ---------------------------------------------------------------- the verification lands

  lemma {:induction false} PassEntry(log: seq<Entry>, ep: string, rule: Rule, rev: nat, samples: string, env: Env)
    requires Decide(log, PassRequest(ep, rule, rev, samples)).Write?
    ensures NewEntry(log, Decide(log, PassRequest(ep, rule, rev, samples)), env).body ==
      VerificationBody(rule.id, true, samples)
  {
  }

  /** The write lands some time after the terminal check: either the episode still waits, or it ended in
      between, and then nothing the verifier does next can resolve it. */
  lemma {:induction false} PassPromises(log: seq<Entry>, e: Entry, rule: string, rev: nat)
    requires Legal(log) && Legal(log + [e]) && AskedAt(log, rev)
    requires e.body.VerificationBody? && e.body.rule == rule && e.body.passed
    ensures Promised(log + [e], rule)
  {
    LogFacts.AwaitingIsContiguous(log, rev, |log|);
    assert log[..|log|] == log;
    FoldPush(log, e);
    if Fold(log).state == Some(AwaitingOperator) {
      assert (log + [e])[..|log|] == log;
      assert PassAt(log + [e], |log|, rule);
    }
  }

  /** A reused key is as good: its verification was written since the read, or the episode has ended. */
  lemma {:induction false} TakenPromises(log: seq<Entry>, c: Setting, i: nat, rule: string, rev: nat)
    requires Legal(log) && AskedAt(log, rev) && Taken(log, c, i, rule, rev)
    ensures Promised(log, rule)
  {
    LogFacts.AwaitingIsContiguous(log, rev, i);
    if Fold(log[..i]).state == Some(AwaitingOperator) {
      assert PassAt(log, i, rule);
    } else {
      LogFacts.AwaitingIsContiguous(log, i, |log|);
      assert log[..|log|] == log;
    }
  }

  lemma {:induction false} PassWritten(s: System, rule: Rule, rev: nat, samples: string, env: Env, c: Setting)
    requires Inv(s, c) && AskedAt(s.log, rev) && rev <= |s.log| && env.auditOk
    requires Decide(s.log, PassRequest(c.ep, rule, rev, samples)).Write?
    ensures var log := Perform(s.log, PassRequest(c.ep, rule, rev, samples), env).0;
      Inv(s.(log := log), c) && Promised(log, rule.id)
  {
    hide Decide, Perform, VerifKey, Inv, Promised, EntryOk, Legal;
    var rq := PassRequest(c.ep, rule, rev, samples);
    var e := NewEntry(s.log, Decide(s.log, rq), env);
    InvLegal(s, c);
    WriteAppends(s.log, rq, env);
    DecideIsLegal(s.log, rq, env);
    PerformIsLegal(s.log, rq, env);
    EntryKey(s.log, rq, env);
    PassEntry(s.log, c.ep, rule, rev, samples, env);
    PassKeyOwn(e, c, rule, rev, |s.log|);
    EntryKeeps(s, e, c);
    PassPromises(s.log, e, rule.id, rev);
  }

  lemma {:induction false} PassKeyOwn(e: Entry, c: Setting, rule: Rule, rev: nat, at: nat)
    requires e.body.VerificationBody? && e.body.passed && e.body.rule == rule.id && rev <= at
    requires e.key == VerifKey(c.ep, rule.id, rev) || e.key == EffectiveKey(PassRequest(c.ep, rule, rev, ""))
    ensures OwnKey(e, at, c)
  {
    hide VerifKey;
    assert e.key == VerifKey(c.ep, rule.id, rev);
  }

  /** `append_verification` answered: the pass is on the record. */
  lemma {:induction false} PassLands(s: System, rule: Rule, rev: nat, samples: string, env: Env, c: Setting)
    requires Inv(s, c) && AskedAt(s.log, rev)
    ensures var (log, outcome) := Perform(s.log, PassRequest(c.ep, rule, rev, samples), env);
      && Inv(s.(log := log), c)
      && (outcome.Done? ==> Promised(log, rule.id))
  {
    hide Decide, Inv, Promised, VerifKey;
    var rq := PassRequest(c.ep, rule, rev, samples);
    InvLegal(s, c);
    if Decide(s.log, rq).Write? && env.auditOk {
      PassWritten(s, rule, rev, samples, env, c);
    } else if Decide(s.log, rq).Replay? {
      ReplayHasPrior(s.log, rq);
      var i := LogFacts.PriorComesFromEntry(s.log, VerifKey(c.ep, rule.id, rev));
      KeyMeansTaken(s.log, c, i, rule.id, rev);
      TakenPromises(s.log, c, i, rule.id, rev);
    }
  }

  lemma {:induction false} ReplayHasPrior(log: seq<Entry>, rq: Request)
    requires Decide(log, rq).Replay?
    ensures Prior(log, EffectiveKey(rq)).Some?
  {
    hide Compose;
    GatePassed(log, rq);
    ComposeKey(Fold(log), rq, EffectiveKey(rq));
  }

  // ---------------------------------------------------------------- every step keeps the invariant

  lemma {:induction false} SampleKeeps(s: System, sampled: Sampled, c: Setting)
    requires Inv(s, c) && s.pc.Checking? && s.pc.next < |c.rules|
    ensures Inv(Sampling(s, c, sampled), c)
  {
    hide Legal, Keyed, HeldRun, Starts, OrphansOk;
    var t, rule := Sampling(s, c, sampled), c.rules[s.pc.next];
    var e := Evaluated(rule, sampled);
    forall id: string ensures Count(t.streak, id) == HeldRun(t.events, id, c.param) {
      HeldRunPush(s.events, e, id, c.param);
      assert Count(s.streak, id) == HeldRun(s.events, id, c.param);
    }
    HeldRunPush(s.events, e, rule.id, c.param);
    assert t.streak[rule.id] == Count(t.streak, rule.id);
  }

  lemma {:induction false} StateKeyIsNotVerif(m: int, x: State)
    ensures !("verif:" <= StateKey(m, x))
  {
    assert StateKey(m, x)[0] == 's';
  }

  lemma {:induction false} MoveKeeps(s: System, rev: nat, reason: string, env: Env, c: Setting)
    requires Inv(s, c)
    ensures Inv(s.(log := Perform(s.log, ResolveRequest(rev, reason), env).0), c)
  {
    hide Inv, Perform, StateKey;
    StateKeyIsNotVerif(rev, Resolved);
    CallKeeps(s, ResolveRequest(rev, reason), env, c);
  }

  lemma {:induction false} RestingOk(s: System, c: Setting)
    requires Inv(s, c)
    ensures Inv(s.(pc := Resting), c)
    ensures forall state: State, n: nat, r: bool :: Inv(s.(recovered := r, pc := Checking(state, n)), c)
  {
    hide Legal, Keyed, StreaksTrue, OrphansOk;
  }

  lemma {:induction false} LeftOk(s: System, c: Setting)
    requires Inv(s, c)
    ensures OrphansOk(s.log, s.orphans + Left(s.pc))
  {
    hide Legal, Keyed, StreaksTrue, AskedAt, Promised;
    var os := s.orphans + Left(s.pc);
    forall i | 0 <= i < |os| ensures OrphanOk(s.log, os[i]) {
      if i < |s.orphans| {
        assert OrphanOk(s.log, s.orphans[i]);
      }
    }
  }

  lemma {:induction false} AbandonKeeps(s: System, c: Setting)
    requires Inv(s, c)
    ensures Inv(s.(pc := Resting, orphans := s.orphans + Left(s.pc)), c)
  {
    LeftOk(s, c);
    hide Legal, Keyed, StreaksTrue, OrphansOk;
  }

  lemma {:induction false} RestartKeeps(s: System, c: Setting)
    requires Inv(s, c)
    ensures Inv(Next(s, Restart, c), c)
  {
    LeftOk(s, c);
    hide Legal, Keyed, HeldRun, OrphansOk, Starts;
    var t := Next(s, Restart, c);
    forall id: string ensures Count(t.streak, id) == HeldRun(t.events, id, c.param) {
      HeldRunPush(s.events, Restarted, id, c.param);
    }
  }

  lemma {:induction false} FewerOrphans(s: System, i: nat, c: Setting)
    requires Inv(s, c) && i < |s.orphans|
    ensures Inv(s.(orphans := Without(s.orphans, i)), c)
    ensures s.orphans[i].LateAsk? ==>
      Inv(s.(orphans := s.orphans[i := LateWrite(s.orphans[i].rule, s.orphans[i].rev)]), c)
  {
    hide Legal, Keyed, StreaksTrue, OrphanOk;
    var rest := Without(s.orphans, i);
    forall j | 0 <= j < |rest| ensures OrphanOk(s.log, rest[j]) {
      assert rest[j] == s.orphans[if j < i then j else j + 1];
    }
    assert OrphanOk(s.log, s.orphans[i]);
    AskThenWrite(s.log, s.orphans[i]);
  }

  lemma {:induction false} AskThenWrite(log: seq<Entry>, o: Orphan)
    requires OrphanOk(log, o)
    ensures o.LateAsk? ==> OrphanOk(log, LateWrite(o.rule, o.rev))
  {
  }

  lemma {:induction false} LandKeeps(s: System, i: nat, key: string, text: string, env: Env, c: Setting)
    requires Inv(s, c) && i < |s.orphans|
    ensures Inv(Landed(s, i, key, text, env, c), c)
  {
    hide Inv, Perform, CheckVerifiable, VerifKey, StateKey;
    FewerOrphans(s, i, c);
    InvLegal(s, c);
    assert OrphanOk(s.log, s.orphans[i]);
    var q := s.(orphans := Without(s.orphans, i));
    match s.orphans[i]
    case LateNote(rule) =>
      if !("verif:" <= key) {
        CallKeeps(q, NoteRequest(rule, key, text), env, c);
      }
    case LateAsk(_, _) =>
    case LateWrite(rule, rev) => PassLands(q, rule, rev, text, env, c);
    case LateMove(_, rev) => MoveKeeps(q, rev, text, env, c);
  }

  lemma {:induction false} NoteKeeps(s: System, key: string, note: string, env: Env, c: Setting)
    requires Inv(s, c)
    ensures Inv(Next(s, Note(key, note, env), c), c)
  {
    hide Inv, Perform;
    RestingOk(s, c);
    if s.pc.Observing? && !("verif:" <= key) {
      CallKeeps(s, NoteRequest(s.pc.rule, key, note), env, c);
      RestingOk(s.(log := Perform(s.log, NoteRequest(s.pc.rule, key, note), env).0), c);
    }
  }

  lemma {:induction false} WritePassKeeps(s: System, samples: string, env: Env, c: Setting)
    requires Inv(s, c)
    ensures Inv(Next(s, WritePass(samples, env), c), c)
  {
    hide Perform, VerifKey, Legal, Keyed, StreaksTrue, OrphansOk, Promised, HeldRun, AskedAt;
    RestingOk(s, c);
    if s.pc.Writing? {
      PassLands(s, s.pc.rule, s.pc.rev, samples, env, c);
    }
  }

  lemma {:induction false} ReadKeeps(s: System, c: Setting)
    requires Inv(s, c)
    ensures Inv(Next(s, Read, c), c) && Inv(Next(s, Ask, c), c) && Inv(Next(s, ReadAgain, c), c)
  {
    hide Perform, Legal, Keyed, StreaksTrue, OrphansOk, Promised, HeldRun, CheckVerifiable;
    assert s.log[..|s.log|] == s.log;
  }

  lemma {:induction false} CasKeeps(s: System, reason: string, env: Env, c: Setting)
    requires Inv(s, c)
    ensures Inv(Next(s, Cas(reason, env), c), c)
  {
    hide Perform, Inv;
    RestingOk(s, c);
    if s.pc.Moving? {
      MoveKeeps(s.(pc := Resting), s.pc.rev, reason, env, c);
    }
  }

  lemma {:induction false} NextKeeps(s: System, l: Label, c: Setting)
    requires Inv(s, c)
    ensures Inv(Next(s, l, c), c)
  {
    hide Perform, Inv, Fold, CheckVerifiable;
    RestingOk(s, c);
    match l
    case Other(rq, env) =>
      if OtherMay(rq) {
        CallKeeps(s, rq, env, c);
      }
    case Begin => assert s.(recovered := s.recovered) == s;
    case Sample(sampled) =>
      if s.pc.Checking? && s.pc.next < |c.rules| {
        SampleKeeps(s, sampled, c);
      }
    case Note(key, note, env) => NoteKeeps(s, key, note, env, c);
    case Read => ReadKeeps(s, c);
    case Ask => ReadKeeps(s, c);
    case WritePass(samples, env) => WritePassKeeps(s, samples, env, c);
    case ReadAgain => ReadKeeps(s, c);
    case Cas(reason, env) => CasKeeps(s, reason, env, c);
    case Abandon => AbandonKeeps(s, c);
    case Restart => RestartKeeps(s, c);
    case Land(i, key, text, env) =>
      if i < |s.orphans| {
        LandKeeps(s, i, key, text, env, c);
      }
  }

  lemma {:induction false} ReachableInv(s: System, ls: seq<Label>, c: Setting)
    requires Initial(s)
    ensures Inv(Exec(s, ls, c), c)
  {
    if ls == [] {
      assert OwnKey(s.log[0], 0, c);
      assert s.log[..0] == [];
    } else {
      ReachableInv(s, ls[..|ls|-1], c);
      NextKeeps(Exec(s, ls[..|ls|-1], c), ls[|ls|-1], c);
    }
  }
}
