/** What each turn of the recovery verifier does (valops/verifier/verifier.py, `tick`, `check_episode` and
    `_resolve`), in every run of RecoverySafety: which episodes it looks at, which samples it acts on, and what that
    leaves in the record when nothing comes in between. */
module RecoveryAnswers {
  import opened Wrappers
  import opened Text
  import opened Transitions
  import opened EpisodeRecord
  import opened StoreSpec
  import opened StoreAnswers
  import opened RecoveryVerifier
  import opened RecoverySafety
  import opened RecoveryOutcomes
  import Rules

  /** A pass looks at the episode in the state it is in, unless it is resolved, or was handed off and has been
      observed to recover since. */
  lemma {:induction false} BeginAnswered(s: System, c: Setting)
    requires s.pc == Resting
    ensures var state := Fold(s.log).state;
      Next(s, Begin, c) ==
      if state.Some? && state.value != Resolved && !(state.value == HandedOff && s.recovered) then
        s.(pc := Checking(state.value, 0))
      else s
  {
    hide Fold;
  }

  /** In every run, the sample that begins a run of a rule in an episode that does not wait for the operator leads
      straight to the observation of that rule; in one that does, the sample that fills the rule's window leads to
      its resolution; and any other sample to the next rule. */
  lemma {:induction false} SampleAnswered(init: System, ls: seq<Label>, sampled: Sampled, c: Setting)
    requires Initial(init) && Exec(init, ls, c).pc.Checking?
    ensures var s := Exec(init, ls, c);
      if s.pc.next >= |c.rules| then Next(s, Sample(sampled), c) == s.(pc := Resting)
      else
        var rule := c.rules[s.pc.next];
        var held := sampled.allFresh && Rules.Evaluate(rule.pred, sampled.values, c.param);
        var before := HeldRun(s.events, rule.id, c.param);
        var t := Next(s, Sample(sampled), c);
        && t == s.(streak := t.streak, events := s.events + [Evaluated(rule, sampled)], pc := t.pc)
        && t.pc ==
           if held && s.pc.seen != AwaitingOperator && before == 0 then Observing(s.pc.seen, s.pc.next + 1, rule)
           else if held && s.pc.seen == AwaitingOperator && before + 1 >= rule.window then Confirming(rule)
           else Checking(s.pc.seen, s.pc.next + 1)
  {
    hide Exec, HeldRun, Rules.Evaluate;
    var s := Exec(init, ls, c);
    ReachableInv(init, ls, c);
    if s.pc.next < |c.rules| {
      StreakIs(s, c, c.rules[s.pc.next].id);
    }
  }

  lemma {:induction false} StreakIs(s: System, c: Setting, id: string)
    requires Inv(s, c)
    ensures Count(s.streak, id) == HeldRun(s.events, id, c.param)
  {
    hide HeldRun, Legal, Keyed, PcOk, OrphansOk;
  }

  /** A recovery observation is recorded, and the pass goes on with the next rule. */
  lemma {:induction false} NoteAnswered(s: System, key: string, note: string, env: Env, c: Setting)
    requires s.pc.Observing? && s.log != [] && env.auditOk && !Blank(s.pc.rule.id)
    requires GoodKey(key) && Prior(s.log, key).None? && !("verif:" <= key)
    ensures var rec := Fold(s.log);
      var t := Next(s, Note(key, note, env), c);
      && t == s.(log := t.log, recovered := s.recovered || s.pc.seen == HandedOff,
                 pc := Checking(s.pc.seen, s.pc.next))
      && Fold(t.log) == rec.(revision := rec.revision + 1,
                             recoveries := rec.recoveries + [Recovery(s.pc.rule.id, note, env.ts)])
  {
    hide Fold, Perform, GoodKey, Blank;
    RecoveryAnswered(s.log, Verifier, key, s.pc.rule.id, note, env);
  }

  /** In every run, the first held sample of a run of a rule adds one recovery observation to the record of an
      episode that does not wait for the operator, unless something comes in between. */
  lemma {:induction false} RecoveryIsNoticed(init: System, ls: seq<Label>, sampled: Sampled, key: string, note: string,
      env: Env, c: Setting)
    requires Initial(init) && Exec(init, ls, c).pc.Checking? && Exec(init, ls, c).pc.next < |c.rules|
    requires var s := Exec(init, ls, c);
      var rule := c.rules[s.pc.next];
      && s.pc.seen != AwaitingOperator && HeldRun(s.events, rule.id, c.param) == 0
      && sampled.allFresh && Rules.Evaluate(rule.pred, sampled.values, c.param)
      && env.auditOk && !Blank(rule.id) && GoodKey(key) && Prior(s.log, key).None? && !("verif:" <= key)
    ensures var s := Exec(init, ls, c);
      var rec := Fold(s.log);
      Fold(Exec(s, [Sample(sampled), Note(key, note, env)], c).log) ==
      rec.(revision := rec.revision + 1,
           recoveries := rec.recoveries + [Recovery(c.rules[s.pc.next].id, note, env.ts)])
  {
    hide Exec, HeldRun, Fold, Next, GoodKey, Blank, Prior, Rules.Evaluate;
    var s := Exec(init, ls, c);
    ReachableInv(init, ls, c);
    InvLegal(s, c);
    SampleAnswered(init, ls, sampled, c);
    ExecTwo(s, Sample(sampled), Note(key, note, env), c);
    NoteAnswered(Next(s, Sample(sampled), c), key, note, env, c);
  }

  // ---------------------------------------------------------------- resolving

  /** From a decision to resolve to the question whether the verification may be written. */
  lemma {:induction false} AskAnswered(s: System, c: Setting)
    requires s.pc.Confirming? && s.log != []
    ensures var t := Next(s, Read, c);
      && t == s.(pc := if Fold(s.log).state == Some(AwaitingOperator) then Verifying(s.pc.rule, |s.log|) else Resting)
      && (t.pc.Verifying? ==>
            Next(t, Ask, c) == s.(pc := if !Blank(s.pc.rule.id) then Writing(s.pc.rule, |s.log|) else Resting))
  {
    hide Fold, Blank;
  }

  /** The pass verification is recorded, under the revision that was read. */
  lemma {:induction false} WriteAnswered(s: System, samples: string, env: Env, c: Setting)
    requires s.pc.Writing? && s.log != [] && env.auditOk && !Blank(s.pc.rule.id)
    requires var key := VerifKey(c.ep, s.pc.rule.id, s.pc.rev); GoodKey(key) && Prior(s.log, key).None?
    ensures var rec := Fold(s.log);
      var t := Next(s, WritePass(samples, env), c);
      && t == s.(log := t.log, pc := Rereading(s.pc.rule))
      && Appended(s.log, t.log, VerifKey(c.ep, s.pc.rule.id, s.pc.rev), VerificationBody(s.pc.rule.id, true, samples))
      && Fold(t.log) == rec.(revision := rec.revision + 1,
                             verifications := rec.verifications + [Verification(s.pc.rule.id, true, samples, env.ts)])
  {
    hide Fold, Perform, Decide, GoodKey, Blank, VerifKey;
    GoodKeyIff(VerifKey(c.ep, s.pc.rule.id, s.pc.rev));
    VerificationAccepted(s.log, s.pc.rule.id, VerifKey(c.ep, s.pc.rule.id, s.pc.rev), samples);
    AcceptedAppends(s.log, PassRequest(c.ep, s.pc.rule, s.pc.rev, samples), env,
                    VerificationBody(s.pc.rule.id, true, samples));
    VerificationAnswered(s.log, Verifier, VerifKey(c.ep, s.pc.rule.id, s.pc.rev), s.pc.rule.id, true, samples, env);
  }

  /** The move is made at the revision read after that. */
  lemma {:induction false} MoveAnswered(s: System, reason: string, env: Env, c: Setting)
    requires s.pc.Rereading? && Legal(s.log) && s.log != [] && env.auditOk
    requires Fold(s.log).state == Some(AwaitingOperator) && Prior(s.log, StateKey(|s.log|, Resolved)).None?
    requires GoodKey(StateKey(|s.log|, Resolved))
    ensures var t := Next(Next(s, ReadAgain, c), Cas(reason, env), c);
      t.pc == Resting && Fold(t.log) == Moved(Fold(s.log), Verifier, Resolved, env.ts)
  {
    hide Fold, Perform, GoodKey, Legal;
    LegalRevisions(s.log);
    TransitionAnswered(s.log, Verifier, "", Resolved, |s.log|, reason, env);
  }

  lemma {:induction false} KeysApart(ep: string, rule: string, rev: nat, expected: nat)
    ensures VerifKey(ep, rule, rev) != StateKey(expected, Resolved)
  {
    VerifKeyPrefix(ep, rule, rev);
    assert "verif:"[0] == 'v' && StateKey(expected, Resolved)[0] == 's';
  }

  /** In every run, the held sample that fills the window of a rule, in an episode that waits for the operator,
      ends in `resolved` with the verification recorded, unless something comes in between. */
  lemma {:induction false} RecoveryIsConfirmed(init: System, ls: seq<Label>, sampled: Sampled, samples: string,
      reason: string, env: Env, c: Setting)
    requires Initial(init) && Exec(init, ls, c).pc.Checking? && Exec(init, ls, c).pc.next < |c.rules|
    requires var s := Exec(init, ls, c);
      var rule := c.rules[s.pc.next];
      && s.pc.seen == AwaitingOperator && HeldRun(s.events, rule.id, c.param) + 1 >= rule.window
      && sampled.allFresh && Rules.Evaluate(rule.pred, sampled.values, c.param)
      && Fold(s.log).state == Some(AwaitingOperator)
      && env.auditOk && !Blank(rule.id) && GoodKey(VerifKey(c.ep, rule.id, |s.log|))
      && GoodKey(StateKey(|s.log| + 1, Resolved)) && Prior(s.log, StateKey(|s.log| + 1, Resolved)).None?
    ensures var s := Exec(init, ls, c);
      var rec := Fold(s.log);
      Fold(Exec(s, [Sample(sampled), Read, Ask, WritePass(samples, env), ReadAgain, Cas(reason, env)], c).log) ==
      Moved(rec.(revision := rec.revision + 1,
                 verifications := rec.verifications + [Verification(c.rules[s.pc.next].id, true, samples, env.ts)]),
            Verifier, Resolved, env.ts)
  {
    hide Exec, HeldRun, Fold, Next, GoodKey, Blank, Prior, VerifKey, StateKey, Legal, Keyed, Rules.Evaluate;
    var s := Exec(init, ls, c);
    var rule := c.rules[s.pc.next];
    ReachableInv(init, ls, c);
    InvLegal(s, c);
    SampleAnswered(init, ls, sampled, c);
    var t := Next(s, Sample(sampled), c);
    AskAnswered(t, c);
    NextKeyFree(s.log, c, rule.id);
    var u := Next(Next(t, Read, c), Ask, c);
    WriteAnswered(u, samples, env, c);
    var v := Next(u, WritePass(samples, env), c);
    NextGrows(u, WritePass(samples, env), c);
    KeysApart(c.ep, rule.id, |s.log|, |s.log| + 1);
    AppendedPrior(s.log, v.log, VerifKey(c.ep, rule.id, |s.log|), VerificationBody(rule.id, true, samples),
                  StateKey(|s.log| + 1, Resolved));
    MoveAnswered(v, reason, env, c);
    ExecTwo(s, Sample(sampled), Read, c);
    ExecTwo(Next(t, Read, c), Ask, WritePass(samples, env), c);
    ExecTwo(v, ReadAgain, Cas(reason, env), c);
    ExecConcat(s, [Sample(sampled), Read], [Ask, WritePass(samples, env)], c);
    ExecConcat(s, [Sample(sampled), Read] + [Ask, WritePass(samples, env)], [ReadAgain, Cas(reason, env)], c);
    assert [Sample(sampled), Read] + [Ask, WritePass(samples, env)] + [ReadAgain, Cas(reason, env)] ==
      [Sample(sampled), Read, Ask, WritePass(samples, env), ReadAgain, Cas(reason, env)];
  }

  // ---------------------------------------------------------------- giving up and starting again

  /** A call the verifier gives up on is left with the store: when it is got on with at once, it has the effect it would
      have had. */
  lemma {:induction false} AbandonedCallLands(s: System, key: string, text: string, env: Env, c: Setting)
    requires s.pc.Observing? || s.pc.Writing? || s.pc.Moving?
    requires s.pc.Observing? ==> !("verif:" <= key)
    ensures var t := Next(s, Abandon, c);
      var awaited :=
        if s.pc.Observing? then Note(key, text, env)
        else if s.pc.Writing? then WritePass(text, env)
        else Cas(text, env);
      && t == s.(pc := Resting, orphans := t.orphans)
      && |t.orphans| == |s.orphans| + 1 && t.orphans[..|s.orphans|] == s.orphans
      && Next(t, Land(|s.orphans|, key, text, env), c).log == Next(s, awaited, c).log
  {
    hide Fold, Decide, PassRequest, ResolveRequest, NoteRequest;
  }

  /** After a restart a handed-off episode is looked at again, and every run begins anew. */
  lemma {:induction false} RestartLooksAgain(s: System, c: Setting)
    requires Fold(s.log).state == Some(HandedOff)
    ensures var t := Exec(s, [Restart, Begin], c);
      t.pc == Checking(HandedOff, 0) && t.log == s.log && forall id :: HeldRun(t.events, id, c.param) == 0
  {
    hide Fold, Exec;
    ExecTwo(s, Restart, Begin, c);
  }
}
