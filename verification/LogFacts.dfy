/** What every legal episode log guarantees: reference integrity, terminal freeze, linearised
    transitions and faithful replays (HLD section 5.3, the store's invariants). */
module LogFacts {
  import opened Wrappers
  import opened Text
  import opened Transitions
  import opened EpisodeRecord
  import opened StoreSpec

  // ---------------------------------------------------------------- reference integrity

  /** Ids count up from 1 under their prefix. */
  ghost predicate Counted(rec: Record) {
    && (forall i | 0 <= i < |rec.signals| :: rec.signals[i].id == Numbered('s', i + 1))
    && (forall i | 0 <= i < |rec.hypotheses| :: rec.hypotheses[i].id == Numbered('h', i + 1))
    && (forall i | 0 <= i < |rec.recommendations| ::
          rec.recommendations[i].Recommendation? && rec.recommendations[i].id == Numbered('r', i + 1))
    && (forall i | 0 <= i < |rec.noActions| ::
          rec.noActions[i].NoAction? && rec.noActions[i].id == Numbered('n', i + 1))
  }

  /** Every reference resolves inside the episode; a rated hypothesis cites evidence. */
  ghost predicate Grounded(rec: Record) {
    && (forall i | 0 <= i < |rec.hypotheses| :: HypothesisGrounded(rec, rec.hypotheses[i]))
    && (forall i | 0 <= i < |rec.recommendations| :: ArtefactGrounded(rec, rec.recommendations[i]))
    && (forall i | 0 <= i < |rec.noActions| :: ArtefactGrounded(rec, rec.noActions[i]))
    && (forall i | 0 <= i < |rec.verdicts| ::
          rec.verdicts[i].checks != [] && rec.verdicts[i].target in ArtefactIds(rec))
  }

  ghost predicate HypothesisGrounded(rec: Record, h: Hypothesis) {
    h.rank >= 1 && (h.status == Unrated || EvidenceOk(rec, h.refs))
  }

  ghost predicate ArtefactGrounded(rec: Record, a: Artefact) {
    EvidenceOk(rec, a.refs) && (a.Recommendation? ==> a.hypothesis in HypothesisIds(rec))
  }

  function ArtefactIds(rec: Record): set<string> {
    (set i | 0 <= i < |rec.recommendations| :: rec.recommendations[i].id) +
    (set i | 0 <= i < |rec.noActions| :: rec.noActions[i].id)
  }

  /** One planner artefact and one verdict per session, and one hypothesis per session and rank. */
  ghost predicate OnePerSession(rec: Record) {
    && (forall i, j | 0 <= i < j < |rec.recommendations| ::
          rec.recommendations[i].session != rec.recommendations[j].session)
    && (forall i, j | 0 <= i < j < |rec.noActions| :: rec.noActions[i].session != rec.noActions[j].session)
    && (forall i, j | 0 <= i < |rec.recommendations| && 0 <= j < |rec.noActions| ::
          rec.recommendations[i].session != rec.noActions[j].session)
    && (forall i, j | 0 <= i < j < |rec.verdicts| :: rec.verdicts[i].session != rec.verdicts[j].session)
    && (forall i, j | 0 <= i < j < |rec.hypotheses| ::
          || rec.hypotheses[i].stepSession != rec.hypotheses[j].stepSession
          || rec.hypotheses[i].rank != rec.hypotheses[j].rank)
  }

  lemma {:induction false} CountedSignals(rec: Record, e: Entry)
    requires Counted(rec) && EntryOk(rec, e)
    ensures forall i | 0 <= i < |Apply(rec, e).signals| :: Apply(rec, e).signals[i].id == Numbered('s', i + 1)
    ensures forall i | 0 <= i < |Apply(rec, e).hypotheses| :: Apply(rec, e).hypotheses[i].id == Numbered('h', i + 1)
  {
    var r := Apply(rec, e);
    if e.body.StatusBody? {
      assert forall i | 0 <= i < |rec.hypotheses| :: r.hypotheses[i].id == rec.hypotheses[i].id;
    }
  }

  lemma {:induction false} CountedStep(rec: Record, e: Entry)
    requires Counted(rec) && EntryOk(rec, e)
    ensures Counted(Apply(rec, e))
  {
    CountedSignals(rec, e);
    ArtefactLists(rec, e);
  }

  /** Signals and hypotheses are only ever added. */
  lemma {:induction false} IdsGrow(rec: Record, e: Entry)
    ensures SignalIds(rec) <= SignalIds(Apply(rec, e))
    ensures HypothesisIds(rec) <= HypothesisIds(Apply(rec, e))
    ensures ArtefactIds(rec) <= ArtefactIds(Apply(rec, e))
  {
    var r := Apply(rec, e);
    forall i | 0 <= i < |rec.signals| ensures rec.signals[i].id in SignalIds(r) {
      assert r.signals[i].id == rec.signals[i].id;
    }
    forall i | 0 <= i < |rec.hypotheses| ensures rec.hypotheses[i].id in HypothesisIds(r) {
      assert r.hypotheses[i].id == rec.hypotheses[i].id;
    }
    forall i | 0 <= i < |rec.recommendations| ensures rec.recommendations[i].id in ArtefactIds(r) {
      assert r.recommendations[i].id == rec.recommendations[i].id;
    }
    forall i | 0 <= i < |rec.noActions| ensures rec.noActions[i].id in ArtefactIds(r) {
      assert r.noActions[i].id == rec.noActions[i].id;
    }
  }

  lemma {:induction false} EvidenceKept(rec: Record, e: Entry, refs: seq<string>)
    requires EvidenceOk(rec, refs)
    ensures EvidenceOk(Apply(rec, e), refs)
  {
    IdsGrow(rec, e);
  }

  lemma {:induction false} MaxByRevIsMember(cands: seq<Artefact>)
    ensures MaxByRev(cands).Some? ==> MaxByRev(cands).value in cands
    ensures MaxByRev(cands).None? <==> cands == []
  {
    if cands != [] {
      MaxByRevIsMember(cands[..|cands|-1]);
    }
  }

  lemma {:induction false} UnderJudgementExists(rec: Record)
    ensures UnderJudgement(rec).Some? ==> UnderJudgement(rec).value.id in ArtefactIds(rec)
  {
    MaxByRevIsMember(rec.recommendations + rec.noActions);
    if UnderJudgement(rec).Some? {
      var a := UnderJudgement(rec).value;
      if a in rec.recommendations {
        var i :| 0 <= i < |rec.recommendations| && rec.recommendations[i] == a;
      } else {
        var i :| 0 <= i < |rec.noActions| && rec.noActions[i] == a;
      }
    }
  }

  lemma {:induction false} HypothesesGrounded(rec: Record, e: Entry)
    requires Grounded(rec) && EntryOk(rec, e)
    ensures forall i | 0 <= i < |Apply(rec, e).hypotheses| ::
      HypothesisGrounded(Apply(rec, e), Apply(rec, e).hypotheses[i])
  {
    var r := Apply(rec, e);
    forall i | 0 <= i < |r.hypotheses| ensures HypothesisGrounded(r, r.hypotheses[i]) {
      if i < |rec.hypotheses| {
        assert HypothesisGrounded(rec, rec.hypotheses[i]);
        if rec.hypotheses[i].status != Unrated {
          EvidenceKept(rec, e, rec.hypotheses[i].refs);
        }
        if e.body.StatusBody? {
          EvidenceKept(rec, e, e.body.refs);
          assert r.hypotheses[i] == Rated(rec.hypotheses[i], e.body, e.ts);
        } else {
          assert r.hypotheses[i] == rec.hypotheses[i];
        }
      }
    }
  }

  lemma {:induction false} ArtefactKept(rec: Record, e: Entry, a: Artefact)
    requires ArtefactGrounded(rec, a)
    ensures ArtefactGrounded(Apply(rec, e), a)
  {
    IdsGrow(rec, e);
    EvidenceKept(rec, e, a.refs);
  }

  lemma {:induction false} NewArtefactGrounded(rec: Record, e: Entry)
    requires EntryOk(rec, e)
    ensures ArtefactOf(e).Some? ==> ArtefactGrounded(Apply(rec, e), ArtefactOf(e).value)
  {
    if ArtefactOf(e).Some? {
      ArtefactKept(rec, e, ArtefactOf(e).value);
    }
  }

  /** What an entry adds to the two artefact lists. */
  lemma {:induction false} ArtefactLists(rec: Record, e: Entry)
    ensures var r, a := Apply(rec, e), ArtefactOf(e);
      && r.recommendations == rec.recommendations + (if a.Some? && a.value.Recommendation? then [a.value] else [])
      && r.noActions == rec.noActions + (if a.Some? && a.value.NoAction? then [a.value] else [])
  {
  }

  lemma {:induction false} ArtefactsGrounded(rec: Record, e: Entry)
    requires Grounded(rec) && EntryOk(rec, e)
    ensures forall i | 0 <= i < |Apply(rec, e).recommendations| ::
      ArtefactGrounded(Apply(rec, e), Apply(rec, e).recommendations[i])
    ensures forall i | 0 <= i < |Apply(rec, e).noActions| :: ArtefactGrounded(Apply(rec, e), Apply(rec, e).noActions[i])
  {
    var r := Apply(rec, e);
    ArtefactLists(rec, e);
    NewArtefactGrounded(rec, e);
    forall i | 0 <= i < |r.recommendations| ensures ArtefactGrounded(r, r.recommendations[i]) {
      if i < |rec.recommendations| {
        ArtefactKept(rec, e, rec.recommendations[i]);
      }
    }
    forall i | 0 <= i < |r.noActions| ensures ArtefactGrounded(r, r.noActions[i]) {
      if i < |rec.noActions| {
        ArtefactKept(rec, e, rec.noActions[i]);
      }
    }
  }

  lemma {:induction false} VerdictsGrounded(rec: Record, e: Entry)
    requires Grounded(rec) && EntryOk(rec, e)
    ensures forall i | 0 <= i < |Apply(rec, e).verdicts| ::
      Apply(rec, e).verdicts[i].checks != [] && Apply(rec, e).verdicts[i].target in ArtefactIds(Apply(rec, e))
  {
    var r := Apply(rec, e);
    IdsGrow(rec, e);
    UnderJudgementExists(rec);
    forall i | 0 <= i < |r.verdicts| ensures r.verdicts[i].checks != [] && r.verdicts[i].target in ArtefactIds(r) {
      if i < |rec.verdicts| {
        assert r.verdicts[i] == rec.verdicts[i];
      }
    }
  }

  lemma {:induction false} OneArtefactStep(rec: Record, e: Entry)
    requires OnePerSession(rec) && EntryOk(rec, e)
    ensures var r := Apply(rec, e);
      && (forall i, j | 0 <= i < j < |r.recommendations| ::
            r.recommendations[i].session != r.recommendations[j].session)
      && (forall i, j | 0 <= i < j < |r.noActions| :: r.noActions[i].session != r.noActions[j].session)
      && (forall i, j | 0 <= i < |r.recommendations| && 0 <= j < |r.noActions| ::
            r.recommendations[i].session != r.noActions[j].session)
  {
    ArtefactLists(rec, e);
  }

  lemma {:induction false} OneVerdictStep(rec: Record, e: Entry)
    requires OnePerSession(rec) && EntryOk(rec, e)
    ensures var r := Apply(rec, e);
      forall i, j | 0 <= i < j < |r.verdicts| :: r.verdicts[i].session != r.verdicts[j].session
  {
  }

  lemma {:induction false} OneRankStep(rec: Record, e: Entry)
    requires OnePerSession(rec) && EntryOk(rec, e)
    ensures var r := Apply(rec, e);
      forall i, j | 0 <= i < j < |r.hypotheses| ::
        r.hypotheses[i].stepSession != r.hypotheses[j].stepSession || r.hypotheses[i].rank != r.hypotheses[j].rank
  {
    if e.body.StatusBody? {
      var r := Apply(rec, e);
      assert forall i | 0 <= i < |rec.hypotheses| ::
          r.hypotheses[i].stepSession == rec.hypotheses[i].stepSession
            && r.hypotheses[i].rank == rec.hypotheses[i].rank;
    }
  }

  /** Reference integrity of every record a legal log can fold to. */
  lemma {:induction false} ReferencesHold(log: seq<Entry>)
    requires Legal(log)
    ensures Counted(Fold(log)) && Grounded(Fold(log)) && OnePerSession(Fold(log))
  {
    if log != [] {
      var before, e := log[..|log|-1], log[|log|-1];
      ReferencesHold(before);
      CountedStep(Fold(before), e);
      HypothesesGrounded(Fold(before), e);
      ArtefactsGrounded(Fold(before), e);
      VerdictsGrounded(Fold(before), e);
      OneArtefactStep(Fold(before), e);
      OneVerdictStep(Fold(before), e);
      OneRankStep(Fold(before), e);
    }
  }

  /** Counted ids are unique, across recommendations and no-actions too. */
  lemma {:induction false} IdsDistinct(r: Record)
    requires Counted(r)
    ensures forall i, j | 0 <= i < j < |r.signals| :: r.signals[i].id != r.signals[j].id
    ensures forall i, j | 0 <= i < j < |r.hypotheses| :: r.hypotheses[i].id != r.hypotheses[j].id
    ensures forall i, j | 0 <= i < j < |r.recommendations| :: r.recommendations[i].id != r.recommendations[j].id
    ensures forall i, j | 0 <= i < j < |r.noActions| :: r.noActions[i].id != r.noActions[j].id
    ensures forall i, j | 0 <= i < |r.recommendations| && 0 <= j < |r.noActions| ::
      r.recommendations[i].id != r.noActions[j].id
  {
    forall i, j | 0 <= i < j < |r.signals| ensures r.signals[i].id != r.signals[j].id {
      NumberedInjective('s', i + 1, 's', j + 1);
    }
    forall i, j | 0 <= i < j < |r.hypotheses| ensures r.hypotheses[i].id != r.hypotheses[j].id {
      NumberedInjective('h', i + 1, 'h', j + 1);
    }
    forall i, j | 0 <= i < j < |r.recommendations| ensures r.recommendations[i].id != r.recommendations[j].id {
      NumberedInjective('r', i + 1, 'r', j + 1);
    }
    forall i, j | 0 <= i < j < |r.noActions| ensures r.noActions[i].id != r.noActions[j].id {
      NumberedInjective('n', i + 1, 'n', j + 1);
    }
    forall i, j | 0 <= i < |r.recommendations| && 0 <= j < |r.noActions|
      ensures r.recommendations[i].id != r.noActions[j].id
    {
      NumberedInjective('r', i + 1, 'n', j + 1);
    }
  }

  /** At the time it was written, every citation named signals already collected, every recommendation a
      hypothesis already recorded, and every verdict the artefact written last. */
  lemma {:induction false} CitationsAreEarlier(log: seq<Entry>, i: nat)
    requires Legal(log) && i < |log|
    ensures var r, b := Fold(log[..i]), log[i].body;
      && (b.StatusBody? ==> EvidenceOk(r, b.refs))
      && (b.RecommendationBody? ==> EvidenceOk(r, b.refs) && b.hypothesis in HypothesisIds(r))
      && (b.NoActionBody? ==> EvidenceOk(r, b.refs))
      && (b.VerdictBody? ==> LastArtefact(log[..i]).Some? && b.target == LastArtefact(log[..i]).value.id)
  {
    LegalAt(log, i);
    LegalRevisions(log[..i]);
    UnderJudgementIsLatest(log[..i]);
  }

  // ---------------------------------------------------------------- terminal freeze

  /** The entries a terminal episode still takes. */
  predicate AfterTerminal(s: State, b: Body) {
    || b.CostBody? || b.StepBody? || b.AnnotationBody? || b.RecoveryBody? || b.VerificationBody?
    || (s == Resolved && b.ReportBody? && b.kind == Closure)
  }

  lemma {:induction false} FreezeStep(rec: Record, e: Entry)
    requires EntryOk(rec, e) && Ended(rec)
    ensures AfterTerminal(rec.state.value, e.body) && Apply(rec, e).state == rec.state
  {
  }

  /** Terminal freeze: once terminal, an episode never changes state again, and only bookkeeping,
      recovery observations, verifications and (when resolved) closure reports follow. */
  lemma {:induction false} TerminalFreeze(log: seq<Entry>, i: nat, j: nat)
    requires Legal(log) && i <= j <= |log| && Ended(Fold(log[..i]))
    ensures Fold(log[..j]).state == Fold(log[..i]).state
    ensures j < |log| ==> AfterTerminal(Fold(log[..i]).state.value, log[j].body)
    decreases j - i
  {
    if i < j {
      TerminalFreeze(log, i, j - 1);
      LegalAt(log, j - 1);
      FoldAt(log, j - 1);
      FreezeStep(Fold(log[..j - 1]), log[j - 1]);
    }
    if j < |log| {
      LegalAt(log, j);
      FreezeStep(Fold(log[..j]), log[j]);
    }
  }

  lemma {:induction false} AwaitingStep(rec: Record, e: Entry)
    requires EntryOk(rec, e) && (rec.state == Some(AwaitingOperator) || Ended(rec))
    ensures Apply(rec, e).state == Some(AwaitingOperator) || Ended(Apply(rec, e))
    ensures Ended(rec) ==> Ended(Apply(rec, e))
  {
  }

  /** `awaiting_operator` is left only for a terminal state: the episode is in it at both of two moments
      only if it was in it all the time between them. */
  lemma {:induction false} AwaitingIsContiguous(log: seq<Entry>, i: nat, j: nat)
    requires Legal(log) && i <= j <= |log|
    requires Fold(log[..i]).state == Some(AwaitingOperator) || Ended(Fold(log[..i]))
    ensures Fold(log[..j]).state == Some(AwaitingOperator) || Ended(Fold(log[..j]))
    ensures Ended(Fold(log[..i])) ==> Ended(Fold(log[..j]))
    decreases j - i
  {
    if i < j {
      AwaitingIsContiguous(log, i, j - 1);
      LegalAt(log, j - 1);
      FoldAt(log, j - 1);
      AwaitingStep(Fold(log[..j - 1]), log[j - 1]);
    }
  }

  // ---------------------------------------------------------------- linearised writes

  lemma {:induction false} PriorAt(log: seq<Entry>, i: nat)
    requires Legal(log) && i < |log|
    ensures Prior(log, log[i].key) == Some(log[i].reply)
  {
    var n := |log| - 1;
    if i < n {
      var before := log[..n];
      PriorAt(before, i);
      assert before[i] == log[i];
    }
  }

  lemma {:induction false} PriorComesFromEntry(log: seq<Entry>, key: string) returns (i: nat)
    requires Prior(log, key).Some?
    ensures i < |log| && log[i].key == key && Prior(log, key) == Some(log[i].reply)
  {
    i := |log| - 1;
    if log[i].key != key {
      i := PriorComesFromEntry(log[..|log|-1], key);
    }
  }

  /** A repeated key never changes the log, whatever the call it comes with. */
  lemma {:induction false} RepeatedKeyChangesNothing(log: seq<Entry>, rq: Request, env: Env, i: nat)
    requires Legal(log) && i < |log| && log[i].key == EffectiveKey(rq)
    ensures Perform(log, rq, env).0 == log
  {
    PriorAt(log, i);
    ComposeKeyOnly(log, rq);
  }

  lemma {:induction false} ComposeKeyOnly(log: seq<Entry>, rq: Request)
    requires Prior(log, EffectiveKey(rq)).Some?
    ensures !Decide(log, rq).Write?
  {
  }

  /** The call was accepted and written, and `later` is the log some time after. */
  ghost predicate WrittenBefore(log: seq<Entry>, rq: Request, env: Env, later: seq<Entry>) {
    Decide(log, rq).Write? && env.auditOk && Perform(log, rq, env).0 <= later
  }

  /** Repeating an accepted call returns the original reply if and only if the gate still lets the
      caller in; otherwise the gate's refusal. Agents meet a gate that depends on the state. */
  lemma {:induction false} ReplayIffGateOpen(log: seq<Entry>, rq: Request, env: Env, later: seq<Entry>)
    requires Legal(log) && Legal(later) && WrittenBefore(log, rq, env, later)
    ensures Decide(later, rq) ==
      if Gate(later, rq).Some? then Refuse(Gate(later, rq).value) else Replay(Decide(log, rq).reply)
  {
    var d := Decide(log, rq);
    ComposeKey(Fold(log), rq, EffectiveKey(rq));
    var e := NewEntry(log, d, env);
    assert Perform(log, rq, env).0 == log + [e];
    assert later[|log|] == e;
    PriorAt(later, |log|);
  }

  /** Transitions and signals meet no such gate: their replays answer as the original did, even
      after the episode has become terminal. */
  lemma {:induction false} TransitionReplays(log: seq<Entry>, rq: Request, env: Env, later: seq<Entry>)
    requires Legal(log) && Legal(later) && WrittenBefore(log, rq, env, later)
    requires rq.call.SetState? || rq.call.AddSignal?
    ensures Decide(later, rq) == Replay(Decide(log, rq).reply)
  {
    ReplayIffGateOpen(log, rq, env, later);
    GatePassed(log, rq);
  }

  /** An episode's opening is that of its first entry. */
  lemma {:induction false} OpeningStays(log: seq<Entry>, later: seq<Entry>)
    requires Legal(later) && log != [] && log <= later
    ensures Fold(later).opening == Fold(log).opening
  {
    if log == later {
    } else {
      var before := later[..|later|-1];
      OpeningStays(log, before);
      OpeningKept(Fold(before), later[|later|-1]);
    }
  }

  lemma {:induction false} OpeningKept(rec: Record, e: Entry)
    requires !e.body.OpenedBody?
    ensures Apply(rec, e).opening == rec.opening
  {
  }

  /** An agent's replay after the state moved on is refused, although its key is in the log. */
  lemma {:induction false} AgentReplayAfterTransition(log: seq<Entry>, rq: Request, env: Env, later: seq<Entry>)
    requires Legal(log) && Legal(later) && WrittenBefore(log, rq, env, later)
    requires AgentCall(rq.call)
    ensures Decide(later, rq) ==
      if ToolLegal(rq.call, Fold(later).state) then Replay(Decide(log, rq).reply) else Refuse(IllegalState)
  {
    ReplayIffGateOpen(log, rq, env, later);
    GatePassed(log, rq);
    assert later != [];
    OpeningStays(log, later);
  }

  lemma {:induction false} TransitionNamesRevision(log: seq<Entry>, rq: Request)
    requires rq.call.SetState? && Decide(log, rq).Write?
    ensures rq.call.expected == Fold(log).revision
  {
  }

  /** Compare-and-swap: from a given revision at most one transition is ever accepted. */
  lemma {:induction false} OneTransitionPerRevision(log: seq<Entry>, rq: Request, env: Env, later: seq<Entry>,
      other: Request)
    requires Legal(log) && Legal(later) && WrittenBefore(log, rq, env, later)
    requires rq.call.SetState? && other.call.SetState? && other.call.expected == rq.call.expected
    ensures !Decide(later, other).Write?
  {
    LegalRevisions(log);
    LegalRevisions(later);
    TransitionNamesRevision(log, rq);
    if Decide(later, other).Write? {
      TransitionNamesRevision(later, other);
    }
  }

  /** The table's unique constraints on revision and key never fire. */
  lemma {:induction false} InsertsAreUnique(log: seq<Entry>, rq: Request, env: Env, i: nat)
    requires Legal(log) && Decide(log, rq).Write? && i < |log|
    ensures var e := NewEntry(log, Decide(log, rq), env); log[i].rev != e.rev && log[i].key != e.key
  {
    hide Decide;
    LegalRevisions(log);
    DecideIsLegal(log, rq, env);
    PriorAt(log, i);
  }
}
