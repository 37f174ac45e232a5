/** The recovery verifier's streaks (valops/verifier/verifier.py): a map from (episode, rule) to a counter,
    against the history of evaluations it summarises. */
module RecoveryVerifier {
  import opened Transitions
  import Rules

  datatype Rule = Rule(id: string, pred: Rules.Pred, window: int)

  /** What sampling a rule's commands gave, and whether every sample was there and young enough. */
  datatype Sampled = Sampled(allFresh: bool, values: Rules.Json)

  datatype Event = Evaluated(rule: Rule, sampled: Sampled) | Restarted

  predicate Held(rule: Rule, sampled: Sampled, param: Rules.Params) {
    sampled.allFresh && Rules.Evaluate(rule.pred, sampled.values, param)
  }

  // ---------------------------------------------------------------- the history

  /** Consecutive evaluations of a rule that held, up to now and since the verifier last started. */
  function HeldRun(events: seq<Event>, id: string, param: Rules.Params): nat {
    if events == [] then 0
    else
      var before, e := events[..|events|-1], events[|events|-1];
      match e
      case Restarted => 0
      case Evaluated(rule, sampled) =>
        if rule.id != id then HeldRun(before, id, param)
        else if Held(rule, sampled, param) then HeldRun(before, id, param) + 1
        else 0
  }

  function Evaluations(events: seq<Event>, id: string): seq<Event> {
    if events == [] then []
    else
      var e := events[|events|-1];
      Evaluations(events[..|events|-1], id) + (if e.Evaluated? && e.rule.id == id then [e] else [])
  }

  /** How often a run of a rule began. */
  function Starts(events: seq<Event>, id: string, param: Rules.Params): nat {
    if events == [] then 0
    else
      var before, e := events[..|events|-1], events[|events|-1];
      Starts(before, id, param) +
      (if HeldRun(events, id, param) == 1 && HeldRun(before, id, param) == 0 then 1 else 0)
  }

  /** The last w evaluations of the rule were all of fresh samples that satisfied it. */
  ghost predicate LastHeld(events: seq<Event>, id: string, w: int, param: Rules.Params) {
    var es := Evaluations(events, id);
    && w <= |es|
    && forall i | 0 <= i < |es| && |es| - w <= i :: es[i].Evaluated? && Held(es[i].rule, es[i].sampled, param)
  }

  lemma {:induction false} HeldRunPush(events: seq<Event>, e: Event, id: string, param: Rules.Params)
    ensures HeldRun(events + [e], id, param) ==
      if e.Restarted? then 0
      else if e.rule.id != id then HeldRun(events, id, param)
      else if Held(e.rule, e.sampled, param) then HeldRun(events, id, param) + 1
      else 0
    ensures Evaluations(events + [e], id) ==
        Evaluations(events, id) + (if e.Evaluated? && e.rule.id == id then [e] else [])
    ensures Starts(events + [e], id, param) == Starts(events, id, param) +
      (if HeldRun(events + [e], id, param) == 1 && HeldRun(events, id, param) == 0 then 1 else 0)
  {
    assert (events + [e])[..|events|] == events;
  }

  /** A run of length n says that the last n evaluations held, restarts in between or not. */
  lemma {:induction false} RunMeansLastHeld(events: seq<Event>, id: string, w: int, param: Rules.Params)
    requires w <= HeldRun(events, id, param)
    ensures LastHeld(events, id, w, param)
  {
    if events != [] {
      var before, e := events[..|events|-1], events[|events|-1];
      if e.Evaluated? && HeldRun(events, id, param) > 0 {
        RunMeansLastHeld(before, id, if e.rule.id == id then w - 1 else w, param);
      }
    }
  }

  /** The events since the verifier last started. */
  function SinceRestart(events: seq<Event>): seq<Event> {
    if events == [] || events[|events|-1].Restarted? then []
    else SinceRestart(events[..|events|-1]) + [events[|events|-1]]
  }

  lemma {:induction false} LastHeldPush(events: seq<Event>, rule: Rule, sampled: Sampled, id: string, w: nat,
      param: Rules.Params)
    ensures LastHeld(events + [Evaluated(rule, sampled)], id, w, param) <==>
      if rule.id != id then LastHeld(events, id, w, param)
      else w == 0 || (Held(rule, sampled, param) && LastHeld(events, id, w - 1, param))
  {
    hide HeldRun, Held, Starts;
    HeldRunPush(events, Evaluated(rule, sampled), id, param);
    var before, after := Evaluations(events, id), Evaluations(events + [Evaluated(rule, sampled)], id);
    if rule.id != id {
      assert after == before;
    } else if w > 0 {
      assert after == before + [Evaluated(rule, sampled)];
      if LastHeld(events + [Evaluated(rule, sampled)], id, w, param) {
        assert Held(after[|before|].rule, after[|before|].sampled, param);
        forall i | 0 <= i < |before| && |before| - (w - 1) <= i
          ensures before[i].Evaluated? && Held(before[i].rule, before[i].sampled, param) {
          assert after[i] == before[i];
        }
      } else if LastHeld(events, id, w - 1, param) && Held(rule, sampled, param) {
        forall i | 0 <= i < |after| && |after| - w <= i
          ensures after[i].Evaluated? && Held(after[i].rule, after[i].sampled, param) {
          assert i < |before| ==> after[i] == before[i];
        }
      }
    }
  }

  /** A run is as long as it can be: the last w evaluations since the last start all held, exactly for the w it
      reaches. */
  lemma {:induction false} RunIsLongest(events: seq<Event>, id: string, w: nat, param: Rules.Params)
    ensures w <= HeldRun(events, id, param) <==> LastHeld(SinceRestart(events), id, w, param)
  {
    hide LastHeld, Held;
    NoneHeld(id, w, param);
    if events != [] && events[|events|-1].Evaluated? {
      var before, e := events[..|events|-1], events[|events|-1];
      assert e == Evaluated(e.rule, e.sampled);
      LastHeldPush(SinceRestart(before), e.rule, e.sampled, id, w, param);
      RunIsLongest(before, id, if e.rule.id == id && w > 0 then w - 1 else w, param);
    }
  }

  lemma {:induction false} NoneHeld(id: string, w: nat, param: Rules.Params)
    ensures LastHeld([], id, w, param) <==> w == 0
  {
  }

  // ---------------------------------------------------------------- the map

  function Count<K>(streak: map<K, nat>, key: K): nat {
    if key in streak then streak[key] else 0
  }

  function Bumped<K>(streak: map<K, nat>, key: K, held: bool): map<K, nat> {
    streak[key := if held then Count(streak, key) + 1 else 0]
  }

  datatype Action = Nothing | Observe | Resolve(n: nat)

  /** What a held or unheld evaluation leads to, by the state the episode was listed in. */
  function React(seen: State, held: bool, n: nat, window: int): Action {
    if !held then Nothing
    else if seen == AwaitingOperator then (if n >= window then Resolve(n) else Nothing)
    else if n == 1 then Observe
    else Nothing
  }

  /** The map's counters for an episode are the runs of its history. */
  ghost predicate Tracks(streak: map<(string, string), nat>, ep: string, events: seq<Event>, param: Rules.Params) {
    forall id: string :: Count(streak, (ep, id)) == HeldRun(events, id, param)
  }

  lemma {:induction false} TracksBump(streak: map<(string, string), nat>, ep: string, events: seq<Event>, rule: Rule,
                                      sampled: Sampled, param: Rules.Params)
    requires Tracks(streak, ep, events, param)
    ensures Tracks(Bumped(streak, (ep, rule.id), Held(rule, sampled, param)), ep, events + [Evaluated(rule, sampled)],
        param)
  {
    var after := Bumped(streak, (ep, rule.id), Held(rule, sampled, param));
    forall id: string ensures Count(after, (ep, id)) == HeldRun(events + [Evaluated(rule, sampled)], id, param) {
      HeldRunPush(events, Evaluated(rule, sampled), id, param);
      assert Count(streak, (ep, id)) == HeldRun(events, id, param);
    }
  }

  function EventsOf(rules: seq<Rule>, samples: seq<Sampled>): (es: seq<Event>)
    requires |rules| == |samples|
    ensures |es| == |rules|
  {
    seq(|rules|, i requires 0 <= i < |rules| => Evaluated(rules[i], samples[i]))
  }

  /** The history once the first n of the rules have been evaluated. */
  function Upto(events: seq<Event>, rules: seq<Rule>, samples: seq<Sampled>, n: nat): seq<Event>
    requires |rules| == |samples| && n <= |rules|
  {
    events + EventsOf(rules[..n], samples[..n])
  }

  /** The action the history calls for when the i-th rule has been evaluated. */
  function Due(events: seq<Event>, seen: State, rules: seq<Rule>, samples: seq<Sampled>, i: nat,
      param: Rules.Params): Action
    requires |rules| == |samples| && i < |rules|
  {
    var n := HeldRun(Upto(events, rules, samples, i + 1), rules[i].id, param);
    React(seen, n > 0, n, rules[i].window)
  }

  /** The actions of a pass over the rules: each is due, and only the last can resolve. */
  ghost predicate AllDue(events: seq<Event>, seen: State, rules: seq<Rule>, samples: seq<Sampled>,
      actions: seq<Action>, param: Rules.Params)
    requires |rules| == |samples|
  {
    && |actions| <= |rules|
    && (forall i | 0 <= i < |actions| :: actions[i] == Due(events, seen, rules, samples, i, param))
    && (forall i | 0 <= i < |actions| - 1 :: !actions[i].Resolve?)
  }

  /** A recovery observation is called for exactly at the first sample of a run of a rule that held, unless the
      episode waits for the operator; then it is resolved exactly once the run has reached the rule's window. */
  predicate Called(action: Action, held: bool, seen: State, before: nat, window: int) {
    && (action.Observe? <==> held && seen != AwaitingOperator && before == 0)
    && (action.Resolve? <==> held && seen == AwaitingOperator && before + 1 >= window)
    && (action.Resolve? ==> action.n == before + 1)
  }

  lemma {:induction false} DueIff(events: seq<Event>, seen: State, rules: seq<Rule>, samples: seq<Sampled>, i: nat,
      param: Rules.Params)
    requires |rules| == |samples| && i < |rules|
    ensures var action := Due(events, seen, rules, samples, i, param);
      Called(action, samples[i].allFresh && Rules.Evaluate(rules[i].pred, samples[i].values, param), seen,
             HeldRun(Upto(events, rules, samples, i), rules[i].id, param), rules[i].window)
  {
    hide Upto, HeldRun;
    EventsPush(events, rules, samples, i);
    HeldRunPush(Upto(events, rules, samples, i), Evaluated(rules[i], samples[i]), rules[i].id, param);
  }

  lemma {:induction false} NoneDue(events: seq<Event>, seen: State, rules: seq<Rule>, samples: seq<Sampled>,
      param: Rules.Params)
    requires |rules| == |samples|
    ensures Upto(events, rules, samples, 0) == events && AllDue(events, seen, rules, samples, [], param)
  {
  }

  lemma {:induction false} DuePush(events: seq<Event>, seen: State, rules: seq<Rule>, samples: seq<Sampled>,
      actions: seq<Action>,
                                   action: Action, param: Rules.Params)
    requires |rules| == |samples| && |actions| < |rules|
    requires AllDue(events, seen, rules, samples, actions, param) && (actions != [] ==> !actions[|actions|-1].Resolve?)
    requires var i := |actions|;
      var n := HeldRun(Upto(events, rules, samples, i) + [Evaluated(rules[i], samples[i])], rules[i].id, param);
      action == React(seen, n > 0, n, rules[i].window)
    ensures AllDue(events, seen, rules, samples, actions + [action], param)
  {
    hide Upto, HeldRun, React;
    EventsPush(events, rules, samples, |actions|);
  }

  lemma {:induction false} AllDueIff(events: seq<Event>, seen: State, rules: seq<Rule>, samples: seq<Sampled>,
      actions: seq<Action>, param: Rules.Params)
    requires |rules| == |samples| && AllDue(events, seen, rules, samples, actions, param)
    ensures |actions| <= |rules| && forall i | 0 <= i < |actions| - 1 :: !actions[i].Resolve?
    ensures forall i | 0 <= i < |actions| ::
              Called(actions[i], samples[i].allFresh && Rules.Evaluate(rules[i].pred, samples[i].values, param), seen,
                     HeldRun(Upto(events, rules, samples, i), rules[i].id, param), rules[i].window)
  {
    hide HeldRun, Upto, Due, Rules.Evaluate;
    forall i | 0 <= i < |actions| ensures
        Called(actions[i], samples[i].allFresh && Rules.Evaluate(rules[i].pred, samples[i].values, param), seen,
               HeldRun(Upto(events, rules, samples, i), rules[i].id, param), rules[i].window)
    {
      DueIff(events, seen, rules, samples, i, param);
    }
  }

  class RecoveryVerifier {
    const param: Rules.Params
    var streak: map<(string, string), nat>
    var recoveredAfterHandoff: set<string>

    constructor (param: Rules.Params)
      ensures this.param == param && streak == map[] && recoveredAfterHandoff == {}
      ensures forall ep: string :: Tracks(streak, ep, [], param)
    {
      this.param, streak, recoveredAfterHandoff := param, map[], {};
    }

    /** `tick`'s choice of episodes. */
    predicate Skips(ep: string, seen: State)
      reads this
    {
      seen == Resolved || (seen == HandedOff && ep in recoveredAfterHandoff)
    }

    /** A recovery observation was accepted: an episode that had been handed off is not looked at again. */
    method Observed(ep: string, seen: State)
      modifies this`recoveredAfterHandoff
      ensures forall e: string, s: State :: Skips(e, s) <==> old(Skips(e, s)) || (e == ep && s == seen == HandedOff)
    {
      if seen == HandedOff {
        recoveredAfterHandoff := recoveredAfterHandoff + {ep};
      }
    }

    /** One turn of the loop in `check_episode`. */
    method Evaluate(ep: string, seen: State, rule: Rule, sampled: Sampled,
        ghost events: seq<Event>) returns (action: Action)
      requires Tracks(streak, ep, events, param)
      modifies this`streak
      ensures var after := events + [Evaluated(rule, sampled)];
        && Tracks(streak, ep, after, param)
        && action == React(seen, HeldRun(after, rule.id, param) > 0, HeldRun(after, rule.id, param), rule.window)
      ensures Called(action, sampled.allFresh && Rules.Evaluate(rule.pred, sampled.values, param), seen,
                     HeldRun(events, rule.id, param), rule.window)
      ensures forall k: (string, string) | k != (ep, rule.id) :: Count(streak, k) == Count(old(streak), k)
    {
      var held := sampled.allFresh && Rules.Evaluate(rule.pred, sampled.values, param);
      var n := if held then Count(streak, (ep, rule.id)) + 1 else 0;
      TracksBump(streak, ep, events, rule, sampled, param);
      HeldRunPush(events, Evaluated(rule, sampled), rule.id, param);
      streak := streak[(ep, rule.id) := n];
      action := Nothing;
      if held {
        if seen == AwaitingOperator {
          if n >= rule.window {
            action := Resolve(n);
          }
        } else if n == 1 {
          action := Observe;
        }
      }
    }

    /** The loop over an episode's rules, given what sampling each of them returns: it stops at the first
        rule that resolves, and every action is the one the history calls for. */
    method CheckEpisode(ep: string, seen: State, rules: seq<Rule>, samples: seq<Sampled>, ghost events: seq<Event>)
      returns (actions: seq<Action>)
      requires |rules| == |samples| && Tracks(streak, ep, events, param)
      modifies this`streak
      ensures AllDue(events, seen, rules, samples, actions, param)
      ensures |actions| <= |rules| && (|actions| < |rules| ==> actions != [] && actions[|actions|-1].Resolve?)
      ensures forall i | 0 <= i < |actions| - 1 :: !actions[i].Resolve?
      ensures forall i | 0 <= i < |actions| ::
                Called(actions[i], samples[i].allFresh && Rules.Evaluate(rules[i].pred, samples[i].values, param), seen,
                       HeldRun(Upto(events, rules, samples, i), rules[i].id, param), rules[i].window)
      ensures Tracks(streak, ep, Upto(events, rules, samples, |actions|), param)
      ensures forall k: (string, string) | k.0 != ep :: Count(streak, k) == Count(old(streak), k)
    {
      hide HeldRun, Tracks, React, Upto, Count, AllDue, Due, Rules.Evaluate;
      actions := [];
      NoneDue(events, seen, rules, samples, param);
      for i := 0 to |rules|
        invariant |actions| == i && (i > 0 ==> !actions[i - 1].Resolve?)
        invariant AllDue(events, seen, rules, samples, actions, param)
        invariant Tracks(streak, ep, Upto(events, rules, samples, i), param)
        invariant forall k: (string, string) | k.0 != ep :: Count(streak, k) == Count(old(streak), k)
      {
        EventsPush(events, rules, samples, i);
        var action := Evaluate(ep, seen, rules[i], samples[i], Upto(events, rules, samples, i));
        DuePush(events, seen, rules, samples, actions, action, param);
        actions := actions + [action];
        if action.Resolve? {
          break;
        }
      }
      AllDueIff(events, seen, rules, samples, actions, param);
    }
  }

  lemma {:induction false} EventsPush(events: seq<Event>, rules: seq<Rule>, samples: seq<Sampled>, i: nat)
    requires |rules| == |samples| && i < |rules|
    ensures Upto(events, rules, samples, i + 1) == Upto(events, rules, samples, i) + [Evaluated(rules[i], samples[i])]
  {
    var a, b := EventsOf(rules[..i + 1], samples[..i + 1]), EventsOf(rules[..i], samples[..i]);
    assert a == b + [Evaluated(rules[i], samples[i])];
  }
}
