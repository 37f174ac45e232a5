/** Metering at the model broker (valops/brokers/model_broker.py). A request is admitted
    under the session lock, forwarded without it, and metered under it again, so requests
    overlap: a session's history is an interleaving of Admit and Meter steps. Prices and
    money are exact rationals. */
module ModelBroker {
  import opened Wrappers

  datatype Limits = Limits(priceIn: real, priceOut: real, maxRequests: int, maxInput: int, maxOutput: int, maxUsd: real)

  datatype Counters = Counters(requests: int, inputTokens: int, outputTokens: int, usd: real)

  const FRESH := Counters(0, 0, 0, 0.0)

  datatype Cause = LimitRequests | LimitInputTokens | LimitOutputOrUsd

  /** What an admitted request carries until it is metered. */
  datatype Ticket = Ticket(estIn: int, clamp: int)

  datatype Admission = Admitted(ticket: Ticket) | Refused(cause: Cause)

  /** Python's int() on a float: truncation towards zero. */
  function Truncate(x: real): (r: int)
    ensures x >= 0.0 ==> r as real <= x < (r + 1) as real
    ensures x < 0.0 ==> x <= r as real <= 0.0
  {
    if x >= 0.0 then x.Floor else -((-x).Floor)
  }

  function Min(a: int, b: int): int {
    if a <= b then a else b
  }

  /** `clamp_output`: an absent (None) or zero requested cap means "whatever remains". */
  function ClampOutput(requested: Option<int>, remaining: int): (clamp: int)
    ensures clamp <= remaining
    ensures remaining >= 1 ==> (clamp >= 1 <==> requested.None? || requested.value >= 0)
  {
    Min(if requested.None? || requested.value == 0 then remaining else requested.value, remaining)
  }

  function EstimatedInput(bytes: nat): (r: int)
    ensures r >= 1 && (bytes >= 4 ==> 4 * r <= bytes < 4 * r + 4)
  {
    if bytes / 4 >= 1 then bytes / 4 else 1
  }

  function UsdLeft(l: Limits, c: Counters, estIn: int): real {
    l.maxUsd - c.usd - estIn as real * l.priceIn
  }

  function Remaining(l: Limits, c: Counters, estIn: int): (r: int)
    ensures r <= l.maxOutput - c.outputTokens
    ensures l.priceOut > 0.0 ==> r <= Truncate(UsdLeft(l, c, estIn) / l.priceOut)
  {
    var byTokens := l.maxOutput - c.outputTokens;
    if l.priceOut > 0.0 then Min(byTokens, Truncate(UsdLeft(l, c, estIn) / l.priceOut)) else byTokens
  }

  function Admit(l: Limits, c: Counters, bytes: nat, requested: Option<int>): Admission {
    var estIn := EstimatedInput(bytes);
    var remaining := Remaining(l, c, estIn);
    if c.requests >= l.maxRequests then Refused(LimitRequests)
    else if c.inputTokens + estIn > l.maxInput then Refused(LimitInputTokens)
    else if remaining < 1 then Refused(LimitOutputOrUsd)
    else Admitted(Ticket(estIn, ClampOutput(requested, remaining)))
  }

  /** n more output tokens stay within the token limit and, if they cost anything, within the dollar limit. */
  predicate Affordable(l: Limits, c: Counters, estIn: int, n: int) {
    && c.outputTokens + n <= l.maxOutput
    && (l.priceOut > 0.0 ==> c.usd + estIn as real * l.priceIn + n as real * l.priceOut <= l.maxUsd)
  }

  lemma {:induction false} QuotientIff(x: real, price: real, n: int)
    requires price > 0.0 && n >= 1
    ensures n <= Truncate(x / price) <==> n as real * price <= x
  {
    var q := x / price;
    assert q * price == x;
    if n as real <= q {
      assert (q - n as real) * price >= 0.0;
    } else {
      assert (n as real - q) * price > 0.0;
    }
  }

  /** What remains is the greatest number of affordable tokens. */
  lemma {:induction false} RemainingIff(l: Limits, c: Counters, estIn: int, n: int)
    requires n >= 1
    ensures Affordable(l, c, estIn, n) <==> n <= Remaining(l, c, estIn)
  {
    if l.priceOut > 0.0 {
      QuotientIff(UsdLeft(l, c, estIn), l.priceOut, n);
    }
  }

  /** What an admission answers: the first limit that is reached, and otherwise a quarter of the body's bytes as the
      input estimate and as the cap the requested one, or the greatest affordable if none was asked for or it is
      not affordable. */
  ghost predicate Admits(l: Limits, c: Counters, bytes: nat, requested: Option<int>, a: Admission) {
    var estIn := if bytes < 4 then 1 else bytes / 4;
    match a
    case Refused(LimitRequests) => c.requests >= l.maxRequests
    case Refused(LimitInputTokens) => c.requests < l.maxRequests && c.inputTokens + estIn > l.maxInput
    case Refused(LimitOutputOrUsd) =>
      c.requests < l.maxRequests && c.inputTokens + estIn <= l.maxInput && !Affordable(l, c, estIn, 1)
    case Admitted(t) =>
      && c.requests < l.maxRequests && c.inputTokens + estIn <= l.maxInput && Affordable(l, c, estIn, 1)
      && t.estIn == estIn
      && if requested.Some? && requested.value != 0 && Affordable(l, c, estIn, requested.value) then
           t.clamp == requested.value
         else
           t.clamp >= 1 && Affordable(l, c, estIn, t.clamp) && !Affordable(l, c, estIn, t.clamp + 1)
  }

  lemma {:induction false} FewerAffordable(l: Limits, c: Counters, estIn: int, n: int)
    requires n <= 0 && Affordable(l, c, estIn, 1)
    ensures Affordable(l, c, estIn, n)
  {
    if l.priceOut > 0.0 {
      assert (1 - n) as real * l.priceOut >= 0.0;
      assert n as real * l.priceOut <= 1 as real * l.priceOut;
    }
  }

  lemma {:induction false} AdmissionIff(l: Limits, c: Counters, bytes: nat, requested: Option<int>, a: Admission)
    ensures Admits(l, c, bytes, requested, a) <==> a == Admit(l, c, bytes, requested)
  {
    hide Affordable, Remaining;
    var estIn := EstimatedInput(bytes);
    var most := Remaining(l, c, estIn);
    RemainingIff(l, c, estIn, 1);
    if most >= 1 {
      RemainingIff(l, c, estIn, most);
      RemainingIff(l, c, estIn, most + 1);
      if requested.Some? && requested.value >= 1 {
        RemainingIff(l, c, estIn, requested.value);
      } else if requested.Some? {
        FewerAffordable(l, c, estIn, requested.value);
      }
      if a.Admitted? && a.ticket.clamp >= 1 {
        RemainingIff(l, c, estIn, a.ticket.clamp);
        RemainingIff(l, c, estIn, a.ticket.clamp + 1);
      }
    }
  }

  /** What the upstream answered: parsed usage (or none) and the HTTP status (0 if unreachable). */
  datatype Response = Response(status: int, usage: Option<(int, int)>)

  /** The usage charged: as reported, else conservatively the estimate and the whole clamp. */
  function Charged(t: Ticket, r: Response): (int, int) {
    match r.usage
    case Some(u) => u
    case None => if 200 <= r.status < 300 then (t.estIn, t.clamp) else (0, 0)
  }

  function Price(l: Limits, inTokens: int, outTokens: int): real {
    inTokens as real * l.priceIn + outTokens as real * l.priceOut
  }

  function Meter(l: Limits, c: Counters, t: Ticket, r: Response): Counters {
    var u := Charged(t, r);
    c.(inputTokens := c.inputTokens + u.0,
       outputTokens := c.outputTokens + u.1,
       usd := c.usd + Price(l, u.0, u.1))
  }

  // ---------------------------------------------------------------- sessions as objects

  /** One worker session; `handle` takes the lock twice, so admission and metering are two methods. */
  class Session {
    const limits: Limits
    var requests: int
    var inputTokens: int
    var outputTokens: int
    var usd: real
    var refusals: seq<Cause>
    var upstreamErrors: int

    function Now(): Counters
      reads this
    {
      Counters(requests, inputTokens, outputTokens, usd)
    }

    constructor (limits: Limits)
      ensures this.limits == limits && Now() == FRESH && refusals == [] && upstreamErrors == 0
    {
      this.limits := limits;
      requests, inputTokens, outputTokens, usd := 0, 0, 0, 0.0;
      refusals, upstreamErrors := [], 0;
    }

    method AdmitRequest(bytes: nat, requested: Option<int>) returns (a: Admission)
      modifies this
      ensures a == Admit(limits, old(Now()), bytes, requested)
      ensures Admits(limits, old(Now()), bytes, requested, a)
      ensures requests == old(requests) + (if a.Admitted? then 1 else 0)
      ensures inputTokens == old(inputTokens) && outputTokens == old(outputTokens) && usd == old(usd)
      ensures Now() == After(limits, old(Now()), AdmitStep(bytes, requested))
      ensures refusals == old(refusals) + (if a.Refused? then [a.cause] else [])
      ensures upstreamErrors == old(upstreamErrors)
    {
      var estIn := EstimatedInput(bytes);
      if requests >= limits.maxRequests {
        a := Refused(LimitRequests);
      } else if inputTokens + estIn > limits.maxInput {
        a := Refused(LimitInputTokens);
      } else {
        var remaining := limits.maxOutput - outputTokens;
        var usdLeft := UsdLeft(limits, Now(), estIn);
        if limits.priceOut > 0.0 {
          remaining := Min(remaining, Truncate(usdLeft / limits.priceOut));
        }
        if remaining < 1 {
          a := Refused(LimitOutputOrUsd);
        } else {
          var clamp := ClampOutput(requested, remaining);
          requests := requests + 1;
          a := Admitted(Ticket(estIn, clamp));
        }
      }
      if a.Refused? {
        refusals := refusals + [a.cause];
      }
      AdmissionIff(limits, old(Now()), bytes, requested, a);
    }

    method MeterResponse(t: Ticket, r: Response)
      modifies this
      ensures Now() == Meter(limits, old(Now()), t, r)
      ensures match r.usage
              case Some(u) =>
                && inputTokens == old(inputTokens) + u.0 && outputTokens == old(outputTokens) + u.1
                && usd == old(usd) + u.0 as real * limits.priceIn + u.1 as real * limits.priceOut
              case None =>
                if 200 <= r.status < 300 then
                  && inputTokens == old(inputTokens) + t.estIn && outputTokens == old(outputTokens) + t.clamp
                  && usd == old(usd) + t.estIn as real * limits.priceIn + t.clamp as real * limits.priceOut
                else
                  inputTokens == old(inputTokens) && outputTokens == old(outputTokens) && usd == old(usd)
      ensures requests == old(requests)
      ensures refusals == old(refusals)
      ensures upstreamErrors == old(upstreamErrors) + (if r.status >= 500 || r.status == 0 then 1 else 0)
    {
      var u := (0, 0);
      if r.usage.Some? {
        u := r.usage.value;
      } else if 200 <= r.status < 300 {
        u := (t.estIn, t.clamp);
      }
      inputTokens := inputTokens + u.0;
      outputTokens := outputTokens + u.1;
      usd := usd + Price(limits, u.0, u.1);
      if r.status >= 500 || r.status == 0 {
        upstreamErrors := upstreamErrors + 1;
      }
    }
  }

  // ---------------------------------------------------------------- interleavings

  datatype Step =
    | AdmitStep(bytes: nat, requested: Option<int>)
    | MeterStep(which: nat, response: Response)

  /** The counters after an admission step (metering needs the ticket as well). */
  function After(l: Limits, c: Counters, s: Step): Counters
    requires s.AdmitStep?
  {
    if Admit(l, c, s.bytes, s.requested).Admitted? then c.(requests := c.requests + 1) else c
  }

  /** A session with its requests in flight; `excess` is input minus estimate, in tokens, of the
      request metered last. */
  datatype Live = Live(c: Counters, flying: seq<Ticket>, excess: int)

  const START := Live(FRESH, [], 0)

  function Without(ts: seq<Ticket>, i: nat): seq<Ticket>
    requires i < |ts|
  {
    ts[..i] + ts[i + 1..]
  }

  function Next(l: Limits, v: Live, s: Step): Live {
    match s
    case AdmitStep(bytes, requested) =>
      (match Admit(l, v.c, bytes, requested)
       case Admitted(t) => v.(c := After(l, v.c, s), flying := v.flying + [t])
       case Refused(_) => v)
    case MeterStep(i, r) =>
      if i < |v.flying| then
        Live(Meter(l, v.c, v.flying[i], r), Without(v.flying, i), Charged(v.flying[i], r).0 - v.flying[i].estIn)
      else v
  }

  function Exec(l: Limits, steps: seq<Step>): Live {
    if steps == [] then START else Next(l, Exec(l, steps[..|steps|-1]), steps[|steps|-1])
  }

  function Clamps(ts: seq<Ticket>): int {
    if ts == [] then 0 else Clamps(ts[..|ts|-1]) + ts[|ts|-1].clamp
  }

  function Cost(l: Limits, t: Ticket): real {
    Price(l, t.estIn, t.clamp)
  }

  function Costs(l: Limits, ts: seq<Ticket>): real {
    if ts == [] then 0.0 else Costs(l, ts[..|ts|-1]) + Cost(l, ts[|ts|-1])
  }

  /** Callers ask for non-negative caps, and the provider's output respects the cap it was given. */
  ghost predicate Respectful(l: Limits, steps: seq<Step>) {
    steps != [] ==>
      && Respectful(l, steps[..|steps|-1])
      && RespectfulStep(l, Exec(l, steps[..|steps|-1]), steps[|steps|-1])
  }

  ghost predicate RespectfulStep(l: Limits, v: Live, s: Step) {
    match s
    case AdmitStep(_, requested) => requested.Some? ==> requested.value >= 0
    case MeterStep(i, r) =>
      i < |v.flying| ==>
        var u := Charged(v.flying[i], r);
        u.0 >= 0 && 0 <= u.1 <= v.flying[i].clamp
  }

  /** At no point are more than k requests in flight. */
  ghost predicate AtMost(l: Limits, steps: seq<Step>, k: nat) {
    steps != [] ==>
      && AtMost(l, steps[..|steps|-1], k)
      && |Exec(l, steps).flying| <= k
  }

  lemma {:induction false} ClampsWithout(ts: seq<Ticket>, i: nat)
    requires i < |ts|
    ensures Clamps(Without(ts, i)) == Clamps(ts) - ts[i].clamp
  {
    var n := |ts| - 1;
    if i < n {
      ClampsWithout(ts[..n], i);
      var w := Without(ts, i);
      assert w[..|w| - 1] == Without(ts[..n], i);
    } else {
      assert Without(ts, i) == ts[..n];
    }
  }

  lemma {:induction false} CostsWithout(l: Limits, ts: seq<Ticket>, i: nat)
    requires i < |ts|
    ensures Costs(l, Without(ts, i)) == Costs(l, ts) - Cost(l, ts[i])
  {
    var n := |ts| - 1;
    if i < n {
      CostsWithout(l, ts[..n], i);
      var w := Without(ts, i);
      assert w[..|w| - 1] == Without(ts[..n], i);
    } else {
      assert Without(ts, i) == ts[..n];
    }
  }

  /** Every clamp in flight is positive and within the session's cap. */
  ghost predicate ClampsBounded(l: Limits, ts: seq<Ticket>) {
    forall i | 0 <= i < |ts| :: 1 <= ts[i].clamp <= l.maxOutput
  }

  lemma {:induction false} ClampsAtMost(l: Limits, ts: seq<Ticket>)
    requires ClampsBounded(l, ts)
    ensures 0 <= Clamps(ts) <= |ts| * l.maxOutput
  {
    if ts != [] {
      var n := |ts| - 1;
      ClampsAtMost(l, ts[..n]);
      assert (n + 1) * l.maxOutput == n * l.maxOutput + l.maxOutput;
    }
  }

  lemma {:induction false} RequestsBounded(l: Limits, steps: seq<Step>)
    ensures l.maxRequests >= 0 ==> Exec(l, steps).c.requests <= l.maxRequests
    ensures Exec(l, steps).c.requests >= |Exec(l, steps).flying|
  {
    if steps != [] {
      RequestsBounded(l, steps[..|steps|-1]);
    }
  }

  lemma {:induction false} ScaleLe(n: int, k: int, m: int)
    requires n <= k && m >= 0
    ensures n * m <= k * m
  {
  }

  lemma {:induction false} OutputAdmit(l: Limits, v: Live, bytes: nat, requested: Option<int>, k: nat)
    requires l.maxOutput >= 0 && v.c.outputTokens >= 0 && ClampsBounded(l, v.flying)
    requires requested.Some? ==> requested.value >= 0
    requires Admit(l, v.c, bytes, requested).Admitted? && |v.flying| + 1 <= k
    ensures var w := Next(l, v, AdmitStep(bytes, requested));
      ClampsBounded(l, w.flying) && w.c.outputTokens + Clamps(w.flying) <= k * l.maxOutput
  {
    var t := Admit(l, v.c, bytes, requested).ticket;
    assert 1 <= t.clamp <= l.maxOutput - v.c.outputTokens;
    var after := v.flying + [t];
    assert after[..|after| - 1] == v.flying;
    ClampsAtMost(l, v.flying);
    ScaleLe(|v.flying|, k - 1, l.maxOutput);
    assert (k - 1) * l.maxOutput + l.maxOutput == k * l.maxOutput;
  }

  lemma {:induction false} OutputMeter(l: Limits, v: Live, i: nat, r: Response)
    requires v.c.outputTokens >= 0 && ClampsBounded(l, v.flying) && i < |v.flying|
    requires RespectfulStep(l, v, MeterStep(i, r))
    ensures var w := Next(l, v, MeterStep(i, r));
      && ClampsBounded(l, w.flying) && 0 <= w.c.outputTokens
      && w.c.outputTokens + Clamps(w.flying) <= v.c.outputTokens + Clamps(v.flying)
  {
    ClampsWithout(v.flying, i);
  }

  /** With at most k requests in flight, the tokens metered so far plus the clamps still
      outstanding never exceed k times the output limit; for k = 1 the limit is exact. */
  lemma {:induction false} OutputBounded(l: Limits, steps: seq<Step>, k: nat)
    requires l.maxOutput >= 0 && k >= 1
    requires Respectful(l, steps) && AtMost(l, steps, k)
    ensures var v := Exec(l, steps);
      && 0 <= v.c.outputTokens
      && v.c.outputTokens + Clamps(v.flying) <= k * l.maxOutput
      && ClampsBounded(l, v.flying)
  {
    if steps == [] {
      ScaleLe(0, k, l.maxOutput);
    } else {
      var before := Exec(l, steps[..|steps|-1]);
      OutputBounded(l, steps[..|steps|-1], k);
      match steps[|steps|-1] {
        case AdmitStep(bytes, requested) =>
          if Admit(l, before.c, bytes, requested).Admitted? {
            OutputAdmit(l, before, bytes, requested, k);
          }
        case MeterStep(i, r) =>
          if i < |before.flying| {
            OutputMeter(l, before, i, r);
          }
      }
    }
  }

  /** An admitted request's estimated cost fits what is left of the budget. */
  lemma {:induction false} AdmittedFits(l: Limits, c: Counters, bytes: nat, requested: Option<int>)
    requires l.priceOut > 0.0
    requires Admit(l, c, bytes, requested).Admitted?
    ensures Cost(l, Admit(l, c, bytes, requested).ticket) <= l.maxUsd - c.usd
  {
    var t := Admit(l, c, bytes, requested).ticket;
    AffordableCap(t.clamp, UsdLeft(l, c, t.estIn), l.priceOut);
  }

  /** Floor division leaves the cap affordable. */
  lemma {:induction false} AffordableCap(clamp: int, left: real, price: real)
    requires price > 0.0 && clamp <= Truncate(left / price) && 1 <= Truncate(left / price)
    ensures clamp as real * price <= left
  {
    MulLe(clamp as real, left / price, price);
  }

  lemma {:induction false} MulLe(a: real, b: real, c: real)
    requires a <= b && c >= 0.0
    ensures a * c <= b * c
  {
  }

  lemma {:induction false} MulNonNegative(a: real, b: real)
    requires a >= 0.0 && b >= 0.0
    ensures a * b >= 0.0
  {
  }

  lemma {:induction false} MeterWithin(l: Limits, c: Counters, t: Ticket, r: Response)
    requires l.priceOut >= 0.0
    requires Charged(t, r).1 <= t.clamp
    requires Cost(l, t) <= l.maxUsd - c.usd
    ensures Meter(l, c, t, r).usd <= l.maxUsd + (Charged(t, r).0 - t.estIn) as real * l.priceIn
  {
    var u := Charged(t, r);
    MulLe(u.1 as real, t.clamp as real, l.priceOut);
    assert (u.0 - t.estIn) as real * l.priceIn == u.0 as real * l.priceIn - t.estIn as real * l.priceIn;
  }

  /** Spending stays within the limit plus the last excess; a request in flight is paid for. */
  ghost predicate SerialBudget(l: Limits, v: Live) {
    && v.c.usd <= l.maxUsd + v.excess as real * l.priceIn
    && (v.flying != [] ==> Cost(l, v.flying[0]) <= l.maxUsd - v.c.usd)
  }

  lemma {:induction false} SerialAdmit(l: Limits, v: Live, bytes: nat, requested: Option<int>)
    requires l.priceOut > 0.0 && SerialBudget(l, v) && v.flying == []
    requires Admit(l, v.c, bytes, requested).Admitted?
    ensures SerialBudget(l, Next(l, v, AdmitStep(bytes, requested)))
  {
    AdmittedFits(l, v.c, bytes, requested);
  }

  lemma {:induction false} SerialMeter(l: Limits, v: Live, r: Response)
    requires l.priceOut > 0.0 && SerialBudget(l, v) && |v.flying| == 1
    requires RespectfulStep(l, v, MeterStep(0, r))
    ensures SerialBudget(l, Next(l, v, MeterStep(0, r)))
  {
    MeterWithin(l, v.c, v.flying[0], r);
  }

  /** Serial requests: at every moment, spending exceeds the limit by at most the input-token
      excess of the request metered last, at the input price. */
  lemma {:induction false} UsdBoundedSerial(l: Limits, steps: seq<Step>)
    requires l.priceOut > 0.0 && l.maxUsd >= 0.0
    requires Respectful(l, steps) && AtMost(l, steps, 1)
    ensures SerialBudget(l, Exec(l, steps)) && |Exec(l, steps).flying| <= 1
  {
    if steps != [] {
      var before := Exec(l, steps[..|steps|-1]);
      UsdBoundedSerial(l, steps[..|steps|-1]);
      match steps[|steps|-1] {
        case AdmitStep(bytes, requested) =>
          if Admit(l, before.c, bytes, requested).Admitted? {
            SerialAdmit(l, before, bytes, requested);
          }
        case MeterStep(i, r) =>
          if i < |before.flying| {
            SerialMeter(l, before, r);
          }
      }
    }
  }

  /** When no request reads more input than was estimated for it. */
  ghost predicate WithinEstimates(l: Limits, steps: seq<Step>) {
    steps != [] ==>
      && WithinEstimates(l, steps[..|steps|-1])
      && Exec(l, steps).excess <= 0
  }

  ghost predicate CostsBounded(l: Limits, ts: seq<Ticket>) {
    forall i | 0 <= i < |ts| :: 0.0 <= Cost(l, ts[i]) <= l.maxUsd
  }

  /** n budgets of m, added up. */
  function Times(n: nat, m: real): real {
    if n == 0 then 0.0 else Times(n - 1, m) + m
  }

  lemma {:induction false} TimesIsProduct(n: nat, m: real)
    ensures Times(n, m) == n as real * m
  {
    if n > 0 {
      TimesIsProduct(n - 1, m);
      assert n as real * m == (n - 1) as real * m + m;
    }
  }

  lemma {:induction false} TimesMonotone(n: nat, k: nat, m: real)
    requires n <= k && m >= 0.0
    ensures Times(n, m) <= Times(k, m)
  {
    if n < k {
      TimesMonotone(n, k - 1, m);
    }
  }

  lemma {:induction false} CostsAtMost(l: Limits, ts: seq<Ticket>)
    requires CostsBounded(l, ts)
    ensures 0.0 <= Costs(l, ts) <= Times(|ts|, l.maxUsd)
  {
    if ts != [] {
      CostsAtMost(l, ts[..|ts|-1]);
    }
  }

  /** The money bound under overlap: k requests in flight can overshoot to k budgets, never more;
      for k = 1 spending stays within the limit. */
  lemma {:induction false} UsdBounded(l: Limits, steps: seq<Step>, k: nat)
    requires l.priceOut > 0.0 && l.priceIn >= 0.0 && l.maxUsd >= 0.0 && k >= 1
    requires Respectful(l, steps) && AtMost(l, steps, k) && WithinEstimates(l, steps)
    ensures var v := Exec(l, steps);
      && 0.0 <= v.c.usd
      && v.c.usd + Costs(l, v.flying) <= Times(k, l.maxUsd)
      && CostsBounded(l, v.flying)
  {
    if steps == [] {
      TimesMonotone(0, k, l.maxUsd);
    } else {
      var before := Exec(l, steps[..|steps|-1]);
      UsdBounded(l, steps[..|steps|-1], k);
      match steps[|steps|-1]
      case AdmitStep(bytes, requested) =>
        if Admit(l, before.c, bytes, requested).Admitted? {
          UsdBoundedAdmit(l, before, bytes, requested, k);
        }
      case MeterStep(i, r) =>
        if i < |before.flying| {
          UsdBoundedMeter(l, before, i, r);
        }
    }
  }

  lemma {:induction false} CostNonnegative(l: Limits, t: Ticket)
    requires l.priceIn >= 0.0 && l.priceOut >= 0.0 && t.estIn >= 0 && t.clamp >= 0
    ensures Cost(l, t) >= 0.0
  {
  }

  lemma {:induction false} CostsPush(l: Limits, ts: seq<Ticket>, t: Ticket)
    ensures Costs(l, ts + [t]) == Costs(l, ts) + Cost(l, t)
  {
    var after := ts + [t];
    assert after[..|after| - 1] == ts;
  }

  lemma {:induction false} BoundedPush(l: Limits, ts: seq<Ticket>, t: Ticket)
    requires CostsBounded(l, ts) && 0.0 <= Cost(l, t) <= l.maxUsd
    ensures CostsBounded(l, ts + [t])
  {
    forall i | 0 <= i < |ts| + 1 ensures 0.0 <= Cost(l, (ts + [t])[i]) <= l.maxUsd {
      assert i < |ts| ==> (ts + [t])[i] == ts[i];
    }
  }

  /** What admission promises the money bound about a new ticket. */
  lemma {:induction false} TicketCost(l: Limits, c: Counters, bytes: nat, requested: Option<int>)
    requires l.priceOut > 0.0 && l.priceIn >= 0.0
    requires requested.Some? ==> requested.value >= 0
    requires Admit(l, c, bytes, requested).Admitted?
    ensures 0.0 <= Cost(l, Admit(l, c, bytes, requested).ticket) <= l.maxUsd - c.usd
  {
    AdmittedFits(l, c, bytes, requested);
    CostNonnegative(l, Admit(l, c, bytes, requested).ticket);
  }

  lemma {:induction false} BudgetAdmit(l: Limits, usd: real, ts: seq<Ticket>, t: Ticket, k: nat)
    requires l.maxUsd >= 0.0 && usd >= 0.0 && CostsBounded(l, ts) && |ts| + 1 <= k
    requires 0.0 <= Cost(l, t) <= l.maxUsd - usd
    ensures usd + Costs(l, ts + [t]) <= Times(k, l.maxUsd) && CostsBounded(l, ts + [t])
  {
    CostsAtMost(l, ts);
    CostsPush(l, ts, t);
    TimesMonotone(|ts| + 1, k, l.maxUsd);
    BoundedPush(l, ts, t);
  }

  lemma {:induction false} UsdBoundedAdmit(l: Limits, v: Live, bytes: nat, requested: Option<int>, k: nat)
    requires l.priceOut > 0.0 && l.priceIn >= 0.0 && l.maxUsd >= 0.0
    requires requested.Some? ==> requested.value >= 0
    requires Admit(l, v.c, bytes, requested).Admitted?
    requires 0.0 <= v.c.usd && CostsBounded(l, v.flying) && |v.flying| + 1 <= k
    ensures var w := Next(l, v, AdmitStep(bytes, requested));
      w.c.usd + Costs(l, w.flying) <= Times(k, l.maxUsd) && CostsBounded(l, w.flying)
  {
    hide Price, Costs, Times;
    TicketCost(l, v.c, bytes, requested);
    BudgetAdmit(l, v.c.usd, v.flying, Admit(l, v.c, bytes, requested).ticket, k);
  }

  lemma {:induction false} SumLe(i: real, i': real, p: real, o: real, o': real, q: real)
    requires 0.0 <= i <= i' && 0.0 <= o <= o' && p >= 0.0 && q >= 0.0
    ensures 0.0 <= i * p + o * q <= i' * p + o' * q
  {
    MulLe(i, i', p);
    MulLe(o, o', q);
    MulNonNegative(i, p);
    MulNonNegative(o, q);
  }

  lemma {:induction false} ChargeWithin(l: Limits, t: Ticket, u: (int, int))
    requires l.priceOut >= 0.0 && l.priceIn >= 0.0
    requires 0 <= u.0 <= t.estIn && 0 <= u.1 <= t.clamp
    ensures 0.0 <= Price(l, u.0, u.1) <= Cost(l, t)
  {
    SumLe(u.0 as real, t.estIn as real, l.priceIn, u.1 as real, t.clamp as real, l.priceOut);
  }

  lemma {:induction false} BoundedWithout(l: Limits, ts: seq<Ticket>, i: nat)
    requires i < |ts| && CostsBounded(l, ts)
    ensures CostsBounded(l, Without(ts, i))
  {
    var rest := Without(ts, i);
    forall n | 0 <= n < |rest| ensures 0.0 <= Cost(l, rest[n]) <= l.maxUsd {
      assert rest[n] == ts[if n < i then n else n + 1];
    }
  }

  lemma {:induction false} UsdBoundedMeter(l: Limits, v: Live, i: nat, r: Response)
    requires l.priceOut > 0.0 && l.priceIn >= 0.0
    requires i < |v.flying| && CostsBounded(l, v.flying)
    requires RespectfulStep(l, v, MeterStep(i, r))
    requires Charged(v.flying[i], r).0 <= v.flying[i].estIn
    ensures var w := Next(l, v, MeterStep(i, r));
      && w.c.usd >= v.c.usd
      && w.c.usd + Costs(l, w.flying) <= v.c.usd + Costs(l, v.flying)
      && CostsBounded(l, w.flying)
  {
    hide Price, Costs;
    CostsWithout(l, v.flying, i);
    ChargeWithin(l, v.flying[i], Charged(v.flying[i], r));
    BoundedWithout(l, v.flying, i);
  }

  /** Unmetered successful responses are already covered: the conservative charge is exactly what
      admission set aside, so such a request can never overshoot. */
  lemma {:induction false} UnmeteredIsCovered(l: Limits, c: Counters, bytes: nat, requested: Option<int>, r: Response)
    requires l.priceOut > 0.0
    requires Admit(l, c, bytes, requested).Admitted?
    requires r.usage.None? && 200 <= r.status < 300
    ensures var t := Admit(l, c, bytes, requested).ticket;
      && Meter(l, c, t, r).usd <= l.maxUsd
      && Meter(l, c, t, r).outputTokens <= l.maxOutput
      && Meter(l, c, t, r).inputTokens <= l.maxInput
  {
    AdmittedFits(l, c, bytes, requested);
  }

  // ---------------------------------------------------------------- where the limits do not hold

  /** With a free output price the dollar limit is never consulted: one request can exceed it. */
  lemma {:induction false} FreeOutputIgnoresBudget(l: Limits, bytes: nat)
    requires l.priceOut == 0.0 && l.maxRequests >= 1 && l.maxOutput >= 1
    requires EstimatedInput(bytes) <= l.maxInput
    requires InputCost(l, EstimatedInput(bytes)) > l.maxUsd
    ensures var done := Next(l, Next(l, START, AdmitStep(bytes, None)), MeterStep(0, Response(200, None)));
      done.flying == [] && done.excess == 0 && done.c.usd > l.maxUsd
  {
    var t := Ticket(EstimatedInput(bytes), l.maxOutput);
    assert Admit(l, FRESH, bytes, None) == Admitted(t);
    assert t.clamp as real * l.priceOut == 0.0;
  }

  function InputCost(l: Limits, tokens: int): real {
    tokens as real * l.priceIn
  }

  lemma {:induction false} InputCostLe(l: Limits, m: int, n: int)
    requires m <= n && l.priceIn >= 0.0
    ensures InputCost(l, m) <= InputCost(l, n)
  {
    MulLe(m as real, n as real, l.priceIn);
  }

  lemma {:induction false} FreeOutputPrice(l: Limits, m: int, i: int, o: int)
    requires l.priceOut == 0.0
    ensures InputCost(l, m) + Price(l, i, o) == InputCost(l, m + i)
  {
    assert o as real * l.priceOut == 0.0;
    assert (m + i) as real * l.priceIn == m as real * l.priceIn + i as real * l.priceIn;
  }

  lemma {:induction false} FreeOutputMeter(l: Limits, v: Live, r: Response)
    requires l.priceOut == 0.0 && |v.flying| == 1 && v.c.usd == InputCost(l, v.c.inputTokens)
    ensures var w := Next(l, v, MeterStep(0, r));
      && w.flying == [] && w.c.usd == InputCost(l, w.c.inputTokens)
      && w.c.inputTokens == v.c.inputTokens + Charged(v.flying[0], r).0
      && w.excess == Charged(v.flying[0], r).0 - v.flying[0].estIn
  {
    hide Price, InputCost;
    var u := Charged(v.flying[0], r);
    FreeOutputPrice(l, v.c.inputTokens, u.0, u.1);
  }

  function Reserved(v: Live): int {
    if v.flying == [] then 0 else v.flying[0].estIn
  }

  lemma {:induction false} FreeOutputAdmit(l: Limits, v: Live, bytes: nat, requested: Option<int>)
    requires v.flying == [] && 0 <= v.c.inputTokens <= l.maxInput
    ensures var w := Next(l, v, AdmitStep(bytes, requested));
      && w.c.usd == v.c.usd && w.c.inputTokens == v.c.inputTokens
      && 0 <= Reserved(w) && w.c.inputTokens + Reserved(w) <= l.maxInput
  {
    hide Price, Remaining, ClampOutput;
  }

  lemma {:induction false} RefusedOrTwo(l: Limits, v: Live, bytes: nat, requested: Option<int>)
    requires v.flying != [] && |Next(l, v, AdmitStep(bytes, requested)).flying| <= 1
    ensures Next(l, v, AdmitStep(bytes, requested)) == v
  {
    hide Remaining, ClampOutput;
  }

  /** A free output price leaves the input limit as the only bound on spending. */
  lemma {:induction false} FreeOutputSpends(l: Limits, steps: seq<Step>)
    requires l.priceOut == 0.0 && l.maxInput >= 0
    requires Respectful(l, steps) && AtMost(l, steps, 1) && WithinEstimates(l, steps)
    ensures var v := Exec(l, steps);
      && |v.flying| <= 1 && v.c.usd == InputCost(l, v.c.inputTokens)
      && 0 <= v.c.inputTokens && 0 <= Reserved(v) && v.c.inputTokens + Reserved(v) <= l.maxInput
  {
    if steps != [] {
      var before, last := Exec(l, steps[..|steps|-1]), steps[|steps|-1];
      FreeOutputSpends(l, steps[..|steps|-1]);
      hide InputCost, Admit, Meter;
      match last
      case AdmitStep(bytes, requested) =>
        if before.flying == [] {
          FreeOutputAdmit(l, before, bytes, requested);
        } else {
          RefusedOrTwo(l, before, bytes, requested);
        }
      case MeterStep(i, r) =>
        if i < |before.flying| {
          FreeOutputMeter(l, before, r);
        }
    }
  }

  /** Serial requests that stay within their estimates never spend more than the limit. */
  ghost predicate BudgetKept(l: Limits) {
    forall steps | Respectful(l, steps) && AtMost(l, steps, 1) && WithinEstimates(l, steps) ::
      Exec(l, steps).c.usd <= l.maxUsd
  }

  lemma {:induction false} NoExcess(l: Limits, steps: seq<Step>)
    requires WithinEstimates(l, steps)
    ensures Exec(l, steps).excess <= 0
  {
    hide Next;
  }

  lemma {:induction false} PricedBudget(l: Limits, steps: seq<Step>)
    requires l.priceOut > 0.0 && l.priceIn >= 0.0 && l.maxUsd >= 0.0
    requires Respectful(l, steps) && AtMost(l, steps, 1) && WithinEstimates(l, steps)
    ensures Exec(l, steps).c.usd <= l.maxUsd
  {
    hide Exec, Respectful, AtMost, WithinEstimates, Cost;
    UsdBoundedSerial(l, steps);
    NoExcess(l, steps);
    MulLe(Exec(l, steps).excess as real, 0.0, l.priceIn);
  }

  lemma {:induction false} FreeBudget(l: Limits, steps: seq<Step>)
    requires l.priceOut == 0.0 && l.priceIn >= 0.0 && l.maxInput >= 0 && InputCost(l, l.maxInput) <= l.maxUsd
    requires Respectful(l, steps) && AtMost(l, steps, 1) && WithinEstimates(l, steps)
    ensures Exec(l, steps).c.usd <= l.maxUsd
  {
    hide InputCost, Exec, Respectful, AtMost, WithinEstimates;
    FreeOutputSpends(l, steps);
    InputCostLe(l, Exec(l, steps).c.inputTokens, l.maxInput);
  }

  lemma {:induction false} OverspendingRun(l: Limits)
    requires l.priceOut == 0.0 && l.maxRequests >= 1 && l.maxInput >= 1 && l.maxOutput >= 1
    requires InputCost(l, l.maxInput) > l.maxUsd
    ensures !BudgetKept(l)
  {
    var bytes := 4 * l.maxInput;
    var one := [AdmitStep(bytes, None)];
    var two := one + [MeterStep(0, Response(200, None))];
    FreeOutputIgnoresBudget(l, bytes);
    assert one[..0] == [];
    assert Exec(l, one) == Next(l, START, AdmitStep(bytes, None));
    assert two[..1] == one;
    assert Exec(l, two) == Next(l, Exec(l, one), MeterStep(0, Response(200, None)));
    assert Respectful(l, one) && AtMost(l, one, 1) && WithinEstimates(l, one);
    assert Respectful(l, two) && AtMost(l, two, 1) && WithinEstimates(l, two);
  }

  /** Exactly when the dollar limit holds: the output price is positive, or the whole input allowance is
      affordable. */
  lemma {:induction false} BudgetKeptIff(l: Limits)
    requires l.priceIn >= 0.0 && l.priceOut >= 0.0 && l.maxUsd >= 0.0
    requires l.maxRequests >= 1 && l.maxInput >= 1 && l.maxOutput >= 1
    ensures BudgetKept(l) <==> l.priceOut > 0.0 || InputCost(l, l.maxInput) <= l.maxUsd
  {
    if l.priceOut > 0.0 {
      forall steps | Respectful(l, steps) && AtMost(l, steps, 1) && WithinEstimates(l, steps)
        ensures Exec(l, steps).c.usd <= l.maxUsd
      {
        PricedBudget(l, steps);
      }
    } else if InputCost(l, l.maxInput) <= l.maxUsd {
      forall steps | Respectful(l, steps) && AtMost(l, steps, 1) && WithinEstimates(l, steps)
        ensures Exec(l, steps).c.usd <= l.maxUsd
      {
        FreeBudget(l, steps);
      }
    } else {
      OverspendingRun(l);
    }
  }

  // ---------------------------------------------------------------- negative caps

  /** Output tokens the provider reports in a step. */
  function Produced(v: Live, s: Step): int {
    if s.MeterStep? && s.which < |v.flying| && s.response.usage.Some? then s.response.usage.value.1 else 0
  }

  /** And has reported in a run. */
  function Reported(l: Limits, steps: seq<Step>): int {
    if steps == [] then 0
    else Reported(l, steps[..|steps|-1]) + Produced(Exec(l, steps[..|steps|-1]), steps[|steps|-1])
  }

  /** Callers ask for caps of at least `floor`, and the provider produces no more than it was asked for: nothing,
      under a negative cap. */
  ghost predicate Obedient(l: Limits, steps: seq<Step>, floor: int) {
    steps != [] ==>
      && Obedient(l, steps[..|steps|-1], floor)
      && ObedientStep(Exec(l, steps[..|steps|-1]), steps[|steps|-1], floor)
  }

  ghost predicate ObedientStep(v: Live, s: Step, floor: int) {
    match s
    case AdmitStep(_, requested) => requested.Some? ==> requested.value >= floor
    case MeterStep(i, r) =>
      i < |v.flying| && r.usage.Some? ==>
        var u := r.usage.value;
        u.0 >= 0 && 0 <= u.1 && (u.1 == 0 || u.1 <= v.flying[i].clamp)
  }

  /** The provider never reports more output than the session's limit, one request at a time. */
  ghost predicate TokensKept(l: Limits, floor: int) {
    forall steps | Obedient(l, steps, floor) && AtMost(l, steps, 1) :: Reported(l, steps) <= l.maxOutput
  }

  ghost predicate TicketsOk(ts: seq<Ticket>) {
    forall i | 0 <= i < |ts| :: ts[i].estIn >= 1 && ts[i].clamp >= 1
  }

  lemma {:induction false} ObedientIsRespectful(l: Limits, steps: seq<Step>)
    requires Obedient(l, steps, 0)
    ensures Respectful(l, steps) && TicketsOk(Exec(l, steps).flying)
        && Reported(l, steps) <= Exec(l, steps).c.outputTokens
  {
    if steps != [] {
      ObedientIsRespectful(l, steps[..|steps|-1]);
      ObedientStepIsRespectful(l, Exec(l, steps[..|steps|-1]), steps[|steps|-1]);
    }
  }

  lemma {:induction false} ObedientStepIsRespectful(l: Limits, v: Live, s: Step)
    requires ObedientStep(v, s, 0) && TicketsOk(v.flying)
    ensures RespectfulStep(l, v, s) && TicketsOk(Next(l, v, s).flying)
    ensures s.MeterStep? && s.which < |v.flying| ==>
      Next(l, v, s).c.outputTokens - v.c.outputTokens >= if s.response.usage.Some? then s.response.usage.value.1 else 0
    ensures s.AdmitStep? ==> Next(l, v, s).c.outputTokens == v.c.outputTokens
  {
    if s.MeterStep? && s.which < |v.flying| {
      var rest := Without(v.flying, s.which);
      forall n | 0 <= n < |rest| ensures rest[n] == v.flying[if n < s.which then n else n + 1] {
      }
    }
  }

  /** A negative requested cap is passed on as a negative clamp. Charged conservatively it lowers
      the counters, so the next admission gets more than the session's whole limit. */
  lemma {:induction false} NegativeCapRaisesAllowance(l: Limits, cap: int)
    requires l.priceIn >= 0.0 && l.priceOut >= 0.0 && Affords(l) && l.maxRequests >= 2 && l.maxInput >= 2
    requires l.maxOutput >= 1 && cap < 0
    ensures var once := Next(l, Next(l, START, AdmitStep(4, Some(cap))), MeterStep(0, Response(200, None)));
      Next(l, once, AdmitStep(4, None)).flying == [Ticket(1, l.maxOutput - cap)]
  {
    hide UsdLeft;
    EnoughLeft(l, FRESH, 1);
    var first := Next(l, START, AdmitStep(4, Some(cap)));
    assert first.flying == [Ticket(1, cap)];
    var once := Next(l, first, MeterStep(0, Response(200, None)));
    assert once.flying == [] && once.c == Counters(1, 1, cap, Price(l, 1, cap));
    EnoughLeft(l, once.c, l.maxOutput - cap);
  }

  /** The budget covers the whole output limit and two requests' least input. */
  predicate Affords(l: Limits) {
    l.maxUsd >= 2.0 * l.priceIn + l.maxOutput as real * l.priceOut
  }

  lemma {:induction false} EnoughLeft(l: Limits, c: Counters, n: int)
    requires l.priceIn >= 0.0 && l.priceOut >= 0.0 && Affords(l) && 1 <= n <= l.maxOutput - c.outputTokens
    requires c.usd <= l.priceIn + c.outputTokens as real * l.priceOut
    ensures n <= Remaining(l, c, 1)
    ensures n == l.maxOutput - c.outputTokens ==> Remaining(l, c, 1) == n
  {
    MulLe(n as real, (l.maxOutput - c.outputTokens) as real, l.priceOut);
    assert (l.maxOutput - c.outputTokens) as real * l.priceOut
        == l.maxOutput as real * l.priceOut - c.outputTokens as real * l.priceOut;
    if l.priceOut > 0.0 {
      DivGe(UsdLeft(l, c, 1), l.priceOut, n);
    }
  }

  lemma {:induction false} DivGe(left: real, price: real, n: int)
    requires price > 0.0 && n >= 0 && n as real * price <= left
    ensures Truncate(left / price) >= n
  {
    if left / price < n as real {
      MulLt(left / price, n as real, price);
    }
  }

  lemma {:induction false} MulLt(a: real, b: real, c: real)
    requires a < b && c > 0.0
    ensures a * c < b * c
  {
  }

  /** One more serial step with an obedient provider. */
  lemma {:induction false} ObedientPush(l: Limits, steps: seq<Step>, s: Step, floor: int)
    requires Obedient(l, steps, floor) && AtMost(l, steps, 1) && ObedientStep(Exec(l, steps), s, floor)
    requires |Next(l, Exec(l, steps), s).flying| <= 1
    ensures Obedient(l, steps + [s], floor) && AtMost(l, steps + [s], 1)
    ensures Exec(l, steps + [s]) == Next(l, Exec(l, steps), s)
    ensures Reported(l, steps + [s]) == Reported(l, steps) + Produced(Exec(l, steps), s)
  {
    hide Next, ObedientStep, Produced;
    assert (steps + [s])[..|steps|] == steps;
  }

  lemma {:induction false} NothingYet(l: Limits, floor: int)
    ensures Exec(l, []) == START && Obedient(l, [], floor) && AtMost(l, [], 1) && Reported(l, []) == 0
  {
  }

  lemma {:induction false} LoneMetered(l: Limits, v: Live, r: Response)
    requires |v.flying| == 1
    ensures Next(l, v, MeterStep(0, r)).flying == []
  {
    hide Meter, Charged;
  }

  lemma {:induction false} NegativeCapRun(l: Limits, cap: int)
    requires l.priceIn >= 0.0 && l.priceOut >= 0.0 && Affords(l) && l.maxRequests >= 2 && l.maxInput >= 2
    requires l.maxOutput >= 1 && cap < 0
    ensures !TokensKept(l, cap)
  {
    hide Admit, Meter, Affords, Next, Obedient, AtMost, Reported, Exec;
    NegativeCapRaisesAllowance(l, cap);
    FirstTicket(l, cap);
    NothingYet(l, cap);
    var ask, unmetered, again := AdmitStep(4, Some(cap)), MeterStep(0, Response(200, None)), AdmitStep(4, None);
    var full := MeterStep(0, Response(200, Some((0, l.maxOutput - cap))));
    ObedientPush(l, [], ask, cap);
    ObedientPush(l, [] + [ask], unmetered, cap);
    ObedientPush(l, [] + [ask] + [unmetered], again, cap);
    LoneMetered(l, Exec(l, [] + [ask] + [unmetered] + [again]), full.response);
    ObedientPush(l, [] + [ask] + [unmetered] + [again], full, cap);
    assert Reported(l, [] + [ask] + [unmetered] + [again] + [full]) == l.maxOutput - cap;
  }

  lemma {:induction false} FirstTicket(l: Limits, cap: int)
    requires l.priceIn >= 0.0 && l.priceOut >= 0.0 && Affords(l) && l.maxRequests >= 2 && l.maxInput >= 2
    requires l.maxOutput >= 1 && cap < 0
    ensures var first := Next(l, START, AdmitStep(4, Some(cap)));
      first.flying == [Ticket(1, cap)] && Next(l, first, MeterStep(0, Response(200, None))).flying == []
  {
    hide UsdLeft;
    EnoughLeft(l, FRESH, 1);
  }

  /** Exactly when the token limit holds of what the provider produces, over all serial runs: callers may not ask
      for negative caps. */
  lemma {:induction false} TokensKeptIff(l: Limits, floor: int)
    requires l.priceIn >= 0.0 && l.priceOut >= 0.0 && Affords(l) && l.maxRequests >= 2 && l.maxInput >= 2
    requires l.maxOutput >= 1
    ensures TokensKept(l, floor) <==> floor >= 0
  {
    hide Affords, Reported, Obedient, AtMost, Exec;
    if floor >= 0 {
      forall steps | Obedient(l, steps, floor) && AtMost(l, steps, 1) ensures Reported(l, steps) <= l.maxOutput {
        LowerFloor(l, steps, floor);
        ObedientIsRespectful(l, steps);
        OutputBounded(l, steps, 1);
        ClampsAtMost(l, Exec(l, steps).flying);
      }
    } else {
      NegativeCapRun(l, floor);
    }
  }

  lemma {:induction false} LowerFloor(l: Limits, steps: seq<Step>, floor: int)
    requires floor >= 0 && Obedient(l, steps, floor)
    ensures Obedient(l, steps, 0)
  {
    if steps != [] {
      LowerFloor(l, steps[..|steps|-1], floor);
    }
  }

  // ---------------------------------------------------------------- closing a session

  predicate OnlyMeters(steps: seq<Step>) {
    forall i | 0 <= i < |steps| :: steps[i].MeterStep?
  }

  /** Not even the smallest request would be admitted. */
  predicate Exhausted(l: Limits, c: Counters) {
    Admit(l, c, 1, None).Refused?
  }

  lemma {:induction false} ExhaustedRefuses(l: Limits, c: Counters, bytes: nat, requested: Option<int>)
    requires l.priceIn >= 0.0 && Exhausted(l, c)
    ensures Admit(l, c, bytes, requested).Refused?
  {
    var estIn := EstimatedInput(bytes);
    MulLe(1.0, estIn as real, l.priceIn);
    if l.priceOut > 0.0 {
      TruncateLe(UsdLeft(l, c, estIn), UsdLeft(l, c, 1), l.priceOut);
    }
  }

  lemma {:induction false} TruncateLe(x: real, y: real, price: real)
    requires x <= y && price > 0.0
    ensures Truncate(x / price) >= 1 ==> Truncate(y / price) >= 1
  {
    if x / price >= 1.0 {
      DivGe(y, price, 1);
      MulLe(1.0, x / price, price);
    }
  }

  lemma {:induction false} NothingChanges(l: Limits, steps: seq<Step>, more: seq<Step>)
    requires l.priceIn >= 0.0 && Exec(l, steps).flying == []
    requires OnlyMeters(more) || Exhausted(l, Exec(l, steps).c)
    ensures Exec(l, steps + more) == Exec(l, steps)
  {
    hide Admit;
    if more == [] {
      assert steps + more == steps;
    } else {
      var before, s := more[..|more|-1], more[|more|-1];
      NothingChanges(l, steps, before);
      assert (steps + more)[..|steps + more|-1] == steps + before;
      if s.AdmitStep? {
        ExhaustedRefuses(l, Exec(l, steps).c, s.bytes, s.requested);
      }
    }
  }

  lemma {:induction false} OneMore(l: Limits, steps: seq<Step>, s: Step)
    ensures Exec(l, steps + [s]) == Next(l, Exec(l, steps), s)
  {
    assert (steps + [s])[..|steps|] == steps;
  }

  /** What `meter` reports of a run: the counters, the causes of refusals and the upstream errors. */
  datatype Report = Report(c: Counters, refusals: seq<Cause>, upstreamErrors: nat)

  function Metered(l: Limits, steps: seq<Step>): Report {
    if steps == [] then Report(FRESH, [], 0)
    else
      var before, s := steps[..|steps|-1], steps[|steps|-1];
      var m, v := Metered(l, before), Exec(l, before);
      Report(Next(l, v, s).c, m.refusals + RefusalsOf(l, v, s), m.upstreamErrors + ErrorsOf(v, s))
  }

  function RefusalsOf(l: Limits, v: Live, s: Step): seq<Cause> {
    match s
    case AdmitStep(bytes, requested) =>
      var a := Admit(l, v.c, bytes, requested);
      if a.Refused? then [a.cause] else []
    case MeterStep(_, _) => []
  }

  function ErrorsOf(v: Live, s: Step): nat {
    if s.MeterStep? && s.which < |v.flying| && (s.response.status >= 500 || s.response.status == 0) then 1 else 0
  }

  lemma {:induction false} MeteredPush(l: Limits, steps: seq<Step>, s: Step)
    ensures var m, v := Metered(l, steps), Exec(l, steps);
      Metered(l, steps + [s]) ==
      Report(Next(l, v, s).c, m.refusals + RefusalsOf(l, v, s), m.upstreamErrors + ErrorsOf(v, s))
  {
    hide Next, RefusalsOf, ErrorsOf;
    assert (steps + [s])[..|steps|] == steps;
  }

  lemma {:induction false} MeterIsIdle(l: Limits, steps: seq<Step>, more: seq<Step>)
    requires Exec(l, steps).flying == [] && OnlyMeters(more)
    ensures Exec(l, steps + more) == Exec(l, steps) && Metered(l, steps + more) == Metered(l, steps)
  {
    hide Metered, Admit;
    MeteredCounters(l, steps);
    if more == [] {
      assert steps + more == steps;
    } else {
      var before, s := more[..|more|-1], more[|more|-1];
      MeterIsIdle(l, steps, before);
      assert steps + more == steps + before + [s];
      OneMore(l, steps + before, s);
      MeteredPush(l, steps + before, s);
    }
  }

  lemma {:induction false} MeteredCounters(l: Limits, steps: seq<Step>)
    ensures Metered(l, steps).c == Exec(l, steps).c
  {
  }

  /** The meter that `close_session` returns is changed by no request still forwarded exactly when there is none:
      otherwise one is metered on the closed session. And while connections accepted before the close stay
      open it is never final: every further request changes it, admitted or refused. Its counters then
      are final exactly when nothing is in flight and the session has reached a limit. */
  lemma {:induction false} SnapshotFinalIff(l: Limits, steps: seq<Step>)
    requires l.priceIn >= 0.0
    ensures var v := Exec(l, steps);
      && ((forall more | OnlyMeters(more) :: Metered(l, steps + more) == Metered(l, steps)) <==> v.flying == [])
      && (forall bytes, requested ::
            Metered(l, steps + [AdmitStep(bytes, requested)]) != Metered(l, steps))
      && ((forall more: seq<Step> :: Metered(l, steps + more).c == v.c) <==> v.flying == [] && Exhausted(l, v.c))
  {
    hide Exec, Admit, Metered;
    var v := Exec(l, steps);
    MeteredCounters(l, steps);
    forall bytes, requested ensures Metered(l, steps + [AdmitStep(bytes, requested)]) != Metered(l, steps) {
      MeteredPush(l, steps, AdmitStep(bytes, requested));
      var after := Metered(l, steps + [AdmitStep(bytes, requested)]);
      assert after.c.requests > v.c.requests || |after.refusals| > |Metered(l, steps).refusals|;
    }
    if v.flying == [] {
      forall more | OnlyMeters(more) ensures Metered(l, steps + more) == Metered(l, steps) {
        MeterIsIdle(l, steps, more);
      }
      forall more | Exhausted(l, v.c) ensures Metered(l, steps + more).c == v.c {
        NothingChanges(l, steps, more);
        MeteredCounters(l, steps + more);
      }
      MeteredPush(l, steps, AdmitStep(1, None));
    } else {
      var s := MeterStep(0, Response(200, Some((1, 0))));
      MeteredPush(l, steps, s);
      assert OnlyMeters([s]);
      assert Metered(l, steps + [s]).c != v.c;
    }
  }
}
