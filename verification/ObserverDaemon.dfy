/** The observer daemon's limits (valops/observer/daemon.py): the per-command sliding-window
    rate limiter, which keeps only a suffix of the admission history in a deque, and the
    local-RPC circuit breaker. Times are exact numbers of seconds. */
module ObserverDaemon {
  import opened Wrappers

  const WINDOW := 60.0

  // ---------------------------------------------------------------- reference limiter

  /** Admissions of `history` that are at most 60 s old at time `t`. */
  function Recent(history: seq<real>, t: real): nat {
    if history == [] then 0
    else Recent(history[..|history|-1], t) + (if t - history[|history|-1] <= WINDOW then 1 else 0)
  }

  /** The limiter a reader would write down: admit iff fewer than `rate` calls were admitted in
      the closed window ending now. `calls` are the times of all calls, the result the
      times of the admitted ones. */
  function Admissions(calls: seq<real>, rate: int): seq<real> {
    if calls == [] then []
    else
      var before := Admissions(calls[..|calls|-1], rate);
      var t := calls[|calls|-1];
      if Recent(before, t) < rate then before + [t] else before
  }

  ghost predicate Nondecreasing(ts: seq<real>) {
    forall i, j | 0 <= i <= j < |ts| :: ts[i] <= ts[j]
  }

  lemma {:induction false} RecentDropsOld(history: seq<real>, t: real, k: nat)
    requires k <= |history|
    requires forall i | 0 <= i < k :: t - history[i] > WINDOW
    requires forall i | k <= i < |history| :: t - history[i] <= WINDOW
    ensures Recent(history, t) == |history| - k
  {
    if history != [] {
      var n := |history| - 1;
      if k == |history| {
        RecentDropsOld(history[..n], t, n);
      } else {
        RecentDropsOld(history[..n], t, k);
      }
    }
  }

  /** In a sorted history the recent admissions are exactly its last `Recent` elements. */
  lemma {:induction false} RecentIsSuffix(history: seq<real>, t: real)
    requires Nondecreasing(history)
    ensures Recent(history, t) <= |history|
    ensures forall i | 0 <= i < |history| ::
      t - history[i] <= WINDOW <==> |history| - Recent(history, t) <= i
  {
    if history != [] {
      var n := |history| - 1;
      RecentIsSuffix(history[..n], t);
      if t - history[n] > WINDOW {
        assert forall i | 0 <= i < n :: history[..n][i] == history[i] <= history[n];
        assert forall i | 0 <= i < n :: !(t - history[..n][i] <= WINDOW);
      }
    }
  }

  lemma {:induction false} AdmissionsSorted(calls: seq<real>, rate: int)
    requires Nondecreasing(calls)
    ensures Nondecreasing(Admissions(calls, rate))
    ensures calls != [] && Admissions(calls, rate) != [] ==>
      Admissions(calls, rate)[|Admissions(calls, rate)| - 1] <= calls[|calls| - 1]
  {
    if calls != [] {
      AdmissionsSorted(calls[..|calls|-1], rate);
    }
  }

  /** Over the whole history, an admitted call and the `rate`-th admitted call after it are
      more than 60 s apart. */
  lemma {:induction false} AdmissionsSpaced(calls: seq<real>, rate: int, i: nat)
    requires Nondecreasing(calls) && rate >= 1
    requires i + rate < |Admissions(calls, rate)|
    ensures Admissions(calls, rate)[i + rate] - Admissions(calls, rate)[i] > WINDOW
  {
    var before := Admissions(calls[..|calls|-1], rate);
    if i + rate < |before| {
      AdmissionsSpaced(calls[..|calls|-1], rate, i);
    } else {
      AdmissionsSorted(calls[..|calls|-1], rate);
      RecentIsSuffix(before, calls[|calls|-1]);
    }
  }

  /** How many admissions lie in the closed window [x, x + 60]. */
  function InWindow(history: seq<real>, x: real): nat {
    if history == [] then 0
    else InWindow(history[..|history|-1], x) +
         (if x <= history[|history|-1] <= x + WINDOW then 1 else 0)
  }

  lemma {:induction false} InWindowIsBlock(history: seq<real>, x: real) returns (lo: nat)
    requires Nondecreasing(history)
    ensures lo + InWindow(history, x) <= |history|
    ensures forall i | lo <= i < lo + InWindow(history, x) :: x <= history[i] <= x + WINDOW
    ensures forall i | lo + InWindow(history, x) <= i < |history| :: history[i] > x + WINDOW || history[i] < x
    ensures InWindow(history, x) == 0
        || forall i | lo + InWindow(history, x) <= i < |history| :: history[i] > x + WINDOW
  {
    if history == [] {
      lo := 0;
    } else {
      var n := |history| - 1;
      lo := InWindowIsBlock(history[..n], x);
      if x <= history[n] <= x + WINDOW {
        var c := InWindow(history[..n], x);
        if c == 0 {
          lo := n;
        } else if lo + c < n {
          assert false;
        }
      }
    }
  }

  /** No closed 60 s window, wherever it starts, holds more than `rate` admissions. */
  lemma {:induction false} NoWindowOverfull(calls: seq<real>, rate: int, x: real)
    requires Nondecreasing(calls)
    ensures InWindow(Admissions(calls, rate), x) <= (if rate >= 0 then rate else 0)
  {
    var a := Admissions(calls, rate);
    AdmissionsSorted(calls, rate);
    var lo := InWindowIsBlock(a, x);
    if rate < 1 {
      NothingAdmitted(calls, rate);
    } else if InWindow(a, x) > rate {
      AdmissionsSpaced(calls, rate, lo);
    }
  }

  /** The admissions of the minute before, that instant included. */
  function LastMinute(history: seq<real>, t: real): set<nat> {
    set i: nat | i < |history| && t - history[i] <= 60.0
  }

  function Minute(history: seq<real>, x: real): set<nat> {
    set i: nat | i < |history| && x <= history[i] <= x + 60.0
  }

  lemma {:induction false} RecentCounted(history: seq<real>, t: real)
    ensures Recent(history, t) == |LastMinute(history, t)|
  {
    if history != [] {
      var n := |history| - 1;
      RecentCounted(history[..n], t);
      assert LastMinute(history, t) ==
        LastMinute(history[..n], t) + (if t - history[n] <= 60.0 then {n} else {});
    }
  }

  lemma {:induction false} MinuteCounted(history: seq<real>, x: real)
    ensures InWindow(history, x) == |Minute(history, x)|
  {
    if history != [] {
      var n := |history| - 1;
      MinuteCounted(history[..n], x);
      assert Minute(history, x) == Minute(history[..n], x) + (if x <= history[n] <= x + 60.0 then {n} else {});
    }
  }

  /** A call is admitted exactly if fewer than `rate` were in the minute before, and no minute, wherever it starts,
      holds more than `rate`. */
  lemma {:induction false} AdmittedIff(calls: seq<real>, rate: int, t: real, x: real)
    requires Nondecreasing(calls + [t])
    ensures Admissions([], rate) == []
    ensures var a := Admissions(calls, rate);
      Admissions(calls + [t], rate) == if |LastMinute(a, t)| < rate then a + [t] else a
    ensures |Minute(Admissions(calls + [t], rate), x)| <= (if rate >= 0 then rate else 0)
  {
    var a := Admissions(calls, rate);
    assert (calls + [t])[..|calls|] == calls;
    RecentCounted(a, t);
    MinuteCounted(Admissions(calls + [t], rate), x);
    NoWindowOverfull(calls + [t], rate, x);
  }

  lemma {:induction false} NothingAdmitted(calls: seq<real>, rate: int)
    requires rate < 1
    ensures Admissions(calls, rate) == []
  {
    if calls != [] {
      NothingAdmitted(calls[..|calls|-1], rate);
    }
  }

  // ---------------------------------------------------------------- the deque

  /** The deque is a suffix of the admissions, and what it dropped was too old at time `t`. */
  ghost predicate KeepsSuffix(q: seq<real>, a: seq<real>, t: real) {
    && |q| <= |a|
    && q == a[|a| - |q|..]
    && forall i | 0 <= i < |a| - |q| :: t - a[i] > WINDOW
  }

  /** Once its head is recent, the deque holds exactly the recent admissions. */
  lemma {:induction false} SuffixDecides(q: seq<real>, a: seq<real>, t: real)
    requires KeepsSuffix(q, a, t) && Nondecreasing(a)
    requires q != [] ==> t - q[0] <= WINDOW
    ensures |q| == Recent(a, t)
  {
    var k := |a| - |q|;
    forall i | k <= i < |a| ensures t - a[i] <= WINDOW {
      assert a[k] == q[0] && a[k] <= a[i];
    }
    RecentDropsOld(a, t, k);
  }

  lemma {:induction false} SuffixAges(q: seq<real>, a: seq<real>, t0: real, t: real)
    requires KeepsSuffix(q, a, t0) && t0 <= t
    ensures KeepsSuffix(q, a, t)
  {
    forall i | 0 <= i < |a| - |q| ensures t - a[i] > WINDOW {
      assert t0 - a[i] > WINDOW;
    }
  }

  lemma {:induction false} SuffixPops(q: seq<real>, a: seq<real>, t: real)
    requires KeepsSuffix(q, a, t) && q != [] && t - q[0] > WINDOW
    ensures KeepsSuffix(q[1..], a, t)
  {
    assert q[0] == a[|a| - |q|];
  }

  lemma {:induction false} SuffixGrows(q: seq<real>, a: seq<real>, t: real)
    requires KeepsSuffix(q, a, t)
    ensures KeepsSuffix(q + [t], a + [t], t)
  {
  }

  lemma {:induction false} CallExtends(calls: seq<real>, rate: int, t: real)
    requires Nondecreasing(calls)
    requires calls != [] ==> calls[|calls| - 1] <= t
    ensures Nondecreasing(calls + [t])
    ensures Admissions(calls + [t], rate) ==
      if Recent(Admissions(calls, rate), t) < rate then Admissions(calls, rate) + [t] else Admissions(calls, rate)
  {
    assert (calls + [t])[..|calls + [t]| - 1] == calls;
  }

  /** What the deque knows about the calls made so far. */
  ghost predicate Tracks(q: seq<real>, calls: seq<real>, rate: int) {
    && Nondecreasing(calls)
    && (calls == [] ==> q == [])
    && (calls != [] ==> KeepsSuffix(q, Admissions(calls, rate), calls[|calls| - 1]))
  }

  lemma {:induction false} TracksAges(q: seq<real>, calls: seq<real>, rate: int, t: real)
    requires Tracks(q, calls, rate)
    requires calls != [] ==> calls[|calls| - 1] <= t
    ensures KeepsSuffix(q, Admissions(calls, rate), t)
  {
    if calls != [] {
      SuffixAges(q, Admissions(calls, rate), calls[|calls| - 1], t);
    }
  }

  lemma {:induction false} TracksCall(q: seq<real>, calls: seq<real>, rate: int, t: real)
    requires Nondecreasing(calls)
    requires calls != [] ==> calls[|calls| - 1] <= t
    requires KeepsSuffix(q, Admissions(calls, rate), t)
    requires q != [] ==> t - q[0] <= WINDOW
    ensures |q| == Recent(Admissions(calls, rate), t)
    ensures Tracks(if |q| < rate then q + [t] else q, calls + [t], rate)
  {
    AdmissionsSorted(calls, rate);
    SuffixDecides(q, Admissions(calls, rate), t);
    CallExtends(calls, rate, t);
    SuffixGrows(q, Admissions(calls, rate), t);
  }

  /** One command's deque. The ghost field remembers every call; the deque forgets. */
  class RateLimiter {
    const rate: int
    var q: seq<real>
    ghost var calls: seq<real>

    ghost predicate Valid()
      reads this
    {
      Tracks(q, calls, rate)
    }

    constructor (rate: int)
      ensures Valid() && this.rate == rate && q == [] && calls == []
    {
      this.rate := rate;
      q := [];
      calls := [];
    }

    /** The popping loop of `_rate_ok`. */
    method DropOld(t: real, ghost a: seq<real>)
      requires KeepsSuffix(q, a, t)
      modifies this`q
      ensures KeepsSuffix(q, a, t)
      ensures q != [] ==> t - q[0] <= WINDOW
    {
      while q != [] && t - q[0] > WINDOW
        invariant KeepsSuffix(q, a, t)
        decreases |q|
      {
        SuffixPops(q, a, t);
        q := q[1..];
      }
    }

    /** `_rate_ok`: although it sees only the deque, it decides as the reference limiter does. */
    method RateOk(t: real) returns (ok: bool)
      requires Valid()
      requires calls != [] ==> calls[|calls| - 1] <= t
      modifies this
      ensures Valid()
      ensures calls == old(calls) + [t]
      ensures ok <==> Recent(Admissions(old(calls), rate), t) < rate
      ensures ok <==> |LastMinute(Admissions(old(calls), rate), t)| < rate
    {
      ghost var a := Admissions(calls, rate);
      TracksAges(q, calls, rate, t);
      DropOld(t, a);
      TracksCall(q, calls, rate, t);
      RecentCounted(a, t);
      calls := calls + [t];
      ok := |q| < rate;
      if ok {
        q := q + [t];
      }
    }
  }

  // ---------------------------------------------------------------- circuit breaker

  datatype Sample = Sample(latencyMs: real, healthy: bool)

  predicate Bad(s: Sample, thresholdMs: real) {
    !s.healthy || s.latencyMs > thresholdMs
  }

  /** Good samples since the last bad one; -1 when there was no bad one. */
  function GoodRun(history: seq<Sample>, thresholdMs: real): (r: int)
    ensures -1 <= r <= |history|
  {
    if history == [] then -1
    else if Bad(history[|history|-1], thresholdMs) then 0
    else
      var g := GoodRun(history[..|history|-1], thresholdMs);
      if g < 0 then -1 else g + 1
  }

  /** Open: some bad sample, and not yet `recover` good ones after it (at least one is needed). */
  predicate ShouldBeOpen(history: seq<Sample>, thresholdMs: real, recover: int) {
    var g := GoodRun(history, thresholdMs);
    g >= 0 && (g == 0 || g < recover)
  }

  /** Bad samples that arrived while the breaker should have been closed. */
  function Trips(history: seq<Sample>, thresholdMs: real, recover: int): nat {
    if history == [] then 0
    else
      var before := history[..|history|-1];
      Trips(before, thresholdMs, recover) +
      (if Bad(history[|history|-1], thresholdMs) && !ShouldBeOpen(before, thresholdMs, recover) then 1 else 0)
  }

  /** The i-th sample is the last that was unhealthy or too slow. */
  predicate LastBad(history: seq<Sample>, thresholdMs: real, i: nat) {
    && i < |history| && (!history[i].healthy || history[i].latencyMs > thresholdMs)
    && forall j | i < j < |history| :: history[j].healthy && history[j].latencyMs <= thresholdMs
  }

  /** The last bad sample has been followed by none or by fewer than `recover` good ones. */
  ghost predicate Tripped(history: seq<Sample>, thresholdMs: real, recover: int) {
    exists i: nat :: LastBad(history, thresholdMs, i) && (i + 1 == |history| || |history| - 1 - i < recover)
  }

  /** The bad samples that found the breaker closed. */
  ghost function Tripping(history: seq<Sample>, thresholdMs: real, recover: int): set<nat> {
    set i: nat | i < |history| && (!history[i].healthy || history[i].latencyMs > thresholdMs)
                 && !Tripped(history[..i], thresholdMs, recover)
  }

  lemma {:induction false} GoodRunIff(history: seq<Sample>, thresholdMs: real, i: nat)
    ensures LastBad(history, thresholdMs, i) <==> i < |history| && GoodRun(history, thresholdMs) == |history| - 1 - i
  {
    if history != [] {
      var n := |history| - 1;
      GoodRunIff(history[..n], thresholdMs, i);
      if i < n {
        assert LastBad(history, thresholdMs, i) <==>
          LastBad(history[..n], thresholdMs, i) && !Bad(history[n], thresholdMs);
      }
    }
  }

  lemma {:induction false} OpenIff(history: seq<Sample>, thresholdMs: real, recover: int)
    ensures ShouldBeOpen(history, thresholdMs, recover) <==> Tripped(history, thresholdMs, recover)
  {
    if ShouldBeOpen(history, thresholdMs, recover) {
      GoodRunBelow(history, thresholdMs);
      GoodRunIff(history, thresholdMs, |history| - 1 - GoodRun(history, thresholdMs));
    }
    if i: nat :| LastBad(history, thresholdMs, i) && (i + 1 == |history| || |history| - 1 - i < recover) {
      GoodRunIff(history, thresholdMs, i);
    }
  }

  lemma {:induction false} GoodRunBelow(history: seq<Sample>, thresholdMs: real)
    ensures GoodRun(history, thresholdMs) >= 0 ==> GoodRun(history, thresholdMs) < |history|
  {
    if history != [] {
      GoodRunBelow(history[..|history|-1], thresholdMs);
    }
  }

  lemma {:induction false} TripsCounted(history: seq<Sample>, thresholdMs: real, recover: int)
    ensures Trips(history, thresholdMs, recover) == |Tripping(history, thresholdMs, recover)|
  {
    hide ShouldBeOpen, Tripped;
    if history != [] {
      var n := |history| - 1;
      TripsCounted(history[..n], thresholdMs, recover);
      OpenIff(history[..n], thresholdMs, recover);
      forall i: nat | i < n ensures history[..n][..i] == history[..i] {
      }
      assert Tripping(history, thresholdMs, recover) == Tripping(history[..n], thresholdMs, recover) +
        (if Bad(history[n], thresholdMs) && !Tripped(history[..n], thresholdMs, recover) then {n} else {});
    }
  }

  class Breaker {
    const thresholdMs: real
    const recover: int
    var open: bool
    var good: int
    var trips: int
    var openedAt: Option<real>
    ghost var history: seq<Sample>

    ghost predicate Valid()
      reads this
    {
      && open == ShouldBeOpen(history, thresholdMs, recover)
      && (open ==> good == GoodRun(history, thresholdMs))
      && trips == Trips(history, thresholdMs, recover)
      && (openedAt.Some? <==> open)
    }

    constructor (thresholdMs: real, recover: int)
      ensures Valid() && history == [] && !open && trips == 0
      ensures this.thresholdMs == thresholdMs && this.recover == recover
    {
      this.thresholdMs := thresholdMs;
      this.recover := recover;
      open, good, trips, openedAt, history := false, 0, 0, None, [];
    }

    method Take(latencyMs: real, healthy: bool, now: real)
      requires Valid()
      modifies this
      ensures Valid() && history == old(history) + [Sample(latencyMs, healthy)]
      ensures open <==> Tripped(history, thresholdMs, recover)
      ensures trips == |Tripping(history, thresholdMs, recover)|
      ensures !old(open) && open ==> openedAt == Some(now)
      ensures old(open) && open ==> openedAt == old(openedAt)
    {
      var bad := !healthy || latencyMs > thresholdMs;
      ghost var h := history + [Sample(latencyMs, healthy)];
      assert h[..|h| - 1] == history;
      if bad {
        if !open {
          open, openedAt := true, Some(now);
          trips := trips + 1;
        }
        good := 0;
      } else if open {
        good := good + 1;
        if good >= recover {
          open, openedAt := false, None;
        }
      }
      history := h;
      OpenIff(history, thresholdMs, recover);
      TripsCounted(history, thresholdMs, recover);
    }
  }

  /** A closed breaker that has ever tripped saw `recover` consecutive good samples last. */
  lemma {:induction false} ClosesOnlyAfterRecovery(history: seq<Sample>, thresholdMs: real, recover: int)
    requires !ShouldBeOpen(history, thresholdMs, recover)
    requires exists i :: 0 <= i < |history| && Bad(history[i], thresholdMs)
    ensures recover <= |history|
    ensures forall i | 0 <= i < |history| && |history| - recover <= i :: !Bad(history[i], thresholdMs)
  {
    SomeBadCounts(history, thresholdMs);
    GoodRunIsGood(history, thresholdMs);
  }

  lemma {:induction false} SomeBadCounts(history: seq<Sample>, thresholdMs: real)
    ensures GoodRun(history, thresholdMs) >= 0 <==>
      exists i :: 0 <= i < |history| && Bad(history[i], thresholdMs)
  {
    if history != [] {
      var before := history[..|history|-1];
      SomeBadCounts(before, thresholdMs);
      if i :| 0 <= i < |history| && Bad(history[i], thresholdMs) {
        assert i < |before| ==> Bad(before[i], thresholdMs);
      }
      if i :| 0 <= i < |before| && Bad(before[i], thresholdMs) {
        assert Bad(history[i], thresholdMs);
      }
    }
  }

  lemma {:induction false} GoodRunIsGood(history: seq<Sample>, thresholdMs: real)
    ensures forall i | 0 <= i < |history| && |history| - GoodRun(history, thresholdMs) <= i ::
      !Bad(history[i], thresholdMs)
  {
    if history != [] {
      GoodRunIsGood(history[..|history|-1], thresholdMs);
    }
  }
}
