/** The bounded observations of one provider (`ProviderStats`, routing.py), with reals for floats. */
module ProviderStats {
  import opened Prelude

  /** A finished request. */
  datatype Observation = Observation(success: bool, latency: real)

  function Clip(latency: real): real {
    if latency >= 0.0 then latency else 0.0
  }

  function Successes(window: seq<Observation>): nat {
    if window == [] then 0
    else Successes(window[..|window| - 1]) + if window[|window| - 1].success then 1 else 0
  }

  /** The newest `n` observations, or all of them. */
  function Last(all: seq<Observation>, n: nat): seq<Observation> {
    if |all| <= n then all else all[|all| - n..]
  }

  /** Everything reported to `finish` so far, with its error code reduced to "was it a timeout". */
  datatype Report = Report(success: bool, latency: real, timeout: bool)

  function Seen(reports: seq<Report>): seq<Observation> {
    if reports == [] then []
    else
      var r := reports[|reports| - 1];
      Seen(reports[..|reports| - 1]) + [Observation(r.success, Clip(r.latency))]
  }

  function Succeeded(reports: seq<Report>): nat {
    if reports == [] then 0
    else Succeeded(reports[..|reports| - 1]) + if reports[|reports| - 1].success then 1 else 0
  }

  function TimedOut(reports: seq<Report>): nat {
    if reports == [] then 0
    else
      var r := reports[|reports| - 1];
      TimedOut(reports[..|reports| - 1]) + if !r.success && r.timeout then 1 else 0
  }

  ghost predicate Suffix(s: seq<Observation>, all: seq<Observation>) {
    |s| <= |all| && s == all[|all| - |s|..]
  }

  lemma LastSnoc(all: seq<Observation>, n: nat, o: Observation)
    ensures Suffix(Last(all, n) + [o], all + [o]) && Min(|all| + 1, n) <= |Last(all, n) + [o]|
  {
  }

  lemma Snoc(reports: seq<Report>, r: Report)
    ensures |Seen(reports + [r])| == |reports| + 1
    ensures Seen(reports + [r]) == Seen(reports) + [Observation(r.success, Clip(r.latency))]
    ensures Succeeded(reports + [r]) == Succeeded(reports) + if r.success then 1 else 0
    ensures TimedOut(reports + [r]) == TimedOut(reports) + if !r.success && r.timeout then 1 else 0
  {
    assert (reports + [r])[..|reports|] == reports;
    SeenLength(reports);
  }

  lemma {:induction false} SeenLength(reports: seq<Report>)
    ensures |Seen(reports)| == |reports|
  {
    if reports != [] {
      SeenLength(reports[..|reports| - 1]);
    }
  }

  /** The four counters after `reports`. */
  ghost predicate Counted(reports: seq<Report>, total: nat, successes: nat, failures: nat, timeouts: nat) {
    && total == |reports| && successes + failures == total && timeouts <= failures
    && successes == Succeeded(reports) && timeouts == TimedOut(reports)
  }

  lemma CountedSnoc(reports: seq<Report>, total: nat, successes: nat, failures: nat, timeouts: nat, r: Report)
    requires Counted(reports, total, successes, failures, timeouts)
    ensures r.success ==> Counted(reports + [r], total + 1, successes + 1, failures, timeouts)
    ensures !r.success ==>
              Counted(reports + [r], total + 1, successes, failures + 1, timeouts + if r.timeout then 1 else 0)
  {
    Snoc(reports, r);
  }

  lemma WindowSnoc(reports: seq<Report>, n: nat, r: Report)
    ensures var all := Seen(reports + [r]);
            var window := Last(Seen(reports), n) + [Observation(r.success, Clip(r.latency))];
            Suffix(window, all) && Min(|all|, n) <= |window|
  {
    Snoc(reports, r);
    LastSnoc(Seen(reports), n, Observation(r.success, Clip(r.latency)));
  }

  class Stats {
    const windowSize: nat
    var recent: seq<Observation>
    var inflight: nat
    var totalRequests: nat
    var successes: nat
    var failures: nat
    var timeouts: nat

    /** The object has been told exactly `reports`: the window is the newest of them, the counters count them. */
    ghost predicate Tells(reports: seq<Report>)
      reads this
    {
      && windowSize >= 1 && recent == Last(Seen(reports), windowSize)
      && Counted(reports, totalRequests, successes, failures, timeouts)
    }

    constructor (windowSize: nat)
      requires windowSize >= 1
      ensures Tells([]) && inflight == 0 && this.windowSize == windowSize
    {
      this.windowSize := windowSize;
      recent, inflight, totalRequests, successes, failures, timeouts := [], 0, 0, 0, 0, 0;
    }

    method Start(ghost reports: seq<Report>)
      requires Tells(reports)
      modifies this`inflight
      ensures Tells(reports) && inflight == old(inflight) + 1
    {
      inflight := inflight + 1;
    }

    method Finish(report: Report, ghost reports: seq<Report>)
      requires Tells(reports)
      modifies this
      ensures Tells(reports + [report])
      ensures inflight == if old(inflight) == 0 then 0 else old(inflight) - 1
    {
      CountedSnoc(reports, totalRequests, successes, failures, timeouts, report);
      WindowSnoc(reports, windowSize, report);
      ghost var window := Last(Seen(reports), windowSize) + [Observation(report.success, Clip(report.latency))];
      ghost var all := Seen(reports + [report]);
      assert Suffix(window, all) && Min(|all|, windowSize) <= |window|;
      inflight := if inflight == 0 then 0 else inflight - 1;
      totalRequests := totalRequests + 1;
      if report.success {
        successes := successes + 1;
      } else {
        failures := failures + 1;
        if report.timeout {
          timeouts := timeouts + 1;
        }
      }
      recent := recent + [Observation(report.success, Clip(report.latency))];
      assert recent == window;
      Trim(all);
    }

    /** The loop that drops observations from the left. */
    method Trim(ghost all: seq<Observation>)
      requires Suffix(recent, all) && Min(|all|, windowSize) <= |recent|
      modifies this`recent
      ensures recent == Last(all, windowSize)
    {
      while |recent| > windowSize
        invariant Suffix(recent, all) && Min(|all|, windowSize) <= |recent|
      {
        recent := recent[1..];
      }
    }

    /** `_weight`: the success rate of the window, floored at 0.05; a full share before any observation. */
    method Weight(ghost reports: seq<Report>) returns (weight: real)
      requires Tells(reports)
      ensures weight == WeightOf(recent) && 0.05 <= weight <= 1.0
      ensures recent == [] ==> weight == 1.0
      ensures recent != [] ==>
                var share := |SuccessesIn(recent)| as real / |recent| as real;
                weight == if share >= 0.05 then share else 0.05
    {
      SuccessesAtMost(recent);
      CountIsCardinality(recent);
      var good := 0;
      for i := 0 to |recent|
        invariant good == Successes(recent[..i])
      {
        assert recent[..i + 1][..i] == recent[..i];
        good := good + if recent[i].success then 1 else 0;
      }
      assert recent[..|recent|] == recent;
      var rate := if |recent| == 0 then 1.0 else good as real / |recent| as real;
      RateBounds(recent);
      weight := if rate >= 0.05 then rate else 0.05;
    }
  }

  lemma {:induction false} SuccessesAtMost(window: seq<Observation>)
    ensures Successes(window) <= |window|
  {
    if window != [] {
      SuccessesAtMost(window[..|window| - 1]);
    }
  }

  function Rate(window: seq<Observation>): real {
    if window == [] then 1.0 else Successes(window) as real / |window| as real
  }

  function WeightOf(window: seq<Observation>): real {
    if Rate(window) >= 0.05 then Rate(window) else 0.05
  }

  /** The positions of the successes in a window. */
  ghost function SuccessesIn(window: seq<Observation>): set<nat> {
    set i: nat | i < |window| && window[i].success
  }

  lemma {:induction false} CountIsCardinality(window: seq<Observation>)
    ensures Successes(window) == |SuccessesIn(window)|
  {
    if window != [] {
      var n := |window| - 1;
      var init := window[..n];
      CountIsCardinality(init);
      assert forall i :: 0 <= i < n ==> init[i] == window[i];
      if window[n].success {
        assert SuccessesIn(window) == SuccessesIn(init) + {n};
      } else {
        assert SuccessesIn(window) == SuccessesIn(init);
      }
    }
  }

  /** What the weight of a window is: its share of successes, but never below 0.05; 1 with no observation. */
  lemma WeightIsSuccessShare(window: seq<Observation>)
    ensures window == [] ==> WeightOf(window) == 1.0
    ensures window != [] ==>
              var share := |SuccessesIn(window)| as real / |window| as real;
              WeightOf(window) == if share >= 0.05 then share else 0.05
  {
    CountIsCardinality(window);
  }

  lemma QuotientMonotone(a: nat, b: nat, n: nat)
    requires a <= b && 0 < n
    ensures a as real / n as real <= b as real / n as real
  {
    var d := n as real;
    var x, y := a as real / d, b as real / d;
    assert x * d == a as real && y * d == b as real;
    assert (y - x) * d == (b - a) as real;
    FactorNotNegative(y - x, d);
  }

  lemma FactorNotNegative(z: real, d: real)
    requires d > 0.0 && z * d >= 0.0
    ensures z >= 0.0
  {
  }

  /** A window is at least as good as another of its length if it has a success wherever that one has. */
  ghost predicate AtLeastAsGood(better: seq<Observation>, worse: seq<Observation>) {
    |better| == |worse| && forall i :: 0 <= i < |worse| && worse[i].success ==> better[i].success
  }

  /** Successes in place of failures never lower the weight. */
  lemma WeightMonotone(better: seq<Observation>, worse: seq<Observation>)
    requires AtLeastAsGood(better, worse)
    ensures WeightOf(worse) <= WeightOf(better)
  {
    MoreSuccesses(better, worse);
    if worse != [] {
      QuotientMonotone(Successes(worse), Successes(better), |worse|);
    }
  }

  lemma {:induction false} MoreSuccesses(better: seq<Observation>, worse: seq<Observation>)
    requires AtLeastAsGood(better, worse)
    ensures Successes(worse) <= Successes(better)
  {
    if worse != [] {
      MoreSuccesses(better[..|better| - 1], worse[..|worse| - 1]);
    }
  }

  // ---------------------------------------------------------------- what a window holds

  /** Every report is seen once and in order, its latency clipped at zero. */
  lemma {:induction false} SeenAt(reports: seq<Report>, i: nat)
    requires i < |reports|
    ensures |Seen(reports)| == |reports|
    ensures Seen(reports)[i].success == reports[i].success
    ensures Seen(reports)[i].latency == if reports[i].latency < 0.0 then 0.0 else reports[i].latency
  {
    SeenLength(reports);
    var n := |reports| - 1;
    SeenLength(reports[..n]);
    if i < n {
      SeenAt(reports[..n], i);
    }
  }

  /** The window after any reports: as many of the newest as fit, oldest first. */
  lemma WindowAt(reports: seq<Report>, size: nat, i: nat)
    requires i < Min(|reports|, size)
    ensures var window := Last(Seen(reports), size);
            var r := reports[|reports| - Min(|reports|, size) + i];
            && |window| == Min(|reports|, size)
            && window[i].success == r.success
            && window[i].latency == if r.latency < 0.0 then 0.0 else r.latency
  {
    SeenLength(reports);
    LastAt(Seen(reports), size, i);
    SeenAt(reports, |reports| - Min(|reports|, size) + i);
  }

  lemma LastAt(all: seq<Observation>, n: nat, i: nat)
    requires i < Min(|all|, n)
    ensures |Last(all, n)| == Min(|all|, n) && Last(all, n)[i] == all[|all| - Min(|all|, n) + i]
  {
  }

  lemma WindowLength(reports: seq<Report>, size: nat)
    ensures |Last(Seen(reports), size)| == Min(|reports|, size)
  {
    SeenLength(reports);
  }

  /** The counters, as the numbers of reports of each kind. */
  lemma {:induction false} SucceededIsCardinality(reports: seq<Report>)
    ensures Succeeded(reports) == |set i: nat | i < |reports| && reports[i].success|
  {
    if reports != [] {
      var n := |reports| - 1;
      var init := reports[..n];
      SucceededIsCardinality(init);
      assert forall i :: 0 <= i < n ==> init[i] == reports[i];
      var now := set i: nat | i < |reports| && reports[i].success;
      var before := set i: nat | i < |init| && init[i].success;
      assert now == if reports[n].success then before + {n} else before;
    }
  }

  lemma {:induction false} TimedOutIsCardinality(reports: seq<Report>)
    ensures TimedOut(reports) == |set i: nat | i < |reports| && !reports[i].success && reports[i].timeout|
  {
    if reports != [] {
      var n := |reports| - 1;
      var init := reports[..n];
      TimedOutIsCardinality(init);
      assert forall i :: 0 <= i < n ==> init[i] == reports[i];
      var now := set i: nat | i < |reports| && !reports[i].success && reports[i].timeout;
      var before := set i: nat | i < |init| && !init[i].success && init[i].timeout;
      assert now == if !reports[n].success && reports[n].timeout then before + {n} else before;
    }
  }

  lemma RateBounds(window: seq<Observation>)
    ensures 0.0 <= Rate(window) <= 1.0
  {
    SuccessesAtMost(window);
    if window != [] {
      var n, d := Successes(window) as real, |window| as real;
      assert n / d * d == n;
    }
  }

  /** However a window came about, its weight is positive and at most one. */
  lemma WeightBounds(window: seq<Observation>)
    ensures 0.05 <= WeightOf(window) <= 1.0
  {
    RateBounds(window);
  }

  // ---------------------------------------------------------------- the 95th percentile

  function Insert(x: real, s: seq<real>): (r: seq<real>)
    ensures |r| == |s| + 1
  {
    if s == [] || x <= s[0] then [x] + s else [s[0]] + Insert(x, s[1..])
  }

  /** What Python's `sorted` returns. */
  function Sorted(s: seq<real>): (r: seq<real>)
    ensures |r| == |s|
  {
    if s == [] then [] else Insert(s[0], Sorted(s[1..]))
  }

  ghost predicate Ascending(s: seq<real>) {
    forall i, j :: 0 <= i <= j < |s| ==> s[i] <= s[j]
  }

  function AtOrBelow(s: seq<real>, v: real): nat {
    if s == [] then 0 else (if s[0] <= v then 1 else 0) + AtOrBelow(s[1..], v)
  }

  function Below(s: seq<real>, v: real): nat {
    if s == [] then 0 else (if s[0] < v then 1 else 0) + Below(s[1..], v)
  }

  lemma {:induction false} InsertCounts(x: real, s: seq<real>, v: real)
    ensures AtOrBelow(Insert(x, s), v) == AtOrBelow(s, v) + (if x <= v then 1 else 0)
    ensures Below(Insert(x, s), v) == Below(s, v) + (if x < v then 1 else 0)
  {
    if s == [] || x <= s[0] {
      assert ([x] + s)[1..] == s;
    } else {
      InsertCounts(x, s[1..], v);
      assert ([s[0]] + Insert(x, s[1..]))[1..] == Insert(x, s[1..]);
    }
  }

  lemma {:induction false} InsertMembers(x: real, s: seq<real>)
    ensures multiset(Insert(x, s)) == multiset(s) + multiset{x}
  {
    if s != [] && x > s[0] {
      InsertMembers(x, s[1..]);
      assert s == [s[0]] + s[1..];
    }
  }

  lemma {:induction false} InsertAscending(x: real, s: seq<real>)
    requires Ascending(s)
    ensures Ascending(Insert(x, s))
  {
    if s != [] && x > s[0] {
      InsertAscending(x, s[1..]);
      InsertMembers(x, s[1..]);
      var rest := Insert(x, s[1..]);
      forall i | 0 <= i < |rest| ensures s[0] <= rest[i] {
        assert rest[i] in multiset(rest);
      }
    }
  }

  lemma {:induction false} SortedFacts(s: seq<real>, v: real)
    ensures Ascending(Sorted(s)) && multiset(Sorted(s)) == multiset(s)
    ensures AtOrBelow(Sorted(s), v) == AtOrBelow(s, v) && Below(Sorted(s), v) == Below(s, v)
  {
    if s != [] {
      SortedFacts(s[1..], v);
      InsertCounts(s[0], Sorted(s[1..]), v);
      InsertMembers(s[0], Sorted(s[1..]));
      InsertAscending(s[0], Sorted(s[1..]));
      assert s == [s[0]] + s[1..];
    }
  }

  lemma {:induction false} RankInAscending(s: seq<real>, k: nat)
    requires Ascending(s) && k < |s|
    ensures AtOrBelow(s, s[k]) >= k + 1 && Below(s, s[k]) <= k
    decreases k
  {
    if k == 0 {
      NoneBelow(s, s[0]);
    } else {
      assert s[1..][k - 1] == s[k];
      RankInAscending(s[1..], k - 1);
    }
  }

  lemma {:induction false} NoneBelow(s: seq<real>, v: real)
    requires forall i :: 0 <= i < |s| ==> v <= s[i]
    ensures Below(s, v) == 0
  {
    if s != [] {
      NoneBelow(s[1..], v);
    }
  }

  function Latencies(window: seq<Observation>): seq<real> {
    if window == [] then [] else [window[0].latency] + Latencies(window[1..])
  }

  /** ceil(0.95 n), in integers. */
  function Rank(n: nat): nat {
    (19 * n + 19) / 20
  }

  function P95(window: seq<Observation>): real {
    var s := Sorted(Latencies(window));
    if s == [] then 0.0 else s[Rank(|s|) - 1]
  }

  /**
   The reported p95 is the nearest-rank percentile: an observed latency with at least
   ceil(0.95 n) latencies at or below it and fewer than that strictly below.
   */
  lemma P95IsNearestRank(window: seq<Observation>)
    requires window != []
    ensures P95(window) in Latencies(window)
    ensures AtOrBelow(Latencies(window), P95(window)) >= Rank(|window|)
    ensures Below(Latencies(window), P95(window)) < Rank(|window|)
    ensures (Rank(|window|) - 1) as real < 0.95 * |window| as real <= Rank(|window|) as real
  {
    var all := Latencies(window);
    LatencyCount(window);
    SortedFacts(all, P95(window));
    var s := Sorted(all);
    RankInAscending(s, Rank(|s|) - 1);
    assert P95(window) in multiset(s);
  }

  lemma {:induction false} LatencyCount(window: seq<Observation>)
    ensures |Latencies(window)| == |window|
  {
    if window != [] {
      LatencyCount(window[1..]);
    }
  }
}
