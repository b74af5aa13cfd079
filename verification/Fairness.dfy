/**
 How fair smooth weighted round robin is.  A schedule is any record of picks in which everyone
 gains its weight, a leader is chosen and pays the total; the router makes one such schedule.
 */
module Fairness {
  import opened Prelude
  import opened WeightedRoundRobin
  import ProviderStats

  /** Pick `k` is made at weights `weight(k)` from current values `lag(k)`, and takes `chosen(k)`. */
  datatype Schedule = Schedule(lag: nat -> Weights, weight: nat -> Weights, chosen: nat -> string) {
    predicate Turn(ps: seq<string>, k: nat, p: string) {
      lag(k + 1)(p) == lag(k)(p) + weight(k)(p) - (if p == chosen(k) then Total(ps, weight(k)) else 0.0)
    }

    predicate Trails(k: nat, p: string) {
      lag(k)(p) + weight(k)(p) <= lag(k)(chosen(k)) + weight(k)(chosen(k))
    }

    ghost predicate Valid(ps: seq<string>) {
      && Distinct(ps) && ps != []
      && (forall p :: p in ps ==> lag(0)(p) == 0.0)
      && (forall k: nat :: chosen(k) in ps)
      && (forall k: nat, p :: p in ps ==> Turn(ps, k, p) && Trails(k, p))
    }

    /** The weights the router uses are success rates, floored. */
    ghost predicate UnitWeights(ps: seq<string>) {
      forall k: nat, p :: p in ps ==> Within(k, p)
    }

    predicate Within(k: nat, p: string) {
      0.05 <= weight(k)(p) <= 1.0
    }

    /** Fixed weights, each a whole number `a(p)` of a common unit `u`. */
    ghost predicate Scaled(ps: seq<string>, a: string -> nat, u: real) {
      u > 0.0 && forall k: nat, p :: p in ps ==> InUnits(k, p, a, u)
    }

    predicate InUnits(k: nat, p: string, a: string -> nat, u: real) {
      weight(k)(p) == u * a(p) as real
    }
  }

  // ---------------------------------------------------------------- the router's schedule

  /** The router after `k` picks from `ps`, pick `i` made at weights `ws(i)`. */
  function State(ps: seq<string>, ws: nat -> Weights, k: nat): map<string, real>
    requires ps != []
  {
    if k == 0 then map[] else Pick(State(ps, ws, k - 1), ps, ws(k - 1))
  }

  function RouterSchedule(ps: seq<string>, ws: nat -> Weights): Schedule
    requires ps != []
  {
    Schedule((k: nat) => (p: string) => Value(State(ps, ws, k), p), ws, (k: nat) => Winner(State(ps, ws, k), ps, ws(k)))
  }

  /** The router makes a schedule, whatever the weights of each call. */
  lemma RouterIsFair(ps: seq<string>, ws: nat -> Weights)
    requires ps != [] && Distinct(ps)
    ensures RouterSchedule(ps, ws).Valid(ps)
  {
    var s := RouterSchedule(ps, ws);
    forall k: nat ensures s.chosen(k) in ps {
      assert s.chosen(k) == ps[Best(State(ps, ws, k), ps, ws(k))];
    }
    forall k: nat, p | p in ps ensures s.Turn(ps, k, p) && s.Trails(k, p) {
      PickAt(State(ps, ws, k), ps, ws(k), p);
      var i :| 0 <= i < |ps| && ps[i] == p;
      BestIsFirstMaximum(State(ps, ws, k), ps, ws(k), i);
    }
  }

  // ---------------------------------------------------------------- sums

  lemma Successor(n: nat, m: real)
    ensures (n + 1) as real * m == n as real * m + m
  {
  }

  lemma {:induction false} TotalTurn(ps: seq<string>, s: Schedule, k: nat, qs: seq<string>)
    requires s.Valid(ps) && Distinct(qs) && forall q :: q in qs ==> q in ps
    ensures Total(qs, s.lag(k + 1))
         == Total(qs, s.lag(k)) + Total(qs, s.weight(k)) - if s.chosen(k) in qs then Total(ps, s.weight(k)) else 0.0
  {
    if qs != [] {
      var n := |qs| - 1;
      TotalTurn(ps, s, k, qs[..n]);
      assert qs[n] !in qs[..n] && qs[n] in ps;
      assert s.Turn(ps, k, qs[n]);
    }
  }

  lemma {:induction false} TotalZero(qs: seq<string>, v: Weights)
    requires forall q :: q in qs ==> v(q) == 0.0
    ensures Total(qs, v) == 0.0
  {
    if qs != [] {
      TotalZero(qs[..|qs| - 1], v);
      assert qs[|qs| - 1] in qs;
    }
  }

  lemma {:induction false} ZeroSum(ps: seq<string>, s: Schedule, k: nat)
    requires s.Valid(ps)
    ensures Total(ps, s.lag(k)) == 0.0
  {
    if k == 0 {
      TotalZero(ps, s.lag(0));
    } else {
      ZeroSum(ps, s, k - 1);
      TotalTurn(ps, s, k - 1, ps);
      assert s.chosen(k - 1) in ps;
    }
  }

  lemma {:induction false} TotalAtMost(qs: seq<string>, v: Weights, w: Weights, m: real)
    requires forall q :: q in qs ==> v(q) + w(q) <= m
    ensures Total(qs, v) + Total(qs, w) <= |qs| as real * m
  {
    if qs != [] {
      var n := |qs| - 1;
      TotalAtMost(qs[..n], v, w, m);
      assert qs[n] in qs;
      Successor(n, m);
    }
  }

  lemma {:induction false} TotalAtLeast(qs: seq<string>, v: Weights, lo: real)
    requires forall q :: q in qs ==> v(q) >= lo
    ensures Total(qs, v) >= |qs| as real * lo
  {
    if qs != [] {
      var n := |qs| - 1;
      TotalAtLeast(qs[..n], v, lo);
      assert qs[n] in qs;
      Successor(n, lo);
    }
  }

  /** The leader's score is at least the average. */
  lemma LeaderAboveAverage(ps: seq<string>, s: Schedule, k: nat)
    requires s.Valid(ps)
    ensures |ps| as real * (s.lag(k)(s.chosen(k)) + s.weight(k)(s.chosen(k))) >= Total(ps, s.weight(k))
  {
    ZeroSum(ps, s, k);
    forall p | p in ps ensures s.lag(k)(p) + s.weight(k)(p) <= s.lag(k)(s.chosen(k)) + s.weight(k)(s.chosen(k)) {
      assert s.Trails(k, p);
    }
    TotalAtMost(ps, s.lag(k), s.weight(k), s.lag(k)(s.chosen(k)) + s.weight(k)(s.chosen(k)));
  }

  // ---------------------------------------------------------------- bounded lag, no starvation

  lemma Product(a: real, b: real)
    requires a >= 0.0 && b >= 0.0
    ensures a * b >= 0.0
  {
  }

  lemma SignOf(m: real, z: real)
    requires m > 0.0 && m * z >= 0.0
    ensures z >= 0.0
  {
  }

  lemma PaysAtMost(n: nat, score: real, total: real)
    requires n >= 1 && n as real * score >= total && 0.0 <= total <= n as real
    ensures score - total >= 1.0 - n as real
  {
    var m := n as real;
    var gap := (m - 1.0) * (m - total);
    Product(m - 1.0, m - total);
    var z := score - total - 1.0 + m;
    assert m * z == m * score - total + gap;
    SignOf(m, z);
  }

  lemma TotalInUnitRange(ps: seq<string>, s: Schedule, k: nat)
    requires s.UnitWeights(ps)
    ensures 0.0 <= Total(ps, s.weight(k)) <= |ps| as real
  {
    forall p | p in ps ensures 0.0 <= s.weight(k)(p) <= 1.0 {
      assert s.Within(k, p);
    }
    TotalAtLeast(ps, s.weight(k), 0.0);
    var zero: Weights := p => 0.0;
    TotalZero(ps, zero);
    TotalAtMost(ps, zero, s.weight(k), 1.0);
  }

  /** No provider is ever more than n - 1 ahead of its share. */
  lemma {:induction false} LowerBound(ps: seq<string>, s: Schedule, k: nat, p: string)
    requires s.Valid(ps) && s.UnitWeights(ps) && p in ps
    ensures s.lag(k)(p) >= 1.0 - |ps| as real
  {
    if k > 0 {
      LowerBound(ps, s, k - 1, p);
      assert s.Turn(ps, k - 1, p) && s.Within(k - 1, p);
      if p == s.chosen(k - 1) {
        LeaderAboveAverage(ps, s, k - 1);
        TotalInUnitRange(ps, s, k - 1);
        PaysAtMost(|ps|, s.lag(k - 1)(p) + s.weight(k - 1)(p), Total(ps, s.weight(k - 1)));
      }
    }
  }

  lemma {:induction false} OthersAtLeast(qs: seq<string>, v: Weights, p: string, lo: real)
    requires Distinct(qs) && forall q :: q in qs ==> v(q) >= lo
    ensures p in qs ==> Total(qs, v) >= (|qs| - 1) as real * lo + v(p)
  {
    if qs != [] {
      var n := |qs| - 1;
      assert qs[n] in qs && qs[n] !in qs[..n];
      if qs[n] == p {
        TotalAtLeast(qs[..n], v, lo);
      } else {
        OthersAtLeast(qs[..n], v, p, lo);
        if p in qs {
          Successor(n - 1, lo);
        }
      }
    }
  }

  /**
   With weights that change on every call, each current value stays between -(n - 1) and
   (n - 1) squared.
   */
  lemma LagBounded(ps: seq<string>, s: Schedule, k: nat, p: string)
    requires s.Valid(ps) && s.UnitWeights(ps) && p in ps
    ensures -((|ps| - 1) as real) <= s.lag(k)(p) <= ((|ps| - 1) * (|ps| - 1)) as real
  {
    var n := |ps| - 1;
    forall q | q in ps ensures s.lag(k)(q) >= -(n as real) {
      LowerBound(ps, s, k, q);
    }
    OthersAtLeast(ps, s.lag(k), p, -(n as real));
    ZeroSum(ps, s, k);
    Square(n);
  }

  lemma Square(n: nat)
    ensures n as real * -(n as real) == -((n * n) as real)
  {
  }

  function Entitled(s: Schedule, p: string, k: nat): real {
    if k == 0 then 0.0 else Entitled(s, p, k - 1) + s.weight(k - 1)(p)
  }

  function Served(ps: seq<string>, s: Schedule, p: string, k: nat): real {
    if k == 0 then 0.0
    else Served(ps, s, p, k - 1) + if s.chosen(k - 1) == p then Total(ps, s.weight(k - 1)) else 0.0
  }

  /** The current value is the share a provider was entitled to less the service it had. */
  lemma {:induction false} LagIsShareLessService(ps: seq<string>, s: Schedule, p: string, k: nat)
    requires s.Valid(ps) && p in ps
    ensures s.lag(k)(p) == Entitled(s, p, k) - Served(ps, s, p, k)
  {
    if k > 0 {
      LagIsShareLessService(ps, s, p, k - 1);
      assert s.Turn(ps, k - 1, p);
    }
  }

  lemma {:induction false} UnpickedGrows(ps: seq<string>, s: Schedule, p: string, k: nat, m: nat)
    requires s.Valid(ps) && s.UnitWeights(ps) && p in ps
    requires forall j: nat :: k <= j < k + m ==> s.chosen(j) != p
    ensures s.lag(k + m)(p) >= s.lag(k)(p) + 0.05 * m as real
  {
    if m > 0 {
      UnpickedGrows(ps, s, p, k, m - 1);
      assert s.Turn(ps, k + m - 1, p) && s.Within(k + m - 1, p) && s.chosen(k + m - 1) != p;
      assert k + (m - 1) == k + m - 1;
    }
  }

  /** No starvation: among any 20 n (n - 1) + 1 consecutive picks every provider is chosen. */
  lemma NoStarvation(ps: seq<string>, s: Schedule, p: string, k: nat)
    requires s.Valid(ps) && s.UnitWeights(ps) && p in ps
    ensures exists j: nat :: k <= j <= k + 20 * (|ps| * (|ps| - 1)) && s.chosen(j) == p
  {
    var n := |ps|;
    var m := 20 * (n * (n - 1)) + 1;
    assert (n - 1) * (n - 1) + (n - 1) == n * (n - 1);
    assert 0.05 * m as real > (n * (n - 1)) as real;
    if forall j: nat :: k <= j < k + m ==> s.chosen(j) != p {
      UnpickedGrows(ps, s, p, k, m);
      LagBounded(ps, s, k, p);
      LagBounded(ps, s, k + m, p);
      assert false;
    }
  }

  // ---------------------------------------------------------------- the exact cycle

  /** How often `p` was chosen in the first `k` picks. */
  function Count(s: Schedule, p: string, k: nat): nat {
    if k == 0 then 0 else Count(s, p, k - 1) + if s.chosen(k - 1) == p then 1 else 0
  }

  function Units(ps: seq<string>, a: string -> nat): nat {
    if ps == [] then 0 else Units(ps[..|ps| - 1], a) + a(ps[|ps| - 1])
  }

  function Counts(qs: seq<string>, s: Schedule, k: nat): nat {
    if qs == [] then 0 else Counts(qs[..|qs| - 1], s, k) + Count(s, qs[|qs| - 1], k)
  }

  /** `n` times the unit `u`, by repeated addition. */
  function Scale(u: real, n: int): real
    decreases if n < 0 then -n else n
  {
    if n == 0 then 0.0 else if n > 0 then Scale(u, n - 1) + u else Scale(u, n + 1) - u
  }

  lemma {:induction false} ScaleIsProduct(u: real, n: nat)
    ensures Scale(u, n) == u * n as real
  {
    if n > 0 {
      ScaleIsProduct(u, n - 1);
      assert u * n as real == u * (n - 1) as real + u;
    }
  }

  lemma {:induction false} ScaleAdds(u: real, x: int, y: int)
    ensures Scale(u, x + y) == Scale(u, x) + Scale(u, y)
    decreases if y < 0 then -y else y
  {
    if y > 0 {
      ScaleAdds(u, x, y - 1);
    } else if y < 0 {
      ScaleAdds(u, x, y + 1);
    }
  }

  lemma {:induction false} ScaleSign(u: real, n: int)
    requires u > 0.0
    ensures n > 0 ==> Scale(u, n) > 0.0
    ensures n <= 0 ==> Scale(u, n) <= 0.0
    decreases if n < 0 then -n else n
  {
    if n > 0 {
      ScaleSign(u, n - 1);
    } else if n < 0 {
      ScaleSign(u, n + 1);
    }
  }

  lemma {:induction false} TotalUnits(qs: seq<string>, w: Weights, a: string -> nat, u: real)
    requires forall q :: q in qs ==> w(q) == Scale(u, a(q))
    ensures Total(qs, w) == Scale(u, Units(qs, a))
  {
    if qs != [] {
      var n := |qs| - 1;
      TotalUnits(qs[..n], w, a, u);
      assert qs[n] in qs;
      ScaleAdds(u, Units(qs[..n], a), a(qs[n]));
    }
  }

  /** The weights and the total of pick `k`, in units. */
  lemma RoundUnits(ps: seq<string>, s: Schedule, a: string -> nat, u: real, k: nat, p: string)
    requires s.Scaled(ps, a, u) && p in ps
    ensures s.weight(k)(p) == Scale(u, a(p)) && Total(ps, s.weight(k)) == Scale(u, Units(ps, a))
  {
    forall q | q in ps ensures s.weight(k)(q) == Scale(u, a(q)) {
      assert s.InUnits(k, q, a, u);
      ScaleIsProduct(u, a(q));
    }
    TotalUnits(ps, s.weight(k), a, u);
  }

  /** The current value in units. */
  function UnitLag(ps: seq<string>, s: Schedule, a: string -> nat, p: string, k: nat): int {
    if k == 0 then 0
    else UnitLag(ps, s, a, p, k - 1) + a(p) - if s.chosen(k - 1) == p then Units(ps, a) else 0
  }

  lemma {:induction false} LagInUnits(ps: seq<string>, s: Schedule, a: string -> nat, u: real, p: string, k: nat)
    requires s.Valid(ps) && s.Scaled(ps, a, u) && p in ps
    ensures s.lag(k)(p) == Scale(u, UnitLag(ps, s, a, p, k))
  {
    if k > 0 {
      LagInUnits(ps, s, a, u, p, k - 1);
      RoundUnits(ps, s, a, u, k - 1, p);
      assert s.Turn(ps, k - 1, p);
      var z, total: int := UnitLag(ps, s, a, p, k - 1), Units(ps, a);
      ScaleAdds(u, z, a(p));
      ScaleAdds(u, z + a(p) - total, total);
    }
  }

  /** Picks owed less picks had. */
  lemma {:induction false} UnitLagIsOwed(ps: seq<string>, s: Schedule, a: string -> nat, p: string, k: nat)
    ensures UnitLag(ps, s, a, p, k) == k * a(p) - Units(ps, a) * Count(s, p, k)
  {
    if k > 0 {
      UnitLagIsOwed(ps, s, a, p, k - 1);
      var c := Count(s, p, k - 1);
      assert k * a(p) == (k - 1) * a(p) + a(p);
      assert Units(ps, a) * (c + 1) == Units(ps, a) * c + Units(ps, a);
    }
  }

  lemma {:induction false} TotalNotPositive(qs: seq<string>, v: Weights, w: Weights)
    requires forall q :: q in qs ==> v(q) + w(q) <= 0.0
    ensures Total(qs, v) + Total(qs, w) <= 0.0
  {
    if qs != [] {
      TotalNotPositive(qs[..|qs| - 1], v, w);
      assert qs[|qs| - 1] in qs;
    }
  }

  lemma LeaderIsPositive(ps: seq<string>, s: Schedule, k: nat)
    requires s.Valid(ps) && Total(ps, s.weight(k)) > 0.0
    ensures s.lag(k)(s.chosen(k)) + s.weight(k)(s.chosen(k)) > 0.0
  {
    ZeroSum(ps, s, k);
    if s.lag(k)(s.chosen(k)) + s.weight(k)(s.chosen(k)) <= 0.0 {
      forall p | p in ps ensures s.lag(k)(p) + s.weight(k)(p) <= 0.0 {
        assert s.Trails(k, p);
      }
      TotalNotPositive(ps, s.lag(k), s.weight(k));
    }
  }

  /** Every current value stays strictly above minus one full cycle. */
  lemma {:induction false} AboveOneCycle(ps: seq<string>, s: Schedule, a: string -> nat, u: real, p: string, k: nat)
    requires s.Valid(ps) && s.Scaled(ps, a, u) && Units(ps, a) > 0 && p in ps
    ensures s.lag(k)(p) > -Scale(u, Units(ps, a))
  {
    ScaleSign(u, Units(ps, a));
    if k > 0 {
      AboveOneCycle(ps, s, a, u, p, k - 1);
      RoundUnits(ps, s, a, u, k - 1, p);
      assert s.Turn(ps, k - 1, p);
      ScaleNotNegative(u, a(p));
      if p == s.chosen(k - 1) {
        LeaderIsPositive(ps, s, k - 1);
      }
    }
  }

  lemma ScaleNotNegative(u: real, n: nat)
    requires u > 0.0
    ensures Scale(u, n) >= 0.0
  {
    if n > 0 {
      ScaleSign(u, n);
    }
  }

  lemma {:induction false} CountsAddUp(ps: seq<string>, s: Schedule, k: nat)
    requires s.Valid(ps)
    ensures Counts(ps, s, k) == k
  {
    if k == 0 {
      NoCounts(ps, s);
    } else {
      CountsAddUp(ps, s, k - 1);
      CountsStep(ps, s, k - 1);
      assert s.chosen(k - 1) in ps;
    }
  }

  lemma {:induction false} NoCounts(qs: seq<string>, s: Schedule)
    ensures Counts(qs, s, 0) == 0
  {
    if qs != [] {
      NoCounts(qs[..|qs| - 1], s);
    }
  }

  lemma {:induction false} CountsStep(qs: seq<string>, s: Schedule, i: nat)
    requires Distinct(qs)
    ensures Counts(qs, s, i + 1) == Counts(qs, s, i) + if s.chosen(i) in qs then 1 else 0
  {
    if qs != [] {
      var n := |qs| - 1;
      CountsStep(qs[..n], s, i);
      assert qs[n] !in qs[..n];
    }
  }

  /** Counts that nowhere exceed the units, yet add up to them, equal them. */
  lemma {:induction false} NoSlack(qs: seq<string>, s: Schedule, a: string -> nat, k: nat, p: string)
    requires forall q :: q in qs ==> Count(s, q, k) <= a(q)
    ensures Counts(qs, s, k) <= Units(qs, a)
    ensures Counts(qs, s, k) == Units(qs, a) && p in qs ==> Count(s, p, k) == a(p)
  {
    if qs != [] {
      NoSlack(qs[..|qs| - 1], s, a, k, p);
      assert qs[|qs| - 1] in qs;
    }
  }

  lemma NeverAhead(ps: seq<string>, s: Schedule, a: string -> nat, u: real, p: string, k: nat)
    requires s.Valid(ps) && s.Scaled(ps, a, u) && Units(ps, a) > 0 && p in ps
    ensures UnitLag(ps, s, a, p, k) + Units(ps, a) > 0
  {
    LagInUnits(ps, s, a, u, p, k);
    AboveOneCycle(ps, s, a, u, p, k);
    ScaleAdds(u, UnitLag(ps, s, a, p, k), Units(ps, a));
    ScaleSign(u, UnitLag(ps, s, a, p, k) + Units(ps, a));
  }

  lemma OwedAbove(total: nat, a: nat, count: nat, j: nat)
    requires total > 0 && (j * total) * a - total * count + total > 0
    ensures count <= j * a
  {
    assert (j * total) * a == total * (j * a);
    var x := j * a + 1 - count;
    assert total * x == (j * total) * a - total * count + total;
    PositiveFactor(total, x);
  }

  lemma PositiveFactor(total: nat, x: int)
    requires total * x > 0
    ensures x > 0
  {
  }

  lemma NeverOver(ps: seq<string>, s: Schedule, a: string -> nat, u: real, p: string, j: nat)
    requires s.Valid(ps) && s.Scaled(ps, a, u) && Units(ps, a) > 0 && p in ps
    ensures Count(s, p, j * Units(ps, a)) <= j * a(p)
  {
    NeverAhead(ps, s, a, u, p, j * Units(ps, a));
    UnitLagIsOwed(ps, s, a, p, j * Units(ps, a));
    OwedAbove(Units(ps, a), a(p), Count(s, p, j * Units(ps, a)), j);
  }

  lemma {:induction false} UnitsTimes(qs: seq<string>, a: string -> nat, j: nat)
    ensures Units(qs, q => j * a(q)) == j * Units(qs, a)
  {
    if qs != [] {
      var n := |qs| - 1;
      UnitsTimes(qs[..n], a, j);
      assert j * (Units(qs[..n], a) + a(qs[n])) == j * Units(qs[..n], a) + j * a(qs[n]);
    }
  }

  lemma CycleCount(ps: seq<string>, s: Schedule, a: string -> nat, u: real, p: string, j: nat)
    requires s.Valid(ps) && s.Scaled(ps, a, u) && Units(ps, a) > 0 && p in ps
    ensures Count(s, p, j * Units(ps, a)) == j * a(p)
  {
    var picks, due := j * Units(ps, a), (q: string) => j * a(q);
    forall q | q in ps ensures Count(s, q, picks) <= due(q) {
      NeverOver(ps, s, a, u, q, j);
    }
    CountsAddUp(ps, s, picks);
    UnitsTimes(ps, a, j);
    NoSlack(ps, s, due, picks, p);
  }

  lemma NothingOwed(total: nat, a: nat, j: nat)
    ensures (j * total) * a - total * (j * a) == 0
  {
    assert (j * total) * a == total * (j * a);
  }

  /**
   The exact cycle.  With fixed weights that are whole multiples a(p) of a unit, whenever the
   number of picks is j times the number of units, every provider was picked exactly j * a(p)
   times and every current value is back to zero.
   */
  lemma ExactCycles(ps: seq<string>, s: Schedule, a: string -> nat, u: real, p: string, j: nat)
    requires s.Valid(ps) && s.Scaled(ps, a, u) && Units(ps, a) > 0 && p in ps
    ensures Count(s, p, j * Units(ps, a)) == j * a(p)
    ensures s.lag(j * Units(ps, a))(p) == 0.0
  {
    CycleCount(ps, s, a, u, p, j);
    LagInUnits(ps, s, a, u, p, j * Units(ps, a));
    UnitLagIsOwed(ps, s, a, p, j * Units(ps, a));
    NothingOwed(Units(ps, a), a(p), j);
  }

  // ---------------------------------------------------------------- read off the router

  /** The router's own current values keep the bounds, and its picks starve nobody. */
  lemma RouterLag(ps: seq<string>, ws: nat -> Weights, k: nat, p: string)
    requires ps != [] && Distinct(ps) && p in ps
    requires forall i: nat, q :: q in ps ==> 0.05 <= ws(i)(q) <= 1.0
    ensures -((|ps| - 1) as real) <= Value(State(ps, ws, k), p) <= ((|ps| - 1) * (|ps| - 1)) as real
    ensures exists j: nat :: k <= j <= k + 20 * (|ps| * (|ps| - 1)) && Winner(State(ps, ws, j), ps, ws(j)) == p
  {
    var s := RouterSchedule(ps, ws);
    RouterIsFair(ps, ws);
    LagBounded(ps, s, k, p);
    NoStarvation(ps, s, p, k);
    var j: nat :| k <= j <= k + 20 * (|ps| * (|ps| - 1)) && s.chosen(j) == p;
    assert Winner(State(ps, ws, j), ps, ws(j)) == p;
  }

  /** What had been reported of each provider when pick `k` was made. */
  type Histories = nat -> string -> seq<ProviderStats.Report>

  /** The weights the router then reads off its statistics, over windows of size `size`. */
  function MeasuredWeights(reports: Histories, size: nat): nat -> Weights {
    (k: nat) => (p: string) =>
      ProviderStats.WeightOf(ProviderStats.Last(ProviderStats.Seen(reports(k)(p)), size))
  }

  /**
   Whatever the providers did and whenever it was reported, the router that weighs them by their
   measured success rates keeps every current value within the bounds and starves nobody, not
   even a provider that never succeeded.
   */
  lemma MeasuredRouterIsFair(ps: seq<string>, reports: Histories, size: nat, k: nat, p: string)
    requires ps != [] && Distinct(ps) && p in ps
    ensures var ws := MeasuredWeights(reports, size);
            && -((|ps| - 1) as real) <= Value(State(ps, ws, k), p) <= ((|ps| - 1) * (|ps| - 1)) as real
            && exists j: nat :: k <= j <= k + 20 * (|ps| * (|ps| - 1)) && Winner(State(ps, ws, j), ps, ws(j)) == p
  {
    var ws := MeasuredWeights(reports, size);
    forall i: nat, q | q in ps ensures 0.05 <= ws(i)(q) <= 1.0 {
      ProviderStats.WeightBounds(ProviderStats.Last(ProviderStats.Seen(reports(i)(q)), size));
    }
    RouterLag(ps, ws, k, p);
  }

  /**
   What a measured weight is, in terms of the reports themselves: the share of successes among the
   newest `size` of them, at least 0.05, and 1 before any report.
   */
  lemma MeasuredWeightIsShare(reports: Histories, size: nat, k: nat, p: string)
    requires size >= 1
    ensures var all := reports(k)(p);
            var newest := all[|all| - Min(|all|, size)..];
            var good := set i: nat | i < |newest| && newest[i].success;
            && (all == [] ==> MeasuredWeights(reports, size)(k)(p) == 1.0)
            && (all != [] ==>
                  var share := |good| as real / |newest| as real;
                  MeasuredWeights(reports, size)(k)(p) == if share >= 0.05 then share else 0.05)
  {
    var all := reports(k)(p);
    var newest := all[|all| - Min(|all|, size)..];
    var window := ProviderStats.Last(ProviderStats.Seen(all), size);
    ProviderStats.WindowLength(all, size);
    forall i: nat | i < |newest| ensures window[i].success == newest[i].success {
      ProviderStats.WindowAt(all, size, i);
    }
    assert ProviderStats.SuccessesIn(window) == set i: nat | i < |newest| && newest[i].success;
    ProviderStats.WeightIsSuccessShare(window);
  }

  /** A report of success in place of one of failure never lowers a measured weight. */
  lemma MeasuredWeightMonotone(better: Histories, worse: Histories, size: nat, k: nat, p: string)
    requires |better(k)(p)| == |worse(k)(p)|
    requires forall i :: 0 <= i < |worse(k)(p)| && worse(k)(p)[i].success ==> better(k)(p)[i].success
    ensures MeasuredWeights(worse, size)(k)(p) <= MeasuredWeights(better, size)(k)(p)
  {
    var good, bad := better(k)(p), worse(k)(p);
    var upper := ProviderStats.Last(ProviderStats.Seen(good), size);
    var lower := ProviderStats.Last(ProviderStats.Seen(bad), size);
    ProviderStats.WindowLength(good, size);
    ProviderStats.WindowLength(bad, size);
    forall i | 0 <= i < |lower| && lower[i].success ensures upper[i].success {
      ProviderStats.WindowAt(good, size, i);
      ProviderStats.WindowAt(bad, size, i);
    }
    ProviderStats.WeightMonotone(upper, lower);
  }

  /** With fixed scaled weights the router is back to all zeros after every full cycle. */
  lemma RouterCycles(ps: seq<string>, w: Weights, a: string -> nat, u: real, p: string, j: nat)
    requires ps != [] && Distinct(ps) && p in ps && u > 0.0 && Units(ps, a) > 0
    requires forall q :: q in ps ==> w(q) == u * a(q) as real
    ensures Value(State(ps, (_: nat) => w, j * Units(ps, a)), p) == 0.0
    ensures Count(RouterSchedule(ps, (_: nat) => w), p, j * Units(ps, a)) == j * a(p)
  {
    var ws: nat -> Weights := (_: nat) => w;
    RouterIsFair(ps, ws);
    ExactCycles(ps, RouterSchedule(ps, ws), a, u, p, j);
  }
}
