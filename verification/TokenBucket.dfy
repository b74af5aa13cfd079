/**
 Rate limiting (`rate_limit.py`): the process-local token bucket and the Redis Lua script.
 Time and tokens are reals; the clock is a parameter and never runs backwards.
 */
module TokenBucket {
  import opened Prelude

  datatype Limits = Limits(capacity: int, refill: real) {
    predicate Valid() {
      capacity >= 1 && refill > 0.0
    }
  }

  datatype Bucket = Bucket(tokens: real, updated: real)

  datatype Decision = Decision(allowed: bool, limit: int, remaining: int, retryAfter: int)

  datatype Consumed = Consumed(bucket: Bucket, decision: Decision)

  function Ceil(x: real): int {
    -((-x).Floor)
  }

  function MinReal(a: real, b: real): real {
    if a <= b then a else b
  }

  function MaxReal(a: real, b: real): real {
    if a >= b then a else b
  }

  function MaxInt(a: int, b: int): int {
    if a >= b then a else b
  }

  /** The tokens a bucket holds at `now`; a merchant never seen holds a full one. */
  function Level(l: Limits, b: Option<Bucket>, now: real): real {
    match b
    case None => l.capacity as real
    case Some(b) => MinReal(l.capacity as real, b.tokens + MaxReal(0.0, now - b.updated) * l.refill)
  }

  /** One `consume` for one merchant. */
  function Consume(l: Limits, b: Option<Bucket>, now: real): Consumed
    requires l.Valid()
  {
    var tokens := Level(l, b, now);
    if tokens >= 1.0 then
      Consumed(Bucket(tokens - 1.0, now), Decision(true, l.capacity, (tokens - 1.0).Floor, 0))
    else
      Consumed(Bucket(tokens, now), Decision(false, l.capacity, 0, MaxInt(1, Ceil((1.0 - tokens) / l.refill))))
  }

  function Lookup(buckets: map<string, Bucket>, m: string): Option<Bucket> {
    if m in buckets then Some(buckets[m]) else None
  }

  class InMemoryTokenBucketLimiter {
    const limits: Limits
    var buckets: map<string, Bucket>

    constructor (limits: Limits)
      requires limits.Valid()
      ensures this.limits == limits && buckets == map[]
    {
      this.limits := limits;
      buckets := map[];
    }

    method ConsumeFor(merchant: string, now: real) returns (decision: Decision)
      requires limits.Valid()
      modifies this
      ensures var r := Consume(limits, Lookup(old(buckets), merchant), now);
              decision == r.decision && buckets == old(buckets)[merchant := r.bucket]
    {
      var tokens, updated := limits.capacity as real, now;
      if merchant in buckets {
        tokens, updated := buckets[merchant].tokens, buckets[merchant].updated;
      }
      tokens := MinReal(limits.capacity as real, tokens + MaxReal(0.0, now - updated) * limits.refill);
      if tokens >= 1.0 {
        tokens := tokens - 1.0;
        decision := Decision(true, limits.capacity, tokens.Floor, 0);
      } else {
        var retryAfter := MaxInt(1, Ceil((1.0 - tokens) / limits.refill));
        decision := Decision(false, limits.capacity, 0, retryAfter);
      }
      buckets := buckets[merchant := Bucket(tokens, now)];
    }
  }

  // ---------------------------------------------------------------- traces

  datatype Request = Request(merchant: string, at: real)

  ghost predicate Monotone(from: real, trace: seq<Request>) {
    && (forall i :: 0 <= i < |trace| ==> from <= trace[i].at)
    && (forall i, j :: 0 <= i < j < |trace| ==> trace[i].at <= trace[j].at)
  }

  function Serve(l: Limits, buckets: map<string, Bucket>, r: Request): map<string, Bucket>
    requires l.Valid()
  {
    buckets[r.merchant := Consume(l, Lookup(buckets, r.merchant), r.at).bucket]
  }

  predicate Allowed(l: Limits, buckets: map<string, Bucket>, r: Request)
    requires l.Valid()
  {
    Consume(l, Lookup(buckets, r.merchant), r.at).decision.allowed
  }

  function ServeAll(l: Limits, buckets: map<string, Bucket>, trace: seq<Request>): map<string, Bucket>
    requires l.Valid()
    decreases |trace|
  {
    if trace == [] then buckets else ServeAll(l, Serve(l, buckets, trace[0]), trace[1..])
  }

  /** Buckets hold between none and all tokens and were last touched by `now`. */
  ghost predicate Sound(l: Limits, buckets: map<string, Bucket>, now: real) {
    forall m :: m in buckets ==> 0.0 <= buckets[m].tokens <= l.capacity as real && buckets[m].updated <= now
  }

  lemma LevelBounds(l: Limits, b: Option<Bucket>, now: real)
    requires l.Valid()
    requires b.Some? ==> 0.0 <= b.value.tokens <= l.capacity as real && b.value.updated <= now
    ensures 0.0 <= Level(l, b, now) <= l.capacity as real
    ensures b.Some? ==> b.value.tokens <= Level(l, b, now) <= b.value.tokens + (now - b.value.updated) * l.refill
  {
    if b.Some? {
      assert (now - b.value.updated) * l.refill >= 0.0;
    }
  }

  lemma ServeKeepsSound(l: Limits, buckets: map<string, Bucket>, r: Request, now: real)
    requires l.Valid() && Sound(l, buckets, now) && now <= r.at
    ensures Sound(l, Serve(l, buckets, r), r.at)
  {
    LevelBounds(l, Lookup(buckets, r.merchant), r.at);
  }

  /** Tokens stay between zero and capacity in every run. */
  lemma {:induction false} TokensStayBounded(
      l: Limits, buckets: map<string, Bucket>, trace: seq<Request>, from: real, until: real)
    requires l.Valid() && Sound(l, buckets, from) && Monotone(from, trace) && from <= until
    requires forall i :: 0 <= i < |trace| ==> trace[i].at <= until
    ensures Sound(l, ServeAll(l, buckets, trace), until)
    decreases |trace|
  {
    if trace != [] {
      ServeKeepsSound(l, buckets, trace[0], from);
      TokensStayBounded(l, Serve(l, buckets, trace[0]), trace[1..], trace[0].at, until);
    }
  }

  // ---------------------------------------------------------------- the window bound

  /** Whether a request counts: one of `m`, inside the interval, and allowed. */
  function Cost(l: Limits, buckets: map<string, Bucket>, r: Request, m: string, s: real, t: real): nat
    requires l.Valid()
  {
    if r.merchant == m && s <= r.at <= t && Allowed(l, buckets, r) then 1 else 0
  }

  /** Requests of merchant `m` allowed at times in [s, t]. */
  function AllowedWithin(l: Limits, buckets: map<string, Bucket>, trace: seq<Request>, m: string, s: real, t: real): nat
    requires l.Valid()
    decreases |trace|
  {
    if trace == [] then 0
    else
      Cost(l, buckets, trace[0], m, s, t)
      + AllowedWithin(l, Serve(l, buckets, trace[0]), trace[1..], m, s, t)
  }

  /** What a bucket can still grant inside [s, t]. */
  function Budget(l: Limits, b: Option<Bucket>, s: real, t: real): real {
    if b.None? || b.value.updated < s then l.capacity as real + l.refill * (t - s)
    else if b.value.updated <= t then b.value.tokens + l.refill * (t - b.value.updated)
    else 0.0
  }

  lemma Product(a: real, b: real)
    requires a >= 0.0 && b >= 0.0
    ensures a * b >= 0.0
  {
  }

  lemma BudgetBounds(l: Limits, b: Option<Bucket>, s: real, t: real)
    requires l.Valid() && s <= t
    requires b.Some? ==> 0.0 <= b.value.tokens <= l.capacity as real
    ensures 0.0 <= Budget(l, b, s, t) <= l.capacity as real + l.refill * (t - s)
  {
    Product(l.refill, t - s);
    if b.Some? && s <= b.value.updated <= t {
      var u := b.value.updated;
      var g := l.refill * (t - u);
      Product(l.refill, t - u);
      Product(l.refill, u - s);
      assert l.refill * (t - s) == l.refill * (u - s) + g;
      assert Budget(l, b, s, t) == b.value.tokens + g;
    }
  }

  /** Refilling inside the window brings in no more than the budget already counts. */
  lemma BudgetAfterRefill(l: Limits, b: Option<Bucket>, at: real, s: real, t: real, level: real)
    requires l.Valid() && s <= at <= t && level <= l.capacity as real
    requires b.Some? ==> b.value.updated <= at && level <= b.value.tokens + (at - b.value.updated) * l.refill
    ensures Budget(l, Some(Bucket(level, at)), s, t) <= Budget(l, b, s, t)
  {
    var rest := l.refill * (t - at);
    assert Budget(l, Some(Bucket(level, at)), s, t) == level + rest;
    if b.Some? && s <= b.value.updated {
      var u := b.value.updated;
      assert l.refill * (t - u) == (at - u) * l.refill + rest;
      assert Budget(l, b, s, t) == b.value.tokens + ((at - u) * l.refill + rest);
    } else {
      var gap := l.refill * (at - s);
      Product(l.refill, at - s);
      assert l.refill * (t - s) == gap + rest;
      assert Budget(l, b, s, t) == l.capacity as real + (gap + rest);
    }
  }

  lemma BudgetAfterSpending(l: Limits, tokens: real, at: real, s: real, t: real)
    requires s <= at <= t
    ensures Budget(l, Some(Bucket(tokens - 1.0, at)), s, t) == Budget(l, Some(Bucket(tokens, at)), s, t) - 1.0
  {
  }

  /** A request in the window costs its merchant what it is granted. */
  lemma BudgetStep(l: Limits, b: Option<Bucket>, at: real, s: real, t: real)
    requires l.Valid() && s <= t
    requires b.Some? ==> 0.0 <= b.value.tokens <= l.capacity as real && b.value.updated <= at
    ensures var r := Consume(l, b, at);
            Budget(l, Some(r.bucket), s, t) + (if s <= at <= t && r.decision.allowed then 1.0 else 0.0)
            <= Budget(l, b, s, t)
  {
    LevelBounds(l, b, at);
    var level := Level(l, b, at);
    if at < s {
    } else if at > t {
      BudgetBounds(l, b, s, t);
    } else {
      BudgetAfterRefill(l, b, at, s, t, level);
      BudgetAfterSpending(l, level, at, s, t);
    }
  }

  /** A potential that pays for every allowed request bounds their number. */
  predicate Pays(
      l: Limits, potential: map<string, Bucket> -> real, buckets: map<string, Bucket>, r: Request,
      m: string, s: real, t: real)
    requires l.Valid()
  {
    Cost(l, buckets, r, m, s, t) as real + potential(Serve(l, buckets, r)) <= potential(buckets)
  }

  lemma {:induction false} PotentialBound(
      l: Limits, potential: map<string, Bucket> -> real, buckets: map<string, Bucket>,
      trace: seq<Request>, m: string, s: real, t: real, from: real)
    requires l.Valid() && Sound(l, buckets, from) && Monotone(from, trace)
    requires forall b, now :: Sound(l, b, now) ==> potential(b) >= 0.0
    requires forall b, r: Request, now :: Sound(l, b, now) && now <= r.at ==> Pays(l, potential, b, r, m, s, t)
    ensures AllowedWithin(l, buckets, trace, m, s, t) as real <= potential(buckets)
    decreases |trace|
  {
    if trace != [] {
      ServeKeepsSound(l, buckets, trace[0], from);
      assert Pays(l, potential, buckets, trace[0], m, s, t);
      PotentialBound(l, potential, Serve(l, buckets, trace[0]), trace[1..], m, s, t, trace[0].at);
    }
  }

  /**
   In any interval [s, t] of any trace a merchant is allowed at most capacity + refill * (t - s)
   requests, whatever the other merchants do.
   */
  lemma WindowBound(
      l: Limits, buckets: map<string, Bucket>, trace: seq<Request>, m: string, s: real, t: real,
      from: real)
    requires l.Valid() && Sound(l, buckets, from) && Monotone(from, trace) && s <= t
    ensures AllowedWithin(l, buckets, trace, m, s, t) as real <= l.capacity as real + l.refill * (t - s)
  {
    var potential := (b: map<string, Bucket>) => Budget(l, Lookup(b, m), s, t);
    forall b, now | Sound(l, b, now) ensures potential(b) >= 0.0 {
      BudgetBounds(l, Lookup(b, m), s, t);
    }
    forall b, r: Request, now | Sound(l, b, now) && now <= r.at ensures Pays(l, potential, b, r, m, s, t) {
      if r.merchant == m {
        BudgetStep(l, Lookup(b, m), r.at, s, t);
      } else {
        assert Lookup(Serve(l, b, r), m) == Lookup(b, m);
      }
    }
    PotentialBound(l, potential, buckets, trace, m, s, t, from);
    BudgetBounds(l, Lookup(buckets, m), s, t);
  }

  // ---------------------------------------------------------------- Retry-After

  lemma CeilIsLeast(x: real)
    ensures x <= Ceil(x) as real < x + 1.0
  {
  }

  /** A trace in which every request of `m` is rejected. */
  ghost predicate OnlyRejects(l: Limits, buckets: map<string, Bucket>, trace: seq<Request>, m: string)
    requires l.Valid()
    decreases |trace|
  {
    trace == [] ||
    (&& (trace[0].merchant == m ==> !Allowed(l, buckets, trace[0]))
     && OnlyRejects(l, Serve(l, buckets, trace[0]), trace[1..], m))
  }

  /** Rejected polls, and anything other merchants do, leave the later token count unchanged. */
  lemma {:induction false} PollsAreFree(
      l: Limits, buckets: map<string, Bucket>, trace: seq<Request>, m: string, from: real, now: real)
    requires l.Valid() && Sound(l, buckets, from) && Monotone(from, trace) && from <= now
    requires m in buckets && OnlyRejects(l, buckets, trace, m)
    requires forall i :: 0 <= i < |trace| ==> trace[i].at <= now
    ensures m in ServeAll(l, buckets, trace)
    ensures Level(l, Lookup(ServeAll(l, buckets, trace), m), now) == Level(l, Lookup(buckets, m), now)
    decreases |trace|
  {
    if trace != [] {
      var r := trace[0];
      ServeKeepsSound(l, buckets, r, from);
      PollsAreFree(l, Serve(l, buckets, r), trace[1..], m, r.at, now);
      if r.merchant == m {
        PollIsFree(l, buckets[m], r.at, now);
      }
    }
  }

  lemma PollIsFree(l: Limits, b: Bucket, at: real, now: real)
    requires l.Valid() && 0.0 <= b.tokens && b.updated <= at <= now
    requires !Consume(l, Some(b), at).decision.allowed
    ensures Level(l, Some(Consume(l, Some(b), at).bucket), now) == Level(l, Some(b), now)
  {
    assert (now - b.updated) * l.refill == (at - b.updated) * l.refill + (now - at) * l.refill;
  }

  /**
   The advertised delay is sound and least: after a rejection at `t` with delay `d`, if no request
   was allowed since, a request at `t + d` or later is allowed, and one at `t + d - 1` is not.
   */
  lemma RetryAfterExact(
      l: Limits, buckets: map<string, Bucket>, m: string, t: real, trace: seq<Request>, now: real,
      from: real)
    requires l.Valid() && Sound(l, buckets, from) && from <= t <= now
    requires !Allowed(l, buckets, Request(m, t))
    requires Monotone(t, trace) && (forall i :: 0 <= i < |trace| ==> trace[i].at <= now)
    requires OnlyRejects(l, Serve(l, buckets, Request(m, t)), trace, m)
    ensures var d := Consume(l, Lookup(buckets, m), t).decision.retryAfter;
            var later := ServeAll(l, Serve(l, buckets, Request(m, t)), trace);
            && d >= 1
            && (now >= t + d as real ==> Allowed(l, later, Request(m, now)))
            && (now <= t + d as real - 1.0 ==> !Allowed(l, later, Request(m, now)))
  {
    var after, level := Serve(l, buckets, Request(m, t)), Level(l, Lookup(buckets, m), t);
    ServeKeepsSound(l, buckets, Request(m, t), from);
    PollsAreFree(l, after, trace, m, t, now);
    LevelBounds(l, Lookup(buckets, m), t);
    Rejection(l, buckets, m, t);
    RejectedLevel(l, level, t, now);
    AllowedAtLevel(l, ServeAll(l, after, trace), m, now);
  }

  lemma AllowedAtLevel(l: Limits, buckets: map<string, Bucket>, m: string, now: real)
    requires l.Valid()
    ensures Allowed(l, buckets, Request(m, now)) <==> Level(l, Lookup(buckets, m), now) >= 1.0
  {
  }

  /** What a rejection stores and advertises. */
  lemma Rejection(l: Limits, buckets: map<string, Bucket>, m: string, t: real)
    requires l.Valid() && !Allowed(l, buckets, Request(m, t))
    ensures var level := Level(l, Lookup(buckets, m), t);
            && level < 1.0 && Lookup(Serve(l, buckets, Request(m, t)), m) == Some(Bucket(level, t))
            && Consume(l, Lookup(buckets, m), t).decision.retryAfter == MaxInt(1, Ceil((1.0 - level) / l.refill))
  {
  }

  /** When a rejected bucket can serve again, in terms of the delay it advertised. */
  lemma RejectedLevel(l: Limits, tokens: real, t: real, now: real)
    requires l.Valid() && 0.0 <= tokens < 1.0 && t <= now
    ensures var d := MaxInt(1, Ceil((1.0 - tokens) / l.refill));
            && (now >= t + d as real ==> Level(l, Some(Bucket(tokens, t)), now) >= 1.0)
            && (now <= t + d as real - 1.0 ==> Level(l, Some(Bucket(tokens, t)), now) < 1.0)
  {
    DelayExact(l, tokens, now - t);
  }

  lemma DelayExact(l: Limits, tokens: real, waited: real)
    requires l.Valid() && 0.0 <= tokens < 1.0 && waited >= 0.0
    ensures var d := MaxInt(1, Ceil((1.0 - tokens) / l.refill));
            && (waited >= d as real ==> tokens + waited * l.refill >= 1.0)
            && (waited <= d as real - 1.0 ==> tokens + waited * l.refill < 1.0)
  {
    var q := (1.0 - tokens) / l.refill;
    assert q * l.refill == 1.0 - tokens && q > 0.0;
    CeilIsLeast(q);
    if waited >= q {
      assert waited * l.refill >= q * l.refill;
    } else {
      assert waited * l.refill < q * l.refill;
    }
  }

  // ---------------------------------------------------------------- remaining

  /** How many of `n` further requests at the same instant are allowed. */
  function BurstAllowed(l: Limits, b: Bucket, now: real, n: nat): nat
    requires l.Valid()
    decreases n
  {
    if n == 0 then 0
    else
      var r := Consume(l, Some(b), now);
      (if r.decision.allowed then 1 else 0) + BurstAllowed(l, r.bucket, now, n - 1)
  }

  lemma {:induction false} BurstDrains(l: Limits, b: Bucket, now: real, n: nat)
    requires l.Valid() && 0.0 <= b.tokens <= l.capacity as real && b.updated == now
    ensures BurstAllowed(l, b, now, n) == Min(n, b.tokens.Floor)
    decreases n
  {
    if n > 0 {
      BurstDrains(l, Consume(l, Some(b), now).bucket, now, n - 1);
    }
  }

  /** `remaining` is exactly how many more requests would be allowed at once. */
  lemma RemainingIsExact(l: Limits, b: Option<Bucket>, now: real, n: nat)
    requires l.Valid() && (b.Some? ==> 0.0 <= b.value.tokens <= l.capacity as real && b.value.updated <= now)
    ensures var r := Consume(l, b, now); BurstAllowed(l, r.bucket, now, n) == Min(n, r.decision.remaining)
  {
    LevelBounds(l, b, now);
    BurstDrains(l, Consume(l, b, now).bucket, now, n);
  }

  /** How many of `n` requests made at once are allowed, a merchant never seen included. */
  function GrantedAtOnce(l: Limits, b: Option<Bucket>, now: real, n: nat): nat
    requires l.Valid()
  {
    if n == 0 then 0
    else
      var r := Consume(l, b, now);
      (if r.decision.allowed then 1 else 0) + BurstAllowed(l, r.bucket, now, n - 1)
  }

  lemma BurstFromLevel(l: Limits, b: Option<Bucket>, now: real, n: nat)
    requires l.Valid() && (b.Some? ==> 0.0 <= b.value.tokens <= l.capacity as real && b.value.updated <= now)
    ensures GrantedAtOnce(l, b, now, n) == Min(n, Level(l, b, now).Floor)
  {
    LevelBounds(l, b, now);
    if n > 0 {
      BurstDrains(l, Consume(l, b, now).bucket, now, n - 1);
    }
  }

  /** The tokens a bucket had left and earned since, with no regard to the capacity. */
  function Earned(l: Limits, b: Bucket, now: real): real {
    b.tokens + (now - b.updated) * l.refill
  }

  lemma LevelIsEarned(l: Limits, b: Bucket, now: real)
    requires l.Valid() && 0.0 <= b.tokens && b.updated <= now
    ensures Earned(l, b, now) >= 0.0
    ensures Level(l, Some(b), now) == if Earned(l, b, now) >= l.capacity as real then l.capacity as real
                                      else Earned(l, b, now)
  {
    Product(now - b.updated, l.refill);
    assert MaxReal(0.0, now - b.updated) == now - b.updated;
    var gained := (now - b.updated) * l.refill;
    assert Level(l, Some(b), now) == MinReal(l.capacity as real, b.tokens + gained);
  }

  /**
   What a bucket grants after any idle time: a merchant never seen gets its capacity, any other the
   whole tokens it had left and earned since, up to the capacity.
   */
  lemma IdleGrants(l: Limits, b: Option<Bucket>, now: real, n: nat)
    requires l.Valid() && (b.Some? ==> 0.0 <= b.value.tokens <= l.capacity as real && b.value.updated <= now)
    ensures b.None? ==> GrantedAtOnce(l, b, now, n) == Min(n, l.capacity)
    ensures b.Some? ==>
              var earned := Earned(l, b.value, now);
              && earned >= 0.0
              && (earned >= l.capacity as real ==> GrantedAtOnce(l, b, now, n) == Min(n, l.capacity))
              && (earned < l.capacity as real ==> GrantedAtOnce(l, b, now, n) == Min(n, earned.Floor))
  {
    BurstFromLevel(l, b, now, n);
    if b.Some? {
      LevelIsEarned(l, b.value, now);
    }
  }

  /** What a decision says besides the verdict. */
  lemma DecisionFields(l: Limits, b: Option<Bucket>, now: real)
    requires l.Valid() && (b.Some? ==> 0.0 <= b.value.tokens <= l.capacity as real && b.value.updated <= now)
    ensures var d := Consume(l, b, now).decision;
            && d.limit == l.capacity && 0 <= d.remaining < l.capacity
            && (d.allowed <==> GrantedAtOnce(l, b, now, 1) == 1)
            && (d.allowed <==> d.retryAfter == 0) && (!d.allowed ==> d.remaining == 0)
  {
    LevelBounds(l, b, now);
  }

  // ---------------------------------------------------------------- the Redis script

  /** The Redis hash of a merchant with the moment its key expires. */
  datatype Entry = Entry(tokens: real, updated: real, expires: real)

  /** A key whose time has come reads as absent. */
  function Fetch(entries: map<string, Entry>, m: string, now: real): Option<Entry> {
    if m in entries && now < entries[m].expires then Some(entries[m]) else None
  }

  function TimeToLive(l: Limits): int
    requires l.Valid()
  {
    Ceil(l.capacity as real / l.refill * 2.0)
  }

  datatype Scripted = Scripted(entry: Entry, decision: Decision)

  function ScriptLevel(l: Limits, e: Option<Entry>, now: real): real {
    var tokens := if e.Some? then e.value.tokens else l.capacity as real;
    var updated := if e.Some? then e.value.updated else now;
    MinReal(l.capacity as real, tokens + MaxReal(0.0, now - updated) * l.refill)
  }

  /** The Lua script: no lower bound on the delay, and `floor(tokens)` even when it rejects. */
  function Script(l: Limits, e: Option<Entry>, now: real): Scripted
    requires l.Valid()
  {
    var tokens1 := ScriptLevel(l, e, now);
    var allowed := tokens1 >= 1.0;
    var tokens := if allowed then tokens1 - 1.0 else tokens1;
    var retry := if allowed then 0 else Ceil((1.0 - tokens1) / l.refill);
    Scripted(Entry(tokens, now, now + TimeToLive(l) as real), Decision(allowed, l.capacity, tokens.Floor, retry))
  }

  function Decisions(l: Limits, buckets: map<string, Bucket>, trace: seq<Request>): seq<Decision>
    requires l.Valid()
    decreases |trace|
  {
    if trace == [] then []
    else [Consume(l, Lookup(buckets, trace[0].merchant), trace[0].at).decision]
         + Decisions(l, Serve(l, buckets, trace[0]), trace[1..])
  }

  function ScriptDecisions(l: Limits, entries: map<string, Entry>, trace: seq<Request>): seq<Decision>
    requires l.Valid()
    decreases |trace|
  {
    if trace == [] then []
    else
      var r := trace[0];
      var s := Script(l, Fetch(entries, r.merchant, r.at), r.at);
      [s.decision] + ScriptDecisions(l, entries[r.merchant := s.entry], trace[1..])
  }

  /** Same buckets, each key set to expire a full time-to-live after its last use. */
  ghost predicate Mirrors(l: Limits, buckets: map<string, Bucket>, entries: map<string, Entry>)
    requires l.Valid()
  {
    && buckets.Keys == entries.Keys
    && forall m :: m in buckets ==>
         entries[m] == Entry(buckets[m].tokens, buckets[m].updated, buckets[m].updated + TimeToLive(l) as real)
  }

  /** A bucket idle for its whole time-to-live is full again. */
  lemma ExpiryIsUnobservable(l: Limits, b: Bucket, now: real)
    requires l.Valid() && 0.0 <= b.tokens && now >= b.updated + TimeToLive(l) as real
    ensures Level(l, Some(b), now) == Level(l, None, now)
  {
    var capacity := l.capacity as real;
    var q := capacity / l.refill;
    assert q * l.refill == capacity && q > 0.0;
    CeilIsLeast(q * 2.0);
    assert (now - b.updated) * l.refill >= q * l.refill;
  }

  lemma SameLevel(l: Limits, buckets: map<string, Bucket>, entries: map<string, Entry>, m: string, now: real)
    requires l.Valid() && Sound(l, buckets, now) && Mirrors(l, buckets, entries)
    ensures ScriptLevel(l, Fetch(entries, m, now), now) == Level(l, Lookup(buckets, m), now)
  {
    if m in buckets && now >= entries[m].expires {
      ExpiryIsUnobservable(l, buckets[m], now);
    }
  }

  lemma PositiveDelay(l: Limits, tokens: real)
    requires l.Valid() && tokens < 1.0
    ensures Ceil((1.0 - tokens) / l.refill) >= 1
  {
    var q := (1.0 - tokens) / l.refill;
    assert q > 0.0;
    CeilIsLeast(q);
  }

  lemma ScriptAgrees(l: Limits, buckets: map<string, Bucket>, entries: map<string, Entry>, r: Request, now: real)
    requires l.Valid() && Sound(l, buckets, now) && now <= r.at && Mirrors(l, buckets, entries)
    ensures var c := Consume(l, Lookup(buckets, r.merchant), r.at);
            var s := Script(l, Fetch(entries, r.merchant, r.at), r.at);
            c.decision == s.decision
            && s.entry == Entry(c.bucket.tokens, c.bucket.updated, c.bucket.updated + TimeToLive(l) as real)
  {
    LevelBounds(l, Lookup(buckets, r.merchant), r.at);
    SameLevel(l, buckets, entries, r.merchant, r.at);
    var level := Level(l, Lookup(buckets, r.merchant), r.at);
    if level < 1.0 {
      PositiveDelay(l, level);
    }
  }

  /**
   The Redis limiter refines the in-memory one: on every trace, from the empty state or any
   corresponding one, both give the same decisions, remaining counts and delays.
   */
  lemma {:induction false} RedisRefinesMemory(
      l: Limits, buckets: map<string, Bucket>, entries: map<string, Entry>, trace: seq<Request>,
      from: real)
    requires l.Valid() && Sound(l, buckets, from) && Monotone(from, trace) && Mirrors(l, buckets, entries)
    ensures ScriptDecisions(l, entries, trace) == Decisions(l, buckets, trace)
    decreases |trace|
  {
    if trace != [] {
      var r := trace[0];
      ScriptAgrees(l, buckets, entries, r, from);
      ServeKeepsSound(l, buckets, r, from);
      var s := Script(l, Fetch(entries, r.merchant, r.at), r.at);
      RedisRefinesMemory(l, Serve(l, buckets, r), entries[r.merchant := s.entry], trace[1..], r.at);
    }
  }
}
