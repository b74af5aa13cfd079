/**
 The failover machine together with the circuit breakers it consults, in a run that no other
 task disturbs.  The question is the one the reliability ADR answers with "never": when does a
 candidate that was called, and timed out, hand the payment to another provider?
 */
module Orchestration {
  import opened Prelude
  import opened Failover
  import CB = CircuitBreaking

  datatype Reply = Paid | Raised(code: Code) | Blew

  /** One run of `operation`: when the permit is asked, what the provider answers and when. */
  datatype Tick = Tick(askedAt: real, reply: Reply, repliedAt: real)

  datatype Service = Service(phase: Phase, circuits: map<string, CB.Circuit>)

  ghost predicate Ready(max: nat, ordered: seq<string>, s: Service) {
    InRange(max, ordered, s.phase) && forall p :: p in ordered ==> p in s.circuits
  }

  /** `operation`: ask the breaker, call the provider, tell the breaker, take the retry decision. */
  function Operate(policy: CB.Policy, max: nat, ordered: seq<string>, s: Service, tick: Tick): (r: Service)
    requires Ready(max, ordered, s) && s.phase.Running?
    ensures Ready(max, ordered, r)
  {
    var name := ordered[s.phase.loop.index];
    var v := CB.Allow(policy, s.circuits[name], tick.askedAt);
    if !v.allowed then
      Service(Step(max, ordered, s.phase.loop, Refused), s.circuits[name := v.circuit])
    else match tick.reply
      case Paid =>
        Service(Step(max, ordered, s.phase.loop, Charged), s.circuits[name := CB.OnSuccess(v.circuit)])
      case Raised(code) =>
        Service(Step(max, ordered, s.phase.loop, Error(code)),
                s.circuits[name := CB.OnFailure(policy, v.circuit, tick.repliedAt)])
      case Blew =>
        Service(Step(max, ordered, s.phase.loop, Crash), s.circuits[name := v.circuit])
  }

  /** The service after `k` runs of `operation` (or fewer, if the loops are over). */
  function After(policy: CB.Policy, max: nat, ordered: seq<string>, s: Service, world: nat -> Tick, k: nat)
    : (r: Service)
    requires Ready(max, ordered, s)
    ensures Ready(max, ordered, r)
  {
    if k == 0 then s
    else
      var before := After(policy, max, ordered, s, world, k - 1);
      if before.phase.Running? then Operate(policy, max, ordered, before, world(k - 1)) else before
  }

  lemma {:induction false} OverStaysOver(
      policy: CB.Policy, max: nat, ordered: seq<string>, s: Service, world: nat -> Tick, m: nat, k: nat)
    requires Ready(max, ordered, s) && m <= k && !After(policy, max, ordered, s, world, m).phase.Running?
    ensures After(policy, max, ordered, s, world, k) == After(policy, max, ordered, s, world, m)
    decreases k
  {
    if m < k {
      OverStaysOver(policy, max, ordered, s, world, m, k - 1);
    }
  }

  // ---------------------------------------------------------------- one candidate, any replies

  /**
   The candidate at hand has not been called yet: the first one, or one reached by failover.
   Its circuit, and what other payments have done to it, is arbitrary.
   */
  ghost predicate Arriving(policy: CB.Policy, max: nat, ordered: seq<string>, s: Service) {
    && policy.Valid() && Ready(max, ordered, s)
    && s.phase.Running? && s.phase.loop.attempt == 0 && s.phase.loop.block == []
  }

  function Candidate(max: nat, ordered: seq<string>, s: Service): string
    requires s.phase.Running? && InRange(max, ordered, s.phase)
  {
    ordered[s.phase.loop.index]
  }

  /** Call `i` is asked for at least a cooldown after the failure before it. */
  predicate Cooled(policy: CB.Policy, world: nat -> Tick, i: nat)
    requires i >= 1
  {
    world(i).askedAt - world(i - 1).repliedAt >= policy.cooldown
  }

  /**
   Whether the breaker, found in state `c`, lets call `i` through when the calls before it all
   failed: the first by its state, a retry while CLOSED below the threshold, or once cooled.
   */
  predicate Permitted(policy: CB.Policy, c: CB.Circuit, world: nat -> Tick, i: nat) {
    if i == 0 then CB.Allow(policy, c, world(0).askedAt).allowed
    else (c.state == CB.Closed && c.failures + i < policy.failureThreshold) || Cooled(policy, world, i)
  }

  predicate Transient(reply: Reply) {
    reply.Raised? && Retryable(reply.code)
  }

  /** Call `i` goes out and its error may be retried. */
  predicate Goes(policy: CB.Policy, c: CB.Circuit, world: nat -> Tick, i: nat) {
    Permitted(policy, c, world, i) && Transient(world(i).reply)
  }

  ghost predicate AllGo(policy: CB.Policy, c: CB.Circuit, world: nat -> Tick, k: nat) {
    forall i: nat :: i < k ==> Goes(policy, c, world, i)
  }

  /** The number of the call, counted from zero, that ends the candidate's retry run. */
  function Stop(policy: CB.Policy, c: CB.Circuit, max: nat, world: nat -> Tick, from: nat): (j: nat)
    requires from < max && AllGo(policy, c, world, from)
    ensures j < max && AllGo(policy, c, world, j)
    ensures j < max - 1 ==> !Goes(policy, c, world, j)
    decreases max - from
  {
    if from == max - 1 || !Goes(policy, c, world, from) then from else Stop(policy, c, max, world, from + 1)
  }

  lemma {:induction false} StopIs(policy: CB.Policy, c: CB.Circuit, max: nat, world: nat -> Tick, from: nat, j: nat)
    requires from <= j < max && AllGo(policy, c, world, j) && (j == max - 1 || !Goes(policy, c, world, j))
    ensures Stop(policy, c, max, world, from) == j
    decreases j - from
  {
    if from < j {
      StopIs(policy, c, max, world, from + 1, j);
    }
  }

  function CodeOf(reply: Reply): Option<Code> {
    if reply.Raised? then Some(reply.code) else None
  }

  /** The entries of the first `k` calls, all retried. */
  function Entries(name: string, world: nat -> Tick, k: nat): (entries: seq<Attempt>)
    ensures |entries| == k
  {
    if k == 0 then []
    else Entries(name, world, k - 1) + [Attempt(name, k, Retry, CodeOf(world(k - 1).reply))]
  }

  /** The circuit after `k` calls that went out and failed. */
  ghost predicate Tripping(policy: CB.Policy, c0: CB.Circuit, c: CB.Circuit, k: nat, world: nat -> Tick) {
    if k == 0 then c == c0
    else
      && c.failures == c0.failures + k
      && if c0.state == CB.Closed && c.failures < policy.failureThreshold then c.state == CB.Closed
         else c.state == CB.Open && c.openedAt == world(k - 1).repliedAt
  }

  lemma AllowsWhenPermitted(policy: CB.Policy, c0: CB.Circuit, c: CB.Circuit, k: nat, world: nat -> Tick)
    requires policy.Valid() && Tripping(policy, c0, c, k, world)
    ensures CB.Allow(policy, c, world(k).askedAt).allowed <==> Permitted(policy, c0, world, k)
  {
  }

  lemma FailureTrips(policy: CB.Policy, c0: CB.Circuit, c: CB.Circuit, k: nat, world: nat -> Tick)
    requires policy.Valid() && Tripping(policy, c0, c, k, world) && Permitted(policy, c0, world, k)
    ensures var v := CB.Allow(policy, c, world(k).askedAt);
            Tripping(policy, c0, CB.OnFailure(policy, v.circuit, world(k).repliedAt), k + 1, world)
  {
  }

  /** The candidate `s` stands at after `k` retried calls. */
  ghost predicate Waiting(
      policy: CB.Policy, max: nat, ordered: seq<string>, s: Service, world: nat -> Tick, r: Service, k: nat)
    requires Arriving(policy, max, ordered, s) && Ready(max, ordered, r)
  {
    var name := Candidate(max, ordered, s);
    && r.phase == Running(s.phase.loop.(attempt := k, block := Entries(name, world, k)))
    && Tripping(policy, s.circuits[name], r.circuits[name], k, world)
  }

  lemma OneMore(policy: CB.Policy, max: nat, ordered: seq<string>, s: Service, world: nat -> Tick, r: Service, k: nat)
    requires Arriving(policy, max, ordered, s) && Ready(max, ordered, r) && k + 1 < max
    requires Waiting(policy, max, ordered, s, world, r, k)
    requires Goes(policy, s.circuits[Candidate(max, ordered, s)], world, k)
    ensures Waiting(policy, max, ordered, s, world, Operate(policy, max, ordered, r, world(k)), k + 1)
  {
    var name := Candidate(max, ordered, s);
    AllowsWhenPermitted(policy, s.circuits[name], r.circuits[name], k, world);
    FailureTrips(policy, s.circuits[name], r.circuits[name], k, world);
  }

  lemma {:induction false} StillRetrying(
      policy: CB.Policy, max: nat, ordered: seq<string>, s: Service, world: nat -> Tick, k: nat)
    requires Arriving(policy, max, ordered, s) && k < max
    requires AllGo(policy, s.circuits[Candidate(max, ordered, s)], world, k)
    ensures Waiting(policy, max, ordered, s, world, After(policy, max, ordered, s, world, k), k)
  {
    if k > 0 {
      StillRetrying(policy, max, ordered, s, world, k - 1);
      OneMore(policy, max, ordered, s, world, After(policy, max, ordered, s, world, k - 1), k - 1);
    }
  }

  /** What the call that ends the retry run makes of the payment. */
  function Finale(policy: CB.Policy, max: nat, ordered: seq<string>, s: Service, world: nat -> Tick, j: nat): Phase
    requires Ready(max, ordered, s) && s.phase.Running?
  {
    var name, recorded, index := Candidate(max, ordered, s), s.phase.loop.recorded, s.phase.loop.index;
    var entries := Entries(name, world, j);
    if !Permitted(policy, s.circuits[name], world, j) then
      Abandon(ordered, recorded + MarkFailed(entries), index, CircuitOpen)
    else match world(j).reply
      case Paid => Won(recorded + entries + [Attempt(name, j + 1, Succeeded, None)], name)
      case Blew => Crashed
      case Raised(code) =>
        Abandon(ordered, recorded + MarkFailed(entries + [Entry(name, entries, code)]), index, code)
  }

  /** The candidate's whole retry run, for any circuit and any replies. */
  lemma CandidateRun(policy: CB.Policy, max: nat, ordered: seq<string>, s: Service, world: nat -> Tick)
    requires Arriving(policy, max, ordered, s)
    ensures var j := Stop(policy, s.circuits[Candidate(max, ordered, s)], max, world, 0);
            After(policy, max, ordered, s, world, j + 1).phase == Finale(policy, max, ordered, s, world, j)
  {
    var name := Candidate(max, ordered, s);
    var j := Stop(policy, s.circuits[name], max, world, 0);
    StillRetrying(policy, max, ordered, s, world, j);
    var before := After(policy, max, ordered, s, world, j);
    AllowsWhenPermitted(policy, s.circuits[name], before.circuits[name], j, world);
  }

  /** At some moment the loops are at a later candidate than the one `s` stands at. */
  ghost predicate HandedOver(policy: CB.Policy, max: nat, ordered: seq<string>, s: Service, world: nat -> Tick)
    requires Ready(max, ordered, s) && s.phase.Running?
  {
    exists k: nat ::
      var phase := After(policy, max, ordered, s, world, k).phase;
      phase.Running? && phase.loop.index > s.phase.loop.index
  }

  /** The retry run ends in a refused permit or in a failover-safe error. */
  predicate EndsSafely(policy: CB.Policy, c: CB.Circuit, max: nat, world: nat -> Tick)
    requires max >= 1
  {
    var j := Stop(policy, c, max, world, 0);
    !Permitted(policy, c, world, j) || (world(j).reply.Raised? && FailoverSafe(world(j).reply.code))
  }

  /**
   The exact condition, for every candidate, every state of its circuit and all replies, timeouts
   among them or not: another provider gets the payment if and only if there is one and the
   call that ended the retry run was refused a permit or failed with a failover-safe code.
   */
  lemma HandoverVerdict(policy: CB.Policy, max: nat, ordered: seq<string>, s: Service, world: nat -> Tick)
    requires Arriving(policy, max, ordered, s)
    ensures HandedOver(policy, max, ordered, s, world)
       <==> && s.phase.loop.index + 1 < |ordered|
            && EndsSafely(policy, s.circuits[Candidate(max, ordered, s)], max, world)
  {
    var j := Stop(policy, s.circuits[Candidate(max, ordered, s)], max, world, 0);
    CandidateRun(policy, max, ordered, s, world);
    var end := After(policy, max, ordered, s, world, j + 1);
    if !(end.phase.Running? && end.phase.loop.index > s.phase.loop.index) {
      forall k: nat
        ensures var phase := After(policy, max, ordered, s, world, k).phase;
                !(phase.Running? && phase.loop.index > s.phase.loop.index)
      {
        if k <= j {
          StillRetrying(policy, max, ordered, s, world, k);
        } else {
          OverStaysOver(policy, max, ordered, s, world, j + 1, k);
        }
      }
    }
  }

  // ---------------------------------------------------------------- code by code

  /** A timeout, an unavailable provider, a 502 or a 503. */
  predicate IsTransientCode(reply: Reply) {
    || reply == Raised(Timeout) || reply == Raised(Unavailable)
    || reply == Raised(Http502) || reply == Raised(Http503)
  }

  /** The first `j` calls were let through and failed with one of those four codes; call `j` is let through. */
  ghost predicate Reaches(policy: CB.Policy, max: nat, ordered: seq<string>, s: Service, world: nat -> Tick, j: nat)
    requires Ready(max, ordered, s) && s.phase.Running?
  {
    && j < max
    && (forall i: nat :: i <= j ==> Permitted(policy, s.circuits[Candidate(max, ordered, s)], world, i))
    && (forall i: nat :: i < j ==> IsTransientCode(world(i).reply))
  }

  /** Such a call is made: the loops still stand at the candidate. */
  lemma StillAt(policy: CB.Policy, max: nat, ordered: seq<string>, s: Service, world: nat -> Tick, j: nat)
    requires Arriving(policy, max, ordered, s) && Reaches(policy, max, ordered, s, world, j)
    ensures Waiting(policy, max, ordered, s, world, After(policy, max, ordered, s, world, j), j)
  {
    var c := s.circuits[Candidate(max, ordered, s)];
    forall i: nat | i < j ensures Goes(policy, c, world, i) {
      assert Permitted(policy, c, world, i) && IsTransientCode(world(i).reply);
    }
    StillRetrying(policy, max, ordered, s, world, j);
  }

  /**
   What a reply to call `j` leads to, code by code.  A transient code is retried until the `max`th
   call; after that an unavailable provider, a 502 or a 503 hands the payment to the next candidate
   and a timeout loses it.  Any other code loses it at once, after `j + 1` calls.
   */
  lemma CodeDecides(policy: CB.Policy, max: nat, ordered: seq<string>, s: Service, world: nat -> Tick, j: nat)
    requires Arriving(policy, max, ordered, s) && Reaches(policy, max, ordered, s, world, j)
    ensures var phase := After(policy, max, ordered, s, world, j + 1).phase;
            var l, reply, more := s.phase.loop, world(j).reply, s.phase.loop.index + 1 < |ordered|;
            && (IsTransientCode(reply) && j + 1 < max ==>
                  phase.Running? && phase.loop.index == l.index && phase.loop.attempt == j + 1)
            && (reply in {Raised(Unavailable), Raised(Http502), Raised(Http503)} && j + 1 == max ==>
                  if more then phase.Running? && phase.loop.index == l.index + 1 && phase.loop.attempt == 0
                               && |phase.loop.recorded| == |l.recorded| + max
                  else phase.Lost? && Raised(phase.error) == reply && |phase.attempts| == |l.recorded| + max)
            && (reply == Raised(Timeout) && j + 1 == max ==>
                  phase.Lost? && phase.error == Timeout && |phase.attempts| == |l.recorded| + max)
            && (reply.Raised? && reply.code.Other? ==>
                  phase.Lost? && phase.error == reply.code && |phase.attempts| == |l.recorded| + j + 1)
            && (reply == Raised(CircuitOpen) && more ==> phase.Running? && phase.loop.index == l.index + 1)
            && (reply == Paid ==> phase.Won? && phase.provider == ordered[l.index]
                                  && |phase.attempts| == |l.recorded| + j + 1)
  {
    var name := Candidate(max, ordered, s);
    StillAt(policy, max, ordered, s, world, j);
    var before := After(policy, max, ordered, s, world, j);
    AllowsWhenPermitted(policy, s.circuits[name], before.circuits[name], j, world);
  }

  /** So, for a whole run: which code of the deciding call reaches another provider, and which does not. */
  lemma CodesHandOver(policy: CB.Policy, max: nat, ordered: seq<string>, s: Service, world: nat -> Tick, j: nat)
    requires Arriving(policy, max, ordered, s) && Reaches(policy, max, ordered, s, world, j)
    requires IsTransientCode(world(j).reply) ==> j + 1 == max
    ensures HandedOver(policy, max, ordered, s, world)
       <==> && s.phase.loop.index + 1 < |ordered|
            && world(j).reply in {Raised(Unavailable), Raised(Http502), Raised(Http503), Raised(CircuitOpen)}
  {
    var c := s.circuits[Candidate(max, ordered, s)];
    forall i: nat | i < j ensures Goes(policy, c, world, i) {
      assert Permitted(policy, c, world, i) && IsTransientCode(world(i).reply);
    }
    StopIs(policy, c, max, world, 0, j);
    HandoverVerdict(policy, max, ordered, s, world);
    assert Permitted(policy, c, world, j);
  }

  // ---------------------------------------------------------------- a candidate that never recovers

  /** Every reply is a timeout or another transient error. */
  ghost predicate OnlyTransient(policy: CB.Policy, max: nat, ordered: seq<string>, s: Service, world: nat -> Tick) {
    Arriving(policy, max, ordered, s) && forall i: nat :: i < max ==> Transient(world(i).reply)
  }

  /** If every call was let through, all attempts are made and the last code decides. */
  lemma TimeoutIsFinal(policy: CB.Policy, max: nat, ordered: seq<string>, s: Service, world: nat -> Tick)
    requires OnlyTransient(policy, max, ordered, s, world)
    requires forall i: nat :: i < max ==> Permitted(policy, s.circuits[Candidate(max, ordered, s)], world, i)
    ensures After(policy, max, ordered, s, world, max).phase
         == Abandon(ordered, s.phase.loop.recorded + MarkFailed(Entries(Candidate(max, ordered, s), world, max)),
                    s.phase.loop.index, world(max - 1).reply.code)
  {
    CandidateRun(policy, max, ordered, s, world);
    StopIs(policy, s.circuits[Candidate(max, ordered, s)], max, world, 0, max - 1);
  }

  /** The first call the breaker does not let through moves the payment on after `j` calls. */
  lemma RefusalMovesOn(policy: CB.Policy, max: nat, ordered: seq<string>, s: Service, world: nat -> Tick, j: nat)
    requires OnlyTransient(policy, max, ordered, s, world) && j < max
    requires !Permitted(policy, s.circuits[Candidate(max, ordered, s)], world, j)
    requires forall i: nat :: i < j ==> Permitted(policy, s.circuits[Candidate(max, ordered, s)], world, i)
    ensures After(policy, max, ordered, s, world, j + 1).phase
         == Abandon(ordered, s.phase.loop.recorded + MarkFailed(Entries(Candidate(max, ordered, s), world, j)),
                    s.phase.loop.index, CircuitOpen)
  {
    CandidateRun(policy, max, ordered, s, world);
    StopIs(policy, s.circuits[Candidate(max, ordered, s)], max, world, 0, j);
  }

  /**
   A candidate whose calls all fail transiently hands the payment to the next one if and only if
   the breaker refused one of them or the last one failed with a failover-safe code.  If it only
   ever timed out the second case is out: a refused permit is then the one way on.
   */
  lemma TimeoutVerdict(policy: CB.Policy, max: nat, ordered: seq<string>, s: Service, world: nat -> Tick)
    requires OnlyTransient(policy, max, ordered, s, world)
    ensures HandedOver(policy, max, ordered, s, world)
       <==> && s.phase.loop.index + 1 < |ordered|
            && (|| (exists i: nat :: i < max && !Permitted(policy, s.circuits[Candidate(max, ordered, s)], world, i))
                || FailoverSafe(world(max - 1).reply.code))
  {
    HandoverVerdict(policy, max, ordered, s, world);
    var c := s.circuits[Candidate(max, ordered, s)];
    var j := Stop(policy, c, max, world, 0);
    if exists i: nat :: i < max && !Permitted(policy, c, world, i) {
      var i: nat :| i < max && !Permitted(policy, c, world, i);
      assert i < j ==> Goes(policy, c, world, i);
      assert !Permitted(policy, c, world, j);
    } else {
      assert Goes(policy, c, world, j);
      assert j == max - 1;
    }
  }

  /**
   The same read off the configuration, for a circuit found CLOSED below its threshold: with room
   for all attempts the last code is final; without it, and with a backoff shorter than the
   cooldown, the payment moves on after exactly `threshold - failures` calls.
   */
  lemma TimeoutBudget(policy: CB.Policy, max: nat, ordered: seq<string>, s: Service, world: nat -> Tick)
    requires OnlyTransient(policy, max, ordered, s, world)
    ensures var c := s.circuits[Candidate(max, ordered, s)];
            c.state == CB.Closed && c.failures + max <= policy.failureThreshold ==>
              After(policy, max, ordered, s, world, max).phase
              == Abandon(ordered, s.phase.loop.recorded + MarkFailed(Entries(Candidate(max, ordered, s), world, max)),
                         s.phase.loop.index, world(max - 1).reply.code)
    ensures var c := s.circuits[Candidate(max, ordered, s)];
            var n := policy.failureThreshold - c.failures;
            c.state == CB.Closed && 0 < n < max && !Cooled(policy, world, n) ==>
              After(policy, max, ordered, s, world, n + 1).phase
              == Abandon(ordered, s.phase.loop.recorded + MarkFailed(Entries(Candidate(max, ordered, s), world, n)),
                         s.phase.loop.index, CircuitOpen)
  {
    var c := s.circuits[Candidate(max, ordered, s)];
    var n := policy.failureThreshold - c.failures;
    if c.state == CB.Closed && max <= n {
      TimeoutIsFinal(policy, max, ordered, s, world);
    } else if c.state == CB.Closed && 0 < n && !Cooled(policy, world, n) {
      RefusalMovesOn(policy, max, ordered, s, world, n);
    }
  }

  // ---------------------------------------------------------------- declines

  const DECLINED := Other("PAYMENT_DECLINED")

  /** A payment whose first call is declined at `tick`. */
  function Decline(policy: CB.Policy, max: nat, ordered: seq<string>,
                   circuits: map<string, CB.Circuit>, tick: Tick): Service
    requires max >= 1 && Ready(max, ordered, Service(Running(START), circuits)) && ordered != []
  {
    Operate(policy, max, ordered, Service(Running(START), circuits), tick.(reply := Raised(DECLINED)))
  }

  /** The circuits after `n` such payments, one after the other. */
  function AfterDeclines(policy: CB.Policy, max: nat, ordered: seq<string>,
                         circuits: map<string, CB.Circuit>, world: nat -> Tick, n: nat)
    : (r: map<string, CB.Circuit>)
    requires max >= 1 && ordered != [] && forall p :: p in ordered ==> p in circuits
    ensures forall p :: p in ordered ==> p in r
  {
    if n == 0 then circuits
    else
      var before := AfterDeclines(policy, max, ordered, circuits, world, n - 1);
      Decline(policy, max, ordered, before, world(n - 1)).circuits
  }

  /**
   A declined payment counts against the provider: each decline below the threshold loses its
   own payment only, and the one that reaches the threshold opens the circuit at its time.
   */
  lemma {:induction false} DeclinesOpenCircuit(policy: CB.Policy, max: nat, ordered: seq<string>,
                                               circuits: map<string, CB.Circuit>, world: nat -> Tick, n: nat)
    requires policy.Valid() && max >= 1 && ordered != [] && forall p :: p in ordered ==> p in circuits
    requires circuits[ordered[0]].state == CB.Closed
    requires 1 <= n && circuits[ordered[0]].failures + n <= policy.failureThreshold
    ensures var c := AfterDeclines(policy, max, ordered, circuits, world, n)[ordered[0]];
            && c.failures == circuits[ordered[0]].failures + n
            && (c.failures < policy.failureThreshold ==> c.state == CB.Closed)
            && (c.failures == policy.failureThreshold ==> c.state == CB.Open && c.openedAt == world(n - 1).repliedAt)
    ensures var before := AfterDeclines(policy, max, ordered, circuits, world, n - 1);
            Decline(policy, max, ordered, before, world(n - 1)).phase
            == Lost([Attempt(ordered[0], 1, Failed, Some(DECLINED))], DECLINED)
  {
    if n > 1 {
      DeclinesOpenCircuit(policy, max, ordered, circuits, world, n - 1);
    }
    var entry := Entry(ordered[0], [], DECLINED);
    assert [] + MarkFailed([] + [entry]) == [entry];
  }

  // ---------------------------------------------------------------- every call is recorded

  /** The attempts recorded so far, the current retry run included. */
  function Recorded(phase: Phase): seq<Attempt>
    requires !phase.Crashed?
  {
    match phase
    case Running(l) => l.recorded + l.block
    case Won(attempts, _) => attempts
    case Lost(attempts, _) => attempts
  }

  function CallsTo(attempts: seq<Attempt>, p: string): nat {
    if attempts == [] then 0
    else CallsTo(attempts[..|attempts| - 1], p) + if attempts[|attempts| - 1].provider == p then 1 else 0
  }

  lemma {:induction false} CallsAdd(first: seq<Attempt>, second: seq<Attempt>, p: string)
    ensures CallsTo(first + second, p) == CallsTo(first, p) + CallsTo(second, p)
  {
    if second == [] {
      assert first + second == first;
    } else {
      var n := |second| - 1;
      CallsAdd(first, second[..n], p);
      assert (first + second)[..|first| + n] == first + second[..n];
    }
  }

  lemma CallsMarked(block: seq<Attempt>, p: string)
    ensures CallsTo(MarkFailed(block), p) == CallsTo(block, p)
  {
    if block != [] {
      var n := |block| - 1;
      assert MarkFailed(block)[..n] == block[..n];
    }
  }

  lemma CallsOne(a: Attempt, p: string)
    ensures CallsTo([a], p) == if a.provider == p then 1 else 0
  {
    assert [a][..0] == [];
  }

  /** One run of `operation` records one call if a call was made and none if the permit was refused. */
  lemma StepRecords(max: nat, ordered: seq<string>, l: Loop, o: Outcome, p: string)
    requires InRange(max, ordered, Running(l)) && !o.Crash?
    ensures var next := Step(max, ordered, l, o);
            !next.Crashed? &&
            CallsTo(Recorded(next), p)
            == CallsTo(l.recorded, p) + CallsTo(l.block, p) + if o != Refused && ordered[l.index] == p then 1 else 0
  {
    match o
    case Charged =>
      var a := Attempt(ordered[l.index], |l.block| + 1, Succeeded, None);
      CallsAdd(l.recorded + l.block, [a], p);
      CallsAdd(l.recorded, l.block, p);
      CallsOne(a, p);
    case Error(c) =>
      var a := Entry(ordered[l.index], l.block, c);
      var block := l.block + [a];
      CallsAdd(l.block, [a], p);
      CallsOne(a, p);
      CallsMarked(block, p);
      CallsAdd(l.recorded, MarkFailed(block), p);
      CallsAdd(l.recorded, block, p);
      assert l.recorded + MarkFailed(block) + [] == l.recorded + MarkFailed(block);
    case Refused =>
      CallsMarked(l.block, p);
      CallsAdd(l.recorded, MarkFailed(l.block), p);
      assert l.recorded + MarkFailed(l.block) + [] == l.recorded + MarkFailed(l.block);
  }

  /**
   Every call that was made is in the payment's history: at every moment of a run, and for every
   provider, the breaker has counted exactly as many further failures as the history has entries
   for that provider; only the success that ends the run resets the counter.
   */
  lemma {:induction false} CallsAreRecorded(
      policy: CB.Policy, max: nat, ordered: seq<string>, s: Service, world: nat -> Tick, k: nat,
      p: string)
    requires Ready(max, ordered, s) && s.phase == Running(START) && p in s.circuits
    requires !After(policy, max, ordered, s, world, k).phase.Crashed?
    ensures var r := After(policy, max, ordered, s, world, k);
            p in r.circuits && r.circuits[p].failures
            == if r.phase.Won? && r.phase.provider == p then 0
               else s.circuits[p].failures + CallsTo(Recorded(r.phase), p)
  {
    if k > 0 {
      var before := After(policy, max, ordered, s, world, k - 1);
      CallsAreRecorded(policy, max, ordered, s, world, k - 1, p);
      if before.phase.Running? {
        OperateRecords(policy, max, ordered, before, world(k - 1), p);
        CallsAdd(before.phase.loop.recorded, before.phase.loop.block, p);
      }
    }
  }

  lemma OperateRecords(policy: CB.Policy, max: nat, ordered: seq<string>, s: Service, tick: Tick, p: string)
    requires Ready(max, ordered, s) && s.phase.Running? && p in s.circuits
    requires !Operate(policy, max, ordered, s, tick).phase.Crashed?
    ensures var r, l := Operate(policy, max, ordered, s, tick), s.phase.loop;
            p in r.circuits && r.circuits[p].failures
            == if r.phase.Won? && r.phase.provider == p then 0
               else s.circuits[p].failures
                    + CallsTo(Recorded(r.phase), p) - CallsTo(l.recorded, p) - CallsTo(l.block, p)
  {
    var name := ordered[s.phase.loop.index];
    var v := CB.Allow(policy, s.circuits[name], tick.askedAt);
    assert v.circuit.failures == s.circuits[name].failures;
    if !v.allowed {
      StepRecords(max, ordered, s.phase.loop, Refused, p);
    } else {
      match tick.reply
      case Paid => StepRecords(max, ordered, s.phase.loop, Charged, p);
      case Raised(code) => StepRecords(max, ordered, s.phase.loop, Error(code), p);
      case Blew =>
    }
  }

  /** An unexpected exception of a provider is neither a success nor a failure to any breaker. */
  lemma CrashIsNotCounted(policy: CB.Policy, max: nat, ordered: seq<string>, s: Service, tick: Tick, p: string)
    requires Ready(max, ordered, s) && s.phase.Running? && tick.reply == Blew && p in s.circuits
    ensures var r := Operate(policy, max, ordered, s, tick);
            p in r.circuits && r.circuits[p].failures == s.circuits[p].failures
            && (r.phase.Crashed? || !CB.Allow(policy, s.circuits[ordered[s.phase.loop.index]], tick.askedAt).allowed)
  {
  }
}
