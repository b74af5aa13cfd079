/**
 The per-provider circuit breaker (`reliability.py`) and the circuit notices the service
 appends to the outbox (`service.py`).  The clock is a parameter of every operation.
 */
module CircuitBreaking {
  import opened Prelude

  datatype CircuitState = Closed | Open | HalfOpen

  datatype Policy = Policy(failureThreshold: int, cooldown: real, probeLimit: int) {
    /** The condition the constructor demands. */
    predicate Valid() {
      failureThreshold >= 1 && cooldown >= 0.0 && probeLimit >= 1
    }
  }

  /** The mutable part of a breaker, as a value. */
  datatype Circuit = Circuit(state: CircuitState, failures: nat, openedAt: real, probes: nat)

  const INITIAL := Circuit(Closed, 0, 0.0, 0)

  datatype Verdict = Verdict(circuit: Circuit, allowed: bool)

  function Allow(p: Policy, c: Circuit, now: real): Verdict {
    if c.state == Closed then
      Verdict(c, true)
    else if c.state == Open && now - c.openedAt < p.cooldown then
      Verdict(c, false)
    else
      var h := if c.state == Open then c.(state := HalfOpen, probes := 0) else c;
      if h.probes >= p.probeLimit then Verdict(h, false) else Verdict(h.(probes := h.probes + 1), true)
  }

  function OnSuccess(c: Circuit): Circuit {
    c.(state := Closed, failures := 0, probes := 0)
  }

  function OnFailure(p: Policy, c: Circuit, now: real): Circuit {
    var f := c.failures + 1;
    if c.state == HalfOpen || f >= p.failureThreshold then
      Circuit(Open, f, now, 0)
    else
      c.(failures := f)
  }

  /** The breaker object; each method moves the view by the function of the same step. */
  class CircuitBreaker {
    const policy: Policy
    var state: CircuitState
    var consecutiveFailures: nat
    var openedAt: real
    var probes: nat

    ghost function View(): Circuit
      reads this
    {
      Circuit(state, consecutiveFailures, openedAt, probes)
    }

    constructor (policy: Policy)
      requires policy.Valid()
      ensures this.policy == policy && View() == INITIAL
    {
      this.policy := policy;
      state, consecutiveFailures, openedAt, probes := Closed, 0, 0.0, 0;
    }

    method AllowRequest(now: real) returns (allowed: bool)
      modifies this
      ensures Verdict(View(), allowed) == Allow(policy, old(View()), now)
    {
      if state == Closed {
        return true;
      }
      if state == Open {
        if now - openedAt < policy.cooldown {
          return false;
        }
        state := HalfOpen;
        probes := 0;
      }
      if probes >= policy.probeLimit {
        return false;
      }
      probes := probes + 1;
      return true;
    }

    method RecordSuccess()
      modifies this
      ensures View() == OnSuccess(old(View()))
    {
      state := Closed;
      consecutiveFailures := 0;
      probes := 0;
    }

    method RecordFailure(now: real)
      modifies this
      ensures View() == OnFailure(policy, old(View()), now)
    {
      consecutiveFailures := consecutiveFailures + 1;
      if state == HalfOpen || consecutiveFailures >= policy.failureThreshold {
        state := Open;
        openedAt := now;
        probes := 0;
      }
    }
  }

  // ---------------------------------------------------------------- traces

  /** What a breaker is told: a permit is asked for, a call succeeded, a call failed. */
  datatype Signal = Permit(at: real) | Succeeded | Failed(at: real)

  function Step(p: Policy, c: Circuit, s: Signal): Circuit {
    match s
    case Permit(now) => Allow(p, c, now).circuit
    case Succeeded => OnSuccess(c)
    case Failed(now) => OnFailure(p, c, now)
  }

  /** The breaker after a whole trace, from its construction. */
  function Run(p: Policy, trace: seq<Signal>): Circuit {
    if trace == [] then INITIAL
    else Step(p, Run(p, trace[..|trace| - 1]), trace[|trace| - 1])
  }

  /** The breaker after a segment, from any state. */
  function RunFrom(p: Policy, c: Circuit, segment: seq<Signal>): Circuit
    decreases |segment|
  {
    if segment == [] then c else RunFrom(p, Step(p, c, segment[0]), segment[1..])
  }

  /** Independent reading of a trace: failures recorded since the last success. */
  function FailuresSinceSuccess(trace: seq<Signal>): nat {
    if trace == [] then 0
    else
      var rest := FailuresSinceSuccess(trace[..|trace| - 1]);
      match trace[|trace| - 1]
      case Permit(_) => rest
      case Succeeded => 0
      case Failed(_) => rest + 1
  }

  /** The counter and the CLOSED state are functions of the failures since the last success. */
  lemma {:induction false} StateReflectsTrace(p: Policy, trace: seq<Signal>)
    requires p.Valid()
    ensures Run(p, trace).failures == FailuresSinceSuccess(trace)
    ensures Run(p, trace).state == Closed <==> FailuresSinceSuccess(trace) < p.failureThreshold
    ensures Run(p, trace).state == HalfOpen ==> 1 <= Run(p, trace).probes <= p.probeLimit
    ensures Run(p, trace).state != HalfOpen ==> Run(p, trace).probes == 0
  {
    if trace != [] {
      StateReflectsTrace(p, trace[..|trace| - 1]);
    }
  }

  ghost predicate PermitsOnly(segment: seq<Signal>) {
    forall i :: 0 <= i < |segment| ==> segment[i].Permit?
  }

  /** How many permits of a segment are granted. */
  function Grants(p: Policy, c: Circuit, segment: seq<Signal>): nat
    decreases |segment|
  {
    if segment == [] then 0
    else
      (if segment[0].Permit? && Allow(p, c, segment[0].at).allowed then 1 else 0)
      + Grants(p, Step(p, c, segment[0]), segment[1..])
  }

  lemma {:induction false} HalfOpenGrants(p: Policy, c: Circuit, segment: seq<Signal>)
    requires p.Valid() && PermitsOnly(segment)
    requires c.state == HalfOpen && c.probes <= p.probeLimit
    ensures Grants(p, c, segment) == Min(|segment|, p.probeLimit - c.probes)
    decreases |segment|
  {
    if segment != [] {
      HalfOpenGrants(p, Step(p, c, segment[0]), segment[1..]);
    }
  }

  /**
   While no outcome is recorded, a breaker that is not CLOSED grants at most `probeLimit`
   permits in all, however many are asked for and whenever.
   */
  lemma {:induction false} ProbesBounded(p: Policy, before: seq<Signal>, segment: seq<Signal>)
    requires p.Valid() && PermitsOnly(segment)
    requires FailuresSinceSuccess(before) >= p.failureThreshold
    ensures Grants(p, Run(p, before), segment) <= p.probeLimit
  {
    StateReflectsTrace(p, before);
    OpenGrants(p, Run(p, before), segment);
  }

  lemma {:induction false} OpenGrants(p: Policy, c: Circuit, segment: seq<Signal>)
    requires p.Valid() && PermitsOnly(segment)
    requires c.state != Closed && c.probes <= p.probeLimit
    ensures Grants(p, c, segment) <= p.probeLimit
    decreases |segment|
  {
    if c.state == HalfOpen {
      HalfOpenGrants(p, c, segment);
    } else if segment != [] {
      var next := Step(p, c, segment[0]);
      if next.state == Open {
        OpenGrants(p, next, segment[1..]);
      } else {
        HalfOpenGrants(p, next, segment[1..]);
      }
    }
  }

  // ---------------------------------------------------------------- cooldown

  /** No success is recorded and the clock never runs backwards, starting at `from`. */
  ghost predicate LaterFailuresOnly(from: real, segment: seq<Signal>) {
    && (forall i :: 0 <= i < |segment| ==> !segment[i].Succeeded? && from <= segment[i].at)
    && (forall i, j :: 0 <= i < j < |segment| ==> segment[i].at <= segment[j].at)
  }

  predicate GrantedAt(p: Policy, c: Circuit, segment: seq<Signal>, i: nat)
    requires i < |segment|
  {
    segment[i].Permit? && Allow(p, RunFrom(p, c, segment[..i]), segment[i].at).allowed
  }

  /**
   After a failure at `t` that leaves the circuit OPEN, no permit is granted before
   `t + cooldown` until a success is recorded, whatever late failures arrive in between.
   */
  lemma CooldownRespected(p: Policy, before: seq<Signal>, t: real, segment: seq<Signal>, i: nat)
    requires p.Valid() && LaterFailuresOnly(t, segment) && i < |segment|
    requires Run(p, before + [Failed(t)]).state == Open
    requires GrantedAt(p, Run(p, before + [Failed(t)]), segment, i)
    ensures segment[i].at >= t + p.cooldown
  {
    StateReflectsTrace(p, before + [Failed(t)]);
    assert (before + [Failed(t)])[..|before|] == before;
    CooldownFrom(p, Run(p, before + [Failed(t)]), t, t, segment, i);
  }

  lemma {:induction false} CooldownFrom(p: Policy, c: Circuit, t: real, now: real, segment: seq<Signal>, i: nat)
    requires p.Valid() && LaterFailuresOnly(now, segment) && i < |segment| && t <= now
    requires c.state != Closed && c.failures >= p.failureThreshold
    requires if c.state == Open then c.openedAt >= t else now >= t + p.cooldown
    requires GrantedAt(p, c, segment, i)
    ensures segment[i].at >= t + p.cooldown
    decreases i
  {
    if i > 0 {
      assert segment[..i][0] == segment[0] && segment[..i][1..] == segment[1..][..i - 1];
      CooldownFrom(p, Step(p, c, segment[0]), t, segment[0].at, segment[1..], i - 1);
    } else {
      assert segment[..0] == [];
    }
  }

  // ---------------------------------------------------------------- outbox notices

  datatype Notice = CircuitOpened | CircuitClosed

  /** What `_record_circuit_transition` appends for a move between two states. */
  function Emitted(previous: CircuitState, current: CircuitState): seq<Notice> {
    if previous == current then []
    else match current
         case Open => [CircuitOpened]
         case Closed => [CircuitClosed]
         case HalfOpen => []
  }

  /** The notices a whole trace leaves in the outbox. */
  function Notices(p: Policy, trace: seq<Signal>): seq<Notice> {
    if trace == [] then []
    else
      var init := trace[..|trace| - 1];
      Notices(p, init) + Emitted(Run(p, init).state, Run(p, trace).state)
  }

  /** A reader's reconstruction of the breaker from its notices alone. */
  predicate ReadsClosed(notices: seq<Notice>) {
    notices == [] || notices[|notices| - 1] == CircuitClosed
  }

  /**
   After every trace the last notice tells whether the breaker is CLOSED, and every
   closed notice directly follows an opened one.
   */
  lemma {:induction false} NoticesReconstruct(p: Policy, trace: seq<Signal>)
    requires p.Valid()
    ensures ReadsClosed(Notices(p, trace)) <==> Run(p, trace).state == Closed
    ensures forall i :: 0 <= i < |Notices(p, trace)| && Notices(p, trace)[i] == CircuitClosed
              ==> i > 0 && Notices(p, trace)[i - 1] == CircuitOpened
  {
    if trace != [] {
      NoticesReconstruct(p, trace[..|trace| - 1]);
    }
  }

  // ---------------------------------------------------------------- the trace read without the breaker

  /** When the last failure was recorded. */
  function LastFailureAt(trace: seq<Signal>): real {
    if trace == [] then 0.0
    else match trace[|trace| - 1]
         case Failed(now) => now
         case _ => LastFailureAt(trace[..|trace| - 1])
  }

  /** Permits granted since the last recorded outcome to a provider with too many failures. */
  function ProbesTaken(p: Policy, trace: seq<Signal>): nat
    requires p.Valid()
  {
    if trace == [] then 0
    else
      var init := trace[..|trace| - 1];
      match trace[|trace| - 1]
      case Succeeded => 0
      case Failed(_) => 0
      case Permit(now) =>
        if FailuresSinceSuccess(init) < p.failureThreshold then 0
        else if ProbesTaken(p, init) > 0 then Min(ProbesTaken(p, init) + 1, p.probeLimit)
        else if now - LastFailureAt(init) >= p.cooldown then 1
        else 0
  }

  /** The whole state of the breaker, read off the trace. */
  lemma {:induction false} StateFromTrace(p: Policy, trace: seq<Signal>)
    requires p.Valid()
    ensures var c := Run(p, trace);
            && c.failures == FailuresSinceSuccess(trace) && c.probes == ProbesTaken(p, trace) <= p.probeLimit
            && c.state == (if c.failures < p.failureThreshold then Closed
                           else if ProbesTaken(p, trace) > 0 then HalfOpen else Open)
            && (c.state == Open ==> c.openedAt == LastFailureAt(trace))
  {
    if trace != [] {
      StateFromTrace(p, trace[..|trace| - 1]);
      StateReflectsTrace(p, trace[..|trace| - 1]);
    }
  }

  /**
   Exactly when a permit is granted: below the threshold always; otherwise the first probe from one
   cooldown after the last failure on, and then further ones up to the limit until an outcome
   is recorded.
   */
  lemma PermitExact(p: Policy, trace: seq<Signal>, now: real)
    requires p.Valid()
    ensures Allow(p, Run(p, trace), now).allowed
       <==> || FailuresSinceSuccess(trace) < p.failureThreshold
            || (ProbesTaken(p, trace) == 0 && now >= LastFailureAt(trace) + p.cooldown)
            || 0 < ProbesTaken(p, trace) < p.probeLimit
  {
    StateFromTrace(p, trace);
  }

  /**
   Exactly which notice a signal leaves: a success is announced iff it ends an outage; a failure
   iff it reaches the threshold or fails a probe, and a late one while OPEN is not.
   */
  lemma NoticeExact(p: Policy, trace: seq<Signal>, s: Signal)
    requires p.Valid()
    ensures var failures, probes := FailuresSinceSuccess(trace), ProbesTaken(p, trace);
            Notices(p, trace + [s]) == Notices(p, trace) +
              match s
              case Permit(_) => []
              case Succeeded => if failures >= p.failureThreshold then [CircuitClosed] else []
              case Failed(_) =>
                if failures + 1 == p.failureThreshold || probes > 0 then [CircuitOpened] else []
  {
    assert (trace + [s])[..|trace|] == trace;
    StateFromTrace(p, trace);
  }
}
