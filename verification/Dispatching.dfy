/**
 `OutboxDispatcher.dispatch_once` and `run` (outbox.py) as their nested loops, over the store and
 broker objects.  What happens at each await comes from outside: the events that other tasks
 append while the dispatcher is suspended, and how the await ends.
 */
module Dispatching {
  import opened Prelude
  import opened Outbox
  import opened PaymentStore

  datatype Fortune = Fortune(arrivals: seq<Uuid>, fate: Fate)

  /**
   The fortunes of the attempts at one event lie three apart: publish, mark, backoff.  Attempt `a`
   sends the event if both awaits end well.
   */
  predicate Sends(env: nat -> Fortune, at: nat, a: nat) {
    env(at + 3 * a).fate == Fine && env(at + 3 * a + 1).fate == Fine
  }

  /** It fails with an exception, which is not a cancellation. */
  predicate Errs(env: nat -> Fortune, at: nat, a: nat) {
    var publishing, marking := env(at + 3 * a).fate, env(at + 3 * a + 1).fate;
    publishing in {Fails, Late} || (publishing == Fine && marking in {Fails, Late})
  }

  /** It does, and the backoff after it is not cancelled either. */
  predicate Retries(env: nat -> Fortune, at: nat, a: nat) {
    Errs(env, at, a) && env(at + 3 * a + 2).fate !in {Cancelled, CancelledLate}
  }

  /** One of the `max` attempts ends well, and those before it were retried. */
  ghost predicate GetsThrough(env: nat -> Fortune, at: nat, max: nat) {
    exists a: nat :: a < max && Sends(env, at, a) && forall b: nat :: b < a ==> Retries(env, at, b)
  }

  /** All of the `max` attempts fail, none of them by a cancellation. */
  ghost predicate Exhausts(env: nat -> Fortune, at: nat, max: nat)
    requires max >= 1
  {
    Errs(env, at, max - 1) && forall a: nat :: a < max - 1 ==> Retries(env, at, a)
  }

  /** The snapshot succeeds and, wherever an event's attempts start, it gets through. */
  ghost predicate Resilient(env: nat -> Fortune, max: nat) {
    env(0).fate == Fine && forall at: nat :: GetsThrough(env, at, max)
  }

  class InMemoryBroker {
    var events: seq<Uuid>

    constructor ()
      ensures events == []
    {
      events := [];
    }

    method Publish(event: Uuid, fate: Fate)
      modifies this
      ensures events == old(events) + if Effective(fate) then [event] else []
    {
      if Effective(fate) {
        events := events + [event];
      }
    }
  }

  ghost function View(store: InMemoryPaymentStore, broker: InMemoryBroker, since: nat, job: Option<Job>): Delivery
    reads store, broker
  {
    Delivery(store.Events(), broker.events, since, job)
  }

  lemma GrowsOn(a: Delivery, b: Delivery, c: Delivery)
    requires Grows(a, b) && Grows(b, c)
    ensures Grows(a, c)
  {
  }

  lemma Snoc(max: nat, d: Delivery, run: seq<Step>, s: Step)
    requires IsRun(max, d, run) && Enabled(Exec(max, d, run), s)
    ensures IsRun(max, d, run + [s]) && Exec(max, d, run + [s]) == Next(max, Exec(max, d, run), s)
    ensures TallyOf(run + [s]) == Count(TallyOf(run), s)
  {
    assert (run + [s])[..|run|] == run;
  }

  /** How one attempt at one event ended, or one dispatch: done, raised, or cancelled. */
  datatype Verdict = Sent | Erred | Stopped

  function VerdictOf(fate: Fate): Verdict {
    if fate == Fine then Sent else if Interrupted(fate) then Stopped else Erred
  }

  /** Other tasks append while the dispatcher is suspended. */
  method Suspend(store: InMemoryPaymentStore, broker: InMemoryBroker, max: nat, arrivals: seq<Uuid>,
                 ghost d0: Delivery, ghost before: seq<Step>, ghost since: nat, ghost job: Option<Job>)
    returns (ghost trace: seq<Step>)
    requires IsRun(max, d0, before) && Exec(max, d0, before) == View(store, broker, since, job)
    modifies store`order
    ensures trace == before + [Arrive(arrivals)] && TallyOf(trace) == TallyOf(before)
    ensures IsRun(max, d0, trace) && Exec(max, d0, trace) == View(store, broker, since, job)
    ensures store.Events() == Append(old(store.Events()), arrivals) && old(store.order) <= store.order
  {
    AppendGrows(store.Events(), arrivals);
    store.AppendEvents(arrivals);
    Snoc(max, d0, before, Arrive(arrivals));
    trace := before + [Arrive(arrivals)];
  }

  /** `await self.broker.publish(event)` */
  method AwaitPublish(store: InMemoryPaymentStore, broker: InMemoryBroker, max: nat, event: Uuid, fortune: Fortune,
                      ghost d0: Delivery, ghost before: seq<Step>, ghost since: nat, ghost j: Job)
    returns (ghost trace: seq<Step>)
    requires IsRun(max, d0, before) && Exec(max, d0, before) == View(store, broker, since, Some(j))
    requires j.queue != [] && !j.sent && event == j.queue[0]
    modifies store`order, broker
    ensures IsRun(max, d0, trace) && TallyOf(trace) == TallyOf(before)
    ensures Exec(max, d0, trace) == View(store, broker, since, After(max, j, fortune.fate, j.(sent := true)))
    ensures Grows(old(View(store, broker, since, None)), View(store, broker, since, None))
    ensures Effective(fortune.fate) ==> event in broker.events
  {
    trace := Suspend(store, broker, max, fortune.arrivals, d0, before, since, Some(j));
    broker.Publish(event, fortune.fate);
    Snoc(max, d0, trace, Publish(fortune.fate));
    trace := trace + [Publish(fortune.fate)];
  }

  /** `await self.outbox.mark_published(event.id)` */
  method AwaitMark(store: InMemoryPaymentStore, broker: InMemoryBroker, max: nat, event: Uuid, fortune: Fortune,
                   ghost d0: Delivery, ghost before: seq<Step>, ghost since: nat, ghost j: Job)
    returns (ghost trace: seq<Step>)
    requires IsRun(max, d0, before) && Exec(max, d0, before) == View(store, broker, since, Some(j))
    requires j.queue != [] && j.sent && event == j.queue[0]
    modifies store`order, store`published
    ensures IsRun(max, d0, trace) && TallyOf(trace) == TallyOf(before)
    ensures Exec(max, d0, trace)
         == View(store, broker, since, After(max, j, fortune.fate, Job(j.queue[1..], 0, false)))
    ensures Grows(old(View(store, broker, since, None)), View(store, broker, since, None))
    ensures Effective(fortune.fate) && event in old(store.order) ==> event in store.published
  {
    trace := Suspend(store, broker, max, fortune.arrivals, d0, before, since, Some(j));
    if Effective(fortune.fate) {
      store.MarkPublished(event);
    }
    Snoc(max, d0, trace, MarkSent(fortune.fate));
    trace := trace + [MarkSent(fortune.fate)];
  }

  /** The body of the inner `try`: publish, then mark. */
  method SendOnce(store: InMemoryPaymentStore, broker: InMemoryBroker, max: nat, event: Uuid,
                  publishing: Fortune, marking: Fortune,
                  ghost d0: Delivery, ghost before: seq<Step>, ghost since: nat, ghost j: Job)
    returns (verdict: Verdict, ghost trace: seq<Step>)
    requires IsRun(max, d0, before) && Exec(max, d0, before) == View(store, broker, since, Some(j))
    requires j.queue != [] && !j.sent && event == j.queue[0]
    modifies store`order, store`published, broker
    ensures IsRun(max, d0, trace) && TallyOf(trace) == TallyOf(before)
    ensures Exec(max, d0, trace)
         == View(store, broker, since, match verdict
                                case Sent => Some(Job(j.queue[1..], 0, false))
                                case Erred => Failure(max, j)
                                case Stopped => None)
    ensures Grows(old(View(store, broker, since, None)), View(store, broker, since, None))
    ensures verdict == Sent && event in old(store.order) ==> event in store.published && event in broker.events
    ensures verdict == Sent <==> publishing.fate == Fine && marking.fate == Fine
    ensures verdict == Erred <==>
              publishing.fate in {Fails, Late} || (publishing.fate == Fine && marking.fate in {Fails, Late})
  {
    trace := AwaitPublish(store, broker, max, event, publishing, d0, before, since, j);
    if publishing.fate != Fine {
      return VerdictOf(publishing.fate), trace;
    }
    trace := AwaitMark(store, broker, max, event, marking, d0, trace, since, j.(sent := true));
    return VerdictOf(marking.fate), trace;
  }

  /** The inner loop: up to `max` attempts at one event, sleeping in between; `last` is the one that ends it. */
  method SendAttempts(store: InMemoryPaymentStore, broker: InMemoryBroker, max: nat, event: Uuid,
                      env: nat -> Fortune, at: nat,
                      ghost d0: Delivery, ghost before: seq<Step>, ghost since: nat, ghost queue: seq<Uuid>)
    returns (verdict: Verdict, next: nat, last: nat, ghost trace: seq<Step>)
    requires max >= 1 && IsRun(max, d0, before) && event in store.order
    requires Exec(max, d0, before) == View(store, broker, since, Some(Job(queue, 0, false)))
    requires queue != [] && event == queue[0]
    modifies store`order, store`published, broker
    ensures IsRun(max, d0, trace) && TallyOf(trace) == TallyOf(before)
    ensures Exec(max, d0, trace)
         == View(store, broker, since, if verdict == Sent then Some(Job(queue[1..], 0, false)) else None)
    ensures Grows(old(View(store, broker, since, None)), View(store, broker, since, None))
    ensures verdict == Sent ==> event in store.published && event in broker.events
    ensures last < max && AllRetried(env, at, last) && Ended(env, at, max, last, verdict)
  {
    next, last, verdict, trace := at, 0, Erred, before;
    var again := true;
    while again
      invariant last < max && IsRun(max, d0, trace) && TallyOf(trace) == TallyOf(before)
      invariant Exec(max, d0, trace) == View(store, broker, since, JobAfter(verdict, again, queue, last))
      invariant Grows(old(View(store, broker, since, None)), View(store, broker, since, None))
      invariant AllRetried(env, at, last)
      invariant again ==> next == at + 3 * last && event in store.order
      invariant !again ==> (verdict == Sent ==> event in store.published && event in broker.events)
      invariant !again ==> Ended(env, at, max, last, verdict)
      decreases again, max - last
    {
      ghost var now := View(store, broker, since, None);
      verdict, again, next, trace :=
        AttemptOnce(store, broker, max, event, env, at, last, d0, trace, since, queue);
      GrowsOn(old(View(store, broker, since, None)), now, View(store, broker, since, None));
      if again {
        last := last + 1;
      }
    }
  }

  /** The first `n` attempts were retried. */
  predicate AllRetried(env: nat -> Fortune, at: nat, n: nat) {
    n == 0 || (AllRetried(env, at, n - 1) && Retries(env, at, n - 1))
  }

  lemma {:induction false} RetriedBefore(env: nat -> Fortune, at: nat, n: nat)
    requires AllRetried(env, at, n)
    ensures forall b: nat :: b < n ==> Retries(env, at, b)
  {
    if n > 0 {
      RetriedBefore(env, at, n - 1);
    }
  }

  /** The job between two attempts, or after the last one. */
  function JobAfter(verdict: Verdict, again: bool, queue: seq<Uuid>, attempt: nat): Option<Job>
    requires queue != []
  {
    if again then Some(Job(queue, attempt, false))
    else if verdict == Sent then Some(Job(queue[1..], 0, false))
    else None
  }

  /** Attempt `a` is the last one, with this verdict. */
  ghost predicate Ended(env: nat -> Fortune, at: nat, max: nat, a: nat, verdict: Verdict) {
    && (verdict == Sent <==> Sends(env, at, a))
    && (verdict == Erred <==> Errs(env, at, a) && a == max - 1)
    && (verdict == Stopped && a < max - 1 ==> !Retries(env, at, a))
  }

  /** One attempt and, if there is to be another, the backoff. */
  method AttemptOnce(store: InMemoryPaymentStore, broker: InMemoryBroker, max: nat, event: Uuid,
                     env: nat -> Fortune, at: nat, attempt: nat,
                     ghost d0: Delivery, ghost before: seq<Step>, ghost since: nat, ghost queue: seq<Uuid>)
    returns (verdict: Verdict, again: bool, next: nat, ghost trace: seq<Step>)
    requires attempt < max && IsRun(max, d0, before) && event in store.order
    requires Exec(max, d0, before) == View(store, broker, since, Some(Job(queue, attempt, false)))
    requires queue != [] && event == queue[0]
    modifies store`order, store`published, broker
    ensures IsRun(max, d0, trace) && TallyOf(trace) == TallyOf(before)
    ensures Exec(max, d0, trace) == View(store, broker, since, JobAfter(verdict, again, queue, attempt + 1))
    ensures Grows(old(View(store, broker, since, None)), View(store, broker, since, None))
    ensures again ==> attempt + 1 < max && Retries(env, at, attempt) && next == at + 3 * (attempt + 1)
    ensures !again ==> (verdict == Sent ==> event in store.published && event in broker.events)
    ensures !again ==> Ended(env, at, max, attempt, verdict)
  {
    next := at + 3 * attempt;
    ghost var j := Job(queue, attempt, false);
    verdict, trace := SendOnce(store, broker, max, event, env(next), env(next + 1), d0, before, since, j);
    next, again := next + 2, verdict == Erred && attempt + 1 < max;
    if again {
      again, trace := Sleep(store, broker, max, env(next), d0, trace, since, Job(queue, attempt + 1, false));
      next := next + 1;
      if !again {
        verdict := Stopped;
      }
    }
  }

  /** The attempts at one event: it is sent exactly if it gets through, and the dispatch raises if it exhausts them. */
  method SendEvent(store: InMemoryPaymentStore, broker: InMemoryBroker, max: nat, event: Uuid,
                   env: nat -> Fortune, at: nat,
                   ghost d0: Delivery, ghost before: seq<Step>, ghost since: nat, ghost queue: seq<Uuid>)
    returns (verdict: Verdict, next: nat, ghost trace: seq<Step>)
    requires max >= 1 && IsRun(max, d0, before) && event in store.order
    requires Exec(max, d0, before) == View(store, broker, since, Some(Job(queue, 0, false)))
    requires queue != [] && event == queue[0]
    modifies store`order, store`published, broker
    ensures IsRun(max, d0, trace) && TallyOf(trace) == TallyOf(before)
    ensures Exec(max, d0, trace)
         == View(store, broker, since, if verdict == Sent then Some(Job(queue[1..], 0, false)) else None)
    ensures Grows(old(View(store, broker, since, None)), View(store, broker, since, None))
    ensures verdict == Sent ==> event in store.published && event in broker.events
    ensures verdict == Sent <==> GetsThrough(env, at, max)
    ensures verdict == Erred <==> Exhausts(env, at, max)
  {
    var last;
    verdict, next, last, trace := SendAttempts(store, broker, max, event, env, at, d0, before, since, queue);
    RetriedBefore(env, at, last);
    LastDecides(env, at, max, last);
  }

  /** The first attempt that is not retried decides. */
  lemma LastDecides(env: nat -> Fortune, at: nat, max: nat, last: nat)
    requires last < max && forall b: nat :: b < last ==> Retries(env, at, b)
    requires last < max - 1 ==> !Retries(env, at, last)
    ensures GetsThrough(env, at, max) <==> Sends(env, at, last)
    ensures Exhausts(env, at, max) <==> Errs(env, at, last) && last == max - 1
  {
    if GetsThrough(env, at, max) {
      var c: nat :| c < max && Sends(env, at, c) && forall b: nat :: b < c ==> Retries(env, at, b);
      var early, late := Retries(env, at, c), Retries(env, at, last);
      assert c == last;
    }
  }

  /** The backoff between two attempts. */
  method Sleep(store: InMemoryPaymentStore, broker: InMemoryBroker, max: nat, sleeping: Fortune,
               ghost d0: Delivery, ghost before: seq<Step>, ghost since: nat, ghost j: Job)
    returns (woken: bool, ghost trace: seq<Step>)
    requires IsRun(max, d0, before) && Exec(max, d0, before) == View(store, broker, since, Some(j))
    modifies store`order
    ensures woken <==> !Interrupted(sleeping.fate)
    ensures IsRun(max, d0, trace) && TallyOf(trace) == TallyOf(before)
    ensures Exec(max, d0, trace) == View(store, broker, since, if woken then Some(j) else None)
    ensures Grows(old(View(store, broker, since, None)), View(store, broker, since, None))
  {
    trace := Suspend(store, broker, max, sleeping.arrivals, d0, before, since, Some(j));
    woken := !Interrupted(sleeping.fate);
    if !woken {
      Snoc(max, d0, trace, Cancel);
      trace := trace + [Cancel];
    }
  }

  /** The unsent events the dispatcher is given, `arrivals` having come before the snapshot. */
  function Batch(o: Events, arrivals: seq<Uuid>, limit: nat): (batch: seq<Uuid>)
    ensures forall x :: x in batch ==> x in Append(o, arrivals).order && x !in o.published
  {
    AppendGrows(o, arrivals);
    PendingInOrder(Append(o, arrivals).order, o.published);
    Outbox.Unsent(Append(o, arrivals), limit)
  }

  /** Every event of `batch` is marked in the store and held by the broker. */
  ghost predicate Delivered(d: Delivery, batch: seq<Uuid>) {
    forall x :: x in batch ==> x in d.events.published && x in d.log
  }

  lemma DeliveredOneMore(d: Delivery, d': Delivery, queue: seq<Uuid>, n: nat)
    requires Grows(d, d') && n < |queue| && Delivered(d, queue[..n])
    requires queue[n] in d'.events.published && queue[n] in d'.log
    ensures Delivered(d', queue[..n + 1])
  {
    assert queue[..n + 1] == queue[..n] + [queue[n]];
  }

  /** The outer loop, over the batch it was given. */
  method SendBatch(store: InMemoryPaymentStore, broker: InMemoryBroker, max: nat, queue: seq<Uuid>,
                   env: nat -> Fortune, ghost d0: Delivery, ghost before: seq<Step>, ghost since: nat)
    returns (published: nat, verdict: Verdict, ghost trace: seq<Step>)
    requires max >= 1 && IsRun(max, d0, before)
    requires Exec(max, d0, before) == View(store, broker, since, Some(Job(queue, 0, false)))
    requires forall x :: x in queue ==> x in store.order
    modifies store`order, store`published, broker
    ensures IsRun(max, d0, trace) && TallyOf(trace) == TallyOf(before)
    ensures Exec(max, d0, trace)
         == View(store, broker, since, if verdict == Sent then Some(Job([], 0, false)) else None)
    ensures Grows(old(View(store, broker, since, None)), View(store, broker, since, None))
    ensures verdict == Sent ==> published == |queue| && Delivered(View(store, broker, since, None), queue)
    ensures Resilient(env, max) ==> verdict == Sent
  {
    published, verdict, trace := 0, Sent, before;
    var at := 1;
    while published < |queue|
      invariant published <= |queue| && IsRun(max, d0, trace) && TallyOf(trace) == TallyOf(before) && verdict == Sent
      invariant Exec(max, d0, trace) == View(store, broker, since, Some(Job(queue[published..], 0, false)))
      invariant Grows(old(View(store, broker, since, None)), View(store, broker, since, None))
      invariant forall x :: x in queue ==> x in store.order
      invariant Delivered(View(store, broker, since, None), queue[..published])
    {
      ghost var now := View(store, broker, since, None);
      verdict, at, trace :=
        SendEvent(store, broker, max, queue[published], env, at, d0, trace, since, queue[published..]);
      if verdict != Sent {
        return;
      }
      assert queue[published..][1..] == queue[published + 1..];
      DeliveredOneMore(now, View(store, broker, since, None), queue, published);
      published := published + 1;
    }
    assert queue[..published] == queue;
  }

  /** `dispatch_once` with the run of the machine that it continues. */
  method Dispatch(store: InMemoryPaymentStore, broker: InMemoryBroker, max: nat, limit: nat,
                  env: nat -> Fortune, ghost earlier: nat, ghost d0: Delivery, ghost before: seq<Step>)
    returns (published: nat, verdict: Verdict, ghost since: nat, ghost trace: seq<Step>)
    requires max >= 1 && IsRun(max, d0, before) && Exec(max, d0, before) == View(store, broker, earlier, None)
    modifies store`order, store`published, broker
    ensures IsRun(max, d0, trace) && Exec(max, d0, trace) == View(store, broker, since, None)
    ensures TallyOf(trace).limits <= TallyOf(before).limits + {limit}
    ensures TallyOf(trace).completed == TallyOf(before).completed + if verdict == Sent then 1 else 0
    ensures Grows(old(View(store, broker, earlier, None)), View(store, broker, since, None))
    ensures since == |old(broker.events)| || (since == earlier && broker.events == old(broker.events))
    ensures verdict == Sent ==>
              && trace != [] && trace[|trace| - 1] == Finish
              && published == |Batch(old(store.Events()), env(0).arrivals, limit)|
              && Delivered(View(store, broker, since, None), Batch(old(store.Events()), env(0).arrivals, limit))
    ensures Resilient(env, max) ==> verdict == Sent
  {
    since, published := earlier, 0;
    trace := Suspend(store, broker, max, env(0).arrivals, d0, before, since, None);
    verdict := VerdictOf(env(0).fate);
    if verdict == Sent {
      Snoc(max, d0, trace, Begin(limit));
      trace, since := trace + [Begin(limit)], |broker.events|;
      var queue := store.Unsent(limit);
      assert queue == Batch(old(store.Events()), env(0).arrivals, limit);
      published, verdict, trace := SendBatch(store, broker, max, queue, env, d0, trace, since);
      if verdict == Sent {
        Snoc(max, d0, trace, Finish);
        trace := trace + [Finish];
      }
    }
  }

  /**
   `dispatch_once`.  The dispatch is a run of the machine, from rest to rest, and nothing is ever
   taken back.  If it returns, every event of its batch is marked and with the broker, and their
   number is the result.  However it ends, no event was published more than `max` times by it.
   */
  method DispatchOnce(store: InMemoryPaymentStore, broker: InMemoryBroker, max: nat, limit: nat,
                      env: nat -> Fortune, ghost earlier: nat)
    returns (published: nat, verdict: Verdict, ghost since: nat, ghost trace: seq<Step>)
    requires max >= 1
    modifies store`order, store`published, broker
    ensures IsRun(max, old(View(store, broker, earlier, None)), trace)
    ensures Exec(max, old(View(store, broker, earlier, None)), trace) == View(store, broker, since, None)
    ensures Grows(old(View(store, broker, earlier, None)), View(store, broker, since, None))
    ensures verdict == Sent ==>
              && trace != [] && trace[|trace| - 1] == Finish
              && published == |Batch(old(store.Events()), env(0).arrivals, limit)|
              && Delivered(View(store, broker, since, None), Batch(old(store.Events()), env(0).arrivals, limit))
    ensures Resilient(env, max) ==> verdict == Sent
    ensures Inv(max, old(View(store, broker, earlier, None))) ==>
              && Inv(max, View(store, broker, since, None))
              && forall x :: Times(broker.events[|old(broker.events)|..], x) <= max
  {
    ghost var d0 := View(store, broker, earlier, None);
    published, verdict, since, trace := Dispatch(store, broker, max, limit, env, earlier, d0, []);
    if Inv(max, d0) {
      RunKeepsInv(max, d0, trace);
      InvDelivers(max, View(store, broker, since, None));
      assert since != |old(broker.events)| ==> broker.events[|old(broker.events)|..] == [];
    }
  }

  function Concat(parts: seq<seq<Uuid>>): seq<Uuid> {
    if parts == [] then [] else Concat(parts[..|parts| - 1]) + parts[|parts| - 1]
  }

  ghost predicate AtMost(max: nat, part: seq<Uuid>) {
    forall x :: Times(part, x) <= max
  }

  /** `log` is `log0` and then what each dispatch published, no event more than `max` times. */
  ghost predicate Metering(max: nat, log0: seq<Uuid>, log: seq<Uuid>, parts: seq<seq<Uuid>>) {
    log == log0 + Concat(parts) && forall i :: 0 <= i < |parts| ==> AtMost(max, parts[i])
  }

  lemma MeteringGrows(max: nat, log0: seq<Uuid>, log: seq<Uuid>, parts: seq<seq<Uuid>>, more: seq<Uuid>)
    requires Metering(max, log0, log, parts) && log <= more && AtMost(max, more[|log|..])
    ensures Metering(max, log0, more, parts + [more[|log|..]])
  {
    assert (parts + [more[|log|..]])[..|parts|] == parts;
    assert more == log + more[|log|..];
  }

  /** `run` leads from `d0` to `d`. */
  ghost predicate Leads(max: nat, d0: Delivery, run: seq<Step>, d: Delivery) {
    IsRun(max, d0, run) && Exec(max, d0, run) == d
  }

  /**
   What the worker keeps from `d0` on: it is a run of the machine, with `returned` completed
   dispatches at `limit`, takes nothing back, and the log is made of what each dispatch published.
   */
  ghost predicate Working(max: nat, limit: nat, d0: Delivery, run: seq<Step>, d: Delivery,
                          parts: seq<seq<Uuid>>, returned: nat) {
    && Leads(max, d0, run, d) && Grows(d0, d)
    && TallyOf(run).limits <= {limit} && TallyOf(run).completed == returned
    && Metering(max, d0.log, d.log, parts)
  }

  lemma StartsWorking(max: nat, limit: nat, d0: Delivery)
    ensures Working(max, limit, d0, [], d0, [], 0)
  {
  }

  /** A dispatch publishes no event more than `max` times. */
  lemma DispatchMeters(max: nat, d0: Delivery, run: seq<Step>, log: seq<Uuid>, d: Delivery)
    requires max >= 1 && Inv(max, d0) && Leads(max, d0, run, d) && log <= d.log
    requires d.since == |log| || d.log == log
    ensures AtMost(max, d.log[|log|..])
  {
    RunKeepsInv(max, d0, run);
    InvDelivers(max, d);
    assert d.log == log ==> d.log[|log|..] == [];
  }

  /** One round of the worker: a dispatch, whatever becomes of it, and the wait. */
  method Poll(store: InMemoryPaymentStore, broker: InMemoryBroker, max: nat, limit: nat,
              env: nat -> Fortune, wait: Fortune, ghost earlier: nat,
              ghost d0: Delivery, ghost before: seq<Step>, ghost done: seq<seq<Uuid>>, ghost returned: nat)
    returns (verdict: Verdict, running: bool,
             ghost since: nat, ghost run: seq<Step>, ghost parts: seq<seq<Uuid>>, ghost more: nat)
    requires max >= 1 && Inv(max, d0)
    requires Working(max, limit, d0, before, View(store, broker, earlier, None), done, returned)
    modifies store`order, store`published, broker
    ensures |parts| == |done| + 1 && more == returned + if verdict == Sent then 1 else 0
    ensures Working(max, limit, d0, run, View(store, broker, since, None), parts, more)
    ensures Resilient(env, max) ==> verdict == Sent
    ensures running <==> verdict != Stopped && !Interrupted(wait.fate)
  {
    ghost var d := View(store, broker, earlier, None);
    var _, outcome, started, trace := Dispatch(store, broker, max, limit, env, earlier, d0, before);
    verdict, since, run, parts := outcome, started, trace, done + [broker.events[|d.log|..]];
    more := returned + if verdict == Sent then 1 else 0;
    ghost var after := View(store, broker, since, None);
    DispatchWorks(max, limit, d0, before, d, run, after, done, returned);
    if verdict != Stopped {
      run := Suspend(store, broker, max, wait.arrivals, d0, run, since, None);
      WaitWorks(max, limit, d0, trace, after, run, View(store, broker, since, None), parts, more);
    }
    running := verdict != Stopped && !Interrupted(wait.fate);
  }

  lemma DispatchWorks(max: nat, limit: nat, d0: Delivery, before: seq<Step>, d: Delivery,
                      run: seq<Step>, d': Delivery, done: seq<seq<Uuid>>, returned: nat)
    requires max >= 1 && Inv(max, d0) && Working(max, limit, d0, before, d, done, returned)
    requires Leads(max, d0, run, d') && Grows(d, d') && (d'.since == |d.log| || d'.log == d.log)
    requires TallyOf(run).limits <= TallyOf(before).limits + {limit}
    ensures Working(max, limit, d0, run, d', done + [d'.log[|d.log|..]], TallyOf(run).completed)
  {
    DispatchMeters(max, d0, run, d.log, d');
    MeteringGrows(max, d0.log, d.log, done, d'.log);
    GrowsOn(d0, d, d');
  }

  lemma WaitWorks(max: nat, limit: nat, d0: Delivery, run: seq<Step>, d: Delivery, longer: seq<Step>, d': Delivery,
                  parts: seq<seq<Uuid>>, returned: nat)
    requires Working(max, limit, d0, run, d, parts, returned)
    requires Leads(max, d0, longer, d') && Grows(d, d') && d'.log == d.log && TallyOf(longer) == TallyOf(run)
    ensures Working(max, limit, d0, longer, d', parts, returned)
  {
    GrowsOn(d0, d, d');
  }

  /** The poll loop of `run`. */
  method PollUntilStopped(store: InMemoryPaymentStore, broker: InMemoryBroker, max: nat, limit: nat,
                          polls: nat, env: nat -> nat -> Fortune, waits: nat -> Fortune,
                          ghost d0: Delivery, ghost earlier: nat)
    returns (dispatches: nat, returned: nat,
             ghost since: nat, ghost run: seq<Step>, ghost parts: seq<seq<Uuid>>)
    requires max >= 1 && Inv(max, d0) && d0 == View(store, broker, earlier, None)
    modifies store`order, store`published, broker
    ensures |parts| == dispatches
    ensures Working(max, limit, d0, run, View(store, broker, since, None), parts, returned)
    ensures Smooth(env, waits, max) ==> returned == dispatches == polls
  {
    dispatches, returned, since, run, parts := 0, 0, earlier, [], [];
    StartsWorking(max, limit, d0);
    var running := true;
    while running && dispatches < polls
      invariant |parts| == dispatches <= polls
      invariant Working(max, limit, d0, run, View(store, broker, since, None), parts, returned)
      invariant Smooth(env, waits, max) ==> running && returned == dispatches
      decreases polls - dispatches
    {
      var verdict;
      ghost var more;
      verdict, running, since, run, parts, more :=
        Poll(store, broker, max, limit, env(dispatches), waits(dispatches), since, d0, run, parts, returned);
      dispatches := dispatches + 1;
      if verdict == Sent {
        returned := returned + 1;
      }
      assert more == returned;
    }
  }

  /** Every event in the store before step `i` is delivered once enough dispatches have completed since. */
  ghost predicate ReachedSince(max: nat, d0: Delivery, run: seq<Step>, d: Delivery, limit: nat, i: nat)
    requires IsRun(max, d0, run) && i <= |run|
  {
    && IsRun(max, d0, run[..i])
    && Reached(d, Exec(max, d0, run[..i]).events.order, TallyOf(run[i..]).completed * limit)
  }

  ghost predicate Progressed(max: nat, d0: Delivery, run: seq<Step>, d: Delivery, limit: nat) {
    IsRun(max, d0, run) && forall i: nat :: i <= |run| ==> ReachedSince(max, d0, run, d, limit, i)
  }

  lemma {:induction false} SplitRun(max: nat, d0: Delivery, run: seq<Step>, i: nat)
    requires IsRun(max, d0, run) && i <= |run|
    ensures IsRun(max, d0, run[..i]) && IsRun(max, Exec(max, d0, run[..i]), run[i..])
    ensures Exec(max, Exec(max, d0, run[..i]), run[i..]) == Exec(max, d0, run)
    decreases |run|
  {
    if i == |run| {
      assert run[..i] == run && run[i..] == [];
    } else {
      var n := |run| - 1;
      SplitRun(max, d0, run[..n], i);
      assert run[..n][..i] == run[..i];
      assert run[i..] == run[..n][i..] + [run[n]];
      Snoc(max, Exec(max, d0, run[..i]), run[..n][i..], run[n]);
    }
  }

  lemma {:induction false} SplitLimits(run: seq<Step>, i: nat)
    requires i <= |run|
    ensures TallyOf(run[i..]).limits <= TallyOf(run).limits
    decreases |run|
  {
    if i == |run| {
      assert run[i..] == [];
    } else {
      var n := |run| - 1;
      var part := run[..n][i..];
      SplitLimits(run[..n], i);
      assert run[i..] == part + [run[n]];
      TallySnoc(part, run[n]);
      CountLimits(TallyOf(part), TallyOf(run[..n]), run[n]);
    }
  }

  lemma CountLimits(t: Tally, u: Tally, s: Step)
    requires t.limits <= u.limits
    ensures Count(t, s).limits <= Count(u, s).limits
  {
  }

  lemma WorkReaches(max: nat, d0: Delivery, run: seq<Step>, limit: nat, i: nat)
    requires max >= 1 && Inv(max, d0) && IsRun(max, d0, run) && i <= |run| && TallyOf(run).limits <= {limit}
    ensures ReachedSince(max, d0, run, Exec(max, d0, run), limit, i)
  {
    SplitRun(max, d0, run, i);
    SplitLimits(run, i);
    RunKeepsInv(max, d0, run[..i]);
    DispatchesDeliver(max, Exec(max, d0, run[..i]), run[i..], limit);
  }

  /**
   The worker, started on any store and broker that earlier work left behind.  It ignores a
   dispatch that raised and ends when it is cancelled; other tasks append during every dispatch and
   every wait.  Whenever it ends, the log without repeats is a prefix of append order, every marked
   event is in the log, and no single dispatch published an event more than `max` times.  Every
   dispatch that returned has brought another `limit` events to the broker, of those found at the
   start and of those that arrived at any step since; and every dispatch returns whose events get
   through within their attempts.
   */
  method Work(store: InMemoryPaymentStore, broker: InMemoryBroker, max: nat, limit: nat,
              polls: nat, env: nat -> nat -> Fortune, waits: nat -> Fortune, ghost earlier: nat)
    returns (dispatches: nat, returned: nat, ghost since: nat, ghost run: seq<Step>, ghost parts: seq<seq<Uuid>>)
    requires max >= 1 && Inv(max, View(store, broker, earlier, None))
    modifies store`order, store`published, broker
    ensures |parts| == dispatches
    ensures Working(max, limit, old(View(store, broker, earlier, None)), run, View(store, broker, since, None),
                    parts, returned)
    ensures Inv(max, View(store, broker, since, None))
    ensures Dedup(broker.events) <= store.order && Distinct(store.order)
    ensures forall x :: x in store.published ==> x in broker.events
    ensures Reached(View(store, broker, since, None), old(store.order), returned * limit)
    ensures Progressed(max, old(View(store, broker, earlier, None)), run, View(store, broker, since, None), limit)
    ensures Smooth(env, waits, max) ==> returned == dispatches == polls
  {
    ghost var d0 := View(store, broker, earlier, None);
    dispatches, returned, since, run, parts :=
      PollUntilStopped(store, broker, max, limit, polls, env, waits, d0, earlier);
    WorkDelivers(max, limit, d0, run, View(store, broker, since, None), parts, returned);
  }

  /** What a stretch of work means for the store and the broker. */
  lemma WorkDelivers(max: nat, limit: nat, d0: Delivery, run: seq<Step>, d: Delivery,
                     parts: seq<seq<Uuid>>, returned: nat)
    requires max >= 1 && Inv(max, d0) && Working(max, limit, d0, run, d, parts, returned)
    ensures Inv(max, d)
    ensures Dedup(d.log) <= d.events.order && Distinct(d.events.order)
    ensures forall x :: x in d.events.published ==> x in d.log
    ensures Reached(d, d0.events.order, returned * limit)
    ensures Progressed(max, d0, run, d, limit)
  {
    RunKeepsInv(max, d0, run);
    InvDelivers(max, d);
    DispatchesDeliver(max, d0, run, limit);
    forall i: nat | i <= |run| ensures ReachedSince(max, d0, run, d, limit, i) {
      WorkReaches(max, d0, run, limit, i);
    }
  }

  /** Nobody stops the worker, and its events get through. */
  ghost predicate Smooth(env: nat -> nat -> Fortune, waits: nat -> Fortune, max: nat) {
    (forall k: nat :: Resilient(env(k), max)) && forall k: nat :: !Interrupted(waits(k).fate)
  }

  /** A worker on an empty store and broker. */
  method WorkFromScratch(max: nat, limit: nat, polls: nat, env: nat -> nat -> Fortune, waits: nat -> Fortune)
    returns (store: InMemoryPaymentStore, broker: InMemoryBroker)
    requires max >= 1
    ensures Dedup(broker.events) <= store.order
    ensures forall x :: x in store.published ==> x in broker.events
  {
    store := new InMemoryPaymentStore();
    broker := new InMemoryBroker();
    EmptyInv(max);
    var _, _, _, _, _ := Work(store, broker, max, limit, polls, env, waits, 0);
  }
}
