/**
 The process-local idempotency coordinator (`idempotency.py`).  Every critical section runs
 without suspending, so each is one function of the coordinator's state; waiting is a step of
 the protocol that uses them.  An asyncio event is a handle plus membership in `signalled`.
 */
module Idempotency {
  import opened Prelude

  datatype Key = Key(merchant: string, key: string)
  type Fingerprint = string
  type PaymentId = nat
  type EventId = nat

  datatype Record = Record(fingerprint: Fingerprint, paymentId: Option<PaymentId>, completed: bool)

  datatype Coordinator = Coordinator(
    records: map<Key, Record>,
    events: map<Key, EventId>,
    signalled: set<EventId>,
    nextEvent: EventId)
  {
    predicate Pending(k: Key) {
      k in records && !records[k].completed
    }

    /**
     Events are issued once, one per claim, and an issued event is unset exactly while the
     claim it was issued for is pending.
     */
    ghost predicate Valid() {
      && (forall k :: k in records ==> k in events && (records[k].completed <==> records[k].paymentId.Some?))
      && (forall k :: k in events ==> events[k] < nextEvent)
      && (forall k, l :: k in events && l in events && k != l ==> events[k] != events[l])
      && (forall k :: k in events ==> (events[k] !in signalled <==> Pending(k)))
      && (forall e :: e in signalled ==> e < nextEvent)
    }
  }

  const EMPTY := Coordinator(map[], map[], {}, 0)

  /** One pass of the loop in `acquire`.  A claim is known by the event issued with it. */
  datatype Pass = Claimed(event: EventId) | Conflict | Completed(paymentId: Option<PaymentId>) | Wait(event: EventId)

  datatype Acquired = Acquired(coordinator: Coordinator, pass: Pass)

  lemma ClaimIsValid(c: Coordinator, k: Key, f: Fingerprint)
    requires c.Valid() && k !in c.records
    ensures Coordinator(c.records[k := Record(f, None, false)], c.events[k := c.nextEvent],
                        c.signalled, c.nextEvent + 1).Valid()
  {
  }

  function Acquire(c: Coordinator, k: Key, f: Fingerprint): (r: Acquired)
    requires c.Valid()
    ensures r.coordinator.Valid()
  {
    if k !in c.records then
      var e := c.nextEvent;
      ClaimIsValid(c, k, f);
      Acquired(c.(records := c.records[k := Record(f, None, false)], events := c.events[k := e], nextEvent := e + 1),
               Claimed(e))
    else if c.records[k].fingerprint != f then
      Acquired(c, Conflict)
    else if c.records[k].completed then
      Acquired(c, Completed(c.records[k].paymentId))
    else
      Acquired(c, Wait(c.events[k]))
  }

  /** `None` is the exception "Idempotency claim is missing". */
  function Complete(c: Coordinator, k: Key, f: Fingerprint, id: PaymentId): (r: Option<Coordinator>)
    requires c.Valid()
    ensures r.Some? ==> r.value.Valid()
  {
    if k !in c.records || c.records[k].fingerprint != f then None
    else Some(c.(records := c.records[k := Record(f, Some(id), true)], signalled := c.signalled + {c.events[k]}))
  }

  function Abort(c: Coordinator, k: Key, f: Fingerprint): (r: Coordinator)
    requires c.Valid()
    ensures r.Valid()
  {
    if k in c.records && c.records[k].fingerprint == f && !c.records[k].completed then
      c.(records := c.records - {k}, signalled := c.signalled + {c.events[k]})
    else c
  }

  /** The coordinator object: its dictionaries move as the functions above say. */
  class MemoryIdempotencyCoordinator {
    var records: map<Key, Record>
    var events: map<Key, EventId>
    var signalled: set<EventId>
    var nextEvent: EventId

    ghost function View(): Coordinator
      reads this
    {
      Coordinator(records, events, signalled, nextEvent)
    }

    constructor ()
      ensures View() == EMPTY && View().Valid()
    {
      records, events, signalled, nextEvent := map[], map[], {}, 0;
    }

    method AcquirePass(k: Key, f: Fingerprint) returns (pass: Pass)
      requires View().Valid()
      modifies this
      ensures Acquired(View(), pass) == Acquire(old(View()), k, f)
      ensures View().Valid()
    {
      if k !in records {
        records := records[k := Record(f, None, false)];
        events := events[k := nextEvent];
        nextEvent := nextEvent + 1;
        return Claimed(nextEvent - 1);
      }
      var record := records[k];
      if record.fingerprint != f {
        return Conflict;
      }
      if record.completed {
        return Completed(record.paymentId);
      }
      return Wait(events[k]);
    }

    method CompleteClaim(k: Key, f: Fingerprint, id: PaymentId) returns (ok: bool)
      requires View().Valid()
      modifies this
      ensures ok <==> Complete(old(View()), k, f, id).Some?
      ensures View() == if ok then Complete(old(View()), k, f, id).value else old(View())
      ensures View().Valid()
    {
      if k !in records || records[k].fingerprint != f {
        return false;
      }
      records := records[k := Record(f, Some(id), true)];
      signalled := signalled + {events[k]};
      return true;
    }

    method AbortClaim(k: Key, f: Fingerprint)
      requires View().Valid()
      modifies this
      ensures View() == Abort(old(View()), k, f)
      ensures View().Valid()
    {
      if k in records && records[k].fingerprint == f && !records[k].completed {
        records := records - {k};
        signalled := signalled + {events[k]};
      }
    }
  }
}
