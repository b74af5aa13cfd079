/** `InMemoryPaymentStore` (store.py): the dictionaries of payments, keys and events. */
module PaymentStore {
  import opened Prelude
  import opened Idempotency
  import Failover
  import Outbox

  /** The fields of a payment that `create` writes; `succeeded` is the status it is saved with. */
  datatype Payment = Payment(
    id: PaymentId, key: Key, fingerprint: Fingerprint,
    succeeded: bool, provider: Option<string>, attempts: seq<Failover.Attempt>)

  /** The payment part of `InMemoryPaymentStore`. */
  datatype Store = Store(payments: map<PaymentId, Payment>, keys: map<Key, PaymentId>)

  function Save(s: Store, p: Payment): Store {
    Store(s.payments[p.id := p], s.keys[p.key := p.id])
  }

  function PaymentOf(s: Store, k: Key): Option<Payment> {
    if k in s.keys && s.keys[k] in s.payments then Some(s.payments[s.keys[k]]) else None
  }

  class InMemoryPaymentStore {
    var payments: map<PaymentId, Payment>
    var keys: map<Key, PaymentId>
    var order: seq<Outbox.Uuid>
    var published: set<Outbox.Uuid>

    ghost function Payments(): Store
      reads this
    {
      Store(payments, keys)
    }

    ghost function Events(): Outbox.Events
      reads this
    {
      Outbox.Events(order, published)
    }

    constructor ()
      ensures Payments() == Store(map[], map[]) && Events() == Outbox.EMPTY.events
    {
      payments, keys, order, published := map[], map[], [], {};
    }

    method GetByIdempotency(k: Key) returns (found: Option<Payment>)
      ensures found == PaymentOf(Payments(), k)
    {
      if k in keys && keys[k] in payments {
        return Some(payments[keys[k]]);
      }
      return None;
    }

    method AppendEvents(ids: seq<Outbox.Uuid>)
      modifies this`order
      ensures Events() == Outbox.Append(old(Events()), ids)
      ensures Distinct(old(order)) ==> order == Outbox.Dedup(old(order) + ids)
      ensures forall x :: x in order <==> x in old(order) || x in ids
    {
      if Distinct(order) {
        Outbox.AppendIsDedup(Events(), ids);
      }
      forall x ensures x in Outbox.Append(Events(), ids).order <==> x in order || x in ids {
        Outbox.AppendMembers(Events(), ids, x);
      }
      for i := 0 to |ids|
        invariant Outbox.Append(Events(), ids[i..]) == Outbox.Append(old(Events()), ids)
      {
        if ids[i] !in order {
          order := order + [ids[i]];
        }
        assert ids[i..][1..] == ids[i + 1..];
      }
    }

    /** The payment and its events become visible together. */
    method SaveWithEvents(p: Payment, ids: seq<Outbox.Uuid>)
      modifies this`payments, this`keys, this`order
      ensures Payments() == Save(old(Payments()), p)
      ensures Events() == Outbox.Append(old(Events()), ids)
      ensures PaymentOf(Payments(), p.key) == Some(p)
      ensures Distinct(old(order)) ==> order == Outbox.Dedup(old(order) + ids)
      ensures forall x :: x in order <==> x in old(order) || x in ids
    {
      payments := payments[p.id := p];
      keys := keys[p.key := p.id];
      AppendEvents(ids);
    }

    method Unsent(limit: nat) returns (unsent: seq<Outbox.Uuid>)
      ensures unsent == Outbox.Unsent(Events(), limit)
    {
      unsent := [];
      for i := 0 to |order|
        invariant unsent == Outbox.Pending(order[..i], published)
      {
        Outbox.PendingSnoc(order[..i], published, order[i]);
        assert order[..i] + [order[i]] == order[..i + 1];
        if order[i] !in published {
          unsent := unsent + [order[i]];
        }
      }
      assert order[..|order|] == order;
      if |unsent| > limit {
        unsent := unsent[..limit];
      }
    }

    method MarkPublished(id: Outbox.Uuid)
      modifies this`published
      ensures Events() == Outbox.Mark(old(Events()), id)
      ensures published == if id in order then old(published) + {id} else old(published)
    {
      if id in order {
        published := published + {id};
      }
    }
  }
}
