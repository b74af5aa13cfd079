/** The inductive invariant of the create protocol, kept by every move. */
module CreateInvariant {
  import opened Prelude
  import opened Idempotency
  import opened PaymentStore
  import opened CreateProtocol
  import Failover

  /** `id` is the payment stored for key `k`, and it was made for fingerprint `f`. */
  predicate Stored(st: Store, k: Key, id: PaymentId, f: Fingerprint) {
    && k in st.keys && st.keys[k] == id
    && id in st.payments && st.payments[id].fingerprint == f
  }

  /** The claim named `e` is the one on `k` that is not aborted; it may be completed. */
  predicate Names(c: Coordinator, k: Key, f: Fingerprint, e: EventId) {
    && k in c.records && k in c.events && c.events[k] == e && c.records[k].fingerprint == f
  }

  predicate Owns(c: Coordinator, k: Key, f: Fingerprint, e: EventId) {
    Names(c, k, f, e) && c.Pending(k)
  }

  /** A payment under construction: its id was issued to `t` and its key has no payment yet. */
  predicate Fresh(w: World, t: TaskId, k: Key, id: PaymentId) {
    && k !in w.store.keys
    && id !in w.store.payments && id !in w.lost && id in w.author && w.author[id] == t
  }

  ghost predicate Charged(charges: seq<Charge>, id: PaymentId) {
    exists i :: 0 <= i < |charges| && charges[i].id == id
  }

  /** The attempt history is the trace of a complete run of the failover loops. */
  ghost predicate HistoryOk(cfg: Config, p: Payment) {
    exists ordered: seq<string>, ending: Failover.Ending ::
      && Eligible(cfg, ordered) && ending.Charge? == p.succeeded
      && Failover.Ended(cfg.maxAttempts, ordered, p.attempts, ending, p.provider)
  }

  /** What is true of a task that holds a claim, at each of its program counters. */
  ghost predicate HolderOk(cfg: Config, w: World, t: TaskId, task: Task)
    requires Holding(task.pc)
  {
    var k, f, e := task.key, task.fingerprint, task.pc.claim;
    && e in w.claimant && w.claimant[e] == t
    && Names(w.coordinator, k, f, e)
    && (task.pc.Aborting? || w.coordinator.Pending(k))
    && match task.pc
       case Looking(_) => true
       case Routing(_, id) => Fresh(w, t, k, id)
       case Trying(_, id, ordered, loop) =>
         Fresh(w, t, k, id) && Eligible(cfg, ordered) && Failover.LoopOk(cfg.maxAttempts, ordered, loop)
       case Saving(_, p) =>
         && Fresh(w, t, k, p.id) && p.key == k && p.fingerprint == f
         && HistoryOk(cfg, p) && (p.succeeded ==> Charged(w.charges, p.id))
       case Finishing(_, id, _) => Stored(w.store, k, id, f)
       case Aborting(_) => true
  }

  ghost predicate TaskOk(cfg: Config, w: World, t: TaskId, task: Task) {
    var k, f := task.key, task.fingerprint;
    if Holding(task.pc) then HolderOk(cfg, w, t, task)
    else match task.pc
      case Entering => true
      case Waiting(e) =>
        e < w.coordinator.nextEvent && (e !in w.coordinator.signalled ==> Owns(w.coordinator, k, f, e))
      case Replaying(found) => found.Some? && Stored(w.store, k, found.value, f)
      case Returned(id) => Stored(w.store, k, id, f)
      case Raised => true
      case Missing => false
  }

  ghost predicate TasksOk(cfg: Config, s: System) {
    forall t :: t in s.tasks ==> TaskOk(cfg, s.world, t, s.tasks[t])
  }

  ghost predicate PaymentOk(cfg: Config, w: World, id: PaymentId)
    requires id in w.store.payments
  {
    var p := w.store.payments[id];
    && p.id == id && id in w.author
    && p.key in w.store.keys && w.store.keys[p.key] == id
    && HistoryOk(cfg, p) && (p.succeeded ==> Charged(w.charges, id))
  }

  ghost predicate StoreOk(cfg: Config, w: World) {
    && (forall k :: k in w.store.keys ==>
          w.store.keys[k] in w.store.payments && w.store.payments[w.store.keys[k]].key == k)
    && (forall id :: id in w.store.payments ==> PaymentOk(cfg, w, id))
    && (forall id :: id in w.author ==> id < w.nextId)
    && (forall id :: id in w.lost ==> id in w.author)
  }

  /** A completed record names the stored payment; a pending one has its claimant at work, or was leaked. */
  ghost predicate RecordOk(s: System, k: Key)
    requires k in s.world.coordinator.records && k in s.world.coordinator.events
  {
    var r, e := s.world.coordinator.records[k], s.world.coordinator.events[k];
    if r.completed then r.paymentId.Some? && Stored(s.world.store, k, r.paymentId.value, r.fingerprint)
    else
      || e in s.world.leaked
      || (e in s.world.claimant && AtWork(s.tasks, s.world.claimant[e], e, k))
  }

  predicate AtWork(tasks: map<TaskId, Task>, t: TaskId, e: EventId, k: Key) {
    t in tasks && Holding(tasks[t].pc) && tasks[t].pc.claim == e && tasks[t].key == k
  }

  ghost predicate RecordsOk(s: System) {
    && s.world.coordinator.Valid()
    && forall k :: k in s.world.coordinator.records ==> RecordOk(s, k)
  }

  /** A successful charge is lost, or stored as a success, or about to be saved. */
  ghost predicate ChargeOk(s: System, c: Charge) {
    && c.id in s.world.author && s.world.author[c.id] == c.task
    && c.task in s.tasks && s.tasks[c.task].key == c.key
    && if c.id in s.world.lost then c.id !in s.world.store.payments
       else if c.id in s.world.store.payments then
         s.world.store.payments[c.id].succeeded && s.world.store.payments[c.id].key == c.key
       else
         var pc := s.tasks[c.task].pc;
         pc.Saving? && pc.payment.id == c.id && pc.payment.succeeded
  }

  ghost predicate ChargesOk(s: System) {
    && (forall i :: 0 <= i < |s.world.charges| ==> ChargeOk(s, s.world.charges[i]))
    && (forall i, j :: 0 <= i < j < |s.world.charges| ==> s.world.charges[i].id != s.world.charges[j].id)
  }

  ghost predicate Inv(cfg: Config, s: System) {
    TasksOk(cfg, s) && StoreOk(cfg, s.world) && RecordsOk(s) && ChargesOk(s)
  }

  // ---------------------------------------------------------------- one lemma per kind of move

  function Moved(s: System, w: World, t: TaskId, pc: PC): System
    requires t in s.tasks
  {
    System(w, s.tasks[t := s.tasks[t].(pc := pc)])
  }

  /** Payments and charges are untouched by a move that is not about them. */
  ghost predicate SamePayments(w: World, w': World) {
    && w'.store == w.store && w'.charges == w.charges && w'.lost == w.lost && w'.nextId >= w.nextId
    && (forall id :: id in w.author ==> id in w'.author && w'.author[id] == w.author[id])
    && (forall id :: id in w'.author ==> id < w'.nextId)
  }

  lemma PaymentsFrame(cfg: Config, s: System, w': World, t: TaskId, pc: PC)
    requires StoreOk(cfg, s.world) && ChargesOk(s) && SamePayments(s.world, w')
    requires t in s.tasks && !s.tasks[t].pc.Saving?
    ensures StoreOk(cfg, w') && ChargesOk(Moved(s, w', t, pc))
  {
    forall i | 0 <= i < |s.world.charges| ensures ChargeOk(Moved(s, w', t, pc), s.world.charges[i]) {
      assert ChargeOk(s, s.world.charges[i]);
    }
    forall id | id in s.world.store.payments ensures PaymentOk(cfg, w', id) {
      assert PaymentOk(cfg, s.world, id);
    }
  }

  /** A move that changes nothing but its own program counter. */
  lemma LocalMove(cfg: Config, s: System, t: TaskId, pc: PC)
    requires Inv(cfg, s) && t in s.tasks && !s.tasks[t].pc.Saving?
    requires Holding(s.tasks[t].pc) ==> Holding(pc) && pc.claim == s.tasks[t].pc.claim
    requires TaskOk(cfg, s.world, t, s.tasks[t].(pc := pc))
    ensures Inv(cfg, Moved(s, s.world, t, pc))
  {
    var s' := Moved(s, s.world, t, pc);
    forall k | k in s.world.coordinator.records ensures RecordOk(s', k) {
      assert RecordOk(s, k);
    }
    PaymentsFrame(cfg, s, s.world, t, pc);
  }

  /** Two tasks that hold claims on the same key are the same task. */
  lemma SameHolder(cfg: Config, w: World, t: TaskId, task: Task, u: TaskId, other: Task)
    requires TaskOk(cfg, w, t, task) && TaskOk(cfg, w, u, other)
    requires Holding(task.pc) && Holding(other.pc) && task.key == other.key
    ensures t == u
  {
  }

  // A claim is issued.

  function Issued(w: World, t: TaskId, c: Coordinator): World {
    w.(coordinator := c, claimant := w.claimant[w.coordinator.nextEvent := t])
  }

  lemma ClaimOther(cfg: Config, w: World, t: TaskId, k: Key, f: Fingerprint, u: TaskId, other: Task)
    requires w.coordinator.Valid() && k !in w.coordinator.records && TaskOk(cfg, w, u, other)
    ensures TaskOk(cfg, Issued(w, t, Acquire(w.coordinator, k, f).coordinator), u, other)
  {
  }

  lemma ClaimRecords(s: System, t: TaskId, s': System)
    requires RecordsOk(s) && t in s.tasks && s.tasks[t].pc.Entering?
    requires s.tasks[t].key !in s.world.coordinator.records
    requires var c := Acquire(s.world.coordinator, s.tasks[t].key, s.tasks[t].fingerprint).coordinator;
             s' == Moved(s, Issued(s.world, t, c), t, Looking(s.world.coordinator.nextEvent))
    ensures RecordsOk(s')
  {
    forall l | l in s'.world.coordinator.records ensures RecordOk(s', l) {
      if l != s.tasks[t].key {
        assert RecordOk(s, l);
      }
    }
  }

  lemma ClaimMove(cfg: Config, s: System, t: TaskId)
    requires Inv(cfg, s) && t in s.tasks && s.tasks[t].pc.Entering?
    requires s.tasks[t].key !in s.world.coordinator.records
    ensures var c := Acquire(s.world.coordinator, s.tasks[t].key, s.tasks[t].fingerprint).coordinator;
            Inv(cfg, Moved(s, Issued(s.world, t, c), t, Looking(s.world.coordinator.nextEvent)))
  {
    var k, f, pc := s.tasks[t].key, s.tasks[t].fingerprint, Looking(s.world.coordinator.nextEvent);
    var w' := Issued(s.world, t, Acquire(s.world.coordinator, k, f).coordinator);
    var s' := Moved(s, w', t, pc);
    forall u | u in s'.tasks ensures TaskOk(cfg, w', u, s'.tasks[u]) {
      if u != t {
        ClaimOther(cfg, s.world, t, k, f, u, s.tasks[u]);
      }
    }
    ClaimRecords(s, t, s');
    PaymentsFrame(cfg, s, w', t, pc);
  }

  // A payment id is issued.

  function Authored(w: World, t: TaskId): World {
    w.(nextId := w.nextId + 1, author := w.author[w.nextId := t])
  }

  lemma AuthorOther(cfg: Config, w: World, t: TaskId, u: TaskId, other: Task)
    requires StoreOk(cfg, w) && TaskOk(cfg, w, u, other)
    ensures TaskOk(cfg, Authored(w, t), u, other)
  {
  }

  lemma AuthorMove(cfg: Config, s: System, t: TaskId)
    requires Inv(cfg, s) && t in s.tasks && s.tasks[t].pc.Looking? && s.tasks[t].key !in s.world.store.keys
    ensures Inv(cfg, Moved(s, Authored(s.world, t), t, Routing(s.tasks[t].pc.claim, s.world.nextId)))
  {
    var pc, w' := Routing(s.tasks[t].pc.claim, s.world.nextId), Authored(s.world, t);
    var s' := Moved(s, w', t, pc);
    forall u | u in s'.tasks ensures TaskOk(cfg, w', u, s'.tasks[u]) {
      AuthorOther(cfg, s.world, t, u, s.tasks[u]);
      assert s.world.nextId !in s.world.store.payments;
    }
    forall l | l in s.world.coordinator.records ensures RecordOk(s', l) {
      assert RecordOk(s, l);
    }
    PaymentsFrame(cfg, s, w', t, pc);
  }

  // A provider call succeeds.

  function Billed(w: World, c: Charge): World {
    w.(charges := w.charges + [c])
  }

  lemma ChargedMore(charges: seq<Charge>, c: Charge, id: PaymentId)
    requires Charged(charges, id) || c.id == id
    ensures Charged(charges + [c], id)
  {
    if Charged(charges, id) {
      var i :| 0 <= i < |charges| && charges[i].id == id;
      assert (charges + [c])[i].id == id;
    } else {
      assert (charges + [c])[|charges|].id == id;
    }
  }

  lemma BillOther(cfg: Config, w: World, c: Charge, u: TaskId, other: Task)
    requires TaskOk(cfg, w, u, other)
    ensures TaskOk(cfg, Billed(w, c), u, other)
  {
    if other.pc.Saving? && other.pc.payment.succeeded {
      ChargedMore(w.charges, c, other.pc.payment.id);
    }
  }

  lemma BillCharges(cfg: Config, s: System, t: TaskId, pc: PC)
    requires ChargesOk(s) && t in s.tasks && s.tasks[t].pc.Trying? && TaskOk(cfg, s.world, t, s.tasks[t])
    requires pc.Saving? && pc.payment.id == s.tasks[t].pc.id && pc.payment.succeeded
    ensures ChargesOk(Moved(s, Billed(s.world, Charge(t, s.tasks[t].key, pc.payment.id)), t, pc))
  {
    var c := Charge(t, s.tasks[t].key, pc.payment.id);
    var s' := Moved(s, Billed(s.world, c), t, pc);
    forall i | 0 <= i < |s'.world.charges|
      ensures ChargeOk(s', s'.world.charges[i])
      ensures i < |s.world.charges| ==> s.world.charges[i].id != c.id
    {
      if i < |s.world.charges| {
        assert ChargeOk(s, s.world.charges[i]);
      }
    }
  }

  lemma BillMove(cfg: Config, s: System, t: TaskId, pc: PC)
    requires Inv(cfg, s) && t in s.tasks && s.tasks[t].pc.Trying?
    requires pc.Saving? && pc.claim == s.tasks[t].pc.claim && pc.payment.succeeded
    requires pc.payment.id == s.tasks[t].pc.id && pc.payment.key == s.tasks[t].key
    requires pc.payment.fingerprint == s.tasks[t].fingerprint && HistoryOk(cfg, pc.payment)
    ensures Inv(cfg, Moved(s, Billed(s.world, Charge(t, s.tasks[t].key, pc.payment.id)), t, pc))
  {
    var c := Charge(t, s.tasks[t].key, pc.payment.id);
    var w' := Billed(s.world, c);
    var s' := Moved(s, w', t, pc);
    ChargedMore(s.world.charges, c, c.id);
    forall u | u in s'.tasks ensures TaskOk(cfg, w', u, s'.tasks[u]) {
      BillOther(cfg, s.world, c, u, s.tasks[u]);
    }
    forall l | l in s.world.coordinator.records ensures RecordOk(s', l) {
      assert RecordOk(s, l);
    }
    forall id | id in w'.store.payments ensures PaymentOk(cfg, w', id) {
      assert PaymentOk(cfg, s.world, id);
      if s.world.store.payments[id].succeeded {
        ChargedMore(s.world.charges, c, id);
      }
    }
    BillCharges(cfg, s, t, pc);
  }

  // The payment is saved.

  function Kept(w: World, p: Payment): World {
    w.(store := Save(w.store, p))
  }

  lemma SaveOther(cfg: Config, w: World, t: TaskId, task: Task, u: TaskId, other: Task)
    requires TaskOk(cfg, w, t, task) && task.pc.Saving? && TaskOk(cfg, w, u, other) && u != t
    ensures TaskOk(cfg, Kept(w, task.pc.payment), u, other)
  {
    if Holding(other.pc) && other.key == task.key {
      SameHolder(cfg, w, t, task, u, other);
    }
  }

  lemma SaveStore(cfg: Config, w: World, t: TaskId, task: Task)
    requires StoreOk(cfg, w) && TaskOk(cfg, w, t, task) && task.pc.Saving?
    ensures StoreOk(cfg, Kept(w, task.pc.payment))
  {
    var p, w' := task.pc.payment, Kept(w, task.pc.payment);
    forall id | id in w'.store.payments ensures PaymentOk(cfg, w', id) {
      if id != p.id {
        assert PaymentOk(cfg, w, id);
      }
    }
  }

  /** The state in which task `t` has saved its payment. */
  function Saved(s: System, t: TaskId): System
    requires t in s.tasks && s.tasks[t].pc.Saving?
  {
    var pc := s.tasks[t].pc;
    Moved(s, Kept(s.world, pc.payment), t, Finishing(pc.claim, pc.payment.id, pc.payment.succeeded))
  }

  lemma SaveRecords(cfg: Config, s: System, t: TaskId)
    requires RecordsOk(s) && t in s.tasks && s.tasks[t].pc.Saving? && TaskOk(cfg, s.world, t, s.tasks[t])
    ensures RecordsOk(Saved(s, t))
  {
    forall l | l in s.world.coordinator.records ensures RecordOk(Saved(s, t), l) {
      assert RecordOk(s, l);
    }
  }

  lemma SaveCharges(cfg: Config, s: System, t: TaskId)
    requires ChargesOk(s) && t in s.tasks && s.tasks[t].pc.Saving? && TaskOk(cfg, s.world, t, s.tasks[t])
    ensures ChargesOk(Saved(s, t))
  {
    forall i | 0 <= i < |s.world.charges| ensures ChargeOk(Saved(s, t), s.world.charges[i]) {
      assert ChargeOk(s, s.world.charges[i]);
    }
  }

  lemma SaveMove(cfg: Config, s: System, t: TaskId)
    requires Inv(cfg, s) && t in s.tasks && s.tasks[t].pc.Saving?
    ensures Inv(cfg, Saved(s, t))
  {
    var task, s' := s.tasks[t], Saved(s, t);
    forall u | u in s'.tasks ensures TaskOk(cfg, s'.world, u, s'.tasks[u]) {
      if u != t {
        SaveOther(cfg, s.world, t, task, u, s.tasks[u]);
      }
    }
    SaveStore(cfg, s.world, t, task);
    SaveRecords(cfg, s, t);
    SaveCharges(cfg, s, t);
  }

  // The claim is completed or given up.

  /** Only the record and the event of key `k` change, and that event ends up set. */
  ghost predicate Settles(c: Coordinator, c': Coordinator, k: Key) {
    && c.Valid() && c'.Valid() && k in c.records
    && c'.events == c.events && c'.nextEvent == c.nextEvent && c'.signalled == c.signalled + {c.events[k]}
    && (forall l :: l != k ==> (l in c'.records <==> l in c.records))
    && (forall l :: l != k && l in c.records ==> c'.records[l] == c.records[l])
  }

  lemma SettleOther(cfg: Config, w: World, c: Coordinator, t: TaskId, task: Task, u: TaskId, other: Task)
    requires TaskOk(cfg, w, t, task) && Holding(task.pc) && TaskOk(cfg, w, u, other) && u != t
    requires Settles(w.coordinator, c, task.key)
    ensures TaskOk(cfg, w.(coordinator := c), u, other)
  {
    if Holding(other.pc) && other.key == task.key {
      SameHolder(cfg, w, t, task, u, other);
    }
  }

  lemma SettleMove(cfg: Config, s: System, c: Coordinator, t: TaskId, pc: PC)
    requires Inv(cfg, s) && t in s.tasks && Holding(s.tasks[t].pc) && !s.tasks[t].pc.Saving?
    requires Settles(s.world.coordinator, c, s.tasks[t].key)
    requires TaskOk(cfg, s.world.(coordinator := c), t, s.tasks[t].(pc := pc))
    requires var k := s.tasks[t].key;
             k in c.records ==> c.records[k].completed && c.records[k].paymentId.Some?
                                && Stored(s.world.store, k, c.records[k].paymentId.value, c.records[k].fingerprint)
    ensures Inv(cfg, Moved(s, s.world.(coordinator := c), t, pc))
  {
    var w' := s.world.(coordinator := c);
    var s' := Moved(s, w', t, pc);
    forall u | u in s'.tasks ensures TaskOk(cfg, w', u, s'.tasks[u]) {
      if u != t {
        SettleOther(cfg, s.world, c, t, s.tasks[t], u, s.tasks[u]);
      }
    }
    forall l | l in c.records ensures RecordOk(s', l) {
      if l != s.tasks[t].key {
        assert RecordOk(s, l);
      }
    }
    PaymentsFrame(cfg, s, w', t, pc);
  }

  /** A task about to complete always finds its claim. */
  lemma FinishSettles(cfg: Config, w: World, t: TaskId, task: Task)
    requires w.coordinator.Valid() && TaskOk(cfg, w, t, task) && task.pc.Finishing?
    ensures var r := Complete(w.coordinator, task.key, task.fingerprint, task.pc.id);
            r.Some? && Settles(w.coordinator, r.value, task.key)
  {
  }

  lemma FinishMove(cfg: Config, s: System, t: TaskId, raisesAfter: bool)
    requires Inv(cfg, s) && t in s.tasks && s.tasks[t].pc.Finishing?
    ensures var r := AfterFinish(s.world, s.tasks[t], raisesAfter); Inv(cfg, Moved(s, r.world, t, r.pc))
  {
    var task := s.tasks[t];
    FinishSettles(cfg, s.world, t, task);
    var c := Complete(s.world.coordinator, task.key, task.fingerprint, task.pc.id).value;
    SettleMove(cfg, s, c, t, AfterFinish(s.world, task, raisesAfter).pc);
  }

  /** An abort of a pending claim deletes the record and sets the event; of a completed one, nothing. */
  lemma AbortSettles(cfg: Config, s: System, t: TaskId)
    requires Inv(cfg, s) && t in s.tasks && s.tasks[t].pc.Aborting?
    ensures var k, c := s.tasks[t].key, s.world.coordinator;
            var c' := Abort(c, k, s.tasks[t].fingerprint);
            && Settles(c, c', k)
            && (k in c'.records ==>
                  && c'.records[k].completed && c'.records[k].paymentId.Some?
                  && Stored(s.world.store, k, c'.records[k].paymentId.value, c'.records[k].fingerprint))
  {
    var k, c := s.tasks[t].key, s.world.coordinator;
    assert TaskOk(cfg, s.world, t, s.tasks[t]);
    if !c.Pending(k) {
      assert c.signalled == c.signalled + {c.events[k]};
      assert RecordOk(s, k);
    }
  }

  lemma AbortMove(cfg: Config, s: System, t: TaskId)
    requires Inv(cfg, s) && t in s.tasks && s.tasks[t].pc.Aborting?
    ensures var r := AfterAbort(s.world, s.tasks[t]); Inv(cfg, Moved(s, r.world, t, r.pc))
  {
    AbortSettles(cfg, s, t);
    SettleMove(cfg, s, Abort(s.world.coordinator, s.tasks[t].key, s.tasks[t].fingerprint), t, Raised);
  }

  // Interruptions that leave a mark.

  lemma LoseMove(cfg: Config, s: System, t: TaskId)
    requires Inv(cfg, s) && t in s.tasks && s.tasks[t].pc.Saving?
    ensures var r := AfterInterrupt(s.world, s.tasks[t]); Inv(cfg, Moved(s, r.world, t, r.pc))
  {
    var task := s.tasks[t];
    var r := AfterInterrupt(s.world, task);
    var s' := Moved(s, r.world, t, r.pc);
    assert TaskOk(cfg, s.world, t, task);
    forall u | u in s'.tasks ensures TaskOk(cfg, r.world, u, s'.tasks[u]) {
      assert TaskOk(cfg, s.world, u, s.tasks[u]);
    }
    forall l | l in s.world.coordinator.records ensures RecordOk(s', l) {
      assert RecordOk(s, l);
    }
    LoseCharges(cfg, s, t);
    forall id | id in s.world.store.payments ensures PaymentOk(cfg, r.world, id) {
      assert PaymentOk(cfg, s.world, id);
    }
  }

  lemma LoseCharges(cfg: Config, s: System, t: TaskId)
    requires ChargesOk(s) && t in s.tasks && s.tasks[t].pc.Saving? && TaskOk(cfg, s.world, t, s.tasks[t])
    ensures var r := AfterInterrupt(s.world, s.tasks[t]); ChargesOk(Moved(s, r.world, t, r.pc))
  {
    var r := AfterInterrupt(s.world, s.tasks[t]);
    forall i | 0 <= i < |s.world.charges| ensures ChargeOk(Moved(s, r.world, t, r.pc), s.world.charges[i]) {
      assert ChargeOk(s, s.world.charges[i]);
    }
  }

  lemma LeakMove(cfg: Config, s: System, t: TaskId)
    requires Inv(cfg, s) && t in s.tasks && s.tasks[t].pc.Aborting?
    ensures Inv(cfg, Moved(s, s.world.(leaked := s.world.leaked + {s.tasks[t].pc.claim}), t, Raised))
  {
    var w' := s.world.(leaked := s.world.leaked + {s.tasks[t].pc.claim});
    var s' := Moved(s, w', t, Raised);
    forall u | u in s'.tasks ensures TaskOk(cfg, w', u, s'.tasks[u]) {
      assert TaskOk(cfg, s.world, u, s.tasks[u]);
    }
    forall l | l in s.world.coordinator.records ensures RecordOk(s', l) {
      assert RecordOk(s, l);
    }
    PaymentsFrame(cfg, s, w', t, Raised);
  }

  // The remaining moves.

  lemma AcquireMove(cfg: Config, s: System, t: TaskId)
    requires Inv(cfg, s) && t in s.tasks && s.tasks[t].pc.Entering?
    ensures var r := AfterAcquire(s.world, t, s.tasks[t]); Inv(cfg, Moved(s, r.world, t, r.pc))
  {
    var task, c := s.tasks[t], s.world.coordinator;
    if task.key !in c.records {
      ClaimMove(cfg, s, t);
    } else {
      assert RecordOk(s, task.key);
      LocalMove(cfg, s, t, AfterAcquire(s.world, t, task).pc);
    }
  }

  lemma LookMove(cfg: Config, s: System, t: TaskId)
    requires Inv(cfg, s) && t in s.tasks && s.tasks[t].pc.Looking?
    ensures var r := AfterLook(s.world, t, s.tasks[t]); Inv(cfg, Moved(s, r.world, t, r.pc))
  {
    var task := s.tasks[t];
    assert TaskOk(cfg, s.world, t, task);
    if task.key in s.world.store.keys {
      assert PaymentOk(cfg, s.world, s.world.store.keys[task.key]);
      LocalMove(cfg, s, t, AfterLook(s.world, t, task).pc);
    } else {
      AuthorMove(cfg, s, t);
    }
  }

  lemma {:induction false} WithoutEligible(cfg: Config, names: seq<string>, name: string)
    requires Eligible(cfg, names)
    ensures Eligible(cfg, Without(names, name))
    ensures forall p :: p in Without(names, name) ==> p in names && p != name
  {
    if names != [] {
      assert names[0] !in names[1..];
      WithoutEligible(cfg, names[1..], name);
    }
  }

  lemma RouteMove(cfg: Config, s: System, t: TaskId, healthy: seq<string>, chosen: string)
    requires cfg.Valid() && Inv(cfg, s) && t in s.tasks && s.tasks[t].pc.Routing?
    requires Eligible(cfg, healthy) && (healthy != [] ==> chosen in healthy)
    ensures var r := AfterRoute(s.world, s.tasks[t], healthy, chosen); Inv(cfg, Moved(s, r.world, t, r.pc))
  {
    var task := s.tasks[t];
    assert TaskOk(cfg, s.world, t, task);
    if healthy != [] {
      WithoutEligible(cfg, healthy, chosen);
      Failover.StartOk(cfg.maxAttempts, [chosen] + Without(healthy, chosen));
    }
    LocalMove(cfg, s, t, AfterRoute(s.world, task, healthy, chosen).pc);
  }

  lemma OperateMove(cfg: Config, s: System, t: TaskId, outcome: Failover.Outcome)
    requires Inv(cfg, s) && t in s.tasks && s.tasks[t].pc.Trying?
    ensures var r := AfterOperate(cfg, s.world, t, s.tasks[t], outcome); Inv(cfg, Moved(s, r.world, t, r.pc))
  {
    var task := s.tasks[t];
    assert TaskOk(cfg, s.world, t, task);
    Failover.StepKeepsHistory(cfg.maxAttempts, task.pc.ordered, task.pc.loop, outcome);
    var r := AfterOperate(cfg, s.world, t, task, outcome);
    var phase := Failover.Step(cfg.maxAttempts, task.pc.ordered, task.pc.loop, outcome);
    if phase.Won? {
      assert HistoryOk(cfg, r.pc.payment);
      BillMove(cfg, s, t, r.pc);
    } else {
      if phase.Lost? {
        assert HistoryOk(cfg, r.pc.payment);
      }
      LocalMove(cfg, s, t, r.pc);
    }
  }

  lemma InterruptMove(cfg: Config, s: System, t: TaskId)
    requires Inv(cfg, s) && t in s.tasks
    ensures var r := AfterInterrupt(s.world, s.tasks[t]); Inv(cfg, Moved(s, r.world, t, r.pc))
  {
    var task := s.tasks[t];
    assert TaskOk(cfg, s.world, t, task);
    if task.pc.Aborting? {
      LeakMove(cfg, s, t);
    } else if task.pc.Saving? {
      LoseMove(cfg, s, t);
    } else {
      LocalMove(cfg, s, t, AfterInterrupt(s.world, task).pc);
    }
  }

  lemma SpawnMove(cfg: Config, s: System, t: TaskId, task: Task)
    requires Inv(cfg, s) && t !in s.tasks && task.pc.Entering?
    ensures Inv(cfg, s.(tasks := s.tasks[t := task]))
  {
    var s' := s.(tasks := s.tasks[t := task]);
    forall l | l in s.world.coordinator.records ensures RecordOk(s', l) {
      assert RecordOk(s, l);
    }
    forall i | 0 <= i < |s.world.charges| ensures ChargeOk(s', s.world.charges[i]) {
      assert ChargeOk(s, s.world.charges[i]);
    }
  }

  /** Every move keeps the invariant. */
  lemma MoveKeepsInv(cfg: Config, s: System, m: Move)
    requires cfg.Valid() && Inv(cfg, s) && Enabled(cfg, s, m)
    ensures Inv(cfg, Next(cfg, s, m))
  {
    match m
    case Spawn(t, k, f) => SpawnMove(cfg, s, t, Task(k, f, Entering));
    case TryAcquire(t) => AcquireMove(cfg, s, t);
    case Wake(t) => LocalMove(cfg, s, t, Entering);
    case Replay(t) =>
      assert TaskOk(cfg, s.world, t, s.tasks[t]);
      LocalMove(cfg, s, t, AfterReplay(s.world, s.tasks[t]).pc);
    case Look(t) => LookMove(cfg, s, t);
    case Route(t, healthy, chosen) => RouteMove(cfg, s, t, healthy, chosen);
    case Operate(t, outcome) => OperateMove(cfg, s, t, outcome);
    case SavePayment(t) => SaveMove(cfg, s, t);
    case Finish(t, raisesAfter) => FinishMove(cfg, s, t, raisesAfter);
    case RunAbort(t) => AbortMove(cfg, s, t);
    case Interrupt(t) => InterruptMove(cfg, s, t);
  }

  /** The invariant holds after every run. */
  lemma {:induction false} RunKeepsInv(cfg: Config, s: System, run: seq<Move>)
    requires cfg.Valid() && Inv(cfg, s) && IsRun(cfg, s, run)
    ensures Inv(cfg, Exec(cfg, s, run))
    decreases |run|
  {
    if run != [] {
      MoveKeepsInv(cfg, s, run[0]);
      RunKeepsInv(cfg, Next(cfg, s, run[0]), run[1..]);
    }
  }
}
