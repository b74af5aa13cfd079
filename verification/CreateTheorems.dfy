/** What the create protocol guarantees in every state of every run. */
module CreateTheorems {
  import opened Prelude
  import opened Idempotency
  import opened PaymentStore
  import opened CreateProtocol
  import opened CreateInvariant
  import Failover

  lemma Reached(cfg: Config, run: seq<Move>)
    requires cfg.Valid() && IsRun(cfg, INITIAL, run)
    ensures Inv(cfg, Exec(cfg, INITIAL, run))
  {
    RunKeepsInv(cfg, INITIAL, run);
  }

  // ---------------------------------------------------------------- idempotence

  ghost predicate OneHolderPerKey(s: System) {
    forall t, u ::
      && t in s.tasks && u in s.tasks && s.tasks[t].key == s.tasks[u].key
      && Holding(s.tasks[t].pc) && Holding(s.tasks[u].pc)
      ==> t == u
  }

  ghost predicate OnePaymentPerKey(st: Store) {
    forall i, j :: i in st.payments && j in st.payments && st.payments[i].key == st.payments[j].key ==> i == j
  }

  ghost predicate RecordsNamePayments(w: World) {
    forall k :: k in w.coordinator.records && w.coordinator.records[k].completed ==>
      var r := w.coordinator.records[k];
      r.paymentId.Some? && Stored(w.store, k, r.paymentId.value, r.fingerprint)
  }

  ghost predicate ReturnsStored(s: System) {
    forall t :: t in s.tasks ==>
      var task := s.tasks[t];
      !task.pc.Missing? && (task.pc.Returned? ==> Stored(s.world.store, task.key, task.pc.id, task.fingerprint))
  }

  /**
   On one key at most one task holds the claim and at most one payment is stored; a completed
   record names that payment with its fingerprint; every task that returned a payment returned
   that one; and no task ever finds a completed record without its payment.
   */
  lemma IdempotentCreate(cfg: Config, run: seq<Move>)
    requires cfg.Valid() && IsRun(cfg, INITIAL, run)
    ensures var s := Exec(cfg, INITIAL, run);
            OneHolderPerKey(s) && OnePaymentPerKey(s.world.store) && RecordsNamePayments(s.world) && ReturnsStored(s)
  {
    Reached(cfg, run);
    var s := Exec(cfg, INITIAL, run);
    forall t, u |
      && t in s.tasks && u in s.tasks && s.tasks[t].key == s.tasks[u].key
      && Holding(s.tasks[t].pc) && Holding(s.tasks[u].pc)
      ensures t == u
    {
      SameHolder(cfg, s.world, t, s.tasks[t], u, s.tasks[u]);
    }
    var payments := s.world.store.payments;
    forall i, j | i in payments && j in payments && payments[i].key == payments[j].key ensures i == j {
      assert PaymentOk(cfg, s.world, i) && PaymentOk(cfg, s.world, j);
    }
    forall k | k in s.world.coordinator.records ensures RecordOk(s, k) {
    }
    forall t | t in s.tasks ensures TaskOk(cfg, s.world, t, s.tasks[t]) {
    }
  }

  /** `complete` never raises "claim is missing" inside `create`. */
  lemma CompleteAlwaysFindsClaim(cfg: Config, run: seq<Move>, t: TaskId)
    requires cfg.Valid() && IsRun(cfg, INITIAL, run)
    requires t in Exec(cfg, INITIAL, run).tasks && Exec(cfg, INITIAL, run).tasks[t].pc.Finishing?
    ensures var s := Exec(cfg, INITIAL, run);
            var task := s.tasks[t];
            s.world.coordinator.Valid() && Complete(s.world.coordinator, task.key, task.fingerprint, task.pc.id).Some?
  {
    Reached(cfg, run);
    var s := Exec(cfg, INITIAL, run);
    FinishSettles(cfg, s.world, t, s.tasks[t]);
  }

  // ---------------------------------------------------------------- permanence

  /** What has been stored for a key stays exactly as saved. */
  ghost predicate Extends(older: Store, newer: Store) {
    && (forall k :: k in older.keys ==> k in newer.keys && newer.keys[k] == older.keys[k])
    && (forall id :: id in older.payments ==> id in newer.payments && newer.payments[id] == older.payments[id])
  }

  lemma OnlySaveStores(cfg: Config, w: World, m: Move, task: Task)
    requires !m.Spawn? && Enabled(cfg, System(w, map[m.t := task]), m) && !m.SavePayment?
    ensures EffectOf(cfg, w, m, task).world.store == w.store
  {
  }

  lemma MoveExtends(cfg: Config, s: System, m: Move)
    requires Inv(cfg, s) && Enabled(cfg, s, m)
    ensures Extends(s.world.store, Next(cfg, s, m).world.store)
  {
    if m.SavePayment? {
      assert TaskOk(cfg, s.world, m.t, s.tasks[m.t]);
    } else if !m.Spawn? {
      OnlySaveStores(cfg, s.world, m, s.tasks[m.t]);
    }
  }

  lemma {:induction false} StoredForever(cfg: Config, s: System, run: seq<Move>)
    requires cfg.Valid() && Inv(cfg, s) && IsRun(cfg, s, run)
    ensures Extends(s.world.store, Exec(cfg, s, run).world.store)
    decreases |run|
  {
    if run != [] {
      MoveExtends(cfg, s, run[0]);
      MoveKeepsInv(cfg, s, run[0]);
      StoredForever(cfg, Next(cfg, s, run[0]), run[1..]);
    }
  }

  /**
   No move of `create` changes the payment of a key once it is stored: not its id, not the status
   it was saved with, not its attempts.
   */
  lemma PaymentNeverChanges(cfg: Config, before: seq<Move>, after: seq<Move>)
    requires cfg.Valid() && IsRun(cfg, INITIAL, before) && IsRun(cfg, Exec(cfg, INITIAL, before), after)
    ensures var s := Exec(cfg, INITIAL, before);
            Extends(s.world.store, Exec(cfg, s, after).world.store)
  {
    Reached(cfg, before);
    StoredForever(cfg, Exec(cfg, INITIAL, before), after);
  }

  // ---------------------------------------------------------------- waiting

  /**
   No lost wake-up.  A blocked waiter's event is set, or the very claim it observed is still
   pending; and then another task is at work on that claim, unless its abort was interrupted.
   */
  lemma NoLostWakeup(cfg: Config, run: seq<Move>, t: TaskId)
    requires cfg.Valid() && IsRun(cfg, INITIAL, run)
    requires t in Exec(cfg, INITIAL, run).tasks && Exec(cfg, INITIAL, run).tasks[t].pc.Waiting?
    ensures var s := Exec(cfg, INITIAL, run);
            var w, k, e := s.world, s.tasks[t].key, s.tasks[t].pc.event;
            || e in w.coordinator.signalled
            || (&& Owns(w.coordinator, k, s.tasks[t].fingerprint, e)
                && (e !in w.leaked ==> e in w.claimant && w.claimant[e] != t && AtWork(s.tasks, w.claimant[e], e, k)))
  {
    Reached(cfg, run);
    var s := Exec(cfg, INITIAL, run);
    assert TaskOk(cfg, s.world, t, s.tasks[t]);
    var k := s.tasks[t].key;
    if s.tasks[t].pc.event !in s.world.coordinator.signalled {
      assert RecordOk(s, k);
    }
  }

  predicate Finished(pc: PC) {
    pc.Returned? || pc.Raised? || pc.Missing?
  }

  /** The move a task that is not blocked makes next, if nothing interrupts it. */
  function OwnMove(t: TaskId, pc: PC): Move {
    match pc
    case Entering => TryAcquire(t)
    case Waiting(_) => Wake(t)
    case Replaying(_) => Replay(t)
    case Looking(_) => Look(t)
    case Routing(_, _) => Route(t, [], "")
    case Trying(_, _, _, _) => Operate(t, Failover.Refused)
    case Saving(_, _) => SavePayment(t)
    case Finishing(_, _, _) => Finish(t, false)
    case Aborting(_) => RunAbort(t)
    case _ => Interrupt(t)
  }

  /**
   No deadlock: an unfinished task can always make a move of its own, or waits for a task that
   can, unless the claim it waits for was leaked by an interrupted abort.
   */
  lemma NeverStuck(cfg: Config, run: seq<Move>, t: TaskId)
    requires cfg.Valid() && IsRun(cfg, INITIAL, run)
    requires t in Exec(cfg, INITIAL, run).tasks && !Finished(Exec(cfg, INITIAL, run).tasks[t].pc)
    ensures var s := Exec(cfg, INITIAL, run);
            var pc := s.tasks[t].pc;
            || Enabled(cfg, s, OwnMove(t, pc))
            || (pc.Waiting? && pc.event in s.world.leaked)
            || (&& pc.Waiting? && pc.event in s.world.claimant
                && var h := s.world.claimant[pc.event];
                   h in s.tasks && Holding(s.tasks[h].pc) && Enabled(cfg, s, OwnMove(h, s.tasks[h].pc)))
  {
    Reached(cfg, run);
    var s := Exec(cfg, INITIAL, run);
    assert TaskOk(cfg, s.world, t, s.tasks[t]);
    if s.tasks[t].pc.Waiting? {
      NoLostWakeup(cfg, run, t);
      var e := s.tasks[t].pc.event;
      if e !in s.world.coordinator.signalled && e !in s.world.leaked {
        HolderCanMove(cfg, s, s.world.claimant[e]);
      }
    } else if Holding(s.tasks[t].pc) {
      HolderCanMove(cfg, s, t);
    }
  }

  lemma HolderCanMove(cfg: Config, s: System, h: TaskId)
    requires Inv(cfg, s) && h in s.tasks && Holding(s.tasks[h].pc)
    ensures Enabled(cfg, s, OwnMove(h, s.tasks[h].pc))
  {
    var task := s.tasks[h];
    assert TaskOk(cfg, s.world, h, task);
    if task.pc.Trying? {
      assert Failover.LoopOk(cfg.maxAttempts, task.pc.ordered, task.pc.loop);
    }
    MoveIsEnabled(cfg, s, h);
  }

  lemma MoveIsEnabled(cfg: Config, s: System, h: TaskId)
    requires h in s.tasks && Holding(s.tasks[h].pc) && s.world.coordinator.Valid()
    requires var pc := s.tasks[h].pc;
             pc.Trying? ==> Failover.InRange(cfg.maxAttempts, pc.ordered, Failover.Running(pc.loop))
    ensures Enabled(cfg, s, OwnMove(h, s.tasks[h].pc))
  {
    assert Eligible(cfg, []);
  }

  // ---------------------------------------------------------------- charges

  /** Two charges on one key that were both not lost are the same charge. */
  lemma LiveChargesCoincide(cfg: Config, s: System, a: Charge, b: Charge)
    requires Inv(cfg, s) && ChargeOk(s, a) && ChargeOk(s, b) && a.key == b.key
    requires a.id !in s.world.lost && b.id !in s.world.lost
    ensures a.id == b.id
  {
    assert TaskOk(cfg, s.world, a.task, s.tasks[a.task]) && TaskOk(cfg, s.world, b.task, s.tasks[b.task]);
    if a.id in s.world.store.payments {
      assert PaymentOk(cfg, s.world, a.id);
    }
    if b.id in s.world.store.payments {
      assert PaymentOk(cfg, s.world, b.id);
    }
    if s.tasks[a.task].pc.Saving? && s.tasks[b.task].pc.Saving? {
      SameHolder(cfg, s.world, a.task, s.tasks[a.task], b.task, s.tasks[b.task]);
    }
  }

  ghost predicate Unlost(w: World, k: Key) {
    forall i :: 0 <= i < |w.charges| && w.charges[i].key == k ==> w.charges[i].id !in w.lost
  }

  ghost predicate AtMostOneCharge(w: World, k: Key) {
    forall i, j ::
      0 <= i < |w.charges| && 0 <= j < |w.charges| && w.charges[i].key == k && w.charges[j].key == k ==> i == j
  }

  ghost predicate Quiet(s: System, k: Key) {
    forall t :: t in s.tasks && s.tasks[t].key == k ==> !s.tasks[t].pc.Saving?
  }

  predicate SavedAsSuccess(st: Store, k: Key) {
    k in st.keys && st.keys[k] in st.payments && st.payments[st.keys[k]].succeeded
  }

  /**
   If no charge of the key was lost, the key was charged at most once across all tasks, retries
   and providers; and once nobody is between a charge and its save, it was charged exactly when
   its stored payment was saved as SUCCEEDED.
   */
  lemma ChargedOnce(cfg: Config, run: seq<Move>, k: Key)
    requires cfg.Valid() && IsRun(cfg, INITIAL, run)
    requires Unlost(Exec(cfg, INITIAL, run).world, k)
    ensures var s := Exec(cfg, INITIAL, run);
            && AtMostOneCharge(s.world, k)
            && (Quiet(s, k) ==>
                  ((exists i :: 0 <= i < |s.world.charges| && s.world.charges[i].key == k)
                   <==> SavedAsSuccess(s.world.store, k)))
  {
    Reached(cfg, run);
    var s := Exec(cfg, INITIAL, run);
    var w := s.world;
    forall i, j | 0 <= i < |w.charges| && 0 <= j < |w.charges| && w.charges[i].key == k && w.charges[j].key == k
      ensures i == j
    {
      assert ChargeOk(s, w.charges[i]) && ChargeOk(s, w.charges[j]);
      LiveChargesCoincide(cfg, s, w.charges[i], w.charges[j]);
    }
    if Quiet(s, k) {
      forall i | 0 <= i < |w.charges| && w.charges[i].key == k ensures SavedAsSuccess(w.store, k) {
        assert ChargeOk(s, w.charges[i]);
        assert PaymentOk(cfg, w, w.charges[i].id);
      }
      if SavedAsSuccess(w.store, k) {
        assert PaymentOk(cfg, w, w.store.keys[k]);
        var i :| 0 <= i < |w.charges| && w.charges[i].id == w.store.keys[k];
        assert ChargeOk(s, w.charges[i]);
      }
    }
  }

  // ---------------------------------------------------------------- the balance of charges

  function ChargesOn(charges: seq<Charge>, k: Key): nat {
    if charges == [] then 0
    else ChargesOn(charges[..|charges| - 1], k) + if charges[|charges| - 1].key == k then 1 else 0
  }

  /** The charges on `k` whose payment was lost between the charge and the save. */
  function LostOn(charges: seq<Charge>, lost: set<PaymentId>, k: Key): nat {
    if charges == [] then 0
    else
      var c := charges[|charges| - 1];
      LostOn(charges[..|charges| - 1], lost, k) + if c.key == k && c.id in lost then 1 else 0
  }

  predicate LiveCharge(c: Charge, lost: set<PaymentId>, k: Key) {
    c.key == k && c.id !in lost
  }

  /** With at most one live charge on `k`, the others are the lost ones. */
  lemma {:induction false} CountCharges(charges: seq<Charge>, lost: set<PaymentId>, k: Key)
    requires forall i, j :: 0 <= i < j < |charges| ==>
               !(LiveCharge(charges[i], lost, k) && LiveCharge(charges[j], lost, k))
    ensures ChargesOn(charges, k)
         == LostOn(charges, lost, k)
            + if exists i :: 0 <= i < |charges| && LiveCharge(charges[i], lost, k) then 1 else 0
  {
    if charges != [] {
      var n := |charges| - 1;
      var init := charges[..n];
      CountCharges(init, lost, k);
      if i :| 0 <= i < n && LiveCharge(init[i], lost, k) {
        assert LiveCharge(charges[i], lost, k) && !LiveCharge(charges[n], lost, k);
      } else {
        assert forall i :: 0 <= i < n ==> charges[i] == init[i];
        assert LiveCharge(charges[n], lost, k) <==> exists i :: 0 <= i < |charges| && LiveCharge(charges[i], lost, k);
      }
    }
  }

  lemma {:induction false} NoneIsZero(charges: seq<Charge>, k: Key)
    ensures ChargesOn(charges, k) == 0 <==> forall i :: 0 <= i < |charges| ==> charges[i].key != k
  {
    if charges != [] {
      var n := |charges| - 1;
      NoneIsZero(charges[..n], k);
      assert forall i :: 0 <= i < n ==> charges[..n][i] == charges[i];
    }
  }

  lemma {:induction false} AtMostOneIsCount(w: World, k: Key)
    ensures AtMostOneCharge(w, k) <==> ChargesOn(w.charges, k) <= 1
    decreases |w.charges|
  {
    if w.charges != [] {
      var n := |w.charges| - 1;
      var init := w.charges[..n];
      AtMostOneIsCount(w.(charges := init), k);
      NoneIsZero(init, k);
      assert forall i :: 0 <= i < n ==> init[i] == w.charges[i];
      if w.charges[n].key != k {
        assert AtMostOneCharge(w, k) <==> AtMostOneCharge(w.(charges := init), k);
      } else if i :| 0 <= i < n && init[i].key == k {
        assert w.charges[i].key == k && i != n;
      }
    }
  }

  /** A task stands between a charge on `k` and its save. */
  ghost predicate SavingSuccess(s: System, k: Key) {
    exists t :: t in s.tasks && s.tasks[t].key == k && s.tasks[t].pc.Saving? && s.tasks[t].pc.payment.succeeded
  }

  /** The key's charge is accounted for: saved as SUCCEEDED, or about to be. */
  ghost predicate Accounted(s: System, k: Key) {
    SavedAsSuccess(s.world.store, k) || SavingSuccess(s, k)
  }

  lemma LiveMeansAccounted(cfg: Config, s: System, c: Charge)
    requires Inv(cfg, s) && ChargeOk(s, c) && c.id !in s.world.lost
    ensures Accounted(s, c.key)
  {
    if c.id in s.world.store.payments {
      assert PaymentOk(cfg, s.world, c.id);
    }
  }

  lemma AccountedMeansLive(cfg: Config, s: System, k: Key)
    requires Inv(cfg, s) && Accounted(s, k)
    ensures exists i :: 0 <= i < |s.world.charges| && LiveCharge(s.world.charges[i], s.world.lost, k)
  {
    var w := s.world;
    if SavedAsSuccess(w.store, k) {
      assert PaymentOk(cfg, w, w.store.keys[k]);
      var i :| 0 <= i < |w.charges| && w.charges[i].id == w.store.keys[k];
      assert ChargeOk(s, w.charges[i]);
      assert LiveCharge(w.charges[i], w.lost, k);
    } else {
      var t :| t in s.tasks && s.tasks[t].key == k && s.tasks[t].pc.Saving? && s.tasks[t].pc.payment.succeeded;
      assert TaskOk(cfg, w, t, s.tasks[t]);
      var i :| 0 <= i < |w.charges| && w.charges[i].id == s.tasks[t].pc.payment.id;
      assert ChargeOk(s, w.charges[i]);
      assert LiveCharge(w.charges[i], w.lost, k);
    }
  }

  /**
   The exact law, for every run and every key: the charges are the lost ones, and one more if
   the key's payment is saved as SUCCEEDED or about to be.  So the key was charged at most once
   if and only if no charge was lost, or a single one was and no payment accounts for another.
   */
  lemma ChargesBalance(cfg: Config, run: seq<Move>, k: Key)
    requires cfg.Valid() && IsRun(cfg, INITIAL, run)
    ensures var s := Exec(cfg, INITIAL, run);
            var lost := LostOn(s.world.charges, s.world.lost, k);
            && ChargesOn(s.world.charges, k) == lost + (if Accounted(s, k) then 1 else 0)
            && (AtMostOneCharge(s.world, k) <==> lost == 0 || (lost == 1 && !Accounted(s, k)))
  {
    Reached(cfg, run);
    var s := Exec(cfg, INITIAL, run);
    var w := s.world;
    forall i, j | 0 <= i < j < |w.charges|
      ensures !(LiveCharge(w.charges[i], w.lost, k) && LiveCharge(w.charges[j], w.lost, k))
    {
      assert ChargeOk(s, w.charges[i]) && ChargeOk(s, w.charges[j]);
      if LiveCharge(w.charges[i], w.lost, k) && LiveCharge(w.charges[j], w.lost, k) {
        LiveChargesCoincide(cfg, s, w.charges[i], w.charges[j]);
      }
    }
    CountCharges(w.charges, w.lost, k);
    AtMostOneIsCount(w, k);
    if i :| 0 <= i < |w.charges| && LiveCharge(w.charges[i], w.lost, k) {
      assert ChargeOk(s, w.charges[i]);
      LiveMeansAccounted(cfg, s, w.charges[i]);
    }
    if Accounted(s, k) {
      AccountedMeansLive(cfg, s, k);
    }
  }

  // ---------------------------------------------------------------- histories

  /**
   Every stored payment carries a well-formed attempt history, which is empty only if the payment
   failed: SUCCEEDED stands at the end and exactly when the payment did, and no provider outside
   the configured ones, and none more than `maxAttempts` times, was called.
   */
  lemma StoredHistory(cfg: Config, run: seq<Move>, id: PaymentId)
    requires cfg.Valid() && IsRun(cfg, INITIAL, run)
    requires id in Exec(cfg, INITIAL, run).world.store.payments
    ensures var p := Exec(cfg, INITIAL, run).world.store.payments[id];
            && HistoryOk(cfg, p)
            && (p.succeeded ==> p.attempts != [])
            && forall i: nat :: i < |p.attempts| ==> EntryOk(cfg, p, i)
  {
    Reached(cfg, run);
    var w := Exec(cfg, INITIAL, run).world;
    assert PaymentOk(cfg, w, id);
    var p := w.store.payments[id];
    var ordered: seq<string>, ending: Failover.Ending :|
      && Eligible(cfg, ordered) && ending.Charge? == p.succeeded
      && Failover.Ended(cfg.maxAttempts, ordered, p.attempts, ending, p.provider);
    Failover.ChargeIsRecorded(cfg.maxAttempts, ordered, p.attempts, ending, p.provider);
    forall i: nat | i < |p.attempts| ensures EntryOk(cfg, p, i) {
      Failover.HistoryShape(cfg.maxAttempts, ordered, p.attempts, ending, p.provider, i);
    }
  }

  ghost predicate EntryOk(cfg: Config, p: Payment, i: nat)
    requires i < |p.attempts|
  {
    var a := p.attempts[i];
    && (a.result == Failover.Succeeded <==> p.succeeded && i == |p.attempts| - 1)
    && (a.result == Failover.Succeeded && p.provider.Some? ==> a.provider == p.provider.value)
    && 1 <= a.number <= cfg.maxAttempts && a.provider in cfg.providers
  }

  // ---------------------------------------------------------------- why the charge bound is conditional

  lemma {:induction false} RunSnoc(cfg: Config, s: System, run: seq<Move>, m: Move)
    requires IsRun(cfg, s, run) && Enabled(cfg, Exec(cfg, s, run), m)
    ensures IsRun(cfg, s, run + [m]) && Exec(cfg, s, run + [m]) == Next(cfg, Exec(cfg, s, run), m)
    decreases |run|
  {
    if run == [] {
      assert (run + [m])[1..] == [];
    } else {
      assert (run + [m])[0] == run[0] && (run + [m])[1..] == run[1..] + [m];
      RunSnoc(cfg, Next(cfg, s, run[0]), run[1..], m);
    }
  }

  /** Wherever a key has neither claim nor payment, a new task can claim it and start a payment. */
  lemma CanStart(cfg: Config, run: seq<Move>, t: TaskId, k: Key, f: Fingerprint) returns (longer: seq<Move>)
    requires cfg.Valid() && IsRun(cfg, INITIAL, run)
    requires var s := Exec(cfg, INITIAL, run);
             t !in s.tasks && k !in s.world.coordinator.records && k !in s.world.store.keys
    ensures IsRun(cfg, INITIAL, longer)
    ensures var s, s' := Exec(cfg, INITIAL, run), Exec(cfg, INITIAL, longer);
            && s'.tasks.Keys == s.tasks.Keys + {t} && s'.tasks[t].key == k && s'.tasks[t].fingerprint == f
            && s'.tasks[t].pc.Routing? && s'.tasks[t].pc.id == s.world.nextId
            && s'.world.charges == s.world.charges && s'.world.store == s.world.store
            && s'.world.nextId == s.world.nextId + 1
  {
    Reached(cfg, run);
    RunSnoc(cfg, INITIAL, run, Spawn(t, k, f));
    longer := run + [Spawn(t, k, f)];
    RunSnoc(cfg, INITIAL, longer, TryAcquire(t));
    longer := longer + [TryAcquire(t)];
    RunSnoc(cfg, INITIAL, longer, Look(t));
    longer := longer + [Look(t)];
  }

  /** And it can go on to charge it. */
  lemma CanCharge(cfg: Config, run: seq<Move>, t: TaskId, k: Key, f: Fingerprint, p: string) returns (longer: seq<Move>)
    requires cfg.Valid() && p in cfg.providers && IsRun(cfg, INITIAL, run)
    requires var s := Exec(cfg, INITIAL, run);
             t !in s.tasks && k !in s.world.coordinator.records && k !in s.world.store.keys
    ensures IsRun(cfg, INITIAL, longer)
    ensures var s, s' := Exec(cfg, INITIAL, run), Exec(cfg, INITIAL, longer);
            && s'.world.charges == s.world.charges + [Charge(t, k, s.world.nextId)]
            && s'.tasks.Keys == s.tasks.Keys + {t} && s'.tasks[t].key == k && s'.tasks[t].pc.Saving?
            && s'.world.nextId == s.world.nextId + 1
  {
    longer := CanStart(cfg, run, t, k, f);
    assert Without([p], p) == [] && Eligible(cfg, [p]);
    RunSnoc(cfg, INITIAL, longer, Route(t, [p], p));
    longer := longer + [Route(t, [p], p)];
    RunSnoc(cfg, INITIAL, longer, Operate(t, Failover.Charged));
    longer := longer + [Operate(t, Failover.Charged)];
  }

  /** Cancelled before the save, a task gives up its claim and leaves the key as if untouched. */
  lemma CanAbandon(cfg: Config, run: seq<Move>, t: TaskId) returns (longer: seq<Move>)
    requires cfg.Valid() && IsRun(cfg, INITIAL, run)
    requires t in Exec(cfg, INITIAL, run).tasks && Exec(cfg, INITIAL, run).tasks[t].pc.Saving?
    ensures IsRun(cfg, INITIAL, longer)
    ensures var s, s' := Exec(cfg, INITIAL, run), Exec(cfg, INITIAL, longer);
            && s'.world.charges == s.world.charges && s'.world.nextId == s.world.nextId
            && s.tasks[t].key !in s'.world.coordinator.records && s.tasks[t].key !in s'.world.store.keys
            && s'.tasks.Keys == s.tasks.Keys
  {
    Reached(cfg, run);
    var s := Exec(cfg, INITIAL, run);
    assert TaskOk(cfg, s.world, t, s.tasks[t]);
    RunSnoc(cfg, INITIAL, run, Interrupt(t));
    longer := run + [Interrupt(t)];
    RunSnoc(cfg, INITIAL, longer, RunAbort(t));
    longer := longer + [RunAbort(t)];
  }

  /** One task charges and is cancelled before the save; the next one on the key charges again. */
  lemma InterruptedSaveChargesTwice(cfg: Config, k: Key, f: Fingerprint) returns (run: seq<Move>)
    requires cfg.Valid() && cfg.providers != []
    ensures IsRun(cfg, INITIAL, run)
    ensures Exec(cfg, INITIAL, run).world.charges == [Charge(0, k, 0), Charge(1, k, 1)]
  {
    run := CanCharge(cfg, [], 0, k, f, cfg.providers[0]);
    run := CanAbandon(cfg, run, 0);
    run := CanCharge(cfg, run, 1, k, f, cfg.providers[0]);
  }
}
