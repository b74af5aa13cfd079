/**
 `PaymentService.create` as a protocol: any number of tasks, on any keys, run against one
 coordinator and one store.  A step takes one task from one await to the next.  An exception or
 a cancellation may strike at every await, including the ones inside the handler that aborts.
 */
module CreateProtocol {
  import opened Prelude
  import opened Idempotency
  import opened PaymentStore
  import Failover

  type TaskId = nat

  datatype Config = Config(providers: seq<string>, maxAttempts: nat) {
    ghost predicate Valid() {
      Distinct(providers) && maxAttempts >= 1
    }
  }

  /** Where a task stands.  A task that holds a claim carries the event issued with it. */
  datatype PC =
    | Entering                                        // before a pass of `acquire`
    | Waiting(event: EventId)                         // blocked on `event.wait()`
    | Replaying(found: Option<PaymentId>)             // before `store.get`
    | Looking(claim: EventId)                         // before `get_by_idempotency`
    | Routing(claim: EventId, id: PaymentId)          // health checks and `choose`
    | Trying(claim: EventId, id: PaymentId, ordered: seq<string>, loop: Failover.Loop)
    | Saving(claim: EventId, payment: Payment)        // up to the end of `_save`
    | Finishing(claim: EventId, id: PaymentId, willReturn: bool)  // before `complete`
    | Aborting(claim: EventId)                        // in the handler, before `abort`
    | Returned(id: PaymentId)
    | Raised
    | Missing                                         // "missing its authoritative payment"

  predicate Holding(pc: PC) {
    pc.Looking? || pc.Routing? || pc.Trying? || pc.Saving? || pc.Finishing? || pc.Aborting?
  }

  datatype Task = Task(key: Key, fingerprint: Fingerprint, pc: PC)

  /** A `create_payment` call that a provider answered with success. */
  datatype Charge = Charge(task: TaskId, key: Key, id: PaymentId)

  /**
   What the tasks share: the coordinator, the store and the supply of payment ids, plus history.
   The history records who was issued each event and each payment id, every successful provider
   call, the charges whose task was interrupted before the save (`lost`) and the claims whose
   abort was itself interrupted (`leaked`).
   */
  datatype World = World(
    coordinator: Coordinator,
    store: Store,
    nextId: PaymentId,
    claimant: map<EventId, TaskId>,
    author: map<PaymentId, TaskId>,
    charges: seq<Charge>,
    lost: set<PaymentId>,
    leaked: set<EventId>)

  datatype System = System(world: World, tasks: map<TaskId, Task>)

  const INITIAL := System(World(EMPTY, Store(map[], map[]), 0, map[], map[], [], {}, {}), map[])

  datatype Move =
    | Spawn(t: TaskId, key: Key, fingerprint: Fingerprint)
    | TryAcquire(t: TaskId)
    | Wake(t: TaskId)
    | Replay(t: TaskId)
    | Look(t: TaskId)
    | Route(t: TaskId, healthy: seq<string>, chosen: string)
    | Operate(t: TaskId, outcome: Failover.Outcome)
    | SavePayment(t: TaskId)
    | Finish(t: TaskId, raisesAfter: bool)
    | RunAbort(t: TaskId)
    | Interrupt(t: TaskId)

  /** Providers are tried at most once each, and only configured ones. */
  ghost predicate Eligible(cfg: Config, names: seq<string>) {
    Distinct(names) && forall p :: p in names ==> p in cfg.providers
  }

  function Without(names: seq<string>, name: string): seq<string> {
    if names == [] then []
    else (if names[0] == name then [] else [names[0]]) + Without(names[1..], name)
  }

  ghost predicate Enabled(cfg: Config, s: System, m: Move) {
    if m.Spawn? then m.t !in s.tasks
    else
      && m.t in s.tasks
      && var pc := s.tasks[m.t].pc;
         match m
         case TryAcquire(_) => pc.Entering? && s.world.coordinator.Valid()
         case Wake(_) => pc.Waiting? && pc.event in s.world.coordinator.signalled
         case Replay(_) => pc.Replaying?
         case Look(_) => pc.Looking?
         case Route(_, healthy, chosen) =>
           pc.Routing? && Eligible(cfg, healthy) && (healthy != [] ==> chosen in healthy)
         case Operate(_, _) => pc.Trying? && Failover.InRange(cfg.maxAttempts, pc.ordered, Failover.Running(pc.loop))
         case SavePayment(_) => pc.Saving?
         case Finish(_, _) => pc.Finishing? && s.world.coordinator.Valid()
         case RunAbort(_) => pc.Aborting? && s.world.coordinator.Valid()
         case Interrupt(_) => !pc.Returned? && !pc.Raised? && !pc.Missing?
  }

  /** What a move does to the world and to the program counter of the task that makes it. */
  datatype Effect = Effect(world: World, pc: PC)

  ghost function Next(cfg: Config, s: System, m: Move): System
    requires Enabled(cfg, s, m)
  {
    if m.Spawn? then s.(tasks := s.tasks[m.t := Task(m.key, m.fingerprint, Entering)])
    else
      var r := EffectOf(cfg, s.world, m, s.tasks[m.t]);
      System(r.world, s.tasks[m.t := s.tasks[m.t].(pc := r.pc)])
  }

  ghost function EffectOf(cfg: Config, w: World, m: Move, task: Task): Effect
    requires !m.Spawn? && Enabled(cfg, System(w, map[m.t := task]), m)
  {
    match m
    case TryAcquire(t) => AfterAcquire(w, t, task)
    case Wake(_) => Effect(w, Entering)
    case Replay(_) => AfterReplay(w, task)
    case Look(t) => AfterLook(w, t, task)
    case Route(_, healthy, chosen) => AfterRoute(w, task, healthy, chosen)
    case Operate(t, outcome) => AfterOperate(cfg, w, t, task, outcome)
    case SavePayment(_) => AfterSave(w, task)
    case Finish(_, raisesAfter) => AfterFinish(w, task, raisesAfter)
    case RunAbort(_) => AfterAbort(w, task)
    case Interrupt(_) => AfterInterrupt(w, task)
  }

  ghost function AfterAcquire(w: World, t: TaskId, task: Task): Effect
    requires w.coordinator.Valid()
  {
    var r := Acquire(w.coordinator, task.key, task.fingerprint);
    match r.pass
    case Claimed(e) => Effect(w.(coordinator := r.coordinator, claimant := w.claimant[e := t]), Looking(e))
    case Conflict => Effect(w, Raised)
    case Completed(found) => Effect(w, Replaying(found))
    case Wait(e) => Effect(w, Waiting(e))
  }

  function AfterReplay(w: World, task: Task): Effect
    requires task.pc.Replaying?
  {
    var found := task.pc.found;
    Effect(w, if found.Some? && found.value in w.store.payments then Returned(found.value) else Missing)
  }

  function AfterLook(w: World, t: TaskId, task: Task): Effect
    requires task.pc.Looking?
  {
    match PaymentOf(w.store, task.key)
    case Some(existing) =>
      Effect(w, if existing.fingerprint != task.fingerprint then Aborting(task.pc.claim)
                else Finishing(task.pc.claim, existing.id, true))
    case None =>
      Effect(w.(nextId := w.nextId + 1, author := w.author[w.nextId := t]), Routing(task.pc.claim, w.nextId))
  }

  function AfterRoute(w: World, task: Task, healthy: seq<string>, chosen: string): Effect
    requires task.pc.Routing?
  {
    Effect(w, if healthy == [] then Aborting(task.pc.claim)
              else Trying(task.pc.claim, task.pc.id, [chosen] + Without(healthy, chosen), Failover.START))
  }

  function AfterOperate(cfg: Config, w: World, t: TaskId, task: Task, outcome: Failover.Outcome): Effect
    requires task.pc.Trying?
    requires Failover.InRange(cfg.maxAttempts, task.pc.ordered, Failover.Running(task.pc.loop))
  {
    var pc := task.pc;
    match Failover.Step(cfg.maxAttempts, pc.ordered, pc.loop, outcome)
    case Running(loop) => Effect(w, pc.(loop := loop))
    case Won(attempts, provider) =>
      Effect(w.(charges := w.charges + [Charge(t, task.key, pc.id)]),
             Saving(pc.claim, Payment(pc.id, task.key, task.fingerprint, true, Some(provider), attempts)))
    case Lost(attempts, _) =>
      Effect(w, Saving(pc.claim, Payment(pc.id, task.key, task.fingerprint, false, None, attempts)))
    case Crashed => Effect(w, Aborting(pc.claim))
  }

  function AfterSave(w: World, task: Task): Effect
    requires task.pc.Saving?
  {
    var p := task.pc.payment;
    Effect(w.(store := Save(w.store, p)), Finishing(task.pc.claim, p.id, p.succeeded))
  }

  /** `complete`, then the return, the raise of the last error, or a stray exception before `claimed = False`. */
  ghost function AfterFinish(w: World, task: Task, raisesAfter: bool): Effect
    requires task.pc.Finishing? && w.coordinator.Valid()
  {
    match Complete(w.coordinator, task.key, task.fingerprint, task.pc.id)
    case None => Effect(w, Aborting(task.pc.claim))
    case Some(c) =>
      Effect(w.(coordinator := c),
             if raisesAfter then Aborting(task.pc.claim)
             else if task.pc.willReturn then Returned(task.pc.id) else Raised)
  }

  ghost function AfterAbort(w: World, task: Task): Effect
    requires w.coordinator.Valid()
  {
    Effect(w.(coordinator := Abort(w.coordinator, task.key, task.fingerprint)), Raised)
  }

  /** Outside the `try` the task just dies; inside, control passes to the handler. */
  function AfterInterrupt(w: World, task: Task): Effect {
    var pc := task.pc;
    if !Holding(pc) then Effect(w, Raised)
    else if pc.Aborting? then Effect(w.(leaked := w.leaked + {pc.claim}), Raised)
    else if pc.Saving? && pc.payment.succeeded then Effect(w.(lost := w.lost + {pc.payment.id}), Aborting(pc.claim))
    else Effect(w, Aborting(pc.claim))
  }

  /** `run` is a sequence of moves, each enabled where it is taken. */
  ghost predicate IsRun(cfg: Config, s: System, run: seq<Move>)
    decreases |run|
  {
    run == [] || (Enabled(cfg, s, run[0]) && IsRun(cfg, Next(cfg, s, run[0]), run[1..]))
  }

  ghost function Exec(cfg: Config, s: System, run: seq<Move>): System
    requires IsRun(cfg, s, run)
    decreases |run|
  {
    if run == [] then s else Exec(cfg, Next(cfg, s, run[0]), run[1..])
  }
}
