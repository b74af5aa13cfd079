/**
 What `create` answers, and what it writes down.  A log is kept beside a run: which tasks were
 disturbed, which met a reason to be turned away, which found their payment already there, where
 each was routed and which provider calls each made.  The answers of all tasks and the
 contents of all stored payments are then facts about the log.
 */
module CreateAnswers {
  import opened Prelude
  import opened Idempotency
  import opened PaymentStore
  import opened CreateProtocol
  import opened CreateInvariant
  import opened CreateTheorems
  import Failover
  import Orchestration

  /** A provider call; no code means that the provider charged. */
  datatype Call = Call(provider: string, code: Option<Failover.Code>)

  datatype Choice = Choice(healthy: seq<string>, chosen: string)

  datatype Log = Log(
    disturbed: set<TaskId>, turnedAway: set<TaskId>, found: set<TaskId>,
    routes: map<TaskId, Choice>, calls: map<TaskId, seq<Call>>)

  const BLANK := Log({}, {}, {}, map[], map[])

  function CallsOf(h: Log, t: TaskId): seq<Call> {
    if t in h.calls then h.calls[t] else []
  }

  /** An exception from outside strikes the task, or one follows its `complete`. */
  predicate Disturbs(m: Move) {
    m.Interrupt? || (m.Finish? && m.raisesAfter)
  }

  /**
   The key is taken by another request, no provider is healthy, or a provider call fails in
   an unexpected way.
   */
  ghost predicate TurnsAway(s: System, m: Move)
    requires m.Spawn? || m.t in s.tasks
  {
    if m.Spawn? then false
    else
      var task := s.tasks[m.t];
      match m
      case TryAcquire(_) =>
        var records := s.world.coordinator.records;
        task.key in records && records[task.key].fingerprint != task.fingerprint
      case Look(_) =>
        var found := PaymentOf(s.world.store, task.key);
        found.Some? && found.value.fingerprint != task.fingerprint
      case Route(_, healthy, _) => healthy == []
      case Operate(_, outcome) => outcome == Failover.Crash
      case _ => false
  }

  /** The same request was completed before, or its payment is stored. */
  ghost predicate Finds(s: System, m: Move)
    requires m.Spawn? || m.t in s.tasks
  {
    if m.Spawn? then false
    else
      var task := s.tasks[m.t];
      match m
      case TryAcquire(_) =>
        var records := s.world.coordinator.records;
        task.key in records && records[task.key].fingerprint == task.fingerprint && records[task.key].completed
      case Look(_) =>
        var found := PaymentOf(s.world.store, task.key);
        found.Some? && found.value.fingerprint == task.fingerprint
      case _ => false
  }

  /** The provider call a move makes, if it makes one. */
  function CallMade(s: System, m: Move): seq<Call> {
    if m.Operate? && m.t in s.tasks && s.tasks[m.t].pc.Trying?
       && s.tasks[m.t].pc.loop.index < |s.tasks[m.t].pc.ordered| then
      var name := s.tasks[m.t].pc.ordered[s.tasks[m.t].pc.loop.index];
      match m.outcome
      case Charged => [Call(name, None)]
      case Error(c) => [Call(name, Some(c))]
      case _ => []
    else []
  }

  ghost function Note(s: System, m: Move, h: Log): Log
    requires m.Spawn? || m.t in s.tasks
  {
    Log(h.disturbed + (if Disturbs(m) then {m.t} else {}),
        h.turnedAway + (if TurnsAway(s, m) then {m.t} else {}),
        h.found + (if Finds(s, m) then {m.t} else {}),
        if m.Route? then h.routes[m.t := Choice(m.healthy, m.chosen)] else h.routes,
        if CallMade(s, m) == [] then h.calls else h.calls[m.t := CallsOf(h, m.t) + CallMade(s, m)])
  }

  /** The log of a run that starts in `s` with `h` written. */
  ghost function LogFrom(cfg: Config, s: System, run: seq<Move>, h: Log): Log
    requires IsRun(cfg, s, run)
    decreases |run|
  {
    if run == [] then h else LogFrom(cfg, Next(cfg, s, run[0]), run[1..], Note(s, run[0], h))
  }

  // ---------------------------------------------------------------- how a move changes the world

  predicate Own(w: World, t: TaskId, id: PaymentId) {
    id in w.author && w.author[id] == t
  }

  /** Payment ids and payments are only added, and only by `u`. */
  ghost predicate AddedBy(w: World, w': World, u: TaskId) {
    && (forall id :: id in w.author ==> id in w'.author && w'.author[id] == w.author[id])
    && (forall id :: id in w'.author && id !in w.author ==> w'.author[id] == u)
    && (forall id :: id in w.store.payments ==>
          id in w'.store.payments && w'.store.payments[id] == w.store.payments[id])
    && (forall id :: id in w'.store.payments && id !in w.store.payments ==> Own(w', u, id))
  }

  /** The move leaves payments and payment ids alone. */
  predicate Keeps(w: World, w': World) {
    w'.store == w.store && w'.author == w.author
  }

  lemma AcquireKeeps(w: World, t: TaskId, task: Task)
    requires w.coordinator.Valid()
    ensures Keeps(w, AfterAcquire(w, t, task).world)
  {
    var after := AfterAcquire(w, t, task).world;
    match Acquire(w.coordinator, task.key, task.fingerprint).pass
    case Claimed(_) => assert Keeps(w, after);
    case Conflict => assert after == w;
    case Completed(_) => assert after == w;
    case Wait(_) => assert after == w;
  }

  lemma OperateKeeps(cfg: Config, w: World, t: TaskId, task: Task, outcome: Failover.Outcome)
    requires task.pc.Trying? && Failover.InRange(cfg.maxAttempts, task.pc.ordered, Failover.Running(task.pc.loop))
    ensures Keeps(w, AfterOperate(cfg, w, t, task, outcome).world)
  {
  }

  lemma FinishKeeps(w: World, task: Task, raisesAfter: bool)
    requires task.pc.Finishing? && w.coordinator.Valid()
    ensures Keeps(w, AfterFinish(w, task, raisesAfter).world)
  {
  }

  lemma NeitherAdds(cfg: Config, w: World, m: Move, task: Task)
    requires !m.Spawn? && Enabled(cfg, System(w, map[m.t := task]), m) && !m.SavePayment? && !m.Look?
    ensures Keeps(w, EffectOf(cfg, w, m, task).world)
  {
    if m.TryAcquire? {
      AcquireKeeps(w, m.t, task);
    } else if m.Operate? {
      OperateKeeps(cfg, w, m.t, task, m.outcome);
    } else if m.Finish? {
      FinishKeeps(w, task, m.raisesAfter);
    }
  }

  lemma LookAdds(w: World, t: TaskId, task: Task)
    requires task.pc.Looking? && w.nextId !in w.author
    ensures AddedBy(w, AfterLook(w, t, task).world, t)
  {
  }

  lemma SaveAdds(w: World, t: TaskId, task: Task)
    requires task.pc.Saving? && Fresh(w, t, task.key, task.pc.payment.id)
    ensures AddedBy(w, AfterSave(w, task).world, t)
  {
  }

  lemma MoveAdds(cfg: Config, s: System, m: Move)
    requires Inv(cfg, s) && Enabled(cfg, s, m)
    ensures AddedBy(s.world, Next(cfg, s, m).world, m.t)
  {
    if m.SavePayment? {
      assert TaskOk(cfg, s.world, m.t, s.tasks[m.t]);
      SaveAdds(s.world, m.t, s.tasks[m.t]);
    } else if m.Look? {
      LookAdds(s.world, m.t, s.tasks[m.t]);
    } else if !m.Spawn? {
      NeitherAdds(cfg, s.world, m, s.tasks[m.t]);
    }
  }

  // ---------------------------------------------------------------- answers

  /** A task that has not reached its payment owns none; one that works on a payment owns that one only. */
  ghost predicate IdsOk(w: World, t: TaskId, pc: PC) {
    match pc
    case Entering => forall id :: !Own(w, t, id)
    case Waiting(_) => forall id :: !Own(w, t, id)
    case Replaying(_) => forall id :: !Own(w, t, id)
    case Looking(_) => forall id :: !Own(w, t, id)
    case Routing(_, i) => forall id :: Own(w, t, id) ==> id == i
    case Trying(_, i, _, _) => forall id :: Own(w, t, id) ==> id == i
    case Saving(_, p) => forall id :: Own(w, t, id) ==> id == p.id
    case _ => true
  }

  /** What becomes of a task whose own payment is stored. */
  ghost predicate AnswersFor(w: World, h: Log, t: TaskId, pc: PC, id: PaymentId)
    requires id in w.store.payments
  {
    || (pc.Finishing? && pc.id == id)
    || (t in h.disturbed && (pc.Aborting? || pc.Raised? || pc == Returned(id)))
    || (t !in h.disturbed && if w.store.payments[id].succeeded then pc == Returned(id) else pc.Raised?)
  }

  ghost predicate StoredOwn(w: World, h: Log, t: TaskId, pc: PC) {
    forall id :: Own(w, t, id) && id in w.store.payments ==> AnswersFor(w, h, t, pc, id)
  }

  ghost predicate OwnFailed(w: World, t: TaskId) {
    exists id :: Own(w, t, id) && id in w.store.payments && !w.store.payments[id].succeeded
  }

  /** Returning is for payments of others and for own successes. */
  predicate ReturnOk(w: World, t: TaskId, pc: PC) {
    && (pc.Finishing? ==>
          && pc.id in w.store.payments
          && (pc.willReturn <==> !Own(w, t, pc.id) || w.store.payments[pc.id].succeeded))
    && (pc.Returned? && Own(w, t, pc.id) ==> pc.id in w.store.payments && w.store.payments[pc.id].succeeded)
  }

  /** Raising has a reason, and finding one's payment is none. */
  ghost predicate ReasonOk(w: World, h: Log, t: TaskId, pc: PC) {
    && (t in h.turnedAway ==> pc.Aborting? || pc.Raised?)
    && (t in h.found ==>
          && (forall id :: !Own(w, t, id))
          && (pc.Replaying? || pc.Finishing? || pc.Returned?
              || (t in h.disturbed && (pc.Aborting? || pc.Raised?))))
    && (t !in h.disturbed && pc.Aborting? ==> t in h.turnedAway)
    && (t !in h.disturbed && pc.Raised? ==> t in h.turnedAway || OwnFailed(w, t))
  }

  ghost predicate AnswerOk(w: World, h: Log, t: TaskId, pc: PC) {
    IdsOk(w, t, pc) && ReturnOk(w, t, pc) && StoredOwn(w, h, t, pc) && ReasonOk(w, h, t, pc)
  }

  /** Another task's additions do not touch a task's answer. */
  lemma AnswerFrame(w: World, w': World, u: TaskId, h: Log, h': Log, t: TaskId, pc: PC)
    requires AnswerOk(w, h, t, pc) && AddedBy(w, w', u) && u != t
    requires t in h'.disturbed <==> t in h.disturbed
    requires t in h'.turnedAway <==> t in h.turnedAway
    requires t in h'.found <==> t in h.found
    ensures AnswerOk(w', h', t, pc)
  {
    assert forall id :: Own(w', t, id) <==> Own(w, t, id);
    if OwnFailed(w, t) {
      var id :| Own(w, t, id) && id in w.store.payments && !w.store.payments[id].succeeded;
      assert Own(w', t, id);
    }
  }

  /** The world as far as answers go is unchanged. */
  lemma SameAnswers(w: World, w': World, h: Log, t: TaskId, pc: PC)
    requires w'.store == w.store && w'.author == w.author && AnswerOk(w, h, t, pc)
    ensures AnswerOk(w', h, t, pc)
  {
    assert forall id :: Own(w', t, id) <==> Own(w, t, id);
    if OwnFailed(w, t) {
      var id :| Own(w, t, id) && id in w.store.payments && !w.store.payments[id].succeeded;
      assert Own(w', t, id);
    }
  }

  lemma AcquireAnswers(cfg: Config, s: System, t: TaskId, h: Log)
    requires Enabled(cfg, s, TryAcquire(t)) && AnswerOk(s.world, h, t, s.tasks[t].pc)
    ensures AnswerOk(s.world, Note(s, TryAcquire(t), h), t, AfterAcquire(s.world, t, s.tasks[t]).pc)
  {
  }

  lemma ReplayAnswers(cfg: Config, s: System, t: TaskId, h: Log)
    requires Enabled(cfg, s, Replay(t)) && AnswerOk(s.world, h, t, s.tasks[t].pc)
    requires TaskOk(cfg, s.world, t, s.tasks[t])
    ensures AnswerOk(s.world, Note(s, Replay(t), h), t, AfterReplay(s.world, s.tasks[t]).pc)
  {
  }

  lemma LookAnswers(cfg: Config, s: System, t: TaskId, h: Log)
    requires Inv(cfg, s) && Enabled(cfg, s, Look(t)) && AnswerOk(s.world, h, t, s.tasks[t].pc)
    ensures var r := AfterLook(s.world, t, s.tasks[t]); AnswerOk(r.world, Note(s, Look(t), h), t, r.pc)
  {
    var w, k := s.world, s.tasks[t].key;
    if k in w.store.keys {
      assert PaymentOk(cfg, w, w.store.keys[k]);
    } else {
      assert PaymentOf(w.store, k) == None;
      assert w.nextId !in w.store.payments;
      NewIdAnswers(w, t, Note(s, Look(t), h), s.tasks[t].pc.claim);
    }
  }

  /** A task that owned nothing is issued a payment id. */
  lemma NewIdAnswers(w: World, t: TaskId, h: Log, claim: EventId)
    requires AnswerOk(w, h, t, Looking(claim)) && w.nextId !in w.store.payments
    ensures var w' := w.(nextId := w.nextId + 1, author := w.author[w.nextId := t]);
            AnswerOk(w', h, t, Routing(claim, w.nextId))
  {
    var w' := w.(nextId := w.nextId + 1, author := w.author[w.nextId := t]);
    assert forall id :: id != w.nextId ==> (Own(w', t, id) <==> Own(w, t, id));
  }

  lemma RouteAnswers(cfg: Config, s: System, m: Move, h: Log)
    requires m.Route? && Enabled(cfg, s, m) && AnswerOk(s.world, h, m.t, s.tasks[m.t].pc)
    requires TaskOk(cfg, s.world, m.t, s.tasks[m.t])
    ensures AnswerOk(s.world, Note(s, m, h), m.t, AfterRoute(s.world, s.tasks[m.t], m.healthy, m.chosen).pc)
  {
  }

  lemma OperateAnswers(cfg: Config, s: System, m: Move, h: Log)
    requires m.Operate? && Enabled(cfg, s, m) && AnswerOk(s.world, h, m.t, s.tasks[m.t].pc)
    requires TaskOk(cfg, s.world, m.t, s.tasks[m.t])
    ensures AnswerOk(s.world, Note(s, m, h), m.t, AfterOperate(cfg, s.world, m.t, s.tasks[m.t], m.outcome).pc)
  {
  }

  lemma SaveAnswers(cfg: Config, s: System, t: TaskId, h: Log)
    requires Enabled(cfg, s, SavePayment(t)) && AnswerOk(s.world, h, t, s.tasks[t].pc)
    requires TaskOk(cfg, s.world, t, s.tasks[t])
    ensures var r := AfterSave(s.world, s.tasks[t]); AnswerOk(r.world, Note(s, SavePayment(t), h), t, r.pc)
  {
    var w' := AfterSave(s.world, s.tasks[t]).world;
    assert forall id :: Own(w', t, id) <==> Own(s.world, t, id);
  }

  lemma FinishAnswers(cfg: Config, s: System, m: Move, h: Log)
    requires m.Finish? && Enabled(cfg, s, m) && AnswerOk(s.world, h, m.t, s.tasks[m.t].pc)
    requires TaskOk(cfg, s.world, m.t, s.tasks[m.t])
    ensures AnswerOk(s.world, Note(s, m, h), m.t, AfterFinish(s.world, s.tasks[m.t], m.raisesAfter).pc)
  {
    FinishSettles(cfg, s.world, m.t, s.tasks[m.t]);
    var pc := s.tasks[m.t].pc;
    if Own(s.world, m.t, pc.id) {
      assert AnswersFor(s.world, h, m.t, pc, pc.id);
    }
  }

  lemma EndAnswers(cfg: Config, s: System, m: Move, h: Log)
    requires (m.Wake? || m.RunAbort? || m.Interrupt?) && Enabled(cfg, s, m)
    requires AnswerOk(s.world, h, m.t, s.tasks[m.t].pc) && TaskOk(cfg, s.world, m.t, s.tasks[m.t])
    ensures AnswerOk(s.world, Note(s, m, h), m.t, EffectOf(cfg, s.world, m, s.tasks[m.t]).pc)
  {
  }

  lemma OwnAnswer(cfg: Config, s: System, m: Move, h: Log)
    requires Inv(cfg, s) && Enabled(cfg, s, m) && !m.Spawn?
    requires AnswerOk(s.world, h, m.t, s.tasks[m.t].pc)
    ensures AnswerOk(Next(cfg, s, m).world, Note(s, m, h), m.t, Next(cfg, s, m).tasks[m.t].pc)
  {
    assert TaskOk(cfg, s.world, m.t, s.tasks[m.t]);
    if m.SavePayment? {
      SaveAnswers(cfg, s, m.t, h);
    } else if m.Look? {
      LookAnswers(cfg, s, m.t, h);
    } else {
      StayingAnswers(cfg, s, m, h);
      NeitherAdds(cfg, s.world, m, s.tasks[m.t]);
      var r := EffectOf(cfg, s.world, m, s.tasks[m.t]);
      SameAnswers(s.world, r.world, Note(s, m, h), m.t, r.pc);
    }
  }

  lemma StayingAnswers(cfg: Config, s: System, m: Move, h: Log)
    requires Enabled(cfg, s, m) && !m.Spawn? && !m.SavePayment? && !m.Look?
    requires AnswerOk(s.world, h, m.t, s.tasks[m.t].pc) && TaskOk(cfg, s.world, m.t, s.tasks[m.t])
    ensures AnswerOk(s.world, Note(s, m, h), m.t, EffectOf(cfg, s.world, m, s.tasks[m.t]).pc)
  {
    match m
    case TryAcquire(t) => AcquireAnswers(cfg, s, t, h);
    case Replay(t) => ReplayAnswers(cfg, s, t, h);
    case Route(_, _, _) => RouteAnswers(cfg, s, m, h);
    case Operate(_, _) => OperateAnswers(cfg, s, m, h);
    case Finish(_, _) => FinishAnswers(cfg, s, m, h);
    case Wake(_) => EndAnswers(cfg, s, m, h);
    case RunAbort(_) => EndAnswers(cfg, s, m, h);
    case Interrupt(_) => EndAnswers(cfg, s, m, h);
  }

  // ---------------------------------------------------------------- what is written down

  /** The calls an attempt history tells of. */
  function CallsIn(attempts: seq<Failover.Attempt>): seq<Call> {
    seq(|attempts|, i requires 0 <= i < |attempts| => Call(attempts[i].provider, attempts[i].code))
  }

  /** The chosen provider first, then the other healthy ones in their order. */
  ghost predicate RoutedFrom(c: Choice, ordered: seq<string>) {
    exists i :: 0 <= i < |c.healthy| && c.healthy[i] == c.chosen && ordered == MovedFirst(c, i)
  }

  function MovedFirst(c: Choice, i: nat): seq<string>
    requires i < |c.healthy|
  {
    [c.chosen] + c.healthy[..i] + c.healthy[i + 1..]
  }

  lemma {:induction false} WithoutNone(names: seq<string>, name: string)
    requires name !in names
    ensures Without(names, name) == names
  {
    if names != [] {
      WithoutNone(names[1..], name);
    }
  }

  lemma {:induction false} WithoutOne(names: seq<string>, name: string) returns (i: nat)
    requires Distinct(names) && name in names
    ensures i < |names| && names[i] == name && Without(names, name) == names[..i] + names[i + 1..]
  {
    if names[0] == name {
      i := 0;
      assert name !in names[1..];
      WithoutNone(names[1..], name);
    } else {
      var j := WithoutOne(names[1..], name);
      i := j + 1;
      assert names[1..][..j] == names[1..i] && names[1..][j + 1..] == names[i + 1..];
      assert names[..i] == [names[0]] + names[1..i];
    }
  }

  lemma RouteIsMoved(healthy: seq<string>, chosen: string)
    requires Distinct(healthy) && chosen in healthy
    ensures RoutedFrom(Choice(healthy, chosen), [chosen] + Without(healthy, chosen))
  {
    var i := WithoutOne(healthy, chosen);
    assert [chosen] + Without(healthy, chosen) == MovedFirst(Choice(healthy, chosen), i);
  }

  /** One run of `operation` adds to the history exactly the call it made. */
  lemma StepCalls(max: nat, ordered: seq<string>, l: Failover.Loop, o: Failover.Outcome)
    requires Failover.InRange(max, ordered, Failover.Running(l)) && !o.Crash?
    ensures var next := Failover.Step(max, ordered, l, o);
            && !next.Crashed?
            && CallsIn(Orchestration.Recorded(next)) == CallsIn(l.recorded + l.block) +
                 match o
                 case Charged => [Call(ordered[l.index], None)]
                 case Error(c) => [Call(ordered[l.index], Some(c))]
                 case _ => []
  {
  }

  /** The payment tells of exactly the calls `t` made, along its route, and names the provider that charged. */
  ghost predicate Faithful(cfg: Config, h: Log, t: TaskId, p: Payment) {
    && CallsIn(p.attempts) == CallsOf(h, t)
    && (p.succeeded <==> p.provider.Some?)
    && t in h.routes
    && exists ordered: seq<string>, ending: Failover.Ending ::
         && RoutedFrom(h.routes[t], ordered) && ending.Charge? == p.succeeded
         && Failover.Ended(cfg.maxAttempts, ordered, p.attempts, ending, p.provider)
  }

  ghost predicate CallsOk(cfg: Config, w: World, h: Log, t: TaskId, pc: PC) {
    && (pc.Entering? || pc.Waiting? || pc.Replaying? || pc.Looking? || pc.Routing? ==> CallsOf(h, t) == [])
    && (pc.Trying? ==>
          && t in h.routes && RoutedFrom(h.routes[t], pc.ordered)
          && CallsIn(pc.loop.recorded + pc.loop.block) == CallsOf(h, t))
    && (pc.Saving? ==> Faithful(cfg, h, t, pc.payment))
    && (forall id :: Own(w, t, id) && id in w.store.payments ==> Faithful(cfg, h, t, w.store.payments[id]))
  }

  lemma CallsFrame(cfg: Config, w: World, w': World, u: TaskId, h: Log, h': Log, t: TaskId, pc: PC)
    requires CallsOk(cfg, w, h, t, pc) && AddedBy(w, w', u) && u != t
    requires CallsOf(h', t) == CallsOf(h, t) && (t in h.routes ==> t in h'.routes && h'.routes[t] == h.routes[t])
    ensures CallsOk(cfg, w', h', t, pc)
  {
    assert forall id :: Own(w', t, id) <==> Own(w, t, id);
    forall id | Own(w', t, id) && id in w'.store.payments ensures Faithful(cfg, h', t, w'.store.payments[id]) {
      assert Own(w, t, id);
    }
  }

  lemma OperateCalls(cfg: Config, s: System, m: Move, h: Log)
    requires m.Operate? && Enabled(cfg, s, m) && TaskOk(cfg, s.world, m.t, s.tasks[m.t])
    requires IdsOk(s.world, m.t, s.tasks[m.t].pc) && CallsOk(cfg, s.world, h, m.t, s.tasks[m.t].pc)
    ensures var r := AfterOperate(cfg, s.world, m.t, s.tasks[m.t], m.outcome);
            CallsOk(cfg, s.world, Note(s, m, h), m.t, r.pc)
  {
    var pc, h' := s.tasks[m.t].pc, Note(s, m, h);
    assert forall id :: Own(s.world, m.t, id) ==> id !in s.world.store.payments;
    if m.outcome != Failover.Crash {
      StepCalls(cfg.maxAttempts, pc.ordered, pc.loop, m.outcome);
      Failover.StepKeepsHistory(cfg.maxAttempts, pc.ordered, pc.loop, m.outcome);
      var phase := Failover.Step(cfg.maxAttempts, pc.ordered, pc.loop, m.outcome);
      NoteCalls(s, m, h);
      assert CallsOf(h', m.t) == CallsIn(Orchestration.Recorded(phase));
      PhaseIsFaithful(cfg, h', m.t, s.tasks[m.t], phase);
    }
  }

  lemma NoteCalls(s: System, m: Move, h: Log)
    requires m.t in s.tasks && m.Operate?
    ensures CallsOf(Note(s, m, h), m.t) == CallsOf(h, m.t) + CallMade(s, m) && Note(s, m, h).routes == h.routes
  {
  }

  /** What a finished run of the loops hands to the save. */
  lemma PhaseIsFaithful(cfg: Config, h: Log, t: TaskId, task: Task, phase: Failover.Phase)
    requires task.pc.Trying? && !phase.Crashed? && Failover.PhaseOk(cfg.maxAttempts, task.pc.ordered, phase)
    requires t in h.routes && RoutedFrom(h.routes[t], task.pc.ordered)
    requires CallsOf(h, t) == CallsIn(Orchestration.Recorded(phase))
    ensures phase.Won? ==>
              Faithful(cfg, h, t, Payment(task.pc.id, task.key, task.fingerprint,
                                          true, Some(phase.provider), phase.attempts))
    ensures phase.Lost? ==>
              Faithful(cfg, h, t, Payment(task.pc.id, task.key, task.fingerprint, false, None, phase.attempts))
  {
  }

  lemma RouteCalls(cfg: Config, s: System, m: Move, h: Log)
    requires m.Route? && Enabled(cfg, s, m) && TaskOk(cfg, s.world, m.t, s.tasks[m.t])
    requires IdsOk(s.world, m.t, s.tasks[m.t].pc) && CallsOk(cfg, s.world, h, m.t, s.tasks[m.t].pc)
    ensures var r := AfterRoute(s.world, s.tasks[m.t], m.healthy, m.chosen);
            CallsOk(cfg, s.world, Note(s, m, h), m.t, r.pc)
  {
    assert forall id :: Own(s.world, m.t, id) ==> id !in s.world.store.payments;
    NoteRoute(s, m, h);
    if m.healthy != [] {
      RouteIsMoved(m.healthy, m.chosen);
    }
  }

  lemma NoteRoute(s: System, m: Move, h: Log)
    requires m.t in s.tasks && m.Route?
    ensures Note(s, m, h).calls == h.calls && Note(s, m, h).routes == h.routes[m.t := Choice(m.healthy, m.chosen)]
  {
  }

  lemma SaveCalls(cfg: Config, s: System, t: TaskId, h: Log)
    requires Enabled(cfg, s, SavePayment(t)) && TaskOk(cfg, s.world, t, s.tasks[t])
    requires IdsOk(s.world, t, s.tasks[t].pc) && CallsOk(cfg, s.world, h, t, s.tasks[t].pc)
    ensures var r := AfterSave(s.world, s.tasks[t]); CallsOk(cfg, r.world, h, t, r.pc)
  {
    var w' := AfterSave(s.world, s.tasks[t]).world;
    forall id | Own(w', t, id) && id in w'.store.payments ensures Faithful(cfg, h, t, w'.store.payments[id]) {
      assert Own(s.world, t, id);
    }
  }

  lemma LookCalls(cfg: Config, s: System, t: TaskId, h: Log)
    requires Inv(cfg, s) && Enabled(cfg, s, Look(t))
    requires IdsOk(s.world, t, s.tasks[t].pc) && CallsOk(cfg, s.world, h, t, s.tasks[t].pc)
    ensures var r := AfterLook(s.world, t, s.tasks[t]); CallsOk(cfg, r.world, h, t, r.pc)
  {
    var w' := AfterLook(s.world, t, s.tasks[t]).world;
    assert s.world.nextId !in s.world.store.payments;
    assert forall id :: id != s.world.nextId ==> (Own(w', t, id) <==> Own(s.world, t, id));
  }

  lemma OtherCalls(cfg: Config, s: System, m: Move, h: Log)
    requires !m.Spawn? && !m.Operate? && !m.Route? && !m.SavePayment? && !m.Look?
    requires Enabled(cfg, s, m) && CallsOk(cfg, s.world, h, m.t, s.tasks[m.t].pc)
    ensures CallsOk(cfg, s.world, h, m.t, EffectOf(cfg, s.world, m, s.tasks[m.t]).pc)
  {
  }

  lemma SameCalls(cfg: Config, w: World, w': World, h: Log, t: TaskId, pc: PC)
    requires w'.store == w.store && w'.author == w.author && CallsOk(cfg, w, h, t, pc)
    ensures CallsOk(cfg, w', h, t, pc)
  {
    assert forall id :: Own(w', t, id) <==> Own(w, t, id);
  }

  lemma SameLog(cfg: Config, w: World, h: Log, h': Log, t: TaskId, pc: PC)
    requires CallsOk(cfg, w, h, t, pc) && h'.calls == h.calls && h'.routes == h.routes
    ensures CallsOk(cfg, w, h', t, pc)
  {
    forall id | Own(w, t, id) && id in w.store.payments ensures Faithful(cfg, h', t, w.store.payments[id]) {
      assert Faithful(cfg, h, t, w.store.payments[id]);
    }
  }

  lemma OwnCalls(cfg: Config, s: System, m: Move, h: Log)
    requires Inv(cfg, s) && Enabled(cfg, s, m) && !m.Spawn?
    requires IdsOk(s.world, m.t, s.tasks[m.t].pc) && CallsOk(cfg, s.world, h, m.t, s.tasks[m.t].pc)
    ensures CallsOk(cfg, Next(cfg, s, m).world, Note(s, m, h), m.t, Next(cfg, s, m).tasks[m.t].pc)
  {
    var h', r := Note(s, m, h), EffectOf(cfg, s.world, m, s.tasks[m.t]);
    assert TaskOk(cfg, s.world, m.t, s.tasks[m.t]);
    if m.SavePayment? {
      SaveCalls(cfg, s, m.t, h);
      SameLog(cfg, r.world, h, h', m.t, r.pc);
    } else if m.Look? {
      LookCalls(cfg, s, m.t, h);
      SameLog(cfg, r.world, h, h', m.t, r.pc);
    } else {
      NeitherAdds(cfg, s.world, m, s.tasks[m.t]);
      if m.Operate? {
        OperateCalls(cfg, s, m, h);
      } else if m.Route? {
        RouteCalls(cfg, s, m, h);
      } else {
        OtherCalls(cfg, s, m, h);
        SameLog(cfg, s.world, h, h', m.t, r.pc);
      }
      SameCalls(cfg, s.world, r.world, h', m.t, r.pc);
    }
  }

  // ---------------------------------------------------------------- over whole runs

  /** The log, and the authors of payments, are about tasks that exist. */
  ghost predicate ScopeOk(s: System, h: Log) {
    && (forall id :: id in s.world.author ==> s.world.author[id] in s.tasks)
    && h.disturbed <= s.tasks.Keys && h.turnedAway <= s.tasks.Keys && h.found <= s.tasks.Keys
    && h.routes.Keys <= s.tasks.Keys && h.calls.Keys <= s.tasks.Keys
  }

  ghost predicate TaskAnswers(cfg: Config, s: System, h: Log, t: TaskId)
    requires t in s.tasks
  {
    AnswerOk(s.world, h, t, s.tasks[t].pc) && CallsOk(cfg, s.world, h, t, s.tasks[t].pc)
  }

  ghost predicate Answers(cfg: Config, s: System, h: Log) {
    ScopeOk(s, h) && forall t :: t in s.tasks ==> TaskAnswers(cfg, s, h, t)
  }

  lemma MoveKeepsScope(cfg: Config, s: System, m: Move, h: Log)
    requires Inv(cfg, s) && Enabled(cfg, s, m) && ScopeOk(s, h)
    ensures ScopeOk(Next(cfg, s, m), Note(s, m, h))
  {
    MoveAdds(cfg, s, m);
  }

  lemma SpawnAnswers(cfg: Config, s: System, m: Move, h: Log)
    requires m.Spawn? && Enabled(cfg, s, m) && ScopeOk(s, h)
    ensures AnswerOk(s.world, Note(s, m, h), m.t, Entering) && CallsOk(cfg, s.world, Note(s, m, h), m.t, Entering)
  {
    assert forall id :: !Own(s.world, m.t, id);
  }

  lemma NoteOfOthers(s: System, m: Move, h: Log, t: TaskId)
    requires (m.Spawn? || m.t in s.tasks) && t != m.t
    ensures var h' := Note(s, m, h);
            && (t in h'.disturbed <==> t in h.disturbed) && (t in h'.turnedAway <==> t in h.turnedAway)
            && (t in h'.found <==> t in h.found) && CallsOf(h', t) == CallsOf(h, t)
            && (t in h.routes ==> t in h'.routes && h'.routes[t] == h.routes[t])
  {
  }

  lemma OtherTaskStays(cfg: Config, s: System, m: Move, t: TaskId)
    requires Enabled(cfg, s, m) && t in s.tasks && t != m.t
    ensures t in Next(cfg, s, m).tasks && Next(cfg, s, m).tasks[t] == s.tasks[t]
  {
  }

  lemma OthersKeep(cfg: Config, s: System, m: Move, h: Log, t: TaskId)
    requires Inv(cfg, s) && Enabled(cfg, s, m) && t in s.tasks && t != m.t && TaskAnswers(cfg, s, h, t)
    ensures t in Next(cfg, s, m).tasks && TaskAnswers(cfg, Next(cfg, s, m), Note(s, m, h), t)
  {
    var s', h' := Next(cfg, s, m), Note(s, m, h);
    MoveAdds(cfg, s, m);
    NoteOfOthers(s, m, h, t);
    OtherTaskStays(cfg, s, m, t);
    AnswerFrame(s.world, s'.world, m.t, h, h', t, s.tasks[t].pc);
    CallsFrame(cfg, s.world, s'.world, m.t, h, h', t, s.tasks[t].pc);
  }

  lemma MoveKeepsAnswers(cfg: Config, s: System, m: Move, h: Log)
    requires Inv(cfg, s) && Enabled(cfg, s, m) && Answers(cfg, s, h)
    ensures Answers(cfg, Next(cfg, s, m), Note(s, m, h))
  {
    var s', h' := Next(cfg, s, m), Note(s, m, h);
    MoveKeepsScope(cfg, s, m, h);
    forall t | t in s'.tasks ensures TaskAnswers(cfg, s', h', t) {
      if t != m.t {
        OthersKeep(cfg, s, m, h, t);
      } else if m.Spawn? {
        SpawnAnswers(cfg, s, m, h);
      } else {
        OwnAnswer(cfg, s, m, h);
        OwnCalls(cfg, s, m, h);
      }
    }
  }

  lemma {:induction false} RunKeepsAnswers(cfg: Config, s: System, run: seq<Move>, h: Log)
    requires cfg.Valid() && Inv(cfg, s) && IsRun(cfg, s, run) && Answers(cfg, s, h)
    ensures Answers(cfg, Exec(cfg, s, run), LogFrom(cfg, s, run, h))
    decreases |run|
  {
    if run != [] {
      MoveKeepsInv(cfg, s, run[0]);
      MoveKeepsAnswers(cfg, s, run[0], h);
      RunKeepsAnswers(cfg, Next(cfg, s, run[0]), run[1..], Note(s, run[0], h));
    }
  }

  ghost function LogOf(cfg: Config, run: seq<Move>): Log
    requires IsRun(cfg, INITIAL, run)
  {
    LogFrom(cfg, INITIAL, run, BLANK)
  }

  lemma RunAnswers(cfg: Config, run: seq<Move>)
    requires cfg.Valid() && IsRun(cfg, INITIAL, run)
    ensures Inv(cfg, Exec(cfg, INITIAL, run)) && Answers(cfg, Exec(cfg, INITIAL, run), LogOf(cfg, run))
  {
    Reached(cfg, run);
    RunKeepsAnswers(cfg, INITIAL, run, BLANK);
  }

  /** The answer of a task that nothing disturbed, read off the store and the log. */
  ghost predicate AnswersWell(s: System, h: Log, t: TaskId)
    requires t in s.tasks
  {
    var task, w := s.tasks[t], s.world;
    && (Finished(task.pc) ==> (task.pc.Raised? <==> t in h.turnedAway || OwnFailed(w, t)))
    && (Finished(task.pc) && !task.pc.Raised? ==>
          task.pc.Returned? && Stored(w.store, task.key, task.pc.id, task.fingerprint))
    && (forall id :: Own(w, t, id) && id in w.store.payments && !w.coordinator.Pending(task.key) ==>
          if w.store.payments[id].succeeded then task.pc == Returned(id) else task.pc.Raised?)
    && (t in h.found && Finished(task.pc) ==> task.pc.Returned?)
  }

  lemma AnswersRead(cfg: Config, s: System, h: Log, t: TaskId)
    requires Inv(cfg, s) && Answers(cfg, s, h) && t in s.tasks && t !in h.disturbed
    ensures AnswersWell(s, h, t)
  {
    assert TaskAnswers(cfg, s, h, t) && TaskOk(cfg, s.world, t, s.tasks[t]);
    if OwnFailed(s.world, t) {
      var id :| Own(s.world, t, id) && id in s.world.store.payments && !s.world.store.payments[id].succeeded;
      assert AnswersFor(s.world, h, t, s.tasks[t].pc, id);
    }
  }

  /**
   What `create` answers, for every task that nothing disturbed.  Once over, it raised if and only if
   it was turned away or its own payment is stored as failed, and otherwise returned the payment
   stored for its request.  If its own payment is stored and its claim settled, it returned
   that one if it succeeded and raised if it failed.  If it found its payment there, it returns it.
   */
  lemma WhatCreateAnswers(cfg: Config, run: seq<Move>, t: TaskId)
    requires cfg.Valid() && IsRun(cfg, INITIAL, run) && t in Exec(cfg, INITIAL, run).tasks
    requires t !in LogOf(cfg, run).disturbed
    ensures AnswersWell(Exec(cfg, INITIAL, run), LogOf(cfg, run), t)
  {
    RunAnswers(cfg, run);
    AnswersRead(cfg, Exec(cfg, INITIAL, run), LogOf(cfg, run), t);
  }

  /** The task returned a payment of its own. */
  predicate ReturnedOwn(s: System, t: TaskId) {
    t in s.tasks && s.tasks[t].pc.Returned? && Own(s.world, t, s.tasks[t].pc.id)
  }

  lemma OwnReturnSucceeded(cfg: Config, s: System, h: Log, t: TaskId)
    requires Answers(cfg, s, h) && ReturnedOwn(s, t)
    ensures SavedAsSucceeded(s.world.store, s.tasks[t].pc.id)
  {
    assert TaskAnswers(cfg, s, h, t);
  }

  predicate SavedAsSucceeded(st: Store, id: PaymentId) {
    id in st.payments && st.payments[id].succeeded
  }

  /** Disturbed or not: a task never returns its own payment unless that payment succeeded. */
  lemma ReturnsSuccess(cfg: Config, run: seq<Move>, t: TaskId)
    requires cfg.Valid() && IsRun(cfg, INITIAL, run) && ReturnedOwn(Exec(cfg, INITIAL, run), t)
    ensures SavedAsSucceeded(Exec(cfg, INITIAL, run).world.store, Exec(cfg, INITIAL, run).tasks[t].pc.id)
  {
    RunAnswers(cfg, run);
    OwnReturnSucceeded(cfg, Exec(cfg, INITIAL, run), LogOf(cfg, run), t);
  }

  lemma StoredIsRead(cfg: Config, s: System, h: Log, id: PaymentId)
    requires Inv(cfg, s) && Answers(cfg, s, h) && id in s.world.store.payments
    ensures id in s.world.author && Faithful(cfg, h, s.world.author[id], s.world.store.payments[id])
  {
    assert PaymentOk(cfg, s.world, id);
    assert Own(s.world, s.world.author[id], id) && TaskAnswers(cfg, s, h, s.world.author[id]);
  }

  /**
   What is stored: every payment tells, in order, of exactly the provider calls made by the task it
   belongs to, tried along the route of that task (the chosen provider first, then the other
   healthy ones), and it names a provider exactly if it succeeded.
   */
  lemma StoredIsFaithful(cfg: Config, run: seq<Move>, id: PaymentId)
    requires cfg.Valid() && IsRun(cfg, INITIAL, run) && id in Exec(cfg, INITIAL, run).world.store.payments
    ensures var s := Exec(cfg, INITIAL, run);
            && id in s.world.author
            && Faithful(cfg, LogOf(cfg, run), s.world.author[id], s.world.store.payments[id])
  {
    RunAnswers(cfg, run);
    StoredIsRead(cfg, Exec(cfg, INITIAL, run), LogOf(cfg, run), id);
  }

  /** A provider that charged is the one stored with the payment, and the last one called. */
  lemma FaithfulProvider(cfg: Config, h: Log, t: TaskId, p: Payment)
    requires Faithful(cfg, h, t, p) && p.succeeded
    ensures var calls := CallsOf(h, t);
            calls != [] && p.provider.Some? && calls[|calls| - 1] == Call(p.provider.value, None)
  {
    var ordered: seq<string>, ending: Failover.Ending :|
      && RoutedFrom(h.routes[t], ordered) && ending.Charge? == p.succeeded
      && Failover.Ended(cfg.maxAttempts, ordered, p.attempts, ending, p.provider);
    Failover.SuccessHasNoCode(cfg.maxAttempts, ordered, p.attempts, ending, p.provider);
    Failover.HistoryShape(cfg.maxAttempts, ordered, p.attempts, ending, p.provider, |p.attempts| - 1);
    assert CallsIn(p.attempts)[|p.attempts| - 1]
        == Call(p.attempts[|p.attempts| - 1].provider, p.attempts[|p.attempts| - 1].code);
  }
}
