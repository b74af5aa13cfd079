/**
 Refunds (`PaymentService.refund`, service.py) as a protocol: any number of refund tasks on any
 payments, serialised per payment by a lock that is held across the provider call.  A task may
 be interrupted at every await; a provider may have executed a refund it never acknowledged.
 */
module RefundLedger {
  import opened Prelude

  type PaymentId = nat
  type TaskId = nat

  datatype Status = Processing | Succeeded | Failed | Refunded

  /** The fields of a stored payment that refunds read and write. */
  datatype Account = Account(amount: int, status: Status, refundedAmount: int, refunds: seq<int>)

  datatype Verdict = Reject | Proceed(amount: int)

  /** The checks before the provider is called; no account means the payment was not found. */
  function Validate(account: Option<Account>, request: Option<int>, providerKnown: bool): Verdict {
    match account
    case None => Reject
    case Some(a) =>
      if a.status != Succeeded && a.status != Refunded then Reject
      else
        var remaining := a.amount - a.refundedAmount;
        var amount := if request.None? then remaining else request.value;
        if amount <= 0 || amount > remaining || !providerKnown then Reject else Proceed(amount)
  }

  /** A refund may go ahead on `a`, and for `x`: all that is left, or what was asked for. */
  predicate Refundable(a: Account, request: Option<int>, providerKnown: bool, x: int) {
    && (a.status == Succeeded || a.status == Refunded) && providerKnown
    && 0 < x <= a.amount - a.refundedAmount
    && match request case None => x == a.amount - a.refundedAmount case Some(asked) => x == asked
  }

  /** Which requests pass the checks, and for how much. */
  lemma ValidateExact(account: Option<Account>, request: Option<int>, providerKnown: bool, x: int)
    ensures Validate(account, request, providerKnown) == Proceed(x)
       <==> account.Some? && Refundable(account.value, request, providerKnown, x)
  {
  }

  /** What an acknowledged refund does to the payment object. */
  function Apply(a: Account, amount: int): Account {
    var refunded := a.refundedAmount + amount;
    Account(a.amount, if refunded == a.amount then Refunded else a.status, refunded, a.refunds + [amount])
  }

  /** The payment object itself, refunded with nobody else about. */
  class Payment {
    const amount: int
    var status: Status
    var refundedAmount: int
    var refunds: seq<int>

    ghost function View(): Account
      reads this
    {
      Account(amount, status, refundedAmount, refunds)
    }

    constructor (amount: int, status: Status)
      ensures View() == Account(amount, status, 0, [])
    {
      this.amount, this.status, refundedAmount, refunds := amount, status, 0, [];
    }

    method Refund(request: Option<int>, providerKnown: bool, acknowledged: bool) returns (done: bool)
      modifies this
      ensures var v := Validate(Some(old(View())), request, providerKnown);
              && (done <==> v.Proceed? && acknowledged)
              && View() == if done then Apply(old(View()), v.amount) else old(View())
      ensures var left := amount - old(refundedAmount);
              && (done <==> && (old(status) == Succeeded || old(status) == Refunded) && providerKnown && acknowledged
                            && match request case None => left > 0 case Some(x) => 0 < x <= left)
              && (done && request.None? ==>
                    refundedAmount == amount && status == Refunded && refunds == old(refunds) + [left])
              && (done && request.Some? ==>
                    && refundedAmount == old(refundedAmount) + request.value
                    && refunds == old(refunds) + [request.value]
                    && status == if request.value == left then Refunded else old(status))
      ensures !done ==> refundedAmount == old(refundedAmount) && refunds == old(refunds) && status == old(status)
    {
      if status != Succeeded && status != Refunded {
        return false;
      }
      var remaining := amount - refundedAmount;
      var refund := if request.None? then remaining else request.value;
      if refund <= 0 || refund > remaining || !providerKnown || !acknowledged {
        return false;
      }
      refundedAmount := refundedAmount + refund;
      refunds := refunds + [refund];
      if refundedAmount == amount {
        status := Refunded;
      }
      return true;
    }
  }

  // ---------------------------------------------------------------- the protocol

  datatype PC = Queued | Checking | Calling(amount: int) | Saving | Over

  predicate InLock(pc: PC) {
    pc.Checking? || pc.Calling? || pc.Saving?
  }

  datatype Task = Task(payment: PaymentId, request: Option<int>, pc: PC)

  /**
   `acknowledged` and `executed` are the provider's totals per payment, `stray` the part of them it
   never acknowledged.
   */
  datatype System = System(
    accounts: map<PaymentId, Account>,
    holder: map<PaymentId, TaskId>,
    tasks: map<TaskId, Task>,
    acknowledged: map<PaymentId, int>,
    executed: map<PaymentId, int>,
    stray: map<PaymentId, int>)

  const INITIAL := System(map[], map[], map[], map[], map[], map[])

  function At(m: map<PaymentId, int>, id: PaymentId): int {
    if id in m then m[id] else 0
  }

  datatype Move =
    | Open(id: PaymentId, amount: int, status: Status)
    | Spawn(t: TaskId, id: PaymentId, request: Option<int>)
    | Lock(t: TaskId)
    | Check(t: TaskId, providerKnown: bool)
    | Acknowledge(t: TaskId)
    | Save(t: TaskId)
    | Interrupt(t: TaskId, executed: bool)

  predicate Enabled(s: System, m: Move) {
    match m
    case Open(id, amount, status) => id !in s.accounts && amount > 0 && status != Refunded
    case Spawn(t, _, _) => t !in s.tasks
    case Lock(t) => t in s.tasks && s.tasks[t].pc.Queued? && s.tasks[t].payment !in s.holder
    case Check(t, _) => t in s.tasks && s.tasks[t].pc.Checking?
    case Acknowledge(t) => t in s.tasks && s.tasks[t].pc.Calling? && s.tasks[t].payment in s.accounts
    case Save(t) => t in s.tasks && s.tasks[t].pc.Saving?
    case Interrupt(t, _) => t in s.tasks && !s.tasks[t].pc.Over?
  }

  function Goto(s: System, t: TaskId, pc: PC): System
    requires t in s.tasks
  {
    s.(tasks := s.tasks[t := s.tasks[t].(pc := pc)])
  }

  /** The task is over and, if it held the lock, gives it back. */
  function Leave(s: System, t: TaskId): System
    requires t in s.tasks
  {
    Goto(s, t, Over).(holder := if InLock(s.tasks[t].pc) then s.holder - {s.tasks[t].payment} else s.holder)
  }

  function Next(s: System, m: Move): System
    requires Enabled(s, m)
  {
    match m
    case Open(id, amount, status) => s.(accounts := s.accounts[id := Account(amount, status, 0, [])])
    case Spawn(t, id, request) => s.(tasks := s.tasks[t := Task(id, request, Queued)])
    case Lock(t) => Goto(s, t, Checking).(holder := s.holder[s.tasks[t].payment := t])
    case Check(t, providerKnown) =>
      var id := s.tasks[t].payment;
      (match Validate(if id in s.accounts then Some(s.accounts[id]) else None, s.tasks[t].request, providerKnown)
       case Reject => Leave(s, t)
       case Proceed(amount) => Goto(s, t, Calling(amount)))
    case Acknowledge(t) =>
      var id, amount := s.tasks[t].payment, s.tasks[t].pc.amount;
      Goto(s, t, Saving).(
        accounts := s.accounts[id := Apply(s.accounts[id], amount)],
        acknowledged := s.acknowledged[id := At(s.acknowledged, id) + amount],
        executed := s.executed[id := At(s.executed, id) + amount])
    case Save(t) => Leave(s, t)
    case Interrupt(t, executed) =>
      if executed && s.tasks[t].pc.Calling? then
        var id, amount := s.tasks[t].payment, s.tasks[t].pc.amount;
        Leave(s, t).(
          executed := s.executed[id := At(s.executed, id) + amount],
          stray := s.stray[id := At(s.stray, id) + amount])
      else Leave(s, t)
  }

  ghost predicate IsRun(run: seq<Move>)
    decreases |run|, 0
  {
    run == [] || (IsRun(run[..|run| - 1]) && Enabled(Exec(run[..|run| - 1]), run[|run| - 1]))
  }

  ghost function Exec(run: seq<Move>): System
    requires IsRun(run)
    decreases |run|, 1
  {
    if run == [] then INITIAL else Next(Exec(run[..|run| - 1]), run[|run| - 1])
  }

  // ---------------------------------------------------------------- conservation

  function SumOf(amounts: seq<int>): int {
    if amounts == [] then 0 else SumOf(amounts[..|amounts| - 1]) + amounts[|amounts| - 1]
  }

  ghost predicate Balanced(a: Account) {
    && a.amount > 0 && 0 <= a.refundedAmount <= a.amount
    && a.refundedAmount == SumOf(a.refunds)
    && (forall i :: 0 <= i < |a.refunds| ==> a.refunds[i] > 0)
    && (a.status == Refunded <==> a.refundedAmount == a.amount)
    && (a.status == Processing || a.status == Failed ==> a.refunds == [])
  }

  lemma ApplyKeepsBalance(a: Account, request: Option<int>, providerKnown: bool, amount: int)
    requires Balanced(a) && Validate(Some(a), request, providerKnown) == Proceed(amount)
    ensures Balanced(Apply(a, amount))
  {
    assert (a.refunds + [amount])[..|a.refunds|] == a.refunds;
  }

  /** A task inside the lock is its holder, and what it asked the provider for still fits. */
  ghost predicate TaskOk(s: System, t: TaskId)
    requires t in s.tasks
  {
    var task := s.tasks[t];
    && (InLock(task.pc) ==> task.payment in s.holder && s.holder[task.payment] == t)
    && (task.pc.Calling? ==>
          && task.payment in s.accounts
          && Validate(Some(s.accounts[task.payment]), task.request, true) == Proceed(task.pc.amount))
  }

  ghost predicate AccountOk(s: System, id: PaymentId) {
    && At(s.executed, id) == At(s.acknowledged, id) + At(s.stray, id)
    && (id in s.accounts ==> Balanced(s.accounts[id]) && s.accounts[id].refundedAmount == At(s.acknowledged, id))
    && (id !in s.accounts ==> At(s.acknowledged, id) == 0)
  }

  ghost predicate Inv(s: System) {
    && (forall t :: t in s.tasks ==> TaskOk(s, t))
    && (forall id :: AccountOk(s, id))
  }

  lemma AcknowledgeKeepsInv(s: System, t: TaskId)
    requires Inv(s) && Enabled(s, Acknowledge(t))
    ensures Inv(Next(s, Acknowledge(t)))
  {
    var s' := Next(s, Acknowledge(t));
    var id := s.tasks[t].payment;
    assert TaskOk(s, t) && AccountOk(s, id);
    ApplyKeepsBalance(s.accounts[id], s.tasks[t].request, true, s.tasks[t].pc.amount);
    forall u | u in s'.tasks ensures TaskOk(s', u) {
      assert TaskOk(s, u);
    }
    forall i ensures AccountOk(s', i) {
      assert AccountOk(s, i);
    }
  }

  lemma LeaveKeepsInv(s: System, t: TaskId)
    requires Inv(s) && t in s.tasks
    ensures Inv(Leave(s, t))
  {
    var s' := Leave(s, t);
    assert TaskOk(s, t);
    forall u | u in s'.tasks ensures TaskOk(s', u) {
      assert TaskOk(s, u);
    }
    forall i ensures AccountOk(s', i) {
      assert AccountOk(s, i);
    }
  }

  /** Every move keeps the books balanced. */
  lemma MoveKeepsInv(s: System, m: Move)
    requires Inv(s) && Enabled(s, m)
    ensures Inv(Next(s, m))
  {
    var s' := Next(s, m);
    match m
    case Acknowledge(t) => AcknowledgeKeepsInv(s, t);
    case Save(t) => LeaveKeepsInv(s, t);
    case Interrupt(t, executed) =>
      LeaveKeepsInv(s, t);
      var left := Leave(s, t);
      forall u | u in s'.tasks ensures TaskOk(s', u) {
        assert TaskOk(left, u);
      }
      forall i ensures AccountOk(s', i) {
        assert AccountOk(left, i);
      }
    case Check(t, known) => CheckKeepsInv(s, t, known);
    case _ =>
      forall u | u in s'.tasks ensures TaskOk(s', u) {
        assert u in s.tasks ==> TaskOk(s, u);
      }
      forall i ensures AccountOk(s', i) {
        assert AccountOk(s, i);
      }
  }

  lemma CheckKeepsInv(s: System, t: TaskId, known: bool)
    requires Inv(s) && Enabled(s, Check(t, known))
    ensures Inv(Next(s, Check(t, known)))
  {
    var s', id := Next(s, Check(t, known)), s.tasks[t].payment;
    LeaveKeepsInv(s, t);
    if s' != Leave(s, t) {
      forall u | u in s'.tasks ensures TaskOk(s', u) {
        assert TaskOk(s, u);
      }
      forall i ensures AccountOk(s', i) {
        assert AccountOk(s, i);
      }
    }
  }

  lemma {:induction false} RunKeepsInv(run: seq<Move>)
    requires IsRun(run)
    ensures Inv(Exec(run))
  {
    if run != [] {
      RunKeepsInv(run[..|run| - 1]);
      MoveKeepsInv(Exec(run[..|run| - 1]), run[|run| - 1]);
    }
  }

  /**
   In every interleaving: refunds are positive and never exceed the payment, the refunded amount
   is the sum of the recorded refunds and of what the provider acknowledged, REFUNDED means
   exactly "all of it", and the provider executed only that much more than was acknowledged.
   */
  lemma MoneyIsConserved(run: seq<Move>, id: PaymentId)
    requires IsRun(run) && id in Exec(run).accounts
    ensures var s := Exec(run);
            var a := s.accounts[id];
            && 0 <= a.refundedAmount <= a.amount
            && a.refundedAmount == SumOf(a.refunds) == At(s.acknowledged, id)
            && (forall i :: 0 <= i < |a.refunds| ==> a.refunds[i] > 0)
            && (a.status == Refunded <==> a.refundedAmount == a.amount)
            && At(s.executed, id) == a.refundedAmount + At(s.stray, id)
  {
    RunKeepsInv(run);
    assert AccountOk(Exec(run), id);
  }

  /** At most one task at a time is between the checks of a payment and the end of its refund. */
  lemma RefundsAreSerial(run: seq<Move>, t: TaskId, u: TaskId)
    requires IsRun(run) && t in Exec(run).tasks && u in Exec(run).tasks
    requires var s := Exec(run);
             InLock(s.tasks[t].pc) && InLock(s.tasks[u].pc) && s.tasks[t].payment == s.tasks[u].payment
    ensures t == u
  {
    RunKeepsInv(run);
    assert TaskOk(Exec(run), t) && TaskOk(Exec(run), u);
  }

  // ---------------------------------------------------------------- what one refund does

  function Actor(m: Move): Option<TaskId> {
    match m
    case Open(_, _, _) => None
    case Spawn(t, _, _) => Some(t)
    case Lock(t) => Some(t)
    case Check(t, _) => Some(t)
    case Acknowledge(t) => Some(t)
    case Save(t) => Some(t)
    case Interrupt(t, _) => Some(t)
  }

  /** The last move of a run, taken where the rest of it leads. */
  lemma LastMove(run: seq<Move>, m: Move)
    requires IsRun(run + [m])
    ensures IsRun(run) && Enabled(Exec(run), m) && Exec(run + [m]) == Next(Exec(run), m)
  {
    assert (run + [m])[..|run|] == run;
  }

  /** A move of another task leaves a lock holder and the account it holds alone. */
  lemma OthersLeaveAlone(s: System, m: Move, t: TaskId)
    requires Inv(s) && Enabled(s, m) && Actor(m) != Some(t)
    requires t in s.tasks && InLock(s.tasks[t].pc) && s.tasks[t].payment in s.accounts
    ensures t in Next(s, m).tasks && Next(s, m).tasks[t] == s.tasks[t]
    ensures s.tasks[t].payment in Next(s, m).accounts
    ensures Next(s, m).accounts[s.tasks[t].payment] == s.accounts[s.tasks[t].payment]
  {
    assert TaskOk(s, t);
    if m.Acknowledge? {
      assert TaskOk(s, m.t);
    }
  }

  /** Whatever the other tasks do, for as long as they like. */
  lemma {:induction false} LockHolds(run: seq<Move>, more: seq<Move>, t: TaskId)
    requires IsRun(run + more) && IsRun(run)
    requires forall i :: 0 <= i < |more| ==> Actor(more[i]) != Some(t)
    requires var s := Exec(run); t in s.tasks && InLock(s.tasks[t].pc) && s.tasks[t].payment in s.accounts
    ensures var s, s' := Exec(run), Exec(run + more);
            && t in s'.tasks && s'.tasks[t] == s.tasks[t]
            && s.tasks[t].payment in s'.accounts
            && s'.accounts[s.tasks[t].payment] == s.accounts[s.tasks[t].payment]
    decreases |more|
  {
    if more == [] {
      assert run + more == run;
    } else {
      var n := |more| - 1;
      assert run + more == (run + more[..n]) + [more[n]];
      LastMove(run + more[..n], more[n]);
      LockHolds(run, more[..n], t);
      RunKeepsInv(run + more[..n]);
      OthersLeaveAlone(Exec(run + more[..n]), more[n], t);
    }
  }

  /**
   The checks, made under the lock: the provider is called exactly for a refundable request and for
   exactly that amount; any other request is over, with no account touched and no call made.
   */
  lemma CheckDecides(run: seq<Move>, t: TaskId, known: bool)
    requires IsRun(run + [Check(t, known)])
    ensures IsRun(run)
    ensures var s, s' := Exec(run), Exec(run + [Check(t, known)]);
            && t in s.tasks && t in s'.tasks && s'.accounts == s.accounts && s'.executed == s.executed
            && var task, pc := s.tasks[t], s'.tasks[t].pc;
               && s'.tasks[t] == task.(pc := pc) && (pc.Over? || pc.Calling?)
               && (forall x :: pc == Calling(x) <==>
                     task.payment in s.accounts && Refundable(s.accounts[task.payment], task.request, known, x))
  {
    LastMove(run, Check(t, known));
    var s := Exec(run);
    var id := s.tasks[t].payment;
    var account := if id in s.accounts then Some(s.accounts[id]) else None;
    forall x ensures Validate(account, s.tasks[t].request, known) == Proceed(x)
                <==> account.Some? && Refundable(account.value, s.tasks[t].request, known, x)
    {
      ValidateExact(account, s.tasks[t].request, known, x);
    }
  }

  /**
   A refund that nothing interrupts between its checks and the provider's acknowledgement, whatever
   other tasks do in between: with no amount given it brings the payment to fully refunded and
   REFUNDED; with an amount it was between one and what was left, and adds exactly that.
   */
  lemma UninterruptedRefund(run: seq<Move>, t: TaskId, known: bool, between: seq<Move>)
    requires IsRun(run + [Check(t, known)] + between + [Acknowledge(t)])
    requires forall i :: 0 <= i < |between| ==> Actor(between[i]) != Some(t)
    ensures IsRun(run) && t in Exec(run).tasks && Exec(run).tasks[t].payment in Exec(run).accounts
    ensures var s, s' := Exec(run), Exec(run + [Check(t, known)] + between + [Acknowledge(t)]);
            var id := s.tasks[t].payment;
            && known && id in s'.accounts
            && RefundedAs(s.accounts[id], s.tasks[t].request, s'.accounts[id])
  {
    var checked := run + [Check(t, known)];
    LastMove(checked + between, Acknowledge(t));
    PrefixIsRun(checked, between);
    StillCalling(run, t, known, between);
    var s := Exec(checked + between);
    AcknowledgeAdds(s, t, known);
  }

  /** What the refund of a request turns one account into. */
  ghost predicate RefundedAs(a: Account, request: Option<int>, b: Account) {
    && (a.status == Succeeded || a.status == Refunded)
    && b.amount == a.amount && b.refunds == a.refunds + [b.refundedAmount - a.refundedAmount]
    && match request
       case None => a.refundedAmount < b.refundedAmount == b.amount && b.status == Refunded
       case Some(x) =>
         && 0 < x <= a.amount - a.refundedAmount && b.refundedAmount == a.refundedAmount + x
         && b.status == if x == a.amount - a.refundedAmount then Refunded else a.status
  }

  /** The amount that was checked is still the one to be refunded when the acknowledgement comes. */
  lemma StillCalling(run: seq<Move>, t: TaskId, known: bool, between: seq<Move>)
    requires IsRun(run + [Check(t, known)]) && IsRun(run + [Check(t, known)] + between)
    requires forall i :: 0 <= i < |between| ==> Actor(between[i]) != Some(t)
    requires var s := Exec(run + [Check(t, known)] + between); t in s.tasks && s.tasks[t].pc.Calling?
    ensures IsRun(run) && t in Exec(run).tasks
    ensures var s, s' := Exec(run), Exec(run + [Check(t, known)] + between);
            var id := s.tasks[t].payment;
            && s'.tasks[t].payment == id && s'.tasks[t].request == s.tasks[t].request
            && id in s.accounts && id in s'.accounts && s'.accounts[id] == s.accounts[id]
            && Refundable(s.accounts[id], s.tasks[t].request, known, s'.tasks[t].pc.amount)
  {
    var checked := run + [Check(t, known)];
    CheckDecides(run, t, known);
    NotOverBefore(checked, between, t);
    var amount := Exec(checked).tasks[t].pc.amount;
    assert Exec(checked).tasks[t].pc == Calling(amount);
    LockHolds(checked, between, t);
  }

  lemma AcknowledgeAdds(s: System, t: TaskId, known: bool)
    requires Enabled(s, Acknowledge(t))
    requires var task := s.tasks[t]; Refundable(s.accounts[task.payment], task.request, known, task.pc.amount)
    ensures var id := s.tasks[t].payment;
            && id in Next(s, Acknowledge(t)).accounts
            && RefundedAs(s.accounts[id], s.tasks[t].request, Next(s, Acknowledge(t)).accounts[id])
  {
  }

  lemma {:induction false} PrefixIsRun(run: seq<Move>, more: seq<Move>)
    requires IsRun(run + more)
    ensures IsRun(run)
    decreases |more|
  {
    if more == [] {
      assert run + more == run;
    } else {
      assert (run + more)[..|run + more| - 1] == run + more[..|more| - 1];
      PrefixIsRun(run, more[..|more| - 1]);
    }
  }

  lemma {:induction false} OverIsOver(run: seq<Move>, more: seq<Move>, t: TaskId)
    requires IsRun(run + more) && IsRun(run) && t in Exec(run).tasks && Exec(run).tasks[t].pc.Over?
    ensures t in Exec(run + more).tasks && Exec(run + more).tasks[t].pc.Over?
    decreases |more|
  {
    if more == [] {
      assert run + more == run;
    } else {
      var n := |more| - 1;
      assert run + more == (run + more[..n]) + [more[n]];
      LastMove(run + more[..n], more[n]);
      OverIsOver(run, more[..n], t);
      OverStays(Exec(run + more[..n]), more[n], t);
    }
  }

  lemma NotOverBefore(run: seq<Move>, more: seq<Move>, t: TaskId)
    requires IsRun(run + more) && IsRun(run) && t in Exec(run).tasks
    requires t in Exec(run + more).tasks && !Exec(run + more).tasks[t].pc.Over?
    ensures !Exec(run).tasks[t].pc.Over?
  {
    if Exec(run).tasks[t].pc.Over? {
      OverIsOver(run, more, t);
    }
  }

  lemma OverStays(s: System, m: Move, t: TaskId)
    requires Enabled(s, m) && t in s.tasks && s.tasks[t].pc.Over?
    ensures t in Next(s, m).tasks && Next(s, m).tasks[t].pc.Over?
  {
  }
}
