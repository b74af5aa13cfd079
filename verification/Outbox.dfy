/**
 The outbox (`store.py`), its dispatcher and broker (`outbox.py`) and the deduplicating consumer
 (`consumers.py`).  An event envelope never changes and is known by its id.  Publishing and
 marking may fail or be cancelled, each before or after it took effect, the dispatcher may be
 cancelled at any other await, and events may be appended at any moment.
 */
module Outbox {
  import opened Prelude

  type Uuid = nat

  /** The event dictionary in insertion order, and the set of published ids. */
  datatype Events = Events(order: seq<Uuid>, published: set<Uuid>)

  function Append(o: Events, ids: seq<Uuid>): Events
    decreases |ids|
  {
    if ids == [] then o
    else Append(if ids[0] in o.order then o else o.(order := o.order + [ids[0]]), ids[1..])
  }

  function Pending(order: seq<Uuid>, published: set<Uuid>): seq<Uuid> {
    if order == [] then []
    else (if order[0] in published then [] else [order[0]]) + Pending(order[1..], published)
  }

  function Unsent(o: Events, limit: nat): seq<Uuid> {
    var all := Pending(o.order, o.published);
    if |all| <= limit then all else all[..limit]
  }

  function Mark(o: Events, id: Uuid): Events {
    if id in o.order then o.(published := o.published + {id}) else o
  }

  // ---------------------------------------------------------------- the dispatcher as a machine

  /** A running `dispatch_once`: the events to do, the attempt at the first, and whether it was just sent. */
  datatype Job = Job(queue: seq<Uuid>, attempt: nat, sent: bool)

  /** `since` remembers how long the log was when the latest dispatch began. */
  datatype Delivery = Delivery(events: Events, log: seq<Uuid>, since: nat, job: Option<Job>)

  const EMPTY := Delivery(Events([], {}), [], 0, None)

  /** How an await ends.  A late failure or cancellation is one that comes after the effect. */
  datatype Fate = Fine | Fails | Late | Cancelled | CancelledLate

  predicate Effective(fate: Fate) {
    fate == Fine || fate == Late || fate == CancelledLate
  }

  predicate Interrupted(fate: Fate) {
    fate == Cancelled || fate == CancelledLate
  }

  datatype Step =
    | Arrive(ids: seq<Uuid>)
    | Begin(limit: nat)
    | Publish(fate: Fate)
    | MarkSent(fate: Fate)
    | Finish
    | Cancel

  predicate Enabled(d: Delivery, s: Step) {
    match s
    case Arrive(_) => true
    case Begin(_) => d.job.None?
    case Publish(_) => d.job.Some? && d.job.value.queue != [] && !d.job.value.sent
    case MarkSent(_) => d.job.Some? && d.job.value.queue != [] && d.job.value.sent
    case Finish => d.job.Some? && d.job.value.queue == []
    case Cancel => d.job.Some?
  }

  /** The `except Exception` branch: the last attempt re-raises out of the dispatch. */
  function Failure(max: nat, j: Job): Option<Job> {
    if j.attempt + 1 >= max then None else Some(j.(attempt := j.attempt + 1, sent := false))
  }

  function After(max: nat, j: Job, fate: Fate, fine: Job): Option<Job> {
    if fate == Fine then Some(fine) else if Interrupted(fate) then None else Failure(max, j)
  }

  function Next(max: nat, d: Delivery, s: Step): Delivery
    requires Enabled(d, s)
  {
    match s
    case Arrive(ids) => d.(events := Append(d.events, ids))
    case Begin(limit) => d.(since := |d.log|, job := Some(Job(Unsent(d.events, limit), 0, false)))
    case Publish(fate) =>
      var j := d.job.value;
      d.(log := d.log + (if Effective(fate) then [j.queue[0]] else []),
         job := After(max, j, fate, j.(sent := true)))
    case MarkSent(fate) =>
      var j := d.job.value;
      d.(events := if Effective(fate) then Mark(d.events, j.queue[0]) else d.events,
         job := After(max, j, fate, Job(j.queue[1..], 0, false)))
    case Finish => d.(job := None)
    case Cancel => d.(job := None)
  }

  ghost predicate IsRun(max: nat, d: Delivery, run: seq<Step>)
    decreases |run|, 0
  {
    || run == []
    || (IsRun(max, d, run[..|run| - 1]) && Enabled(Exec(max, d, run[..|run| - 1]), run[|run| - 1]))
  }

  ghost function Exec(max: nat, d: Delivery, run: seq<Step>): Delivery
    requires IsRun(max, d, run)
    decreases |run|, 1
  {
    if run == [] then d else Next(max, Exec(max, d, run[..|run| - 1]), run[|run| - 1])
  }

  // ---------------------------------------------------------------- repeats removed

  /** The log with every repeat after the first dropped. */
  function Dedup(log: seq<Uuid>): (r: seq<Uuid>)
    ensures forall x :: x in r <==> x in log
  {
    if log == [] then []
    else
      var init, last := log[..|log| - 1], log[|log| - 1];
      assert forall x :: x in log <==> x in init || x == last;
      Dedup(init) + (if last in init then [] else [last])
  }

  lemma DedupSnoc(log: seq<Uuid>, x: Uuid)
    ensures Dedup(log + [x]) == Dedup(log) + (if x in log then [] else [x])
  {
    assert (log + [x])[..|log|] == log;
  }

  lemma {:induction false} DedupPrefix(log: seq<Uuid>, n: nat)
    requires n <= |log|
    ensures Dedup(log[..n]) <= Dedup(log)
    decreases |log|
  {
    if n < |log| {
      DedupPrefix(log[..|log| - 1], n);
      assert log[..|log| - 1][..n] == log[..n];
    } else {
      assert log[..n] == log;
    }
  }

  function Times(log: seq<Uuid>, x: Uuid): nat {
    if log == [] then 0 else Times(log[..|log| - 1], x) + if log[|log| - 1] == x then 1 else 0
  }

  lemma TimesSnoc(log: seq<Uuid>, y: Uuid, x: Uuid)
    ensures Times(log + [y], x) == Times(log, x) + if y == x then 1 else 0
  {
    assert (log + [y])[..|log|] == log;
  }

  // ---------------------------------------------------------------- the invariant

  /** The first `m` events, in append order, are marked, and the log is at most one event ahead. */
  ghost predicate Settled(e: Events, log: seq<Uuid>, m: nat) {
    && Distinct(e.order) && m <= |e.order|
    && (forall x :: x in e.published <==> x in e.order[..m])
    && (Dedup(log) == e.order[..m] || (m < |e.order| && Dedup(log) == e.order[..m + 1]))
  }

  /**
   The job's events start at position `h`; the one at hand is the first unmarked one, unless
   an earlier attempt marked it and failed afterwards.
   */
  ghost predicate AtHand(order: seq<Uuid>, log: seq<Uuid>, j: Job, m: nat, h: nat) {
    && (h == m || h + 1 == m)
    && h + |j.queue| <= |order| && j.queue == order[h..h + |j.queue|]
    && (j.sent ==> j.queue != [] && j.queue[0] in log)
  }

  ghost predicate Front(d: Delivery, m: nat, h: nat) {
    && Settled(d.events, d.log, m)
    && (d.job.Some? ==> AtHand(d.events.order, d.log, d.job.value, m, h))
  }

  /** Publishes in one dispatch: the event at hand once per attempt, the later ones none. */
  ghost predicate Spent(recent: seq<Uuid>, j: Job) {
    && (forall i :: 0 < i < |j.queue| ==> Times(recent, j.queue[i]) == 0)
    && (j.queue != [] ==> Times(recent, j.queue[0]) <= j.attempt + if j.sent then 1 else 0)
  }

  ghost predicate Metered(max: nat, d: Delivery) {
    && d.since <= |d.log| && (forall x :: Times(d.log[d.since..], x) <= max)
    && (d.job.Some? ==> d.job.value.attempt < max && Spent(d.log[d.since..], d.job.value))
  }

  ghost predicate Inv(max: nat, d: Delivery) {
    Metered(max, d) && exists m: nat, h: nat :: Front(d, m, h)
  }

  lemma {:induction false} AppendKeepsFront(d: Delivery, ids: seq<Uuid>, m: nat, h: nat)
    requires Front(d, m, h)
    ensures Front(d.(events := Append(d.events, ids)), m, h)
    decreases |ids|
  {
    if ids != [] {
      var e := if ids[0] in d.events.order then d.events else d.events.(order := d.events.order + [ids[0]]);
      assert e.order[..m] == d.events.order[..m];
      assert m < |d.events.order| ==> e.order[..m + 1] == d.events.order[..m + 1];
      AppendKeepsFront(d.(events := e), ids[1..], m, h);
    }
  }

  lemma {:induction false} PendingIsSuffix(order: seq<Uuid>, published: set<Uuid>, k: nat)
    requires Distinct(order) && k <= |order|
    requires forall i :: 0 <= i < |order| ==> (order[i] in published <==> i < k)
    ensures Pending(order, published) == order[k..]
  {
    if order != [] {
      assert forall i :: 0 <= i < |order[1..]| ==> order[1..][i] == order[i + 1];
      if k > 0 {
        PendingIsSuffix(order[1..], published, k - 1);
      } else {
        PendingIsSuffix(order[1..], published, 0);
      }
    }
  }

  lemma PendingAfterFront(o: Events, k: nat)
    requires Distinct(o.order) && k <= |o.order|
    requires forall x :: x in o.published <==> x in o.order[..k]
    ensures Pending(o.order, o.published) == o.order[k..]
  {
    forall i | 0 <= i < |o.order| ensures o.order[i] in o.published <==> i < k {
      if i < k {
        assert o.order[i] == o.order[..k][i];
      } else {
        assert o.order[i] !in o.order[..k];
      }
    }
    PendingIsSuffix(o.order, o.published, k);
  }

  lemma UnsentIsNext(o: Events, k: nat, limit: nat)
    requires Distinct(o.order) && k <= |o.order|
    requires forall x :: x in o.published <==> x in o.order[..k]
    ensures |Unsent(o, limit)| == Min(limit, |o.order| - k)
    ensures Unsent(o, limit) == o.order[k..k + |Unsent(o, limit)|]
  {
    PendingAfterFront(o, k);
    SliceOfRest(o.order, k, Min(limit, |o.order| - k));
  }

  lemma SliceOfRest(order: seq<Uuid>, k: nat, n: nat)
    requires k + n <= |order|
    ensures order[k..][..n] == order[k..k + n]
  {
  }

  lemma BeginKeepsInv(max: nat, d: Delivery, limit: nat)
    requires max >= 1 && Inv(max, d) && d.job.None?
    ensures Inv(max, Next(max, d, Begin(limit)))
  {
    var m: nat, h: nat :| Front(d, m, h);
    UnsentIsNext(d.events, m, limit);
    assert Front(Next(max, d, Begin(limit)), m, m);
    assert d.log[|d.log|..] == [];
  }

  /** The jobs an await can leave behind, apart from moving on to the next event. */
  ghost predicate Lingers(j: Job, job: Option<Job>, sent: bool) {
    job.Some? ==> job.value.queue == j.queue && (job.value.sent ==> sent)
  }

  /** An event that an earlier attempt marked is in the log. */
  lemma AlreadySent(e: Events, log: seq<Uuid>, m: nat, h: nat)
    requires Settled(e, log, m) && h < m
    ensures e.order[h] in log
  {
    assert e.order[h] == Dedup(log)[h];
  }

  /** The event at hand reaches the log, perhaps once more. */
  lemma SendSettles(e: Events, log: seq<Uuid>, m: nat, h: nat)
    requires Settled(e, log, m) && h < |e.order| && (h == m || h + 1 == m)
    ensures Settled(e, log + [e.order[h]], m)
  {
    var x := e.order[h];
    DedupSnoc(log, x);
    if x in log {
      assert Dedup(log + [x]) == Dedup(log);
    } else if h == m {
      assert x !in Dedup(log);
      assert e.order[..m + 1] == e.order[..m] + [x];
      assert Dedup(log) == e.order[..m];
    } else {
      AlreadySent(e, log, m, h);
    }
  }

  lemma SendKeepsFront(d: Delivery, m: nat, h: nat, job: Option<Job>)
    requires Front(d, m, h) && d.job.Some? && d.job.value.queue != []
    requires Lingers(d.job.value, job, true)
    ensures Front(d.(log := d.log + [d.job.value.queue[0]], job := job), m, h)
  {
    assert d.job.value.queue[0] == d.events.order[h];
    SendSettles(d.events, d.log, m, h);
  }

  lemma SendSpends(max: nat, recent: seq<Uuid>, j: Job, next: Job)
    requires Spent(recent, j) && j.queue != [] && !j.sent && j.attempt < max && Distinct(j.queue)
    requires next == j.(sent := true) || next == j.(attempt := j.attempt + 1, sent := false)
    requires forall x :: Times(recent, x) <= max
    ensures Spent(recent + [j.queue[0]], next)
    ensures forall x :: Times(recent + [j.queue[0]], x) <= max
  {
    forall x ensures Times(recent + [j.queue[0]], x) == Times(recent, x) + if j.queue[0] == x then 1 else 0 {
      TimesSnoc(recent, j.queue[0], x);
    }
  }

  lemma SendMeters(max: nat, d: Delivery, job: Option<Job>)
    requires Metered(max, d) && d.job.Some? && d.job.value.queue != [] && !d.job.value.sent
    requires Distinct(d.job.value.queue)
    requires job == None || job == Some(d.job.value.(sent := true)) || job == Failure(max, d.job.value)
    ensures Metered(max, d.(log := d.log + [d.job.value.queue[0]], job := job))
  {
    var j := d.job.value;
    assert (d.log + [j.queue[0]])[d.since..] == d.log[d.since..] + [j.queue[0]];
    SendSpends(max, d.log[d.since..], j, if job.Some? then job.value else j.(sent := true));
  }

  lemma QueueDistinct(d: Delivery, m: nat, h: nat)
    requires Front(d, m, h) && d.job.Some?
    ensures Distinct(d.job.value.queue)
  {
    var q := d.job.value.queue;
    forall i, j | 0 <= i < j < |q| ensures q[i] != q[j] {
      assert q[i] == d.events.order[h + i] && q[j] == d.events.order[h + j];
    }
  }

  lemma PublishKeepsInv(max: nat, d: Delivery, fate: Fate)
    requires Inv(max, d) && Enabled(d, Publish(fate))
    ensures Inv(max, Next(max, d, Publish(fate)))
  {
    var m: nat, h: nat :| Front(d, m, h);
    var next := Next(max, d, Publish(fate));
    if Effective(fate) {
      QueueDistinct(d, m, h);
      SendMeters(max, d, next.job);
      SendKeepsFront(d, m, h, next.job);
      assert Front(next, m, h);
    } else {
      assert next == d.(job := next.job);
      assert Front(next, m, h);
    }
  }

  /** Marking the event at hand, which the log holds, moves the front over it if it stood there. */
  lemma MarkSettles(e: Events, log: seq<Uuid>, m: nat, h: nat)
    requires Settled(e, log, m) && h < |e.order| && (h == m || h + 1 == m) && e.order[h] in log
    ensures Settled(Mark(e, e.order[h]), log, h + 1)
  {
    var x := e.order[h];
    assert x in Dedup(log);
    if h == m {
      assert e.order[..m + 1] == e.order[..m] + [x];
      assert x !in e.order[..m];
    } else {
      assert x == e.order[..m][h];
      assert e.published + {x} == e.published;
    }
  }

  lemma MarkKeepsFront(d: Delivery, m: nat, h: nat, job: Option<Job>)
    requires Front(d, m, h) && d.job.Some? && d.job.value.sent
    requires Lingers(d.job.value, job, true)
    ensures Front(d.(events := Mark(d.events, d.job.value.queue[0]), job := job), h + 1, h)
  {
    assert d.job.value.queue[0] == d.events.order[h];
    MarkSettles(d.events, d.log, m, h);
  }

  lemma MarkMovesOn(d: Delivery, m: nat, h: nat)
    requires Front(d, m, h) && d.job.Some? && d.job.value.sent
    ensures var q := d.job.value.queue;
            Front(d.(events := Mark(d.events, q[0]), job := Some(Job(q[1..], 0, false))), h + 1, h + 1)
  {
    MarkKeepsFront(d, m, h, d.job);
    var q := d.job.value.queue;
    assert q[1..] == d.events.order[h + 1..h + 1 + |q[1..]|];
  }

  lemma MarkMeters(max: nat, d: Delivery, fate: Fate)
    requires Metered(max, d) && Enabled(d, MarkSent(fate))
    ensures Metered(max, Next(max, d, MarkSent(fate)))
  {
  }

  lemma MarkHasFront(max: nat, d: Delivery, m: nat, h: nat, fate: Fate)
    requires Front(d, m, h) && Enabled(d, MarkSent(fate))
    ensures exists m': nat, h': nat :: Front(Next(max, d, MarkSent(fate)), m', h')
  {
    var next := Next(max, d, MarkSent(fate));
    if fate == Fine {
      MarkMovesOn(d, m, h);
      assert Front(next, h + 1, h + 1);
    } else if Effective(fate) {
      MarkKeepsFront(d, m, h, next.job);
      assert Front(next, h + 1, h);
    } else {
      assert next == d.(job := next.job);
      assert Front(next, m, h);
    }
  }

  lemma MarkKeepsInv(max: nat, d: Delivery, fate: Fate)
    requires Inv(max, d) && Enabled(d, MarkSent(fate))
    ensures Inv(max, Next(max, d, MarkSent(fate)))
  {
    var m: nat, h: nat :| Front(d, m, h);
    MarkMeters(max, d, fate);
    MarkHasFront(max, d, m, h, fate);
  }

  /** Every step keeps delivery in order. */
  lemma StepKeepsInv(max: nat, d: Delivery, s: Step)
    requires max >= 1 && Inv(max, d) && Enabled(d, s)
    ensures Inv(max, Next(max, d, s))
  {
    match s
    case Arrive(ids) =>
      var m: nat, h: nat :| Front(d, m, h);
      AppendKeepsFront(d, ids, m, h);
    case Begin(limit) => BeginKeepsInv(max, d, limit);
    case Publish(fate) => PublishKeepsInv(max, d, fate);
    case MarkSent(fate) => MarkKeepsInv(max, d, fate);
    case Finish =>
      var m: nat, h: nat :| Front(d, m, h);
      assert Front(Next(max, d, s), m, h);
    case Cancel =>
      var m: nat, h: nat :| Front(d, m, h);
      assert Front(Next(max, d, s), m, h);
  }

  lemma {:induction false} RunKeepsInv(max: nat, d: Delivery, run: seq<Step>)
    requires max >= 1 && Inv(max, d) && IsRun(max, d, run)
    ensures Inv(max, Exec(max, d, run))
    decreases |run|
  {
    if run != [] {
      RunKeepsInv(max, d, run[..|run| - 1]);
      StepKeepsInv(max, Exec(max, d, run[..|run| - 1]), run[|run| - 1]);
    }
  }

  lemma EmptyInv(max: nat)
    ensures Inv(max, EMPTY)
  {
    assert Front(EMPTY, 0, 0);
  }

  /** What the invariant says of the log and the store. */
  lemma InvDelivers(max: nat, d: Delivery)
    requires Inv(max, d)
    ensures forall x :: x in d.events.published ==> x in d.log
    ensures Dedup(d.log) <= d.events.order && Distinct(d.events.order)
    ensures d.since <= |d.log| && forall x :: Times(d.log[d.since..], x) <= max
  {
    var m: nat, h: nat :| Front(d, m, h);
    forall x | x in d.events.published ensures x in d.log {
      assert x in d.events.order[..m];
      assert m < |d.events.order| ==> d.events.order[..m] <= d.events.order[..m + 1];
      assert x in Dedup(d.log);
    }
  }

  /**
   In every state of every run: an event is marked only if the broker has it, the log without
   repeats is a prefix of append order, and within one dispatch no event is published more
   than `max` times.
   */
  lemma DeliveredInOrder(max: nat, run: seq<Step>)
    requires max >= 1 && IsRun(max, EMPTY, run)
    ensures var d := Exec(max, EMPTY, run);
            && (forall x :: x in d.events.published ==> x in d.log)
            && Dedup(d.log) <= d.events.order && Distinct(d.events.order)
            && d.since <= |d.log| && (forall x :: Times(d.log[d.since..], x) <= max)
  {
    EmptyInv(max);
    RunKeepsInv(max, EMPTY, run);
    InvDelivers(max, Exec(max, EMPTY, run));
  }

  // ---------------------------------------------------------------- what a dispatch leaves behind

  lemma {:induction false} AppendGrows(o: Events, ids: seq<Uuid>)
    ensures o.order <= Append(o, ids).order && Append(o, ids).published == o.published
    decreases |ids|
  {
    if ids != [] {
      AppendGrows(if ids[0] in o.order then o else o.(order := o.order + [ids[0]]), ids[1..]);
    }
  }

  lemma {:induction false} PendingSnoc(order: seq<Uuid>, published: set<Uuid>, x: Uuid)
    ensures Pending(order + [x], published) == Pending(order, published) + if x in published then [] else [x]
  {
    if order == [] {
      assert [x][1..] == [];
    } else {
      PendingSnoc(order[1..], published, x);
      assert (order + [x])[1..] == order[1..] + [x];
    }
  }

  lemma {:induction false} PendingInOrder(order: seq<Uuid>, published: set<Uuid>)
    ensures forall x :: x in Pending(order, published) <==> x in order && x !in published
  {
    if order != [] {
      PendingInOrder(order[1..], published);
    }
  }

  // ---------------------------------------------------------------- what an append does

  lemma {:induction false} DedupDistinct(log: seq<Uuid>)
    ensures Distinct(Dedup(log))
  {
    if log != [] {
      DedupDistinct(log[..|log| - 1]);
    }
  }

  lemma {:induction false} DedupOfDistinct(s: seq<Uuid>)
    requires Distinct(s)
    ensures Dedup(s) == s
  {
    if s != [] {
      var n := |s| - 1;
      DedupOfDistinct(s[..n]);
      assert s[n] !in s[..n];
      assert s == s[..n] + [s[n]];
    }
  }

  /**
   Repeats are dropped and nothing else: the event at position `i` is the one at some position of
   the log before which exactly the first `i` have occurred.
   */
  lemma {:induction false} DedupAt(log: seq<Uuid>, i: nat) returns (a: nat)
    requires i < |Dedup(log)|
    ensures a < |log| && log[a] == Dedup(log)[i] && Dedup(log[..a]) == Dedup(log)[..i]
  {
    var n := |log| - 1;
    if i < |Dedup(log[..n])| {
      a := DedupAt(log[..n], i);
      assert log[..n][..a] == log[..a];
      assert Dedup(log)[..i] == Dedup(log[..n])[..i];
    } else {
      a := n;
    }
  }

  lemma {:induction false} AppendSnoc(o: Events, ids: seq<Uuid>, x: Uuid)
    ensures Append(o, ids + [x]) == Append(Append(o, ids), [x])
    decreases |ids|
  {
    if ids == [] {
      assert ids + [x] == [x];
    } else {
      assert (ids + [x])[1..] == ids[1..] + [x];
      AppendSnoc(if ids[0] in o.order then o else o.(order := o.order + [ids[0]]), ids[1..], x);
    }
  }

  lemma AppendOne(o: Events, x: Uuid)
    ensures Append(o, [x]) == if x in o.order then o else o.(order := o.order + [x])
  {
    assert [x][1..] == [];
  }

  /** Appending puts every event behind those already there, once, in the order of first mention. */
  lemma {:induction false} AppendIsDedup(o: Events, ids: seq<Uuid>)
    requires Distinct(o.order)
    ensures Append(o, ids) == o.(order := Dedup(o.order + ids))
    decreases |ids|
  {
    if ids == [] {
      DedupOfDistinct(o.order);
      assert o.order + ids == o.order;
    } else {
      var n := |ids| - 1;
      AppendIsDedup(o, ids[..n]);
      AppendSnoc(o, ids[..n], ids[n]);
      assert ids == ids[..n] + [ids[n]];
      AppendOne(Append(o, ids[..n]), ids[n]);
      DedupSnoc(o.order + ids[..n], ids[n]);
      assert o.order + ids == (o.order + ids[..n]) + [ids[n]];
    }
  }

  lemma {:induction false} AppendMembers(o: Events, ids: seq<Uuid>, x: Uuid)
    ensures x in Append(o, ids).order <==> x in o.order || x in ids
    decreases |ids|
  {
    if ids != [] {
      AppendMembers(if ids[0] in o.order then o else o.(order := o.order + [ids[0]]), ids[1..], x);
      assert ids == [ids[0]] + ids[1..];
    }
  }

  /** New events queue up behind everything unpublished, in the order given. */
  lemma {:induction false} NewEventsQueueUp(o: Events, ids: seq<Uuid>)
    requires Distinct(o.order + ids) && forall x :: x in ids ==> x !in o.published
    ensures Append(o, ids).order == o.order + ids
    ensures Pending(Append(o, ids).order, o.published) == Pending(o.order, o.published) + ids
  {
    assert forall i :: 0 <= i < |o.order| ==> o.order[i] == (o.order + ids)[i];
    AppendIsDedup(o, ids);
    DedupOfDistinct(o.order + ids);
    PendingFresh(o.order, ids, o.published);
  }

  lemma {:induction false} PendingFresh(order: seq<Uuid>, ids: seq<Uuid>, published: set<Uuid>)
    requires forall x :: x in ids ==> x !in published
    ensures Pending(order + ids, published) == Pending(order, published) + ids
    decreases |ids|
  {
    if ids == [] {
      assert order + ids == order;
    } else {
      var n := |ids| - 1;
      PendingFresh(order, ids[..n], published);
      PendingSnoc(order + ids[..n], published, ids[n]);
      assert order + ids == (order + ids[..n]) + [ids[n]];
      assert ids == ids[..n] + [ids[n]];
    }
  }

  // ---------------------------------------------------------------- progress

  /** Completed dispatches of a run, counted if they also began in it; whether one has begun; the limits used. */
  datatype Tally = Tally(completed: nat, begun: bool, limits: set<nat>)

  function Count(t: Tally, s: Step): Tally {
    match s
    case Begin(limit) => t.(begun := true, limits := t.limits + {limit})
    case Finish => Tally(if t.begun then t.completed + 1 else t.completed, false, t.limits)
    case _ => t
  }

  function TallyOf(run: seq<Step>): Tally {
    if run == [] then Tally(0, false, {}) else Count(TallyOf(run[..|run| - 1]), run[|run| - 1])
  }

  lemma TallySnoc(run: seq<Step>, s: Step)
    ensures TallyOf(run + [s]) == Count(TallyOf(run), s)
  {
    assert (run + [s])[..|run|] == run;
  }

  predicate IsDelivered(d: Delivery, x: Uuid) {
    x in d.events.published && x in d.log
  }

  /** The first `n` events of `base`, or all of it, are marked and with the broker. */
  ghost predicate Reached(d: Delivery, base: seq<Uuid>, n: nat) {
    forall i: nat :: i < n && i < |base| ==> IsDelivered(d, base[i])
  }

  /** The job at hand, if it began since, will bring the reach to `n`. */
  ghost predicate Underway(d: Delivery, base: seq<Uuid>, n: nat) {
    d.job.Some? ==> forall i: nat :: i < n && i < |base| ==> IsDelivered(d, base[i]) || base[i] in d.job.value.queue
  }

  ghost predicate Advancing(d: Delivery, base: seq<Uuid>, t: Tally, limit: nat) {
    && base <= d.events.order
    && Reached(d, base, Batches(t.completed, limit))
    && (t.begun ==> Underway(d, base, Batches(t.completed + 1, limit)))
  }

  function Batches(n: nat, limit: nat): nat {
    if n == 0 then 0 else Batches(n - 1, limit) + limit
  }

  lemma {:induction false} BatchesIsProduct(n: nat, limit: nat)
    ensures Batches(n, limit) == n * limit
  {
    if n > 0 {
      BatchesIsProduct(n - 1, limit);
      assert n * limit == (n - 1) * limit + limit;
    }
  }

  /** The front stands at or beyond what has been reached. */
  lemma FrontBeyond(d: Delivery, base: seq<Uuid>, n: nat, m: nat)
    requires Settled(d.events, d.log, m) && base <= d.events.order && Reached(d, base, n) && m < |base|
    ensures n <= m
  {
    assert base[m] == d.events.order[m];
    assert d.events.order[m] !in d.events.order[..m];
    assert !IsDelivered(d, base[m]);
  }

  lemma BatchHolds(e: Events, m: nat, limit: nat, i: nat)
    requires Distinct(e.order) && m <= i < |e.order| && i < m + limit
    requires forall x :: x in e.published <==> x in e.order[..m]
    ensures e.order[i] in Unsent(e, limit)
  {
    UnsentIsNext(e, m, limit);
    assert e.order[i] == Unsent(e, limit)[i - m];
  }

  /** The next batch reaches `limit` events further. */
  lemma BatchReaches(max: nat, d: Delivery, base: seq<Uuid>, n: nat, limit: nat, i: nat)
    requires Inv(max, d) && base <= d.events.order && Reached(d, base, n)
    requires i < n + limit && i < |base|
    ensures IsDelivered(d, base[i]) || base[i] in Unsent(d.events, limit)
  {
    var m: nat, h: nat :| Front(d, m, h);
    if i < m {
      assert d.events.order[i] == d.events.order[..m][i];
      InvDelivers(max, d);
    } else {
      FrontBeyond(d, base, n, m);
      BatchHolds(d.events, m, limit, i);
    }
  }

  lemma BeginAdvances(max: nat, d: Delivery, base: seq<Uuid>, t: Tally, limit: nat)
    requires Inv(max, d) && Enabled(d, Begin(limit)) && Advancing(d, base, t, limit)
    ensures Advancing(Next(max, d, Begin(limit)), base, Count(t, Begin(limit)), limit)
  {
    var n := Batches(t.completed, limit);
    forall i: nat | i < n + limit && i < |base|
      ensures IsDelivered(d, base[i]) || base[i] in Unsent(d.events, limit)
    {
      BatchReaches(max, d, base, n, limit, i);
    }
  }

  /** Events are only ever added, marked and published. */
  ghost predicate Grows(a: Delivery, b: Delivery) {
    && a.events.order <= b.events.order
    && a.events.published <= b.events.published
    && a.log <= b.log
  }

  lemma StepGrows(max: nat, d: Delivery, s: Step)
    requires Enabled(d, s)
    ensures Grows(d, Next(max, d, s))
  {
    if s.Arrive? {
      AppendGrows(d.events, s.ids);
    }
  }

  lemma GrowthKeepsReach(d: Delivery, d': Delivery, base: seq<Uuid>, n: nat)
    requires Grows(d, d') && Reached(d, base, n)
    ensures Reached(d', base, n)
  {
  }

  /** An event leaves the queue of a running job only when it is marked. */
  lemma QueueAfter(max: nat, d: Delivery, s: Step)
    requires Enabled(d, s) && !s.Begin? && Next(max, d, s).job.Some?
    ensures d.job.Some?
    ensures var q, q' := d.job.value.queue, Next(max, d, s).job.value.queue;
            q' == q || (s == MarkSent(Fine) && q != [] && q' == q[1..])
  {
  }

  /** Nothing is taken back, and what leaves the queue is marked and with the broker. */
  lemma StepKeepsUnderway(max: nat, d: Delivery, s: Step, base: seq<Uuid>, n: nat)
    requires Inv(max, d) && Enabled(d, s) && !s.Begin? && Underway(d, base, n)
    ensures Underway(Next(max, d, s), base, n)
  {
    var d' := Next(max, d, s);
    if d'.job.Some? {
      QueueAfter(max, d, s);
      StepGrows(max, d, s);
      if s == MarkSent(Fine) {
        SentHead(max, d);
        HeadDelivered(max, d);
      }
      UnderwayAfter(d, d', base, n);
    }
  }

  lemma HeadDelivered(max: nat, d: Delivery)
    requires Enabled(d, MarkSent(Fine))
    requires d.job.value.queue[0] in d.events.order && d.job.value.queue[0] in d.log
    ensures IsDelivered(Next(max, d, MarkSent(Fine)), d.job.value.queue[0])
  {
  }

  lemma UnderwayAfter(d: Delivery, d': Delivery, base: seq<Uuid>, n: nat)
    requires Grows(d, d') && Underway(d, base, n) && d.job.Some? && d'.job.Some?
    requires var q, q' := d.job.value.queue, d'.job.value.queue;
             q' == q || (q != [] && q' == q[1..] && IsDelivered(d', q[0]))
    ensures Underway(d', base, n)
  {
    var q, q' := d.job.value.queue, d'.job.value.queue;
    assert q != [] ==> q == [q[0]] + q[1..];
    forall i: nat | i < n && i < |base| ensures IsDelivered(d', base[i]) || base[i] in q' {
      assert IsDelivered(d, base[i]) ==> IsDelivered(d', base[i]);
    }
  }

  lemma SentHead(max: nat, d: Delivery)
    requires Inv(max, d) && d.job.Some? && d.job.value.sent
    ensures d.job.value.queue != []
    ensures d.job.value.queue[0] in d.events.order && d.job.value.queue[0] in d.log
  {
    var m: nat, h: nat :| Front(d, m, h);
    assert d.job.value.queue[0] == d.events.order[h];
  }

  lemma {:induction false} RunAdvances(max: nat, d: Delivery, run: seq<Step>, limit: nat)
    requires max >= 1 && Inv(max, d) && IsRun(max, d, run) && TallyOf(run).limits <= {limit}
    ensures Advancing(Exec(max, d, run), d.events.order, TallyOf(run), limit)
    decreases |run|
  {
    if run != [] {
      var init, s := run[..|run| - 1], run[|run| - 1];
      RunAdvances(max, d, init, limit);
      RunKeepsInv(max, d, init);
      var before, t := Exec(max, d, init), TallyOf(init);
      if s.Begin? {
        assert s.limit in TallyOf(run).limits;
        BeginAdvances(max, before, d.events.order, t, limit);
      } else if !s.Finish? {
        StepGrows(max, before, s);
        GrowthKeepsReach(before, Exec(max, d, run), d.events.order, Batches(t.completed, limit));
        if t.begun {
          StepKeepsUnderway(max, before, s, d.events.order, Batches(t.completed + 1, limit));
        }
      }
    }
  }

  /**
   Progress, from any state on and so for every event whenever it arrived: each dispatch that began
   and completed since has brought `limit` more of the events then in the store to the broker.
   */
  lemma DispatchesDeliver(max: nat, d: Delivery, run: seq<Step>, limit: nat)
    requires max >= 1 && Inv(max, d) && IsRun(max, d, run) && TallyOf(run).limits <= {limit}
    ensures Reached(Exec(max, d, run), d.events.order, TallyOf(run).completed * limit)
  {
    RunAdvances(max, d, run, limit);
    BatchesIsProduct(TallyOf(run).completed, limit);
  }

  // ---------------------------------------------------------------- consumers

  class IdempotentRecordingConsumer {
    var seen: set<Uuid>
    var events: seq<Uuid>

    /** The consumer has been fed `log`. */
    ghost predicate Fed(log: seq<Uuid>)
      reads this
    {
      events == Dedup(log) && forall x :: x in seen <==> x in log
    }

    constructor ()
      ensures Fed([])
    {
      seen, events := {}, [];
    }

    method Consume(event: Uuid, ghost log: seq<Uuid>) returns (applied: bool)
      requires Fed(log)
      modifies this
      ensures Fed(log + [event])
      ensures applied <==> event !in log
      ensures events == old(events) + if applied then [event] else []
    {
      DedupSnoc(log, event);
      if event in seen {
        return false;
      }
      seen := seen + {event};
      events := events + [event];
      return true;
    }
  }

  /** Feeding a consumer any prefix of the log applies each event once, in append order. */
  method ConsumeLog(max: nat, ghost run: seq<Step>, log: seq<Uuid>)
    returns (consumer: IdempotentRecordingConsumer)
    requires max >= 1 && IsRun(max, EMPTY, run) && log <= Exec(max, EMPTY, run).log
    ensures consumer.Fed(log)
    ensures consumer.events <= Exec(max, EMPTY, run).events.order && Distinct(consumer.events)
    ensures forall x :: x in log ==> x in consumer.events
  {
    consumer := new IdempotentRecordingConsumer();
    for i := 0 to |log|
      invariant consumer.Fed(log[..i])
    {
      var _ := consumer.Consume(log[i], log[..i]);
      assert log[..i] + [log[i]] == log[..i + 1];
    }
    assert log[..|log|] == log;
    DeliveredInOrder(max, run);
    DedupPrefix(Exec(max, EMPTY, run).log, |log|);
    assert Exec(max, EMPTY, run).log[..|log|] == log;
  }
}
