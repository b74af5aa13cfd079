/**
 Retry inside failover: `run_with_retry` (reliability.py), `_attempt_provider` and the
 candidate loop of `create` (service.py).  One step of the machine is one run of the inner
 `operation`; its outcome is arbitrary, so every provider, every breaker shared with other
 tasks and every schedule is covered.
 */
module Failover {
  import opened Prelude

  datatype Code = Timeout | Unavailable | Http502 | Http503 | CircuitOpen | Other(name: string)

  predicate Retryable(c: Code) {
    c.Timeout? || c.Unavailable? || c.Http502? || c.Http503?
  }

  predicate FailoverSafe(c: Code) {
    c.Unavailable? || c.Http502? || c.Http503? || c.CircuitOpen?
  }

  datatype AttemptResult = Retry | Failed | Succeeded

  datatype Attempt = Attempt(provider: string, number: nat, result: AttemptResult, code: Option<Code>)

  /** One run of `operation`: the call succeeded, raised, was refused a permit, or blew up. */
  datatype Outcome = Charged | Error(code: Code) | Refused | Crash

  /** Inside the loops: the payment's attempts so far, the candidate, and the retry run. */
  datatype Loop = Loop(recorded: seq<Attempt>, index: nat, attempt: nat, block: seq<Attempt>)

  const START := Loop([], 0, 0, [])

  datatype Phase =
    | Running(loop: Loop)
    | Won(attempts: seq<Attempt>, provider: string)
    | Lost(attempts: seq<Attempt>, error: Code)
    | Crashed

  predicate InRange(max: nat, ordered: seq<string>, phase: Phase) {
    phase.Running? ==> phase.loop.index < |ordered| && phase.loop.attempt < max
  }

  /** The handler of `_attempt_provider` relabels the last entry. */
  function MarkFailed(block: seq<Attempt>): seq<Attempt> {
    if block == [] then [] else block[|block| - 1 := block[|block| - 1].(result := Failed)]
  }

  /** The current candidate gives up with `code`; the failover test of `create` decides. */
  function Abandon(ordered: seq<string>, recorded: seq<Attempt>, index: nat, code: Code): Phase {
    if FailoverSafe(code) && index + 1 < |ordered| then Running(Loop(recorded, index + 1, 0, []))
    else Lost(recorded, code)
  }

  function Entry(provider: string, block: seq<Attempt>, code: Code): Attempt {
    Attempt(provider, |block| + 1, if Retryable(code) then Retry else Failed, Some(code))
  }

  function Step(max: nat, ordered: seq<string>, l: Loop, o: Outcome): (next: Phase)
    requires InRange(max, ordered, Running(l))
    ensures InRange(max, ordered, next)
  {
    var p := ordered[l.index];
    match o
    case Charged =>
      Won(l.recorded + l.block + [Attempt(p, |l.block| + 1, Succeeded, None)], p)
    case Error(c) =>
      var block := l.block + [Entry(p, l.block, c)];
      if !Retryable(c) || l.attempt == max - 1 then
        Abandon(ordered, l.recorded + MarkFailed(block), l.index, c)
      else
        Running(l.(attempt := l.attempt + 1, block := block))
    case Refused =>
      Abandon(ordered, l.recorded + MarkFailed(l.block), l.index, CircuitOpen)
    case Crash =>
      Crashed
  }

  /** Runs the machine to its end on a script of outcomes. */
  function Drive(max: nat, ordered: seq<string>, phase: Phase, script: nat -> Outcome, at: nat): (end: Phase)
    requires InRange(max, ordered, phase)
    ensures !end.Running?
    decreases phase.Running?,
              if phase.Running? then |ordered| - phase.loop.index else 0,
              if phase.Running? then max - phase.loop.attempt else 0
  {
    if phase.Running? then Drive(max, ordered, Step(max, ordered, phase.loop, script(at)), script, at + 1)
    else phase
  }

  lemma DriveStep(max: nat, ordered: seq<string>, l: Loop, script: nat -> Outcome, at: nat)
    requires InRange(max, ordered, Running(l))
    ensures Drive(max, ordered, Running(l), script, at)
         == Drive(max, ordered, Step(max, ordered, l, script(at)), script, at + 1)
  {
  }

  // ---------------------------------------------------------------- the loops themselves

  /** How a candidate's retry run ended. */
  datatype Ending = Charge | GaveUp(code: Code)

  /** What the candidate loop makes of a finished retry run; `None` is an unexpected exception. */
  function Resume(
      ordered: seq<string>, recorded: seq<Attempt>, index: nat, attempts: seq<Attempt>,
      ending: Option<Ending>): Phase
    requires index < |ordered|
  {
    match ending
    case None => Crashed
    case Some(Charge) => Won(recorded + attempts, ordered[index])
    case Some(GaveUp(code)) => Abandon(ordered, recorded + attempts, index, code)
  }

  /** `_attempt_provider` around `run_with_retry`. */
  method AttemptProvider(
      max: nat, ordered: seq<string>, index: nat, script: nat -> Outcome, at: nat,
      ghost recorded: seq<Attempt>)
    returns (attempts: seq<Attempt>, ending: Option<Ending>, next: nat)
    requires max >= 1 && index < |ordered|
    ensures Drive(max, ordered, Running(Loop(recorded, index, 0, [])), script, at)
         == Drive(max, ordered, Resume(ordered, recorded, index, attempts, ending), script, next)
  {
    attempts, next := [], at;
    var attempt := 0;
    while attempt < max
      invariant attempt < max
      invariant Drive(max, ordered, Running(Loop(recorded, index, 0, [])), script, at)
             == Drive(max, ordered, Running(Loop(recorded, index, attempt, attempts)), script, next)
    {
      var outcome := script(next);
      DriveStep(max, ordered, Loop(recorded, index, attempt, attempts), script, next);
      next := next + 1;
      var code := CircuitOpen;
      match outcome {
        case Charged =>
          attempts := attempts + [Attempt(ordered[index], |attempts| + 1, Succeeded, None)];
          assert recorded + attempts == recorded + attempts[..|attempts| - 1] + [attempts[|attempts| - 1]];
          return attempts, Some(Charge), next;
        case Error(c) =>
          attempts := attempts + [Entry(ordered[index], attempts, c)];
          code := c;
        case Refused =>
        case Crash =>
          return attempts, None, next;
      }
      if !Retryable(code) || attempt == max - 1 {
        if attempts != [] {
          attempts := attempts[|attempts| - 1 := attempts[|attempts| - 1].(result := Failed)];
        }
        return attempts, Some(GaveUp(code)), next;
      }
      attempt := attempt + 1;
    }
  }

  /** The candidate loop of `create`: the nested loops compute what the step machine computes. */
  method TryCandidates(max: nat, ordered: seq<string>, script: nat -> Outcome) returns (end: Phase)
    requires max >= 1 && ordered != []
    ensures end == Drive(max, ordered, Running(START), script, 0)
    ensures PhaseOk(max, ordered, end)
    ensures end.Won? ==> DecidedByCodes(max, ordered, end.attempts, Charge)
    ensures end.Lost? ==> DecidedByCodes(max, ordered, end.attempts, GaveUp(end.error))
  {
    var payment: seq<Attempt> := [];
    var index, at := 0, 0;
    while index < |ordered|
      invariant index < |ordered|
      invariant Drive(max, ordered, Running(START), script, 0)
             == Drive(max, ordered, Running(Loop(payment, index, 0, [])), script, at)
      decreases |ordered| - index
    {
      var attempts, ending, next := AttemptProvider(max, ordered, index, script, at, payment);
      at := next;
      RunIsDecided(max, ordered, script);
      match ending {
        case None => return Crashed;
        case Some(Charge) => return Won(payment + attempts, ordered[index]);
        case Some(GaveUp(code)) =>
          payment := payment + attempts;
          if !FailoverSafe(code) || index + 1 == |ordered| {
            return Lost(payment, code);
          }
          index := index + 1;
      }
    }
  }

  lemma RunIsDecided(max: nat, ordered: seq<string>, script: nat -> Outcome)
    requires max >= 1 && ordered != []
    ensures var end := Drive(max, ordered, Running(START), script, 0);
            && PhaseOk(max, ordered, end)
            && (end.Won? ==> DecidedByCodes(max, ordered, end.attempts, Charge))
            && (end.Lost? ==> DecidedByCodes(max, ordered, end.attempts, GaveUp(end.error)))
  {
    StartOk(max, ordered);
    DriveKeepsHistory(max, ordered, Running(START), script, 0);
    match Drive(max, ordered, Running(START), script, 0)
    case Won(attempts, provider) => HistoryIsDecided(max, ordered, attempts, Charge, Some(provider));
    case Lost(attempts, error) => HistoryIsDecided(max, ordered, attempts, GaveUp(error), None);
    case _ =>
  }

  // ---------------------------------------------------------------- attempt histories

  /** The entries one candidate left behind, and how its run ended. */
  datatype Block = Block(provider: string, entries: seq<Attempt>, ending: Ending)

  function Flatten(blocks: seq<Block>): seq<Attempt> {
    if blocks == [] then [] else Flatten(blocks[..|blocks| - 1]) + blocks[|blocks| - 1].entries
  }

  /** Numbered from 1, every entry a retried transient error of the same provider. */
  ghost predicate Retried(provider: string, entries: seq<Attempt>) {
    forall i :: 0 <= i < |entries| ==>
      && entries[i].provider == provider && entries[i].number == i + 1
      && entries[i].result == Retry && entries[i].code.Some? && Retryable(entries[i].code.value)
  }

  ghost predicate BlockOk(max: nat, b: Block) {
    if b.entries == [] then b.ending == GaveUp(CircuitOpen)
    else
      var k := |b.entries|;
      var last := b.entries[k - 1];
      && k <= max
      && Retried(b.provider, b.entries[..k - 1])
      && last.provider == b.provider && last.number == k
      && match b.ending
         case Charge => last.result == Succeeded && last.code == None
         case GaveUp(c) =>
           && last.result == Failed && last.code.Some?
           && (|| (last.code.value == c && (Retryable(c) ==> k == max))
               || (c == CircuitOpen && Retryable(last.code.value) && k < max))
  }

  /** Visited candidates are a prefix of the ordered list. */
  ghost predicate Trail(max: nat, ordered: seq<string>, blocks: seq<Block>) {
    && |blocks| <= |ordered|
    && forall i :: 0 <= i < |blocks| ==> BlockOk(max, blocks[i]) && blocks[i].provider == ordered[i]
  }

  predicate Abandoned(b: Block) {
    b.ending.GaveUp? && FailoverSafe(b.ending.code)
  }

  /** A finished history: all but the last candidate abandoned for a failover-safe error. */
  ghost predicate Complete(max: nat, ordered: seq<string>, blocks: seq<Block>, attempts: seq<Attempt>, ending: Ending) {
    && 0 < |blocks| && Trail(max, ordered, blocks) && attempts == Flatten(blocks)
    && (forall i :: 0 <= i < |blocks| - 1 ==> Abandoned(blocks[i]))
    && blocks[|blocks| - 1].ending == ending
    && (ending.GaveUp? && FailoverSafe(ending.code) ==> |blocks| == |ordered|)
  }

  ghost predicate Trailing(max: nat, ordered: seq<string>, blocks: seq<Block>, l: Loop) {
    && |blocks| == l.index && Trail(max, ordered, blocks) && l.recorded == Flatten(blocks)
    && forall i :: 0 <= i < |blocks| ==> Abandoned(blocks[i])
  }

  ghost predicate LoopOk(max: nat, ordered: seq<string>, l: Loop) {
    && InRange(max, ordered, Running(l)) && l.attempt == |l.block|
    && Retried(ordered[l.index], l.block)
    && exists blocks: seq<Block> :: Trailing(max, ordered, blocks, l)
  }

  ghost predicate Ended(
      max: nat, ordered: seq<string>, attempts: seq<Attempt>, ending: Ending, provider: Option<string>) {
    exists blocks: seq<Block> :: Complete(max, ordered, blocks, attempts, ending)
      && (provider.Some? ==> blocks[|blocks| - 1].provider == provider.value)
  }

  ghost predicate PhaseOk(max: nat, ordered: seq<string>, phase: Phase) {
    match phase
    case Running(l) => LoopOk(max, ordered, l)
    case Won(attempts, provider) => Ended(max, ordered, attempts, Charge, Some(provider))
    case Lost(attempts, error) => Ended(max, ordered, attempts, GaveUp(error), None)
    case Crashed => true
  }

  lemma StartOk(max: nat, ordered: seq<string>)
    requires max >= 1 && ordered != []
    ensures LoopOk(max, ordered, START)
  {
    assert Trailing(max, ordered, [], START);
  }

  lemma FlattenAppend(blocks: seq<Block>, b: Block)
    ensures Flatten(blocks + [b]) == Flatten(blocks) + b.entries
  {
    assert (blocks + [b])[..|blocks|] == blocks;
  }

  lemma TrailAppend(max: nat, ordered: seq<string>, blocks: seq<Block>, b: Block)
    requires Trail(max, ordered, blocks) && |blocks| < |ordered|
    requires BlockOk(max, b) && b.provider == ordered[|blocks|]
    ensures Trail(max, ordered, blocks + [b])
  {
  }

  /** A candidate that closes its block leaves a well-formed history or a well-formed loop. */
  lemma CloseBlock(max: nat, ordered: seq<string>, l: Loop, entries: seq<Attempt>, ending: Ending)
    requires LoopOk(max, ordered, l)
    requires BlockOk(max, Block(ordered[l.index], entries, ending))
    ensures ending.Charge? ==> Ended(max, ordered, l.recorded + entries, Charge, Some(ordered[l.index]))
    ensures ending.GaveUp? ==> PhaseOk(max, ordered, Abandon(ordered, l.recorded + entries, l.index, ending.code))
  {
    var blocks: seq<Block> :| Trailing(max, ordered, blocks, l);
    var b := Block(ordered[l.index], entries, ending);
    FlattenAppend(blocks, b);
    TrailAppend(max, ordered, blocks, b);
    if ending.GaveUp? && FailoverSafe(ending.code) && l.index + 1 < |ordered| {
      assert Trailing(max, ordered, blocks + [b], Loop(l.recorded + entries, l.index + 1, 0, []));
    } else {
      assert Complete(max, ordered, blocks + [b], l.recorded + entries, ending);
    }
  }

  lemma ChargedKeepsHistory(max: nat, ordered: seq<string>, l: Loop)
    requires LoopOk(max, ordered, l)
    ensures PhaseOk(max, ordered, Step(max, ordered, l, Charged))
  {
    var entries := l.block + [Attempt(ordered[l.index], |l.block| + 1, Succeeded, None)];
    assert entries[..|entries| - 1] == l.block;
    CloseBlock(max, ordered, l, entries, Charge);
    assert l.recorded + entries == l.recorded + l.block + [entries[|entries| - 1]];
  }

  lemma ErrorKeepsHistory(max: nat, ordered: seq<string>, l: Loop, c: Code)
    requires LoopOk(max, ordered, l)
    ensures PhaseOk(max, ordered, Step(max, ordered, l, Error(c)))
  {
    var block := l.block + [Entry(ordered[l.index], l.block, c)];
    if !Retryable(c) || l.attempt == max - 1 {
      LastErrorBlock(max, ordered[l.index], l.block, c);
      CloseBlock(max, ordered, l, MarkFailed(block), GaveUp(c));
    } else {
      RetryKeepsLoop(max, ordered, l, c);
    }
  }

  lemma LastErrorBlock(max: nat, provider: string, block: seq<Attempt>, c: Code)
    requires Retried(provider, block) && |block| < max && (Retryable(c) ==> |block| == max - 1)
    ensures BlockOk(max, Block(provider, MarkFailed(block + [Entry(provider, block, c)]), GaveUp(c)))
  {
    var entries := MarkFailed(block + [Entry(provider, block, c)]);
    assert entries[..|entries| - 1] == block;
  }

  lemma RetryKeepsLoop(max: nat, ordered: seq<string>, l: Loop, c: Code)
    requires LoopOk(max, ordered, l) && Retryable(c) && l.attempt + 1 < max
    ensures LoopOk(max, ordered,
                   l.(attempt := l.attempt + 1, block := l.block + [Entry(ordered[l.index], l.block, c)]))
  {
    var blocks: seq<Block> :| Trailing(max, ordered, blocks, l);
    var block := l.block + [Entry(ordered[l.index], l.block, c)];
    assert Trailing(max, ordered, blocks, l.(attempt := l.attempt + 1, block := block));
  }

  lemma RefusalKeepsHistory(max: nat, ordered: seq<string>, l: Loop)
    requires LoopOk(max, ordered, l)
    ensures PhaseOk(max, ordered, Step(max, ordered, l, Refused))
  {
    var entries := MarkFailed(l.block);
    if entries != [] {
      assert entries[..|entries| - 1] == l.block[..|entries| - 1];
      assert l.block[|entries| - 1].number == |entries|;
    }
    CloseBlock(max, ordered, l, entries, GaveUp(CircuitOpen));
  }

  /** Every outcome keeps the history well formed. */
  lemma StepKeepsHistory(max: nat, ordered: seq<string>, l: Loop, o: Outcome)
    requires LoopOk(max, ordered, l)
    ensures PhaseOk(max, ordered, Step(max, ordered, l, o))
  {
    match o
    case Charged => ChargedKeepsHistory(max, ordered, l);
    case Error(c) => ErrorKeepsHistory(max, ordered, l, c);
    case Refused => RefusalKeepsHistory(max, ordered, l);
    case Crash =>
  }

  lemma {:induction false} DriveKeepsHistory(
      max: nat, ordered: seq<string>, phase: Phase, script: nat -> Outcome, at: nat)
    requires InRange(max, ordered, phase) && PhaseOk(max, ordered, phase)
    ensures PhaseOk(max, ordered, Drive(max, ordered, phase, script, at))
    decreases phase.Running?,
              if phase.Running? then |ordered| - phase.loop.index else 0,
              if phase.Running? then max - phase.loop.attempt else 0
  {
    if phase.Running? {
      StepKeepsHistory(max, ordered, phase.loop, script(at));
      DriveKeepsHistory(max, ordered, Step(max, ordered, phase.loop, script(at)), script, at + 1);
    }
  }

  // ---------------------------------------------------------------- what a history says

  lemma EntryShape(max: nat, b: Block, j: nat)
    requires BlockOk(max, b) && j < |b.entries|
    ensures b.entries[j].provider == b.provider && 1 <= b.entries[j].number <= max
    ensures b.entries[j].result == Succeeded <==> b.ending.Charge? && j == |b.entries| - 1
  {
    if j < |b.entries| - 1 {
      assert b.entries[j] == b.entries[..|b.entries| - 1][j];
    }
  }

  lemma {:induction false} AbandonedShape(max: nat, ordered: seq<string>, blocks: seq<Block>, j: nat)
    requires Trail(max, ordered, blocks) && (forall i :: 0 <= i < |blocks| ==> Abandoned(blocks[i]))
    requires j < |Flatten(blocks)|
    ensures var a := Flatten(blocks)[j]; a.result != Succeeded && 1 <= a.number <= max && a.provider in ordered
  {
    var n := |blocks| - 1;
    var before := Flatten(blocks[..n]);
    if j < |before| {
      AbandonedShape(max, ordered, blocks[..n], j);
    } else {
      EntryShape(max, blocks[n], j - |before|);
      assert Abandoned(blocks[n]) && blocks[n].provider == ordered[n];
    }
  }

  /**
   In a finished history SUCCEEDED stands only at the very end and exactly when the payment
   succeeded, in the name of the provider that took it; no candidate is tried more than `max`
   times, and none outside the list.
   */
  lemma HistoryShape(
      max: nat, ordered: seq<string>, attempts: seq<Attempt>, ending: Ending, provider: Option<string>,
      i: nat)
    requires Ended(max, ordered, attempts, ending, provider)
    requires i < |attempts|
    ensures attempts[i].result == Succeeded <==> ending.Charge? && i == |attempts| - 1
    ensures 1 <= attempts[i].number <= max && attempts[i].provider in ordered
    ensures attempts[i].result == Succeeded && provider.Some? ==> attempts[i].provider == provider.value
  {
    var blocks: seq<Block> :| Complete(max, ordered, blocks, attempts, ending)
      && (provider.Some? ==> blocks[|blocks| - 1].provider == provider.value);
    CompleteShape(max, ordered, blocks, attempts, ending, i);
  }

  lemma CompleteShape(
      max: nat, ordered: seq<string>, blocks: seq<Block>, attempts: seq<Attempt>, ending: Ending, i: nat)
    requires Complete(max, ordered, blocks, attempts, ending) && i < |attempts|
    ensures attempts[i].result == Succeeded <==> ending.Charge? && i == |attempts| - 1
    ensures 1 <= attempts[i].number <= max && attempts[i].provider in ordered
    ensures attempts[i].result == Succeeded ==> attempts[i].provider == blocks[|blocks| - 1].provider
  {
    var n := |blocks| - 1;
    var before := |Flatten(blocks[..n])|;
    assert BlockOk(max, blocks[n]) && blocks[n].provider == ordered[n];
    if i < before {
      assert attempts[i] == Flatten(blocks[..n])[i];
      AbandonedShape(max, ordered, blocks[..n], i);
      WonBlockNotEmpty(max, blocks[n]);
    } else {
      assert attempts[i] == blocks[n].entries[i - before];
      EntryShape(max, blocks[n], i - before);
    }
  }

  lemma WonBlockNotEmpty(max: nat, b: Block)
    requires BlockOk(max, b)
    ensures b.ending.Charge? ==> b.entries != []
  {
  }

  /** A charged payment has an entry to show for it. */
  lemma ChargeIsRecorded(max: nat, ordered: seq<string>, attempts: seq<Attempt>, ending: Ending,
                         provider: Option<string>)
    requires Ended(max, ordered, attempts, ending, provider)
    ensures ending.Charge? ==> attempts != []
  {
    var blocks: seq<Block> :| Complete(max, ordered, blocks, attempts, ending)
      && (provider.Some? ==> blocks[|blocks| - 1].provider == provider.value);
    assert BlockOk(max, blocks[|blocks| - 1]);
    WonBlockNotEmpty(max, blocks[|blocks| - 1]);
  }

  lemma SuccessHasNoCode(max: nat, ordered: seq<string>, attempts: seq<Attempt>, ending: Ending,
                         provider: Option<string>)
    requires Ended(max, ordered, attempts, ending, provider) && ending.Charge?
    ensures attempts != [] && attempts[|attempts| - 1].code == None
  {
    ChargeIsRecorded(max, ordered, attempts, ending, provider);
    var blocks: seq<Block> :| Complete(max, ordered, blocks, attempts, ending)
      && (provider.Some? ==> blocks[|blocks| - 1].provider == provider.value);
    var b := blocks[|blocks| - 1];
    assert BlockOk(max, b);
    assert attempts[|attempts| - 1] == b.entries[|b.entries| - 1];
  }

  /**
   Read off the recorded entries of one candidate: the breaker refused the first call, or the last
   call failed as unavailable, with a 502 or 503 or a circuit error, or it timed out while attempts
   were left, which is how a refused retry looks.
   */
  predicate LeftOpen(max: nat, entries: seq<Attempt>) {
    || entries == []
    || match entries[|entries| - 1].code
       case Some(Unavailable) => true
       case Some(Http502) => true
       case Some(Http503) => true
       case Some(CircuitOpen) => true
       case Some(Timeout) => |entries| < max
       case Some(Other(_)) => false
       case None => false
  }

  /**
   How often a candidate was called, by its codes: only a timeout, an unavailable provider, a 502
   or a 503 is followed by another call, and if such an error ended the run it was the `max`th.
   */
  ghost predicate CallsByCode(max: nat, b: Block) {
    && (forall i :: 0 <= i < |b.entries| - 1 ==>
          var c := b.entries[i].code;
          c == Some(Timeout) || c == Some(Unavailable) || c == Some(Http502) || c == Some(Http503))
    && (b.entries != [] && b.ending.GaveUp? && b.entries[|b.entries| - 1].code == Some(b.ending.code) ==>
          match b.ending.code
          case Timeout => |b.entries| == max
          case Unavailable => |b.entries| == max
          case Http502 => |b.entries| == max
          case Http503 => |b.entries| == max
          case CircuitOpen => |b.entries| <= max
          case Other(_) => |b.entries| <= max)
  }

  lemma CandidateCalls(max: nat, ordered: seq<string>, blocks: seq<Block>, attempts: seq<Attempt>,
                       ending: Ending, i: nat)
    requires Complete(max, ordered, blocks, attempts, ending) && i < |blocks|
    ensures CallsByCode(max, blocks[i])
  {
    var b := blocks[i];
    assert BlockOk(max, b);
    forall j | 0 <= j < |b.entries| - 1
      ensures var c := b.entries[j].code;
              c == Some(Timeout) || c == Some(Unavailable) || c == Some(Http502) || c == Some(Http503)
    {
      assert b.entries[j] == b.entries[..|b.entries| - 1][j];
    }
  }

  /** The history splits into one block per visited candidate, called and left as the codes say. */
  ghost predicate DecidedByCodes(max: nat, ordered: seq<string>, attempts: seq<Attempt>, ending: Ending) {
    exists blocks: seq<Block> ::
      && Complete(max, ordered, blocks, attempts, ending)
      && (forall i :: 0 <= i < |blocks| ==> CallsByCode(max, blocks[i]))
      && (forall i :: 0 <= i < |blocks| && i + 1 < |ordered| ==>
            (i < |blocks| - 1 <==> LeftOpen(max, blocks[i].entries)))
  }

  /** Every finished run is decided by its codes. */
  lemma HistoryIsDecided(max: nat, ordered: seq<string>, attempts: seq<Attempt>, ending: Ending,
                         provider: Option<string>)
    requires Ended(max, ordered, attempts, ending, provider)
    ensures DecidedByCodes(max, ordered, attempts, ending)
  {
    var blocks: seq<Block> :| Complete(max, ordered, blocks, attempts, ending)
      && (provider.Some? ==> blocks[|blocks| - 1].provider == provider.value);
    forall i | 0 <= i < |blocks| ensures CallsByCode(max, blocks[i]) {
      CandidateCalls(max, ordered, blocks, attempts, ending, i);
    }
    forall i | 0 <= i < |blocks| && i + 1 < |ordered|
      ensures i < |blocks| - 1 <==> LeftOpen(max, blocks[i].entries)
    {
      TimeoutThenFailover(max, ordered, blocks, attempts, ending, i);
    }
  }

  /**
   What is true in place of "a timeout is never followed by another provider": a visited
   candidate, with a timeout anywhere among its calls or with none, is left for the next one if
   and only if its entries say so; if the last of them is the timeout, if and only if the
   breaker refused the retry that would have followed.
   */
  lemma TimeoutThenFailover(max: nat, ordered: seq<string>, blocks: seq<Block>, attempts: seq<Attempt>,
                            ending: Ending, i: nat)
    requires Complete(max, ordered, blocks, attempts, ending) && i < |blocks| && i + 1 < |ordered|
    ensures i < |blocks| - 1 <==> LeftOpen(max, blocks[i].entries)
    ensures var entries := blocks[i].entries;
            entries != [] && entries[|entries| - 1].code == Some(Timeout) ==>
              && (i < |blocks| - 1 <==> |entries| < max)
              && (i < |blocks| - 1 <==> blocks[i].ending == GaveUp(CircuitOpen))
  {
    assert BlockOk(max, blocks[i]);
    if i < |blocks| - 1 {
      assert Abandoned(blocks[i]);
    }
  }

  /** The unconditional reading is false: a timeout, then a 503, and the second provider is tried. */
  lemma TimeoutCanReachSecondProvider()
    ensures var script := (i: nat) => if i == 0 then Error(Timeout) else if i == 1 then Error(Http503) else Charged;
            var end := Drive(2, ["stripe", "adyen"], Running(START), script, 0);
            && end.Won? && end.provider == "adyen"
            && |end.attempts| == 3 && end.attempts[0].code == Some(Timeout) && end.attempts[0].provider == "stripe"
  {
    var script := (i: nat) => if i == 0 then Error(Timeout) else if i == 1 then Error(Http503) else Charged;
    var ordered := ["stripe", "adyen"];
    var s1 := Step(2, ordered, START, script(0));
    assert s1.Running?;
    var s2 := Step(2, ordered, s1.loop, script(1));
    assert s2.Running?;
    var s3 := Step(2, ordered, s2.loop, script(2));
    assert s3.Won?;
    assert Drive(2, ordered, s3, script, 3) == s3;
    assert Drive(2, ordered, s2, script, 2) == s3;
    assert Drive(2, ordered, s1, script, 1) == s3;
  }
}
