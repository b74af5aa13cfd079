/**
 Smooth weighted round robin (`ProviderRouter._weighted_round_robin`, routing.py), with reals
 for floats.  Weights are arguments, so they may change with every call, as success rates do.
 */
module WeightedRoundRobin {
  import opened Prelude

  type Weights = string -> real

  function Value(current: map<string, real>, p: string): real {
    if p in current then current[p] else 0.0
  }

  function Total(ps: seq<string>, w: Weights): real {
    if ps == [] then 0.0 else Total(ps[..|ps| - 1], w) + w(ps[|ps| - 1])
  }

  function Score(current: map<string, real>, w: Weights, p: string): real {
    Value(current, p) + w(p)
  }

  /** The position the selection loop ends at: a later provider must score strictly more. */
  function Best(current: map<string, real>, ps: seq<string>, w: Weights): (b: nat)
    requires ps != []
    ensures b < |ps|
  {
    var n := |ps| - 1;
    if n == 0 then 0
    else
      var b := Best(current, ps[..n], w);
      if Score(current, w, ps[n]) > Score(current, w, ps[b]) then n else b
  }

  /** That is the first provider with the highest score. */
  lemma {:induction false} BestIsFirstMaximum(current: map<string, real>, ps: seq<string>, w: Weights, i: nat)
    requires i < |ps|
    ensures Score(current, w, ps[i]) <= Score(current, w, ps[Best(current, ps, w)])
    ensures i < Best(current, ps, w) ==> Score(current, w, ps[i]) < Score(current, w, ps[Best(current, ps, w)])
  {
    var n := |ps| - 1;
    if n > 0 {
      if i < n {
        BestIsFirstMaximum(current, ps[..n], w, i);
      } else {
        BestIsFirstMaximum(current, ps[..n], w, n - 1);
      }
    }
  }

  function Winner(current: map<string, real>, ps: seq<string>, w: Weights): string
    requires ps != []
  {
    ps[Best(current, ps, w)]
  }

  /** The dictionary after the providers in `qs` have been raised by their weights, one by one. */
  function Raised(current: map<string, real>, qs: seq<string>, w: Weights): map<string, real> {
    if qs == [] then current
    else
      var q, r := qs[|qs| - 1], Raised(current, qs[..|qs| - 1], w);
      r[q := Value(r, q) + w(q)]
  }

  /** Everyone gains its weight, then the winner pays the total. */
  function Pick(current: map<string, real>, ps: seq<string>, w: Weights): map<string, real>
    requires ps != []
  {
    var r, winner := Raised(current, ps, w), Winner(current, ps, w);
    r[winner := Value(r, winner) - Total(ps, w)]
  }

  lemma {:induction false} RaisedAt(current: map<string, real>, qs: seq<string>, w: Weights, q: string)
    requires Distinct(qs)
    ensures q in Raised(current, qs, w) <==> q in current || q in qs
    ensures Value(Raised(current, qs, w), q) == Value(current, q) + if q in qs then w(q) else 0.0
  {
    if qs != [] {
      var n := |qs| - 1;
      RaisedAt(current, qs[..n], w, q);
      assert qs[n] !in qs[..n];
    }
  }

  /** What a pick does to each provider, offered or not. */
  lemma PickAt(current: map<string, real>, ps: seq<string>, w: Weights, q: string)
    requires ps != [] && Distinct(ps)
    ensures Value(Pick(current, ps, w), q)
         == Value(current, q) + (if q in ps then w(q) else 0.0)
            - (if q == Winner(current, ps, w) then Total(ps, w) else 0.0)
  {
    RaisedAt(current, ps, w, q);
  }

  // Offering one more provider, last.

  lemma TotalSnoc(qs: seq<string>, p: string, w: Weights)
    ensures Total(qs + [p], w) == Total(qs, w) + w(p)
  {
    assert (qs + [p])[..|qs|] == qs;
  }

  lemma RaisedSnoc(current: map<string, real>, qs: seq<string>, p: string, w: Weights)
    ensures Raised(current, qs + [p], w) == Raised(current, qs, w)[p := Value(Raised(current, qs, w), p) + w(p)]
  {
    assert (qs + [p])[..|qs|] == qs;
  }

  lemma WinnerSnoc(current: map<string, real>, qs: seq<string>, p: string, w: Weights)
    ensures qs == [] ==> Winner(current, qs + [p], w) == p
    ensures qs != [] ==>
              var leader := Winner(current, qs, w);
              Winner(current, qs + [p], w) == if Score(current, w, p) > Score(current, w, leader) then p else leader
  {
    assert (qs + [p])[..|qs|] == qs;
  }

  /** Where the loop stands after the providers in `qs`; the source starts from a score of minus infinity. */
  ghost predicate Scanned(before: map<string, real>, qs: seq<string>, w: Weights,
                          total: real, current: map<string, real>, selected: string, score: Option<real>)
  {
    && total == Total(qs, w) && current == Raised(before, qs, w)
    && (qs == [] ==> score == None)
    && (qs != [] ==> selected == Winner(before, qs, w) && score == Some(Score(before, w, selected)))
  }

  lemma ScanOne(before: map<string, real>, qs: seq<string>, w: Weights,
                total: real, current: map<string, real>, selected: string, best: Option<real>, p: string)
    requires Scanned(before, qs, w, total, current, selected, best) && Distinct(qs) && p !in qs
    ensures var score := Value(current, p) + w(p);
            var wins := best == None || score > best.value;
            Scanned(before, qs + [p], w, total + w(p), current[p := score],
                    if wins then p else selected, if wins then Some(score) else best)
  {
    TotalSnoc(qs, p, w);
    RaisedSnoc(before, qs, p, w);
    WinnerSnoc(before, qs, p, w);
    RaisedAt(before, qs, w, p);
  }

  lemma ScanAll(before: map<string, real>, ps: seq<string>, w: Weights,
                total: real, current: map<string, real>, selected: string, best: Option<real>)
    requires Scanned(before, ps, w, total, current, selected, best) && Distinct(ps) && ps != []
    ensures selected == Winner(before, ps, w) && selected in current
    ensures current[selected := current[selected] - total] == Pick(before, ps, w)
  {
    RaisedAt(before, ps, w, selected);
  }

  class ProviderRouter {
    var weightedCurrent: map<string, real>

    constructor ()
      ensures weightedCurrent == map[]
    {
      weightedCurrent := map[];
    }

    method WeightedRoundRobin(ps: seq<string>, w: Weights) returns (selected: string)
      requires ps != [] && Distinct(ps)
      modifies this
      ensures selected == Winner(old(weightedCurrent), ps, w)
      ensures weightedCurrent == Pick(old(weightedCurrent), ps, w)
    {
      ghost var before := weightedCurrent;
      var total := 0.0;
      selected := ps[0];
      var selectedScore := None;
      for i := 0 to |ps|
        invariant Scanned(before, ps[..i], w, total, weightedCurrent, selected, selectedScore)
      {
        var p := ps[i];
        ScanOne(before, ps[..i], w, total, weightedCurrent, selected, selectedScore, p);
        assert ps[..i] + [p] == ps[..i + 1];
        total := total + w(p);
        var score := Value(weightedCurrent, p) + w(p);
        weightedCurrent := weightedCurrent[p := score];
        if selectedScore == None || score > selectedScore.value {
          selected, selectedScore := p, Some(score);
        }
      }
      assert ps[..|ps|] == ps;
      ScanAll(before, ps, w, total, weightedCurrent, selected, selectedScore);
      weightedCurrent := weightedCurrent[selected := weightedCurrent[selected] - total];
    }
  }

  // ---------------------------------------------------------------- conservation

  function Sum(ps: seq<string>, current: map<string, real>): real {
    if ps == [] then 0.0 else Sum(ps[..|ps| - 1], current) + Value(current, ps[|ps| - 1])
  }

  /** What `names` gain together when the members of `ps` gain their weights. */
  function Gain(names: seq<string>, ps: seq<string>, w: Weights): real {
    if names == [] then 0.0
    else Gain(names[..|names| - 1], ps, w) + if names[|names| - 1] in ps then w(names[|names| - 1]) else 0.0
  }

  lemma {:induction false} GainOne(names: seq<string>, ps: seq<string>, p: string, w: Weights)
    requires Distinct(names) && p !in ps
    ensures Gain(names, ps + [p], w) == Gain(names, ps, w) + if p in names then w(p) else 0.0
  {
    if names != [] {
      var n := |names| - 1;
      GainOne(names[..n], ps, p, w);
      assert names[n] !in names[..n];
    }
  }

  lemma {:induction false} GainAll(names: seq<string>, ps: seq<string>, w: Weights)
    requires Distinct(names) && Distinct(ps) && forall p :: p in ps ==> p in names
    ensures Gain(names, ps, w) == Total(ps, w)
  {
    if ps == [] {
      GainNone(names, w);
    } else {
      var n := |ps| - 1;
      GainAll(names, ps[..n], w);
      GainOne(names, ps[..n], ps[n], w);
      assert ps == ps[..n] + [ps[n]];
    }
  }

  lemma {:induction false} GainNone(names: seq<string>, w: Weights)
    ensures Gain(names, [], w) == 0.0
  {
    if names != [] {
      GainNone(names[..|names| - 1], w);
    }
  }

  lemma {:induction false} SumPick(names: seq<string>, current: map<string, real>, ps: seq<string>, w: Weights)
    requires ps != [] && Distinct(names) && Distinct(ps)
    ensures Sum(names, Pick(current, ps, w))
         == Sum(names, current) + Gain(names, ps, w) - if Winner(current, ps, w) in names then Total(ps, w) else 0.0
  {
    if names != [] {
      var n := |names| - 1;
      SumPick(names[..n], current, ps, w);
      assert names[n] !in names[..n];
      PickAt(current, ps, w, names[n]);
    }
  }

  /** A call with any subset of the known providers, at any weights, leaves the sum of all current values unchanged. */
  lemma PickConserves(names: seq<string>, current: map<string, real>, ps: seq<string>, w: Weights)
    requires ps != [] && Distinct(names) && Distinct(ps) && forall p :: p in ps ==> p in names
    ensures Sum(names, Pick(current, ps, w)) == Sum(names, current)
  {
    SumPick(names, current, ps, w);
    GainAll(names, ps, w);
  }

  /** One call: the providers offered and the weights they had. */
  datatype Call = Call(offered: seq<string>, weights: Weights)

  ghost predicate Calls(names: seq<string>, calls: seq<Call>) {
    forall i :: 0 <= i < |calls| ==>
      calls[i].offered != [] && Distinct(calls[i].offered) && forall p :: p in calls[i].offered ==> p in names
  }

  ghost function After(names: seq<string>, calls: seq<Call>): map<string, real>
    requires Calls(names, calls)
  {
    if calls == [] then map[]
    else
      var last := calls[|calls| - 1];
      Pick(After(names, calls[..|calls| - 1]), last.offered, last.weights)
  }

  lemma {:induction false} EmptySum(names: seq<string>)
    ensures Sum(names, map[]) == 0.0
  {
    if names != [] {
      EmptySum(names[..|names| - 1]);
    }
  }

  /** From a new router, over any sequence of calls, the current values always sum to zero. */
  lemma {:induction false} AlwaysSumsToZero(names: seq<string>, calls: seq<Call>)
    requires Distinct(names) && Calls(names, calls)
    ensures Sum(names, After(names, calls)) == 0.0
  {
    if calls == [] {
      EmptySum(names);
    } else {
      var n := |calls| - 1;
      AlwaysSumsToZero(names, calls[..n]);
      PickConserves(names, After(names, calls[..n]), calls[n].offered, calls[n].weights);
    }
  }
}
