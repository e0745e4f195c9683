/**
 Maximal marginal relevance: a greedy selection that trades the relevance of a row against
 its similarity to the rows already selected. Similarities are exact numbers here.
 */
module Mmr {
  import opened Basics

  // ----- what greedy means ----------------------------------------------------------

  /** The similarity of row i to the selected row it is most like; none selected counts as 0. */
  function Redundancy(sim: (nat, nat) -> real, selected: seq<nat>, i: nat): (r: real)
    ensures selected == [] ==> r == 0.0
    ensures forall s | s in selected :: sim(i, s) <= r
    ensures selected != [] ==> exists s :: s in selected && r == sim(i, s)
  {
    if selected == [] then 0.0
    else if |selected| == 1 then sim(i, selected[0])
    else
      var front := selected[..|selected| - 1];
      var last := selected[|selected| - 1];
      var m := Redundancy(sim, front, i);
      assert forall s :: s in selected <==> s in front || s == last;
      if sim(i, last) > m then sim(i, last) else m
  }

  function Score(relevance: seq<real>, sim: (nat, nat) -> real, weight: real, selected: seq<nat>, i: nat): real
    requires i < |relevance|
  {
    weight * relevance[i] - (1.0 - weight) * Redundancy(sim, selected, i)
  }

  /** Row i comes before row j: it scores higher, or as high and stands earlier. */
  predicate Beats(relevance: seq<real>, sim: (nat, nat) -> real, weight: real, selected: seq<nat>, i: nat, j: nat)
    requires i < |relevance| && j < |relevance|
  {
    var a, b := Score(relevance, sim, weight, selected, i), Score(relevance, sim, weight, selected, j);
    a > b || (a == b && i < j)
  }

  /** A row comes first exactly if what it gains in relevance outweighs what it adds in redundancy. */
  lemma BeatsIff(relevance: seq<real>, sim: (nat, nat) -> real, weight: real, selected: seq<nat>, i: nat, j: nat)
    requires i < |relevance| && j < |relevance|
    ensures var gain := weight * (relevance[i] - relevance[j]);
            var price := (1.0 - weight) * (Redundancy(sim, selected, i) - Redundancy(sim, selected, j));
            Beats(relevance, sim, weight, selected, i, j) <==> gain > price || (gain == price && i < j)
  {
    hide Redundancy;
    var x, y := Redundancy(sim, selected, i), Redundancy(sim, selected, j);
    Distributes(weight, relevance[i], relevance[j]);
    Distributes(1.0 - weight, x, y);
  }

  lemma Distributes(a: real, x: real, y: real)
    ensures a * (x - y) == a * x - a * y
  {
  }

  /**
   Of two rows that are as relevant, one less like the selected rows comes first under any weight below 1; of
   two as redundant, the more relevant one under any weight above 0.
   */
  lemma DiverseComesFirst(relevance: seq<real>, sim: (nat, nat) -> real, weight: real, selected: seq<nat>, i: nat, j: nat)
    requires i < |relevance| && j < |relevance|
    ensures weight < 1.0 && relevance[i] == relevance[j]
            && Redundancy(sim, selected, i) < Redundancy(sim, selected, j) ==>
              Beats(relevance, sim, weight, selected, i, j)
    ensures weight > 0.0 && relevance[i] > relevance[j]
            && Redundancy(sim, selected, i) == Redundancy(sim, selected, j) ==>
              Beats(relevance, sim, weight, selected, i, j)
  {
    hide Redundancy, Beats;
    BeatsIff(relevance, sim, weight, selected, i, j);
    Weighs(weight, relevance[i] - relevance[j], 1.0 - weight,
           Redundancy(sim, selected, i) - Redundancy(sim, selected, j));
  }

  /** Signs of a gain and a price. */
  lemma Weighs(a: real, x: real, b: real, y: real)
    ensures a > 0.0 && x > 0.0 && y == 0.0 ==> a * x > b * y
    ensures b > 0.0 && y < 0.0 && x == 0.0 ==> a * x > b * y
  {
    if y == 0.0 {
      assert b * y == 0.0;
    }
    if x == 0.0 {
      assert a * x == 0.0;
    }
  }

  /** Row i is not selected yet and comes before every other row that is not. */
  ghost predicate IsNext(relevance: seq<real>, sim: (nat, nat) -> real, weight: real, selected: seq<nat>, i: nat) {
    && i < |relevance| && i !in selected
    && forall j: nat | j < |relevance| && j !in selected && j != i :: Beats(relevance, sim, weight, selected, i, j)
  }

  /** Each selected row is the next one after those selected before it. */
  ghost predicate IsGreedy(relevance: seq<real>, sim: (nat, nat) -> real, weight: real, selected: seq<nat>) {
    forall m | 0 <= m < |selected| :: IsNext(relevance, sim, weight, selected[..m], selected[m])
  }

  /** The greedy condition leaves no choice. */
  lemma {:induction false} GreedyIsUnique(relevance: seq<real>, sim: (nat, nat) -> real, weight: real,
                                          a: seq<nat>, b: seq<nat>)
    requires IsGreedy(relevance, sim, weight, a) && IsGreedy(relevance, sim, weight, b) && |a| == |b|
    ensures a == b
  {
    if a != [] {
      var n := |a| - 1;
      forall m | 0 <= m < n
        ensures IsNext(relevance, sim, weight, a[..n][..m], a[..n][m])
        ensures IsNext(relevance, sim, weight, b[..n][..m], b[..n][m])
      {
        assert a[..n][..m] == a[..m] && b[..n][..m] == b[..m];
      }
      GreedyIsUnique(relevance, sim, weight, a[..n], b[..n]);
      assert IsNext(relevance, sim, weight, a[..n], a[n]) && IsNext(relevance, sim, weight, b[..n], b[n]);
      assert a == a[..n] + [a[n]] && b == b[..n] + [b[n]];
    }
  }

  /** A greedy selection names rows, each once. */
  lemma GreedyIsDistinct(relevance: seq<real>, sim: (nat, nat) -> real, weight: real, selected: seq<nat>)
    requires IsGreedy(relevance, sim, weight, selected)
    ensures forall m | 0 <= m < |selected| :: selected[m] < |relevance|
    ensures forall m, p | 0 <= m < p < |selected| :: selected[m] != selected[p]
  {
    forall m, p | 0 <= m < p < |selected|
      ensures selected[m] != selected[p]
    {
      assert IsNext(relevance, sim, weight, selected[..p], selected[p]);
      assert selected[..p][m] == selected[m];
    }
    forall m | 0 <= m < |selected|
      ensures selected[m] < |relevance|
    {
      assert IsNext(relevance, sim, weight, selected[..m], selected[m]);
    }
  }

  // ----- the selection -----------------------------------------------------------------

  /** The rows not selected, in ascending order. */
  ghost predicate Remain(remaining: seq<nat>, selected: seq<nat>, n: nat) {
    && (forall i, j | 0 <= i < j < |remaining| :: remaining[i] < remaining[j])
    && (forall x: nat :: x in remaining <==> x < n && x !in selected)
    && |remaining| + |selected| == n
  }

  function IndexOf(s: seq<nat>, x: nat): (p: nat)
    requires x in s
    ensures p < |s| && s[p] == x
  {
    if s[0] == x then 0 else 1 + IndexOf(s[1..], x)
  }

  function Removed(s: seq<nat>, x: nat): (r: seq<nat>)
    requires x in s
    ensures |r| == |s| - 1
  {
    s[..IndexOf(s, x)] + s[IndexOf(s, x) + 1..]
  }

  lemma RemovedKeepsOrder(s: seq<nat>, x: nat)
    requires x in s && forall i, j | 0 <= i < j < |s| :: s[i] < s[j]
    ensures forall i, j | 0 <= i < j < |Removed(s, x)| :: Removed(s, x)[i] < Removed(s, x)[j]
    ensures forall y :: y in Removed(s, x) <==> y in s && y != x
  {
    var p, r := IndexOf(s, x), Removed(s, x);
    assert forall k | 0 <= k < |r| :: r[k] == s[if k < p then k else k + 1];
    forall y | y in s && y != x
      ensures y in r
    {
      var k :| 0 <= k < |s| && s[k] == y;
      assert r[if k < p then k else k - 1] == y;
    }
  }

  function Least(a: int, b: int): int { if a < b then a else b }

  lemma OneMore(sim: (nat, nat) -> real, selected: seq<nat>, i: nat, m: nat)
    requires 0 < m < |selected|
    ensures var r := Redundancy(sim, selected[..m], i);
            Redundancy(sim, selected[..m + 1], i) == if sim(i, selected[m]) > r then sim(i, selected[m]) else r
  {
    assert selected[..m + 1][..m] == selected[..m];
  }

  method MaxSimilarity(sim: (nat, nat) -> real, selected: seq<nat>, i: nat) returns (r: real)
    requires selected != []
    ensures r == Redundancy(sim, selected, i)
  {
    r := sim(i, selected[0]);
    var m := 1;
    assert selected[..1] == [selected[0]];
    while m < |selected|
      invariant 1 <= m <= |selected| && r == Redundancy(sim, selected[..m], i)
    {
      OneMore(sim, selected, i, m);
      if sim(i, selected[m]) > r {
        r := sim(i, selected[m]);
      }
      m := m + 1;
    }
    assert selected[..m] == selected;
  }

  lemma Chosen(relevance: seq<real>, sim: (nat, nat) -> real, weight: real,
               selected: seq<nat>, remaining: seq<nat>, best: nat)
    requires Remain(remaining, selected, |relevance|) && best in remaining && best < |relevance|
    requires forall j | 0 <= j < |remaining| && remaining[j] != best ::
               remaining[j] < |relevance| && Beats(relevance, sim, weight, selected, best, remaining[j])
    requires IsGreedy(relevance, sim, weight, selected)
    ensures IsGreedy(relevance, sim, weight, selected + [best])
  {
    var next := selected + [best];
    forall j: nat | j < |relevance| && j !in selected && j != best
      ensures Beats(relevance, sim, weight, selected, best, j)
    {
      assert j in remaining;
    }
    forall m | 0 <= m < |next|
      ensures IsNext(relevance, sim, weight, next[..m], next[m])
    {
      assert next[..m] == selected[..m];
      assert selected[..|selected|] == selected;
    }
  }

  /** One round: the highest score among the remaining rows, the earliest where scores tie. */
  method BestRemaining(relevance: seq<real>, sim: (nat, nat) -> real, weight: real,
                       selected: seq<nat>, remaining: seq<nat>)
    returns (best: Option<nat>)
    requires forall j | 0 <= j < |remaining| :: remaining[j] < |relevance|
    requires forall i, j | 0 <= i < j < |remaining| :: remaining[i] < remaining[j]
    ensures best.None? <==> remaining == []
    ensures best.Some? ==> best.value in remaining && best.value < |relevance|
    ensures best.Some? ==> forall j | 0 <= j < |remaining| && remaining[j] != best.value ::
                             Beats(relevance, sim, weight, selected, best.value, remaining[j])
  {
    hide Redundancy;
    best := None;
    var bestScore := 0.0;
    var at := 0;
    while at < |remaining|
      invariant 0 <= at <= |remaining|
      invariant best.None? <==> at == 0
      invariant best.Some? ==> best.value in remaining[..at] && best.value < |relevance|
      invariant best.Some? ==> bestScore == Score(relevance, sim, weight, selected, best.value)
      invariant best.Some? ==> forall j | 0 <= j < at && remaining[j] != best.value ::
                                 Beats(relevance, sim, weight, selected, best.value, remaining[j])
    {
      var i := remaining[at];
      var redundancy := 0.0;
      if selected != [] {
        redundancy := MaxSimilarity(sim, selected, i);
      }
      var score := weight * relevance[i] - (1.0 - weight) * redundancy;
      assert score == Score(relevance, sim, weight, selected, i);
      if best.None? || score > bestScore {
        best, bestScore := Some(i), score;
      }
      at := at + 1;
    }
  }

  lemma AllRemain(remaining: seq<nat>, n: nat)
    requires |remaining| == n && forall i | 0 <= i < n :: remaining[i] == i
    ensures Remain(remaining, [], n)
  {
    forall x: nat | x < n
      ensures x in remaining
    {
      assert remaining[x] == x;
    }
  }

  /** Select min(k, n) rows, one a round. */
  method SelectRows(relevance: seq<real>, sim: (nat, nat) -> real, k: int, weight: real) returns (selected: seq<nat>)
    ensures |selected| == if k < 0 then 0 else Least(k, |relevance|)
    ensures IsGreedy(relevance, sim, weight, selected)
  {
    var n := |relevance|;
    selected := [];
    var remaining: seq<nat> := seq(n, i requires 0 <= i < n => i);
    AllRemain(remaining, n);
    var round := 0;
    while round < Least(k, n)
      invariant 0 <= round <= n && |selected| == round && (round <= k || round == 0)
      invariant Remain(remaining, selected, n)
      invariant IsGreedy(relevance, sim, weight, selected)
    {
      assert forall j | 0 <= j < |remaining| :: remaining[j] in remaining;
      var best := BestRemaining(relevance, sim, weight, selected, remaining);
      if best.Some? {
        Chosen(relevance, sim, weight, selected, remaining, best.value);
        RemovedKeepsOrder(remaining, best.value);
        selected := selected + [best.value];
        remaining := Removed(remaining, best.value);
      }
      round := round + 1;
    }
  }

  // ----- pure relevance ------------------------------------------------------------------

  /** With weight 1 the selection is the front of a stable sort by descending relevance. */
  lemma PureRelevanceIsSorted(relevance: seq<real>, sim: (nat, nat) -> real, selected: seq<nat>, m: nat, j: nat)
    requires IsGreedy(relevance, sim, 1.0, selected)
    requires m < |selected| && j < |relevance| && j !in selected[..m + 1]
    ensures selected[m] < |relevance|
    ensures relevance[selected[m]] > relevance[j] || (relevance[selected[m]] == relevance[j] && selected[m] < j)
  {
    assert IsNext(relevance, sim, 1.0, selected[..m], selected[m]);
    assert selected[..m + 1] == selected[..m] + [selected[m]];
    assert Beats(relevance, sim, 1.0, selected[..m], selected[m], j);
  }

  predicate Descending(relevance: seq<real>) {
    forall i, j | 0 <= i < j < |relevance| :: relevance[i] >= relevance[j]
  }

  lemma NothingBelow(selected: seq<nat>, m: nat)
    requires 0 < m <= |selected| && forall i | 0 <= i < m - 1 :: selected[i] == i
    requires forall i, p | 0 <= i < p < |selected| :: selected[i] != selected[p]
    ensures selected[m - 1] >= m - 1
    ensures selected[m - 1] > m - 1 ==> m - 1 !in selected[..m]
  {
    var row := selected[m - 1];
    var p := if row < m - 1 then row else 0;
    assert m > 1 ==> selected[p] == p;
  }

  /** With weight 1, on rows that come in descending order, the selection is the first rows. */
  lemma {:induction false} PureRelevanceIsPrefix(relevance: seq<real>, sim: (nat, nat) -> real,
                                                 selected: seq<nat>, m: nat)
    requires IsGreedy(relevance, sim, 1.0, selected) && Descending(relevance)
    requires m <= |selected| <= |relevance|
    ensures forall i | 0 <= i < m :: selected[i] == i
  {
    if m > 0 {
      PureRelevanceIsPrefix(relevance, sim, selected, m - 1);
      GreedyIsDistinct(relevance, sim, 1.0, selected);
      NothingBelow(selected, m);
      if selected[m - 1] > m - 1 {
        PureRelevanceIsSorted(relevance, sim, selected, m - 1, m - 1);
      }
    }
  }

  // ----- search ----------------------------------------------------------------------------

  function Picked<Row>(pairs: seq<(Row, real)>, relevance: seq<real>, selected: seq<nat>): (r: seq<(Row, real)>)
    requires |relevance| == |pairs| && forall m | 0 <= m < |selected| :: selected[m] < |pairs|
    ensures |r| == |selected|
    ensures forall m | 0 <= m < |r| :: r[m] == (pairs[selected[m]].0, relevance[selected[m]])
  {
    seq(|selected|, m requires 0 <= m < |selected| => (pairs[selected[m]].0, relevance[selected[m]]))
  }

  function Scores<Row>(pairs: seq<(Row, real)>): (r: seq<real>)
    ensures |r| == |pairs| && forall i | 0 <= i < |r| :: r[i] == pairs[i].1
  {
    seq(|pairs|, i requires 0 <= i < |pairs| => pairs[i].1)
  }

  /** The rows of a selection, each with its own similarity to the query. */
  method ApplyMmr<Row>(pairs: seq<(Row, real)>, relevance: seq<real>, sim: (nat, nat) -> real, k: int, weight: real)
    returns (out: seq<(Row, real)>, selected: seq<nat>)
    requires |relevance| == |pairs|
    ensures |selected| == if k < 0 then 0 else Least(k, |pairs|)
    ensures IsGreedy(relevance, sim, weight, selected) && forall m | 0 <= m < |selected| :: selected[m] < |pairs|
    ensures out == Picked(pairs, relevance, selected)
  {
    var chosen := SelectRows(relevance, sim, k, weight);
    GreedyIsDistinct(relevance, sim, weight, chosen);
    out, selected := Picked(pairs, relevance, chosen), chosen;
  }

  lemma FirstRows<Row>(pairs: seq<(Row, real)>, sim: (nat, nat) -> real, selected: seq<nat>)
    requires IsGreedy(Scores(pairs), sim, 1.0, selected) && Descending(Scores(pairs)) && |selected| <= |pairs|
    ensures forall m | 0 <= m < |selected| :: selected[m] < |pairs|
    ensures Picked(pairs, Scores(pairs), selected) == pairs[..|selected|]
  {
    PureRelevanceIsPrefix(Scores(pairs), sim, selected, |selected|);
  }

  /** The recomputed similarity of each row to the query. */
  function Relevances<Row>(pairs: seq<(Row, real)>, similarity: Row -> real): (r: seq<real>)
    ensures |r| == |pairs| && forall i | 0 <= i < |r| :: r[i] == similarity(pairs[i].0)
  {
    seq(|pairs|, i requires 0 <= i < |pairs| => similarity(pairs[i].0))
  }

  function Between<Row>(pairs: seq<(Row, real)>, sim: (Row, Row) -> real): (f: (nat, nat) -> real)
    ensures forall i: nat, j: nat | i < |pairs| && j < |pairs| :: f(i, j) == sim(pairs[i].0, pairs[j].0)
  {
    (i: nat, j: nat) => if i < |pairs| && j < |pairs| then sim(pairs[i].0, pairs[j].0) else 0.0
  }

  /**
   Search over the matching rows in the order the query returns them. Re-ranking fetches four
   times as many candidates; with weight 1 it returns what a search without it returns, if the
   recomputed similarities are the stored ones.
   */
  method Search<Row>(table: seq<(Row, real)>, similarity: Row -> real, sim: (Row, Row) -> real,
                     topK: nat, weight: Option<real>)
    returns (out: seq<(Row, real)>, ghost selected: seq<nat>)
    ensures weight.None? ==> out == table[..Least(topK, |table|)]
    ensures |out| == Least(topK, |table|)
    // With a weight, the result is the greedy selection among the candidates.
    ensures var pairs := table[..Least(topK * 4, |table|)];
            weight.Some? && |pairs| > 1 ==>
              && |selected| == Least(topK, |pairs|)
              && IsGreedy(Relevances(pairs, similarity), Between(pairs, sim), weight.value, selected)
              && forall m | 0 <= m < |out| ::
                   selected[m] < |pairs| && out[m] == (pairs[selected[m]].0, similarity(pairs[selected[m]].0))
    ensures weight == Some(1.0) && Descending(Scores(table))
            && (forall i | 0 <= i < |table| :: similarity(table[i].0) == table[i].1)
            ==> out == table[..Least(topK, |table|)]
  {
    var fetched := if weight.None? then topK else topK * 4;
    var pairs := table[..Least(fetched, |table|)];
    out, selected := pairs, [];
    if weight.Some? && |pairs| > 1 {
      var relevance := Relevances(pairs, similarity);
      var between := Between(pairs, sim);
      out, selected := ApplyMmr(pairs, relevance, between, topK, weight.value);
      if weight == Some(1.0) && Descending(Scores(table))
         && (forall i | 0 <= i < |table| :: similarity(table[i].0) == table[i].1) {
        assert relevance == Scores(pairs);
        assert Descending(Scores(pairs));
        FirstRows(pairs, between, selected);
      }
    }
  }
}
