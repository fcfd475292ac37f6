/**
  Selection of the `k` highest scores of a score vector, ordered by descending
  score: what the classification wrapper obtains from `np.argpartition`,
  `argsort` and a reversal. NumPy fixes no order among equal scores; this
  module picks one (the earliest candidate wins a tie) and everything proved
  about the scores reported does not depend on that choice (RankedScoresAgree).
*/
module Ranking {

  /** Every index is a position of the score vector `s`. */
  predicate InRange(s: seq<real>, ids: seq<nat>) {
    forall i :: 0 <= i < |ids| ==> ids[i] < |s|
  }

  predicate DistinctIds(ids: seq<nat>) {
    forall i, j :: 0 <= i < j < |ids| ==> ids[i] != ids[j]
  }

  /** Scores of the listed indices never increase along the list. */
  predicate NonIncreasing(s: seq<real>, ids: seq<nat>)
    requires InRange(s, ids)
  {
    forall i, j :: 0 <= i < j < |ids| ==> s[ids[i]] >= s[ids[j]]
  }

  /**
    The reference definition of a top-`k` ranking of `s`: `k` distinct indices
    of `s`, in non-increasing order of score, and no index left out scores
    higher than any index chosen.
  */
  ghost predicate IsTopK(s: seq<real>, k: nat, r: seq<nat>) {
    && |r| == k
    && InRange(s, r)
    && DistinctIds(r)
    && NonIncreasing(s, r)
    && forall x: nat, i :: x < |s| && x !in r && 0 <= i < k ==> s[x] <= s[r[i]]
  }

  /** The indices 0, 1, ..., n - 1. */
  function Indices(n: nat): (r: seq<nat>)
    ensures |r| == n && forall i :: 0 <= i < n ==> r[i] == i
  {
    seq(n, i requires 0 <= i < n => i)
  }

  /** Position in `cand` of a highest-scoring candidate; the earliest one on ties. */
  function MaxPos(s: seq<real>, cand: seq<nat>): (p: nat)
    requires |cand| > 0 && InRange(s, cand)
    ensures p < |cand|
    ensures forall i :: 0 <= i < |cand| ==> s[cand[i]] <= s[cand[p]]
  {
    if |cand| == 1 then 0
    else
      var q := 1 + MaxPos(s, cand[1..]);
      if s[cand[0]] >= s[cand[q]] then 0 else q
  }

  /** `cand` without its element at position `p`. */
  function RemoveAt(cand: seq<nat>, p: nat): (r: seq<nat>)
    requires p < |cand| && DistinctIds(cand)
    ensures |r| == |cand| - 1 && DistinctIds(r)
    ensures forall x :: x in r <==> x in cand && x != cand[p]
  {
    cand[..p] + cand[p + 1..]
  }

  /**
    The `k` best of the candidate indices `cand`, best first: repeatedly take a
    highest-scoring remaining candidate.
  */
  function Select(s: seq<real>, cand: seq<nat>, k: nat): (r: seq<nat>)
    requires k <= |cand| && InRange(s, cand) && DistinctIds(cand)
    ensures |r| == k && DistinctIds(r)
    ensures forall i :: 0 <= i < k ==> r[i] in cand
    ensures InRange(s, r) && NonIncreasing(s, r)
    ensures forall x, i :: x in cand && x !in r && 0 <= i < k ==> s[x] <= s[r[i]]
    decreases k
  {
    if k == 0 then []
    else
      var p := MaxPos(s, cand);
      var rest := RemoveAt(cand, p);
      var tail := Select(s, rest, k - 1);
      TailBelowHead(s, cand, p, rest, tail);
      SelectStep(s, cand, p, tail);
      SelectStepDominates(s, cand, p, rest, tail);
      [cand[p]] + tail
  }

  /** Every index `Select` ranks after the chosen candidate is another, no better candidate. */
  lemma TailBelowHead(s: seq<real>, cand: seq<nat>, p: nat, rest: seq<nat>, tail: seq<nat>)
    requires InRange(s, cand) && p < |cand|
    requires forall i :: 0 <= i < |cand| ==> s[cand[i]] <= s[cand[p]]
    requires forall x :: x in rest <==> x in cand && x != cand[p]
    requires forall i :: 0 <= i < |tail| ==> tail[i] in rest
    ensures forall i :: 0 <= i < |tail| ==> tail[i] in cand && tail[i] != cand[p] && s[tail[i]] <= s[cand[p]]
  {
    forall i | 0 <= i < |tail| ensures tail[i] in cand && tail[i] != cand[p] && s[tail[i]] <= s[cand[p]] {
      var q :| 0 <= q < |cand| && cand[q] == tail[i];
    }
  }

  /**
    One step of `Select`: a highest-scoring candidate put before the best of
    the others gives distinct candidates in non-increasing order of score.
  */
  lemma SelectStep(s: seq<real>, cand: seq<nat>, p: nat, tail: seq<nat>)
    requires InRange(s, cand) && p < |cand|
    requires forall i :: 0 <= i < |tail| ==> tail[i] in cand && tail[i] != cand[p] && s[tail[i]] <= s[cand[p]]
    requires DistinctIds(tail) && InRange(s, tail) && NonIncreasing(s, tail)
    ensures var r := [cand[p]] + tail;
      && DistinctIds(r) && InRange(s, r) && NonIncreasing(s, r)
      && (forall i :: 0 <= i < |r| ==> r[i] in cand)
  {
    var r := [cand[p]] + tail;
    assert forall i :: 0 < i < |r| ==> r[i] == tail[i - 1];
  }

  /**
    The other half of a step of `Select`: no candidate left out scores higher
    than the chosen one or than any candidate ranked after it.
  */
  lemma SelectStepDominates(s: seq<real>, cand: seq<nat>, p: nat, rest: seq<nat>, tail: seq<nat>)
    requires InRange(s, cand) && p < |cand|
    requires forall i :: 0 <= i < |cand| ==> s[cand[i]] <= s[cand[p]]
    requires forall x :: x in rest <==> x in cand && x != cand[p]
    requires InRange(s, tail)
    requires forall x, i :: x in rest && x !in tail && 0 <= i < |tail| ==> s[x] <= s[tail[i]]
    ensures var r := [cand[p]] + tail;
      forall x, i :: x in cand && x !in r && 0 <= i < |r| ==> s[x] <= s[r[i]]
  {
    var r := [cand[p]] + tail;
    forall x, i | x in cand && x !in r && 0 <= i < |r| ensures s[x] <= s[r[i]] {
      var q :| 0 <= q < |cand| && cand[q] == x;
      if i > 0 {
        assert x in rest && x !in tail;
        assert r[i] == tail[i - 1];
      }
    }
  }

  /** The ranking the classification wrapper reports, for `k` up to the class count. */
  function TopK(s: seq<real>, k: nat): (r: seq<nat>)
    requires k <= |s|
    ensures IsTopK(s, k, r)
  {
    var all := Indices(|s|);
    assert forall x: nat :: x < |s| ==> x in all by {
      forall x: nat | x < |s| ensures x in all { assert all[x] == x; }
    }
    Select(s, all, k)
  }

  /** The elements of a sequence of indices, as a set. */
  function Elements(ids: seq<nat>): (r: set<nat>) {
    set x | x in ids
  }

  lemma {:induction false} ElementsCard(ids: seq<nat>)
    ensures |Elements(ids)| <= |ids|
    ensures DistinctIds(ids) ==> |Elements(ids)| == |ids|
  {
    if ids != [] {
      ElementsCard(ids[1..]);
      assert Elements(ids) == {ids[0]} + Elements(ids[1..]);
      if DistinctIds(ids) {
        assert ids[0] !in Elements(ids[1..]);
      }
    }
  }

  lemma SubsetCard(a: set<nat>, b: set<nat>)
    requires a <= b
    ensures |a| <= |b|
  {
    assert b == a + (b - a);
  }

  /**
    When the first ranking scores higher than the second at position `j`, each
    of its first `j + 1` indices sits among the first `j` of the second.
  */
  lemma HigherPrefixInside(s: seq<real>, k: nat, r1: seq<nat>, r2: seq<nat>, j: nat)
    requires IsTopK(s, k, r1) && IsTopK(s, k, r2) && j < k
    requires s[r1[j]] > s[r2[j]]
    ensures Elements(r1[..j + 1]) <= Elements(r2[..j])
  {
    forall x | x in Elements(r1[..j + 1]) ensures x in Elements(r2[..j]) {
      var m :| 0 <= m <= j && r1[m] == x;
      assert s[x] > s[r2[j]];
      assert x in r2;
      var p :| 0 <= p < k && r2[p] == x;
      assert p < j;
      assert r2[..j][p] == x;
    }
  }

  /**
    If two top-`k` rankings disagree at position `j`, the first cannot score
    higher there: its first `j + 1` indices would all have to sit among the
    first `j` of the second.
  */
  lemma NotHigherAt(s: seq<real>, k: nat, r1: seq<nat>, r2: seq<nat>, j: nat)
    requires IsTopK(s, k, r1) && IsTopK(s, k, r2) && j < k
    ensures s[r1[j]] <= s[r2[j]]
  {
    if s[r1[j]] > s[r2[j]] {
      HigherPrefixInside(s, k, r1, r2, j);
      assert DistinctIds(r1[..j + 1]);
      ElementsCard(r1[..j + 1]);
      ElementsCard(r2[..j]);
      SubsetCard(Elements(r1[..j + 1]), Elements(r2[..j]));
      assert false;
    }
  }

  /**
    Any two top-`k` rankings of the same scores report the same scores,
    position by position: the order among tied scores is the only freedom.
  */
  lemma RankedScoresAgree(s: seq<real>, k: nat, r1: seq<nat>, r2: seq<nat>)
    requires IsTopK(s, k, r1) && IsTopK(s, k, r2)
    ensures forall j :: 0 <= j < k ==> s[r1[j]] == s[r2[j]]
  {
    forall j | 0 <= j < k ensures s[r1[j]] == s[r2[j]] {
      NotHigherAt(s, k, r1, r2, j);
      NotHigherAt(s, k, r2, r1, j);
    }
  }

  /** A ranking of every class lists every class. */
  lemma FullRankingCovers(s: seq<real>, r: seq<nat>, x: nat)
    requires IsTopK(s, |s|, r) && x < |s|
    ensures x in r
  {
    if x !in r {
      var all := Indices(|s|);
      assert DistinctIds(all);
      ElementsCard(all);
      ElementsCard(r);
      assert x in Elements(all) by { assert all[x] == x; }
      assert |Elements(all) - {x}| == |s| - 1;
      assert Elements(r) <= Elements(all) - {x} by {
        forall y | y in Elements(r) ensures y in Elements(all) - {x} {
          assert y < |s| && all[y] == y;
        }
      }
      SubsetCard(Elements(r), Elements(all) - {x});
    }
  }
}
