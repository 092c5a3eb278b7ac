/**
 * The selection step of the linear-scan store's `search` (core/memory_system.py): keep the
 * indices whose similarity is strictly above the threshold, rank them by decreasing similarity,
 * and keep the first `top_k`. Similarities are given; their cosine computation is not modelled.
 */
module VectorSearch {

  function Min(a: int, b: int): int { if a <= b then a else b }

  ghost predicate Indices(xs: seq<nat>, n: nat)
  {
    forall j :: 0 <= j < |xs| ==> xs[j] < n
  }

  /** Ranked best first: similarities never increase along `xs`. */
  ghost predicate Descending(xs: seq<nat>, sims: seq<real>)
  {
    Indices(xs, |sims|) && forall j, k :: 0 <= j < k < |xs| ==> sims[xs[j]] >= sims[xs[k]]
  }

  /** `np.where(similarities > threshold)` restricted to indices from `from` on, in increasing order. */
  function Above(sims: seq<real>, threshold: real, from: nat): (r: seq<nat>)
    requires from <= |sims|
    ensures forall j :: 0 <= j < |r| ==> from <= r[j] < |sims| && sims[r[j]] > threshold
    ensures forall i :: from <= i < |sims| && sims[i] > threshold ==> i in r
    ensures forall j, k :: 0 <= j < k < |r| ==> r[j] < r[k]
    decreases |sims| - from
  {
    if from == |sims| then []
    else (if sims[from] > threshold then [from] else []) + Above(sims, threshold, from + 1)
  }

  /** Insert `x` into a ranking, after every index at least as similar. */
  function Insert(x: nat, ys: seq<nat>, sims: seq<real>): (r: seq<nat>)
    requires x < |sims| && Indices(ys, |sims|)
    ensures multiset(r) == multiset(ys) + multiset{x}
    ensures Indices(r, |sims|)
    decreases |ys|
  {
    if ys == [] then [x]
    else if sims[x] > sims[ys[0]] then [x] + ys
    else
      assert ys == [ys[0]] + ys[1..];
      [ys[0]] + Insert(x, ys[1..], sims)
  }

  lemma {:induction false} InsertDescending(x: nat, ys: seq<nat>, sims: seq<real>)
    requires x < |sims| && Descending(ys, sims)
    ensures Descending(Insert(x, ys, sims), sims)
    decreases |ys|
  {
    if ys != [] && sims[x] <= sims[ys[0]] {
      var tail := ys[1..];
      InsertDescending(x, tail, sims);
      var t := Insert(x, tail, sims);
      forall j | 0 <= j < |t| ensures sims[ys[0]] >= sims[t[j]] {
        assert t[j] in multiset(t);
        if t[j] != x {
          assert t[j] in multiset(tail);
          var k :| 0 <= k < |tail| && tail[k] == t[j];
          assert tail[k] == ys[k + 1];
        }
      }
    }
  }

  /** Sort indices by decreasing similarity (the `argsort(...)[::-1]` step). */
  function SortDesc(xs: seq<nat>, sims: seq<real>): (r: seq<nat>)
    requires Indices(xs, |sims|)
    ensures multiset(r) == multiset(xs)
    ensures Descending(r, sims)
    decreases |xs|
  {
    if xs == [] then []
    else
      assert xs == [xs[0]] + xs[1..];
      InsertDescending(xs[0], SortDesc(xs[1..], sims), sims);
      Insert(xs[0], SortDesc(xs[1..], sims), sims)
  }

  /** The indices `search` returns texts for. */
  function Select(sims: seq<real>, threshold: real, topK: nat): seq<nat>
  {
    var ranked := SortDesc(Above(sims, threshold, 0), sims);
    ranked[..Min(topK, |ranked|)]
  }

  /** Every ranked index is strictly above the threshold. */
  lemma {:induction false} RankedAbove(sims: seq<real>, threshold: real, ranked: seq<nat>)
    requires ranked == SortDesc(Above(sims, threshold, 0), sims)
    ensures forall j :: 0 <= j < |ranked| ==> sims[ranked[j]] > threshold
  {
    var above := Above(sims, threshold, 0);
    forall j | 0 <= j < |ranked| ensures sims[ranked[j]] > threshold {
      assert ranked[j] in multiset(above);
    }
  }

  /** Every index above the threshold has a place in the ranking. */
  lemma {:induction false} RankedPosition(sims: seq<real>, threshold: real, ranked: seq<nat>, i: nat)
    returns (m: nat)
    requires ranked == SortDesc(Above(sims, threshold, 0), sims)
    requires i < |sims| && sims[i] > threshold
    ensures m < |ranked| && ranked[m] == i
  {
    var above := Above(sims, threshold, 0);
    assert i in multiset(above);
    assert i in multiset(ranked);
    m :| 0 <= m < |ranked| && ranked[m] == i;
  }

  /** A prefix of a ranking is a ranking, and keeps every index above the threshold. */
  lemma {:induction false} PrefixRanked(ranked: seq<nat>, sims: seq<real>, threshold: real, n: nat)
    requires Descending(ranked, sims) && n <= |ranked|
    requires forall j :: 0 <= j < |ranked| ==> sims[ranked[j]] > threshold
    ensures Descending(ranked[..n], sims)
    ensures forall j :: 0 <= j < n ==> sims[ranked[..n][j]] > threshold
  {
  }

  /** At most `top_k` indices, each strictly above the threshold, best first. */
  lemma {:induction false} SelectSound(sims: seq<real>, threshold: real, topK: nat)
    ensures var r := Select(sims, threshold, topK);
      && |r| <= topK
      && Descending(r, sims)
      && forall j :: 0 <= j < |r| ==> sims[r[j]] > threshold
  {
    var ranked := SortDesc(Above(sims, threshold, 0), sims);
    var n := Min(topK, |ranked|);
    assert Select(sims, threshold, topK) == ranked[..n];
    RankedAbove(sims, threshold, ranked);
    PrefixRanked(ranked, sims, threshold, n);
  }

  /** An entry of a ranking missing from its first `n` entries comes after them, and they are
      all at least as similar. */
  lemma {:induction false} PrefixBeforeMissing(ranked: seq<nat>, sims: seq<real>, n: nat, m: nat)
    requires Descending(ranked, sims) && n <= |ranked| && m < |ranked|
    requires ranked[m] !in ranked[..n]
    ensures n <= m
    ensures forall j :: 0 <= j < n ==> sims[ranked[j]] >= sims[ranked[m]]
  {
    forall k | 0 <= k < n ensures ranked[k] != ranked[m] {
      assert ranked[k] == ranked[..n][k];
    }
  }

  /** Nothing better is left out: an index above the threshold that is not selected means the
      selection is full and every selected index is at least as similar. */
  lemma {:induction false} SelectComplete(sims: seq<real>, threshold: real, topK: nat, i: nat)
    requires i < |sims| && sims[i] > threshold
    requires i !in Select(sims, threshold, topK)
    ensures var r := Select(sims, threshold, topK);
      |r| == topK && forall j :: 0 <= j < |r| ==> sims[r[j]] >= sims[i]
  {
    var ranked := SortDesc(Above(sims, threshold, 0), sims);
    var n := Min(topK, |ranked|);
    assert Select(sims, threshold, topK) == ranked[..n];
    var m := RankedPosition(sims, threshold, ranked, i);
    PrefixBeforeMissing(ranked, sims, n, m);
  }
}
