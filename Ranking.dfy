/**
 * The ordering `rerankDocs` puts documents in: a stable sort of the indices
 * by descending similarity (`sort((a, b) => b.similarity - a.similarity)` on
 * an array that starts in index order; JavaScript's sort is stable).
 */
module Ranking {

  /**
   * Index `i` goes before index `j`: it scores higher, or it scores the same
   * and came first in the input.
   */
  predicate Ahead(scores: seq<real>, i: nat, j: nat)
    requires i < |scores| && j < |scores|
  {
    scores[i] > scores[j] || (scores[i] == scores[j] && i < j)
  }

  /** Every entry of `idx` is an index into `scores`. */
  predicate InRange(scores: seq<real>, idx: seq<nat>)
  {
    forall k :: 0 <= k < |idx| ==> idx[k] < |scores|
  }

  /** `idx` lists indices in `Ahead` order (which also makes them distinct). */
  predicate Ranked(scores: seq<real>, idx: seq<nat>)
    requires InRange(scores, idx)
  {
    forall a, b :: 0 <= a < b < |idx| ==> Ahead(scores, idx[a], idx[b])
  }

  /** `idx` lists each of the indices 0 .. n-1 exactly once. */
  predicate IsPermutationOfRange(idx: seq<nat>, n: nat)
  {
    && |idx| == n
    && (forall k :: 0 <= k < |idx| ==> idx[k] < n)
    && (forall i :: 0 <= i < n ==> i in idx)
  }

  /** Insert index `i` into the ranked list `sorted` after every index ahead of it. */
  function Insert(scores: seq<real>, i: nat, sorted: seq<nat>): (r: seq<nat>)
    requires i < |scores| && InRange(scores, sorted)
    ensures |r| == |sorted| + 1
    ensures InRange(scores, r)
    ensures forall x :: x in r <==> x == i || x in sorted
  {
    if sorted == [] then [i]
    else if Ahead(scores, sorted[0], i) then [sorted[0]] + Insert(scores, i, sorted[1..])
    else [i] + sorted
  }

  /** Inserting an index not yet listed keeps the list ranked. */
  lemma {:induction false} InsertRanked(scores: seq<real>, i: nat, sorted: seq<nat>)
    requires i < |scores| && InRange(scores, sorted)
    requires Ranked(scores, sorted) && i !in sorted
    ensures Ranked(scores, Insert(scores, i, sorted))
  {
    var r := Insert(scores, i, sorted);
    if sorted == [] {
    } else if Ahead(scores, sorted[0], i) {
      var rest := sorted[1..];
      assert Ranked(scores, rest) by {
        forall a, b | 0 <= a < b < |rest| ensures Ahead(scores, rest[a], rest[b]) {
          assert rest[a] == sorted[a + 1] && rest[b] == sorted[b + 1];
        }
      }
      assert i !in rest by { assert forall x :: x in rest ==> x in sorted; }
      InsertRanked(scores, i, rest);
      var tail := Insert(scores, i, rest);
      assert r == [sorted[0]] + tail;
      forall b | 0 < b < |r| ensures Ahead(scores, r[0], r[b]) {
        assert r[b] == tail[b - 1];
        assert r[b] in tail;
        if r[b] != i {
          var m :| 0 <= m < |rest| && rest[m] == r[b];
          assert sorted[m + 1] == r[b];
        }
      }
    } else {
      assert i != sorted[0];
      forall b | 0 < b < |r| ensures Ahead(scores, r[0], r[b]) {
        assert r[b] == sorted[b - 1];
        if b > 1 {
          assert Ahead(scores, sorted[0], sorted[b - 1]);
        }
      }
    }
  }

  /** The indices 0 .. n-1 of `scores`, stably sorted by descending score. */
  function RankIndices(scores: seq<real>, n: nat): (r: seq<nat>)
    requires n <= |scores|
    ensures IsPermutationOfRange(r, n)
    ensures InRange(scores, r)
  {
    if n == 0 then []
    else
      var sorted := RankIndices(scores, n - 1);
      var r := Insert(scores, n - 1, sorted);
      assert forall k :: 0 <= k < |r| ==> r[k] < n by {
        forall k | 0 <= k < |r| ensures r[k] < n {
          assert r[k] in r;
        }
      }
      r
  }

  /** The ranked indices are in `Ahead` order. */
  lemma {:induction false} RankIndicesRanked(scores: seq<real>, n: nat)
    requires n <= |scores|
    ensures Ranked(scores, RankIndices(scores, n))
  {
    if n > 0 {
      var sorted := RankIndices(scores, n - 1);
      RankIndicesRanked(scores, n - 1);
      assert n - 1 !in sorted;
      InsertRanked(scores, n - 1, sorted);
    }
  }

  /**
   * A stable descending order is unique: two duplicate-free rankings of the
   * same indices are the same sequence.
   */
  lemma {:induction false} RankedUnique(scores: seq<real>, p: seq<nat>, q: seq<nat>)
    requires InRange(scores, p) && InRange(scores, q)
    requires Ranked(scores, p) && Ranked(scores, q)
    requires |p| == |q|
    requires forall x :: x in p <==> x in q
    ensures p == q
  {
    if |p| > 0 {
      // Each list's head is ahead of every other index, so the heads agree.
      assert p[0] in q && q[0] in p;
      var p', q' := p[1..], q[1..];
      assert Ranked(scores, p') by {
        forall a, b | 0 <= a < b < |p'| ensures Ahead(scores, p'[a], p'[b]) {
          assert p'[a] == p[a + 1] && p'[b] == p[b + 1];
        }
      }
      assert Ranked(scores, q') by {
        forall a, b | 0 <= a < b < |q'| ensures Ahead(scores, q'[a], q'[b]) {
          assert q'[a] == q[a + 1] && q'[b] == q[b + 1];
        }
      }
      forall x ensures x in p' <==> x in q' {
        if x in p' {
          var a :| 0 <= a < |p'| && p'[a] == x;
          assert Ahead(scores, p[0], p[a + 1]);
          assert x in q;
          var b :| 0 <= b < |q| && q[b] == x;
          assert b != 0;
          assert q'[b - 1] == x;
        }
        if x in q' {
          var b :| 0 <= b < |q'| && q'[b] == x;
          assert Ahead(scores, q[0], q[b + 1]);
          assert x in p;
          var a :| 0 <= a < |p| && p[a] == x;
          assert a != 0;
          assert p'[a - 1] == x;
        }
      }
      RankedUnique(scores, p', q');
      assert p == [p[0]] + p' && q == [q[0]] + q';
    }
  }

  /** How many leading entries of `sorted` are ahead of `i`: where `Insert` puts it. */
  function InsertPosition(scores: seq<real>, i: nat, sorted: seq<nat>): (pos: nat)
    requires i < |scores| && InRange(scores, sorted)
    ensures pos <= |sorted|
  {
    if sorted == [] || !Ahead(scores, sorted[0], i) then 0
    else 1 + InsertPosition(scores, i, sorted[1..])
  }

  /** `Insert` puts `i` between the entries ahead of it and the rest, moving nothing else. */
  lemma {:induction false} InsertAt(scores: seq<real>, i: nat, sorted: seq<nat>)
    requires i < |scores| && InRange(scores, sorted)
    ensures var pos := InsertPosition(scores, i, sorted);
            Insert(scores, i, sorted) == sorted[..pos] + [i] + sorted[pos..]
  {
    if sorted != [] && Ahead(scores, sorted[0], i) {
      InsertAt(scores, i, sorted[1..]);
      var pos := InsertPosition(scores, i, sorted[1..]);
      assert sorted[..pos + 1] == [sorted[0]] + sorted[1..][..pos];
      assert sorted[pos + 1..] == sorted[1..][pos..];
    }
  }

  /** The elements of `xs` at positions `idx`, in that order. */
  function Pick<T>(xs: seq<T>, idx: seq<nat>): (r: seq<T>)
    requires forall k :: 0 <= k < |idx| ==> idx[k] < |xs|
    ensures |r| == |idx|
    ensures forall k :: 0 <= k < |idx| ==> r[k] == xs[idx[k]]
  {
    seq(|idx|, k requires 0 <= k < |idx| => xs[idx[k]])
  }

  /** Picking along a concatenation of positions concatenates the picks. */
  lemma PickConcat<T>(xs: seq<T>, a: seq<nat>, b: seq<nat>)
    requires forall k :: 0 <= k < |a| ==> a[k] < |xs|
    requires forall k :: 0 <= k < |b| ==> b[k] < |xs|
    ensures Pick(xs, a + b) == Pick(xs, a) + Pick(xs, b)
  {
  }

  /** Picking along `sorted` with one more position `i` slotted in at `pos` adds one `xs[i]`. */
  lemma PickInsertMultiset<T>(xs: seq<T>, sorted: seq<nat>, pos: nat, i: nat)
    requires pos <= |sorted| && i < |xs|
    requires forall k :: 0 <= k < |sorted| ==> sorted[k] < |xs|
    ensures forall k :: 0 <= k < |sorted[..pos] + [i] + sorted[pos..]| ==> (sorted[..pos] + [i] + sorted[pos..])[k] < |xs|
    ensures multiset(Pick(xs, sorted[..pos] + [i] + sorted[pos..])) == multiset(Pick(xs, sorted)) + multiset{xs[i]}
  {
    var a, b := sorted[..pos], sorted[pos..];
    assert sorted == a + b;
    PickConcat(xs, a + [i], b);
    PickConcat(xs, a, [i]);
    PickConcat(xs, a, b);
  }

  /**
   * Picking the elements in ranked order is a permutation: every one of the
   * first `n` elements appears exactly as often as before.
   */
  lemma {:induction false} PickRankedIsPermutation<T>(xs: seq<T>, scores: seq<real>, n: nat)
    requires n <= |xs| && n <= |scores|
    ensures multiset(Pick(xs, RankIndices(scores, n))) == multiset(xs[..n])
  {
    if n > 0 {
      var sorted := RankIndices(scores, n - 1);
      PickRankedIsPermutation(xs, scores, n - 1);
      InsertAt(scores, n - 1, sorted);
      var pos := InsertPosition(scores, n - 1, sorted);
      PickInsertPermutation(xs, sorted, pos, n, RankIndices(scores, n));
    }
  }

  /**
   * One step of the permutation proof: if picking along `sorted` permutes the
   * first `n - 1` elements, picking along it with `n - 1` slotted in at `pos`
   * permutes the first `n`.
   */
  lemma PickInsertPermutation<T>(xs: seq<T>, sorted: seq<nat>, pos: nat, n: nat, full: seq<nat>)
    requires 0 < n <= |xs| && pos <= |sorted|
    requires forall k :: 0 <= k < |sorted| ==> sorted[k] < |xs|
    requires multiset(Pick(xs, sorted)) == multiset(xs[..n - 1])
    requires full == sorted[..pos] + [n - 1] + sorted[pos..]
    ensures forall k :: 0 <= k < |full| ==> full[k] < |xs|
    ensures multiset(Pick(xs, full)) == multiset(xs[..n])
  {
    PickInsertMultiset(xs, sorted, pos, n - 1);
    assert xs[..n] == xs[..n - 1] + [xs[n - 1]];
  }
}
