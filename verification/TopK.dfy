/**
 What a top-K search must return, and why that is sort-and-take.
 */
module TopKs {
  import opened ScoreHeaps

  ghost predicate Descending(s: seq<Scored>) {
    forall i, j :: 0 <= i < j < |s| ==> s[i].score >= s[j].score
  }

  /** `out` are the `k` best of `all` (all of them if fewer), best first; ties may fall either way. */
  ghost predicate IsTopK(out: seq<Scored>, all: seq<Scored>, k: nat) {
    && |out| == (if k <= |all| then k else |all|)
    && Descending(out)
    && multiset(out) <= multiset(all)
    && forall x, o :: x in multiset(all) - multiset(out) && o in out ==> x.score <= o.score
  }

  ghost predicate IsSortOf(sorted: seq<Scored>, all: seq<Scored>) {
    Descending(sorted) && multiset(sorted) == multiset(all)
  }

  /** If everything in `a` is in the first part of `b`, counted with repeats, `a` is no longer than it. */
  lemma NoPigeonhole(a: seq<Scored>, b: seq<Scored>, i: nat, t: real)
    requires i <= |b| && multiset(a) <= multiset(b)
    requires forall x :: x in a ==> x.score > t
    requires forall j :: i <= j < |b| ==> b[j].score <= t
    ensures |a| <= i
  {
    assert b == b[..i] + b[i..];
    forall x ensures multiset(a)[x] <= multiset(b[..i])[x] {
      if x in a {
        assert x !in b[i..];
        assert multiset(b)[x] == multiset(b[..i])[x] + multiset(b[i..])[x];
      }
    }
    assert multiset(b[..i]) == multiset(a) + (multiset(b[..i]) - multiset(a));
  }

  lemma PrefixSubMultiset(s: seq<Scored>, n: nat)
    requires n <= |s|
    ensures multiset(s[..n]) <= multiset(s)
  {
    assert s == s[..n] + s[n..];
  }

  /** The first `n` of a descending list whose `n`-th score is above `t`. */
  lemma TakeAbove(s: seq<Scored>, n: nat, t: real) returns (best: seq<Scored>)
    requires Descending(s) && 0 < n <= |s| && s[n - 1].score > t
    ensures best == s[..n] && |best| == n && forall x :: x in best ==> x.score > t
  {
    best := s[..n];
  }

  lemma NotAboveSort(out: seq<Scored>, sorted: seq<Scored>, i: nat)
    requires Descending(out) && Descending(sorted) && multiset(out) <= multiset(sorted)
    requires i < |out| && i < |sorted|
    ensures out[i].score <= sorted[i].score
  {
    PrefixSubMultiset(out, i + 1);
    var t := sorted[i].score;
    if out[i].score > t {
      var best := TakeAbove(out, i + 1, t);
      NoPigeonhole(best, sorted, i, t);
    }
  }

  lemma {:induction false} PrefixIsReturned(out: seq<Scored>, all: seq<Scored>, sorted: seq<Scored>, k: nat, i: nat)
    requires IsTopK(out, all, k) && IsSortOf(sorted, all)
    requires i < |out| && i < |sorted| && out[i].score < sorted[i].score
    ensures multiset(sorted[..i + 1]) <= multiset(out)
  {
    var a, m := sorted[..i + 1], multiset(sorted[..i + 1]);
    PrefixSubMultiset(sorted, i + 1);
    assert out[i] in out;
    forall x | x in a ensures m[x] <= multiset(out)[x] {
      assert x.score > out[i].score;
      assert x !in multiset(all) - multiset(out);
      assert m[x] <= multiset(all)[x];
    }
  }

  lemma BestFitsAbove(best: seq<Scored>, out: seq<Scored>, i: nat)
    requires Descending(out) && i < |out| && multiset(best) <= multiset(out)
    requires forall x :: x in best ==> x.score > out[i].score
    ensures |best| <= i
  {
    NoPigeonhole(best, out, i, out[i].score);
  }

  lemma NotBelowSort(out: seq<Scored>, all: seq<Scored>, sorted: seq<Scored>, k: nat, i: nat)
    requires IsTopK(out, all, k) && IsSortOf(sorted, all)
    requires i < |out| && i < |sorted|
    ensures out[i].score >= sorted[i].score
  {
    var t := out[i].score;
    if t < sorted[i].score {
      PrefixIsReturned(out, all, sorted, k, i);
      var best := TakeAbove(sorted, i + 1, t);
      BestFitsAbove(best, out, i);
    }
  }

  /** The scores returned are the first scores of any full descending sort. */
  lemma TopKIsSortAndTake(out: seq<Scored>, all: seq<Scored>, sorted: seq<Scored>, k: nat, i: nat)
    requires IsTopK(out, all, k) && IsSortOf(sorted, all)
    requires i < |out|
    ensures i < |sorted| && out[i].score == sorted[i].score
  {
    assert |multiset(sorted)| == |multiset(all)|;
    NotAboveSort(out, sorted, i);
    NotBelowSort(out, all, sorted, k, i);
  }
}
