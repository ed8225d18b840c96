/**
 Keyset paging over a table's row ids: `SELECT id ... WHERE id > ? ORDER BY id LIMIT ?`, the query behind
 GetEmbedPage and GetEmbeddedChunkIDs (internal/storage/sqlite/metadata.go).
 */
module Paging {
  lemma NonEmpty(s: set<int>)
    ensures s == {} || exists x :: x in s
  {
    if forall x :: x !in s {
      assert s == {};
    }
  }

  lemma {:induction false} HasMin(s: set<int>)
    requires s != {}
    ensures exists m :: m in s && forall x :: x in s ==> m <= x
    decreases |s|
  {
    NonEmpty(s);
    var a :| a in s;
    if s - {a} != {} {
      HasMin(s - {a});
      var b :| b in s - {a} && forall x :: x in s - {a} ==> b <= x;
      var m := if a <= b then a else b;
      assert forall x :: x in s ==> x == a || x in s - {a};
      assert m in s && forall x :: x in s ==> m <= x;
    } else {
      assert s == {a};
    }
  }

  function Min(s: set<int>): (m: int)
    requires s != {}
    ensures m in s && forall x :: x in s ==> m <= x
  {
    HasMin(s);
    var m :| m in s && forall x :: x in s ==> m <= x;
    m
  }

  lemma SubsetSize(a: set<int>, b: set<int>)
    requires a <= b
    ensures |a| <= |b|
  {
    assert b == a + (b - a);
  }

  function Above(ids: set<int>, after: int): set<int> {
    set x | x in ids && x > after
  }

  function Elements(s: seq<int>): set<int> {
    set x | x in s
  }

  lemma ElementsAppend(a: seq<int>, b: seq<int>)
    ensures Elements(a + b) == Elements(a) + Elements(b)
  {}

  lemma ElementsStep(s: seq<int>, i: nat)
    requires i < |s|
    ensures Elements(s[..i + 1]) == Elements(s[..i]) + {s[i]}
  {
    assert s[..i + 1] == s[..i] + [s[i]];
    ElementsAppend(s[..i], [s[i]]);
  }

  lemma ElementsSlices(s: seq<int>, i: nat, j: nat)
    requires i <= j <= |s|
    ensures Elements(s[..j]) == Elements(s[..i]) + Elements(s[i..j])
  {
    assert s[..j] == s[..i] + s[i..j];
    ElementsAppend(s[..i], s[i..j]);
  }

  ghost predicate Ascending(s: seq<int>) {
    forall i, j :: 0 <= i < j < |s| ==> s[i] < s[j]
  }

  lemma {:induction false} AscendingSize(s: seq<int>)
    requires Ascending(s)
    ensures |Elements(s)| == |s|
  {
    if s != [] {
      var init, last := s[..|s| - 1], s[|s| - 1];
      AscendingSize(init);
      assert s == init + [last];
      ElementsAppend(init, [last]);
      assert Elements([last]) == {last};
      assert last !in Elements(init);
    }
  }

  /** The first `limit` ids above `after`, in order. */
  function Page(ids: set<int>, after: int, limit: nat): (page: seq<int>)
    ensures |page| <= limit
    ensures Elements(page) <= Above(ids, after)
    decreases limit
  {
    if limit == 0 || Above(ids, after) == {} then []
    else
      var m := Min(Above(ids, after));
      assert Above(ids, m) <= Above(ids, after);
      [m] + Page(ids, m, limit - 1)
  }

  lemma PageStep(ids: set<int>, after: int, m: int, rest: seq<int>)
    requires Above(ids, after) != {} && m == Min(Above(ids, after))
    requires Ascending(rest) && Elements(rest) <= Above(ids, m)
    ensures Ascending([m] + rest) && Elements([m] + rest) == {m} + Elements(rest)
    ensures Above(ids, after) == {m} + Above(ids, m) && m > after
  {
    forall j | 0 <= j < |rest| ensures rest[j] > m {
      assert rest[j] in Elements(rest);
    }
    ElementsAppend([m], rest);
    assert Elements([m]) == {m};
  }

  /** The page holds every id above `after` up to its last one, in order. */
  ghost predicate Covers(ids: set<int>, after: int, page: seq<int>) {
    && Ascending(page)
    && (page != [] ==> Above(ids, after) == Elements(page) + Above(ids, page[|page| - 1]))
    && (page != [] ==> page[|page| - 1] > after)
  }

  lemma CoversStep(ids: set<int>, after: int, m: int, rest: seq<int>)
    requires Above(ids, after) != {} && m == Min(Above(ids, after))
    requires Covers(ids, m, rest) && Elements(rest) <= Above(ids, m)
    ensures Covers(ids, after, [m] + rest)
  {
    PageStep(ids, after, m, rest);
    assert rest != [] ==> ([m] + rest)[|rest|] == rest[|rest| - 1];
  }

  /** A page is ascending and leaves out nothing up to its last id; only an empty page ends the table. */
  lemma {:induction false} PageCovers(ids: set<int>, after: int, limit: nat)
    ensures var page := Page(ids, after, limit);
      && Ascending(page)
      && (page == [] <==> limit == 0 || Above(ids, after) == {})
      && (page != [] ==> Above(ids, after) == Elements(page) + Above(ids, page[|page| - 1])
                         && page[|page| - 1] > after)
    decreases limit
  {
    PageIsCovered(ids, after, limit);
    PageIsEmpty(ids, after, limit);
  }

  lemma {:induction false} PageIsCovered(ids: set<int>, after: int, limit: nat)
    ensures Covers(ids, after, Page(ids, after, limit))
    decreases limit
  {
    if limit > 0 && Above(ids, after) != {} {
      var m := Min(Above(ids, after));
      PageIsCovered(ids, m, limit - 1);
      CoversStep(ids, after, m, Page(ids, m, limit - 1));
    }
  }

  lemma PageIsEmpty(ids: set<int>, after: int, limit: nat)
    ensures Page(ids, after, limit) == [] <==> limit == 0 || Above(ids, after) == {}
  {}

  /** A set's elements in some order, as a query without ORDER BY returns them. */
  method ListSet(s: set<int>) returns (q: seq<int>)
    ensures Elements(q) == s && |q| == |s|
  {
    q := [];
    var rest := s;
    while exists x :: x in rest
      invariant rest <= s && |q| + |rest| == |s|
      invariant Elements(q) == s - rest
      decreases rest
    {
      var x :| x in rest;
      rest := rest - {x};
      assert Elements(q + [x]) == Elements(q) + {x};
      q := q + [x];
    }
    assert rest == {};
  }
}
