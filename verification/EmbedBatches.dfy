/**
 How large the requests of an embedding run are (internal/vector/embed_worker.go, RunFromDB and
 embedWithRetry), read off the log of requests: the adaptive batch size, and the stretches of the pages.
 */
module EmbedBatches {
  import opened EmbedFates
  import opened Paging

  const PAGE_SIZE: nat := 256

  /** The full batch size, the chunks to embed in id order, and those that have a vector already. */
  datatype Plan = Plan(full: nat, order: seq<int>, stored: set<int>)

  /** Halved by a transient error while at least two, restored by success. */
  function SizeStep(full: nat, size: nat, t: Try): nat {
    if t.Refused? then size
    else
      match t.outcome
      case Vectors(_) => full
      case PermanentFailure => size
      case TransientFailure => if size >= 2 then size / 2 else size
  }

  /** The batch size when request `k` is made. */
  function SizeBefore(full: nat, tries: seq<Try>, k: nat): nat
    requires k <= |tries|
  {
    if k == 0 then full else SizeStep(full, SizeBefore(full, tries, k - 1), tries[k - 1])
  }

  /** Where a batch of this size ends that begins at position `i`: at the latest with the page. */
  function EndOf(order: seq<int>, i: nat, size: nat): (j: nat)
    requires i <= |order|
    ensures j <= |order|
  {
    Least(i + size, Least(|order|, (i / PAGE_SIZE + 1) * PAGE_SIZE))
  }

  function Least(a: nat, b: nat): nat {
    if a <= b then a else b
  }

  /** A batch as large as the size and the page allow. */
  ghost predicate StretchAt(order: seq<int>, size: nat, batch: seq<int>, i: nat) {
    i < |order| && i <= EndOf(order, i, size) && batch == order[i..EndOf(order, i, size)]
  }

  /** The chunks of such a batch that have no vector. */
  ghost predicate TakesStretch(p: Plan, size: nat, ids: seq<int>) {
    exists i, batch :: StretchAt(p.order, size, batch, i)
                       && Ascending(ids) && Elements(ids) == Elements(batch) - p.stored
  }

  ghost predicate BatchedUpTo(p: Plan, tries: seq<Try>, k: nat)
    requires k <= |tries|
  {
    k == 0 || (BatchedUpTo(p, tries, k - 1) && TakesStretch(p, SizeBefore(p.full, tries, k - 1), tries[k - 1].ids))
  }

  // Folded as the accounts are.

  ghost predicate BatchesFolded(p: Plan, tries: seq<Try>, size: nat, lock: nat) {
    if lock == 0 then BatchedUpTo(p, tries, |tries|) && size == SizeBefore(p.full, tries, |tries|)
    else BatchesFolded(p, tries, size, lock - 1)
  }

  /** Every request took such a stretch, and the batch size is now `size`. */
  ghost predicate Batches(p: Plan, tries: seq<Try>, size: nat) {
    BatchesFolded(p, tries, size, 3 + |tries|)
  }

  lemma {:induction false} UnfoldBatches(p: Plan, tries: seq<Try>, size: nat, lock: nat)
    ensures BatchesFolded(p, tries, size, lock) <==>
            BatchedUpTo(p, tries, |tries|) && size == SizeBefore(p.full, tries, |tries|)
  {
    if lock > 0 {
      UnfoldBatches(p, tries, size, lock - 1);
    }
  }

  lemma OpenBatches(p: Plan, tries: seq<Try>, size: nat)
    ensures Batches(p, tries, size) <==>
            BatchedUpTo(p, tries, |tries|) && size == SizeBefore(p.full, tries, |tries|)
  {
    UnfoldBatches(p, tries, size, 3 + |tries|);
  }

  lemma {:induction false} SameSizes(p: Plan, tries: seq<Try>, t: Try, k: nat)
    requires k <= |tries|
    ensures SizeBefore(p.full, tries + [t], k) == SizeBefore(p.full, tries, k)
    ensures BatchedUpTo(p, tries + [t], k) <==> BatchedUpTo(p, tries, k)
  {
    if k > 0 {
      SameSizes(p, tries, t, k - 1);
    }
  }

  lemma BatchesGrow(p: Plan, tries: seq<Try>, size: nat, t: Try)
    requires Batches(p, tries, size) && TakesStretch(p, size, t.ids)
    ensures Batches(p, tries + [t], SizeStep(p.full, size, t))
  {
    OpenBatches(p, tries, size);
    OpenBatches(p, tries + [t], SizeStep(p.full, size, t));
    SameSizes(p, tries, t, |tries|);
  }

  lemma {:induction false} BatchedAt(p: Plan, tries: seq<Try>, k: nat, n: nat)
    requires k < n <= |tries| && BatchedUpTo(p, tries, n)
    ensures TakesStretch(p, SizeBefore(p.full, tries, k), tries[k].ids)
  {
    if k < n - 1 {
      BatchedAt(p, tries, k, n - 1);
    }
  }

  lemma EachTakesStretch(p: Plan, tries: seq<Try>, size: nat)
    requires Batches(p, tries, size)
    ensures forall k :: 0 <= k < |tries| ==> TakesStretch(p, SizeBefore(p.full, tries, k), tries[k].ids)
    ensures size == SizeBefore(p.full, tries, |tries|)
  {
    OpenBatches(p, tries, size);
    forall k | 0 <= k < |tries| ensures TakesStretch(p, SizeBefore(p.full, tries, k), tries[k].ids) {
      BatchedAt(p, tries, k, |tries|);
    }
  }

  lemma AscendingSlice(s: seq<int>, i: nat, j: nat)
    requires Ascending(s) && i <= j <= |s|
    ensures Ascending(s[i..j]) && Elements(s[i..j]) <= Elements(s)
  {}

  /** No request names more chunks than the batch size. */
  lemma RequestsAreBounded(p: Plan, size: nat, ids: seq<int>)
    requires Ascending(p.order) && TakesStretch(p, size, ids)
    ensures |ids| <= size
  {
    var i, batch :| StretchAt(p.order, size, batch, i) && Ascending(ids) && Elements(ids) == Elements(batch) - p.stored;
    AscendingSlice(p.order, i, EndOf(p.order, i, size));
    AscendingSize(ids);
    AscendingSize(batch);
    SubsetSize(Elements(ids), Elements(batch));
  }

  /** Where no chunk has a vector already, a request names as many chunks as the batch size, or all left of a page. */
  lemma RequestsAreFull(p: Plan, size: nat, ids: seq<int>)
    requires Ascending(p.order) && Elements(p.order) !! p.stored && TakesStretch(p, size, ids)
    ensures exists i :: 0 <= i < |p.order| && i <= EndOf(p.order, i, size) && ids == p.order[i..EndOf(p.order, i, size)]
    ensures |ids| == size || (ids != [] && EndsPage(p.order, ids[|ids| - 1])) || size == 0
  {
    var i, batch :| StretchAt(p.order, size, batch, i) && Ascending(ids) && Elements(ids) == Elements(batch) - p.stored;
    AscendingSlice(p.order, i, EndOf(p.order, i, size));
    assert Elements(ids) == Elements(batch);
    AscendingUnique(ids, batch);
    if 0 < |ids| != size {
      var last := EndOf(p.order, i, size) - 1;
      assert ids[|ids| - 1] == p.order[last];
      PageBoundary(i, last, |p.order|);
    }
  }

  /** The last chunk of a page, or of all. */
  ghost predicate EndsPage(order: seq<int>, id: int) {
    exists j :: 0 <= j < |order| && order[j] == id && (j == |order| - 1 || (j + 1) % PAGE_SIZE == 0)
  }

  lemma PageBoundary(i: nat, last: int, n: nat)
    requires i < n && last + 1 == Least(n, (i / PAGE_SIZE + 1) * PAGE_SIZE)
    ensures last == n - 1 || (last + 1) % PAGE_SIZE == 0
  {}

  /** All ids in order. */
  ghost predicate IsOrder(order: seq<int>, ids: set<int>) {
    Ascending(order) && Elements(order) == ids
  }

  /** An ascending sequence is a prefix of the order if all that it lacks is greater. */
  lemma {:induction false} IsPrefix(s: seq<int>, order: seq<int>, ids: set<int>)
    requires IsOrder(order, ids) && Ascending(s) && Elements(s) <= ids
    requires forall c, m :: c in ids && c !in s && m in s ==> c > m
    ensures |s| <= |order| && s == order[..|s|]
  {
    if s != [] {
      var n := |s| - 1;
      var init, x := s[..n], s[n];
      assert s == init + [x];
      ElementsAppend(init, [x]);
      forall c, m | c in ids && c !in init && m in init ensures c > m {
        assert m in s && (c in s ==> c == x);
      }
      IsPrefix(init, order, ids);
      NextIsLeast(s, order, ids, n);
    }
  }

  lemma NextIsLeast(s: seq<int>, order: seq<int>, ids: set<int>, n: nat)
    requires IsOrder(order, ids) && Ascending(s) && Elements(s) <= ids && |s| == n + 1
    requires forall c, m :: c in ids && c !in s && m in s ==> c > m
    requires n <= |order| && s[..n] == order[..n]
    ensures |s| <= |order| && s == order[..|s|]
  {
    assert s[n] in Elements(s) && s[n] in Elements(order);
    var j :| 0 <= j < |order| && order[j] == s[n];
    NotInPrefix(s, order, n, j);
    var x, y := s[n], order[n];
    assert y in Elements(order) && x in s && y <= order[j];
    assert y in s || y > x;
    assert s == s[..n] + [s[n]] && order[..n + 1] == order[..n] + [order[n]];
  }

  lemma NotInPrefix(s: seq<int>, order: seq<int>, n: nat, j: nat)
    requires Ascending(s) && Ascending(order) && |s| == n + 1 && n <= |order| && s[..n] == order[..n]
    requires j < |order| && order[j] == s[n]
    ensures n <= j && (order[n] in s ==> order[n] == s[n])
  {
    forall k | 0 <= k < n ensures s[k] == order[k] {
      assert s[..n][k] == order[..n][k];
    }
  }

  lemma AscendingUnique(a: seq<int>, b: seq<int>)
    requires Ascending(a) && Ascending(b) && Elements(a) == Elements(b)
    ensures a == b
  {
    AscendingSize(a);
    AscendingSize(b);
    forall c | c in Elements(b) ensures c in a {
      assert c in Elements(a);
    }
    IsPrefix(a, b, Elements(b));
    assert b[..|a|] == b;
  }

  // ---- Pages and batches are stretches of the whole ----

  lemma {:induction false} PageLength(ids: set<int>, after: int, limit: nat)
    ensures |Page(ids, after, limit)| == Least(limit, |Above(ids, after)|)
    decreases limit
  {
    if limit > 0 && Above(ids, after) != {} {
      var m := Min(Above(ids, after));
      PageLength(ids, m, limit - 1);
      assert Above(ids, after) == {m} + Above(ids, m);
    }
  }

  lemma AllInOrder(ids: set<int>) returns (order: seq<int>)
    requires forall x :: x in ids ==> x > 0
    ensures IsOrder(order, ids)
  {
    order := Page(ids, 0, |ids|);
    PageCovers(ids, 0, |ids|);
    PageLength(ids, 0, |ids|);
    assert Above(ids, 0) == ids;
    AscendingSize(order);
    SubsetOfSameSize(Elements(order), ids);
  }

  lemma SubsetOfSameSize(a: set<int>, b: set<int>)
    requires a <= b && |a| == |b|
    ensures a == b
  {
    SubsetSize(a, b);
    assert b == a + (b - a);
    assert |b| == |a| + |b - a|;
  }

  /** After a page the next one begins at a multiple of the page size, or nothing is left. */
  lemma NextPageBegins(m: nat, page: nat, n: nat)
    requires m % PAGE_SIZE == 0 && m <= n && page == Least(PAGE_SIZE, n - m)
    ensures (m + page) % PAGE_SIZE == 0 || m + page == n
  {}

  /** A batch that begins `i` chunks into a page that begins at position `m`. */
  lemma StretchOfPage(order: seq<int>, page: seq<int>, m: nat, i: nat, size: nat)
    requires m % PAGE_SIZE == 0 && m + |page| <= |order| && page == order[m..m + |page|]
    requires |page| == Least(PAGE_SIZE, |order| - m) && i < |page|
    ensures var end := Least(i + size, |page|);
      StretchAt(order, size, page[i..end], m + i)
  {
    var end := Least(i + size, |page|);
    assert (m + i) / PAGE_SIZE == m / PAGE_SIZE;
    assert EndOf(order, m + i, size) == m + end;
    forall k | 0 <= k < |page| ensures page[k] == order[m + k] {}
    assert |page[i..end]| == |order[m + i..m + end]|;
    assert page[i..end] == order[m + i..m + end];
  }
}
