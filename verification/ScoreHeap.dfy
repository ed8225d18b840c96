/**
 The min-heap of scored entries behind Search (internal/vector/bruteforce/store.go, scoreHeap), with the
 sift loops that Go's container/heap runs over it.
 */
module ScoreHeaps {
  datatype Scored = Scored(id: int, score: real)

  function Parent(i: nat): nat
    requires i > 0
  {
    (i - 1) / 2
  }

  /** The element at `i` is no smaller than its parent. */
  ghost predicate Above(s: seq<Scored>, i: nat)
    requires 0 < i < |s|
  {
    s[Parent(i)].score <= s[i].score
  }

  ghost predicate IsHeap(s: seq<Scored>) {
    forall i: nat :: 0 < i < |s| ==> Above(s, i)
  }

  lemma {:induction false} RootIsLeast(s: seq<Scored>, i: nat)
    requires IsHeap(s) && i < |s|
    ensures s[0].score <= s[i].score
  {
    if i > 0 {
      RootIsLeast(s, Parent(i));
      assert Above(s, i);
    }
  }

  function Swapped(s: seq<Scored>, i: nat, j: nat): (r: seq<Scored>)
    requires i < |s| && j < |s|
    ensures |r| == |s| && multiset(r) == multiset(s)
    ensures r[i] == s[j] && r[j] == s[i]
    ensures forall k :: 0 <= k < |s| && k != i && k != j ==> r[k] == s[k]
  {
    s[i := s[j]][j := s[i]]
  }

  /** A heap but for the element at `j`, which may be smaller than its parent. */
  ghost predicate HeapButUp(s: seq<Scored>, j: nat) {
    && j < |s|
    && (forall i: nat :: 0 < i < |s| && i != j ==> Above(s, i))
    && forall c: nat :: 0 < j && 0 < c < |s| && Parent(c) == j ==> s[Parent(j)].score <= s[c].score
  }

  /** A heap but for the element at `j`, which may be larger than its children. */
  ghost predicate HeapButDown(s: seq<Scored>, j: nat) {
    && j < |s|
    && (forall i: nat :: 0 < i < |s| && Parent(i) != j ==> Above(s, i))
    && forall c: nat :: 0 < j && 0 < c < |s| && Parent(c) == j ==> s[Parent(j)].score <= s[c].score
  }

  class ScoreHeap {
    var items: seq<Scored>

    constructor ()
      ensures items == []
    {
      items := [];
    }

    predicate Less(i: nat, j: nat)
      requires i < |items| && j < |items|
      reads this
    {
      items[i].score < items[j].score
    }

    method Up(j0: nat)
      requires HeapButUp(items, j0)
      modifies this
      ensures IsHeap(items) && multiset(items) == multiset(old(items))
    {
      var j := j0;
      while true
        invariant HeapButUp(items, j) && multiset(items) == multiset(old(items))
        decreases j
      {
        var i := if j == 0 then 0 else (j - 1) / 2;
        if i == j || !Less(j, i) {
          return;
        }
        ghost var s := items;
        items := Swapped(items, i, j);
        UpStep(s, i, j);
        j := i;
      }
    }

    /** Sifts the element at `j0` down. The source passes the length and tells whether it moved. */
    method Down(j0: nat) returns (moved: bool)
      requires HeapButDown(items, j0)
      modifies this
      ensures IsHeap(items) && multiset(items) == multiset(old(items))
    {
      var i: nat := j0;
      while true
        invariant HeapButDown(items, i) && multiset(items) == multiset(old(items)) && |items| == |old(items)|
        invariant i >= j0
        decreases |items| - i
      {
        var j1 := 2 * i + 1;
        if j1 >= |items| {
          break;
        }
        var j := j1;
        if j1 + 1 < |items| && Less(j1 + 1, j1) {
          j := j1 + 1;
        }
        if !Less(j, i) {
          break;
        }
        ghost var s := items;
        forall c: nat | 0 < c < |s| && Parent(c) == i ensures s[j].score <= s[c].score {
          assert c == j1 || c == j1 + 1;
        }
        items := Swapped(items, i, j);
        DownStep(s, i, j);
        i := j;
      }
      moved := i > j0;
    }

    method Push(x: Scored)
      requires IsHeap(items)
      modifies this
      ensures IsHeap(items) && multiset(items) == multiset(old(items)) + multiset{x}
    {
      items := items + [x];
      forall i: nat | 0 < i < |items| - 1 ensures Above(items, i) {
        assert Above(old(items), i);
      }
      Up(|items| - 1);
    }

    method Pop() returns (x: Scored)
      requires IsHeap(items) && items != []
      modifies this
      ensures x == old(items)[0]
      ensures IsHeap(items) && multiset(old(items)) == multiset(items) + multiset{x}
      ensures |items| == |old(items)| - 1
    {
      var n := |items| - 1;
      items := Swapped(items, 0, n);
      ghost var all := items;
      x := items[n];
      items := items[..n];
      assert all == items + [x];
      if n > 0 {
        forall i: nat | 0 < i < n && Parent(i) != 0 ensures Above(items, i) {
          assert Above(old(items), i);
        }
        var moved := Down(0);
        assert |multiset(items)| == n;
      }
    }

    /** Replaces the root and restores the heap, as Search does with heap.Fix(h, 0). */
    method ReplaceRoot(x: Scored)
      requires IsHeap(items) && items != []
      modifies this
      ensures IsHeap(items)
      ensures multiset(items) == multiset(old(items)) - multiset{old(items)[0]} + multiset{x}
    {
      items := items[0 := x];
      forall i: nat | 0 < i < |items| && Parent(i) != 0 ensures Above(items, i) {
        assert Above(old(items), i);
      }
      var moved := Down(0);
      if !moved {
        Up(0);
      }
    }
  }

  lemma UpStep(s: seq<Scored>, i: nat, j: nat)
    requires HeapButUp(s, j) && 0 < j && i == Parent(j) && s[j].score < s[i].score
    ensures HeapButUp(Swapped(s, i, j), i)
  {
    var r := Swapped(s, i, j);
    forall k: nat | 0 < k < |r| && k != i ensures Above(r, k) {
      if k != j {
        assert Above(s, k);
      }
    }
    forall c: nat | 0 < i && 0 < c < |r| && Parent(c) == i ensures r[Parent(i)].score <= r[c].score {
      assert Above(s, i);
      if c != j {
        assert Above(s, c);
      }
    }
  }

  lemma DownStep(s: seq<Scored>, i: nat, j: nat)
    requires HeapButDown(s, i) && i < j < |s| && Parent(j) == i && s[j].score < s[i].score
    requires forall c: nat :: 0 < c < |s| && Parent(c) == i ==> s[j].score <= s[c].score
    ensures HeapButDown(Swapped(s, i, j), j)
  {
    var r := Swapped(s, i, j);
    forall k: nat | 0 < k < |r| && Parent(k) != j ensures Above(r, k) {
      if k == i || Parent(k) == i {
        if Parent(k) != i {
          assert s[Parent(i)].score <= s[j].score;
        }
      } else {
        assert Above(s, k);
      }
    }
    forall c: nat | 0 < c < |r| && Parent(c) == j ensures r[Parent(j)].score <= r[c].score {
      assert Above(s, c);
    }
  }
}
