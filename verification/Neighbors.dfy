/**
 Depth-bounded reachability in the symbol graph (internal/storage/sqlite/graph.go, Neighbors): a recursive
 query whose rows are pairs of symbol and depth, each kept once.
 */
module GraphNeighbors {
  import opened SymbolGraph

  /** Along the edges, or against them. */
  datatype Way = Outgoing | Incoming

  datatype Found = Found(ids: seq<Id>) | InvalidDirection

  function Next(g: Graph, way: Way, x: Id): set<Id> {
    match way
    case Outgoing => set k | k in g.edges && k.src == x :: k.dst
    case Incoming => set k | k in g.edges && k.dst == x :: k.src
  }

  // ---- Walks ----

  ghost predicate IsWalk(g: Graph, way: Way, p: seq<Id>) {
    p != [] && forall i :: 0 < i < |p| ==> p[i] in Next(g, way, p[i - 1])
  }

  ghost predicate Joins(g: Graph, way: Way, p: seq<Id>, x: Id, y: Id) {
    IsWalk(g, way, p) && p[0] == x && p[|p| - 1] == y
  }

  /** Some walk of one to `depth` edges leads from `x` to `y`. */
  ghost predicate Reaches(g: Graph, way: Way, x: Id, y: Id, depth: nat) {
    exists p :: Joins(g, way, p, x, y) && 1 <= |p| - 1 <= depth
  }

  function Reversed(p: seq<Id>): (r: seq<Id>)
    ensures |r| == |p| && forall i :: 0 <= i < |p| ==> r[i] == p[|p| - 1 - i]
  {
    seq(|p|, i requires 0 <= i < |p| => p[|p| - 1 - i])
  }

  function Opposite(way: Way): Way {
    if way == Outgoing then Incoming else Outgoing
  }

  lemma ReversedWalk(g: Graph, way: Way, p: seq<Id>, x: Id, y: Id)
    requires Joins(g, way, p, x, y)
    ensures Joins(g, Opposite(way), Reversed(p), y, x)
  {
    var r := Reversed(p);
    forall i | 0 < i < |r| ensures r[i] in Next(g, Opposite(way), r[i - 1]) {
      assert p[|p| - i] in Next(g, way, p[|p| - 1 - i]);
    }
  }

  /** `y` is found going out from `x` exactly when `x` is found coming in from `y`. */
  lemma IncomingIsOutgoingReversed(g: Graph, x: Id, y: Id, depth: nat)
    ensures Reaches(g, Outgoing, x, y, depth) <==> Reaches(g, Incoming, y, x, depth)
  {
    if Reaches(g, Outgoing, x, y, depth) {
      var p :| Joins(g, Outgoing, p, x, y) && 1 <= |p| - 1 <= depth;
      ReversedWalk(g, Outgoing, p, x, y);
      assert |Reversed(p)| == |p|;
    }
    if Reaches(g, Incoming, y, x, depth) {
      var p :| Joins(g, Incoming, p, y, x) && 1 <= |p| - 1 <= depth;
      ReversedWalk(g, Incoming, p, y, x);
      assert |Reversed(p)| == |p|;
    }
  }

  /** A walk of one edge is an edge of the table: outgoing from its source, incoming from its target. */
  lemma OneStepIsAnEdge(g: Graph, x: Id, y: Id)
    ensures Reaches(g, Outgoing, x, y, 1) <==> exists k :: k in g.edges && k.src == x && k.dst == y
    ensures Reaches(g, Incoming, x, y, 1) <==> exists k :: k in g.edges && k.src == y && k.dst == x
  {
    OneStep(g, Outgoing, x, y);
    OneStep(g, Incoming, x, y);
  }

  lemma OneStep(g: Graph, way: Way, x: Id, y: Id)
    ensures Reaches(g, way, x, y, 1) <==> y in Next(g, way, x)
  {
    if Reaches(g, way, x, y, 1) {
      var p :| Joins(g, way, p, x, y) && 1 <= |p| - 1 <= 1;
    }
    if y in Next(g, way, x) {
      var p := [x, y];
      assert Joins(g, way, p, x, y) && 1 <= |p| - 1 <= 1;
    }
  }

  // ---- Layers: what walks of one length reach ----

  function Layer(g: Graph, way: Way, x: Id, n: nat): set<Id> {
    if n == 0 then {x}
    else set z, y | z in Layer(g, way, x, n - 1) && y in Next(g, way, z) :: y
  }

  lemma {:induction false} LayerHasWalk(g: Graph, way: Way, x: Id, n: nat, y: Id) returns (p: seq<Id>)
    requires y in Layer(g, way, x, n)
    ensures Joins(g, way, p, x, y) && |p| == n + 1
  {
    if n == 0 {
      p := [x];
    } else {
      var z :| z in Layer(g, way, x, n - 1) && y in Next(g, way, z);
      var q := LayerHasWalk(g, way, x, n - 1, z);
      p := q + [y];
      forall i | 0 < i < |p| ensures p[i] in Next(g, way, p[i - 1]) {
        assert i < |q| ==> q[i] in Next(g, way, q[i - 1]);
      }
    }
  }

  lemma {:induction false} WalkInLayer(g: Graph, way: Way, p: seq<Id>, x: Id, y: Id)
    requires Joins(g, way, p, x, y)
    ensures y in Layer(g, way, x, |p| - 1)
    decreases |p|
  {
    if |p| > 1 {
      var q := p[..|p| - 1];
      WalkInLayer(g, way, q, x, q[|q| - 1]);
      assert y in Next(g, way, q[|q| - 1]);
    }
  }

  lemma ReachesByLayer(g: Graph, way: Way, x: Id, y: Id, depth: nat)
    ensures Reaches(g, way, x, y, depth) <==> exists n :: 1 <= n <= depth && y in Layer(g, way, x, n)
  {
    if Reaches(g, way, x, y, depth) {
      var p :| Joins(g, way, p, x, y) && 1 <= |p| - 1 <= depth;
      WalkInLayer(g, way, p, x, y);
    }
    if n :| 1 <= n <= depth && y in Layer(g, way, x, n) {
      var p := LayerHasWalk(g, way, x, n, y);
    }
  }

  // ---- The recursive query ----

  datatype Row = Row(id: Id, depth: nat)

  ghost predicate Distinct<T>(s: seq<T>) {
    forall i, j :: 0 <= i < j < |s| ==> s[i] != s[j]
  }

  function Ends(g: Graph, way: Way): set<Id> {
    set k | k in g.edges :: if way == Outgoing then k.dst else k.src
  }

  /** Every row there can be: UNION keeps the rows in a finite set, so the recursion ends. */
  function Universe(g: Graph, way: Way, maxDepth: nat): set<Row> {
    if maxDepth == 0 then {}
    else Universe(g, way, maxDepth - 1) + set y | y in Ends(g, way) :: Row(y, maxDepth)
  }

  lemma {:induction false} NextInUniverse(g: Graph, way: Way, x: Id, y: Id, d: nat, maxDepth: nat)
    requires y in Next(g, way, x) && 1 <= d <= maxDepth
    ensures Row(y, d) in Universe(g, way, maxDepth)
  {
    if d < maxDepth {
      NextInUniverse(g, way, x, y, d, maxDepth - 1);
    } else {
      assert y in Ends(g, way);
    }
  }

  /** Rows are sound: each is a real walk's end and length. */
  ghost predicate RowsSound(g: Graph, way: Way, x: Id, maxDepth: nat, rows: seq<Row>) {
    forall r :: r in rows ==> 1 <= r.depth <= maxDepth && r.id in Layer(g, way, x, r.depth)
  }

  ghost predicate RowsFrom(g: Graph, way: Way, z: Id, depth: nat, rows: seq<Row>) {
    forall y :: y in Next(g, way, z) ==> Row(y, depth) in rows
  }

  /** Rows already taken from the queue have their successors among the rows. */
  ghost predicate RowsClosed(g: Graph, way: Way, maxDepth: nat, rows: seq<Row>, head: nat)
    requires head <= |rows|
  {
    forall i :: 0 <= i < head && rows[i].depth < maxDepth ==> RowsFrom(g, way, rows[i].id, rows[i].depth + 1, rows)
  }

  /** When the queue is empty nothing is missing. */
  lemma {:induction false} AllRowsFound(g: Graph, way: Way, x: Id, maxDepth: nat, rows: seq<Row>, n: nat, y: Id)
    requires RowsFrom(g, way, x, 1, rows) && RowsClosed(g, way, maxDepth, rows, |rows|)
    requires 1 <= n <= maxDepth && y in Layer(g, way, x, n)
    ensures Row(y, n) in rows
  {
    var z :| z in Layer(g, way, x, n - 1) && y in Next(g, way, z);
    if n > 1 {
      AllRowsFound(g, way, x, maxDepth, rows, n - 1, z);
      var i :| 0 <= i < |rows| && rows[i] == Row(z, n - 1);
      assert RowsFrom(g, way, rows[i].id, rows[i].depth + 1, rows);
    }
  }

  lemma NoRowMissing(g: Graph, way: Way, x: Id, maxDepth: nat, rows: seq<Row>)
    requires RowsFrom(g, way, x, 1, rows) && RowsClosed(g, way, maxDepth, rows, |rows|)
    ensures forall r: Row :: 1 <= r.depth <= maxDepth && r.id in Layer(g, way, x, r.depth) ==> r in rows
  {
    forall r: Row | 1 <= r.depth <= maxDepth && r.id in Layer(g, way, x, r.depth) ensures r in rows {
      AllRowsFound(g, way, x, maxDepth, rows, r.depth, r.id);
    }
  }

  /** Adds the rows for `z`'s neighbours, each once. */
  method AddRows(g: Graph, way: Way, z: Id, depth: nat, rows: seq<Row>) returns (more: seq<Row>)
    requires Distinct(rows)
    ensures rows <= more && Distinct(more) && RowsFrom(g, way, z, depth, more)
    ensures forall r :: r in more ==> r in rows || (r.depth == depth && r.id in Next(g, way, z))
  {
    more := rows;
    var rest := Next(g, way, z);
    while exists y :: y in rest
      invariant rows <= more && Distinct(more) && rest <= Next(g, way, z)
      invariant forall y :: y in Next(g, way, z) && y !in rest ==> Row(y, depth) in more
      invariant forall r :: r in more ==> r in rows || (r.depth == depth && r.id in Next(g, way, z))
      decreases rest
    {
      var y :| y in rest;
      rest := rest - {y};
      if Row(y, depth) !in more {
        more := more + [Row(y, depth)];
      }
      assert Row(y, depth) in more;
    }
  }

  lemma {:induction false} DistinctFits(rows: seq<Row>, all: set<Row>)
    requires Distinct(rows) && forall r :: r in rows ==> r in all
    ensures |rows| <= |all|
    decreases |rows|
  {
    if rows != [] {
      var last := rows[|rows| - 1];
      DistinctFits(rows[..|rows| - 1], all - {last});
    }
  }

  lemma NewRowsSound(g: Graph, way: Way, x: Id, maxDepth: nat, rows: seq<Row>, z: Id, depth: nat, more: seq<Row>)
    requires RowsSound(g, way, x, maxDepth, rows) && depth < maxDepth && z in Layer(g, way, x, depth)
    requires forall r :: r in more ==> r in rows || (r.depth == depth + 1 && r.id in Next(g, way, z))
    ensures RowsSound(g, way, x, maxDepth, more)
  {}

  lemma StaysClosed(g: Graph, way: Way, maxDepth: nat, rows: seq<Row>, head: nat, more: seq<Row>)
    requires head <= |rows| && rows <= more && RowsClosed(g, way, maxDepth, rows, head)
    ensures RowsClosed(g, way, maxDepth, more, head)
  {
    forall i | 0 <= i < head && more[i].depth < maxDepth
      ensures RowsFrom(g, way, more[i].id, more[i].depth + 1, more)
    {
      assert more[i] == rows[i] && RowsFrom(g, way, rows[i].id, rows[i].depth + 1, rows);
      assert forall r :: r in rows ==> r in more;
    }
  }

  lemma {:induction false} RowsInUniverse(g: Graph, way: Way, x: Id, maxDepth: nat, rows: seq<Row>)
    requires RowsSound(g, way, x, maxDepth, rows) && Distinct(rows)
    ensures |rows| <= |Universe(g, way, maxDepth)|
  {
    forall r | r in rows ensures r in Universe(g, way, maxDepth) {
      var z :| z in Layer(g, way, x, r.depth - 1) && r.id in Next(g, way, z);
      NextInUniverse(g, way, z, r.id, r.depth, maxDepth);
    }
    DistinctFits(rows, Universe(g, way, maxDepth));
  }

  /** Takes one row from the queue. */
  method Visit(g: Graph, way: Way, x: Id, maxDepth: nat, rows: seq<Row>, head: nat) returns (more: seq<Row>)
    requires head < |rows| && Distinct(rows) && RowsSound(g, way, x, maxDepth, rows)
    requires RowsClosed(g, way, maxDepth, rows, head)
    ensures rows <= more && Distinct(more) && RowsSound(g, way, x, maxDepth, more)
    ensures RowsClosed(g, way, maxDepth, more, head + 1) && |more| <= |Universe(g, way, maxDepth)|
  {
    var r := rows[head];
    assert r in rows;
    more := rows;
    if r.depth < maxDepth {
      more := AddRows(g, way, r.id, r.depth + 1, rows);
      NewRowsSound(g, way, x, maxDepth, rows, r.id, r.depth, more);
    }
    RowsInUniverse(g, way, x, maxDepth, more);
    StaysClosed(g, way, maxDepth, rows, head, more);
    assert more[head] == r;
  }

  lemma StaysFrom(g: Graph, way: Way, x: Id, rows: seq<Row>, more: seq<Row>)
    requires rows <= more && RowsFrom(g, way, x, 1, rows)
    ensures RowsFrom(g, way, x, 1, more)
  {
    assert forall r :: r in rows ==> r in more;
  }

  /** The rows of the recursive query, in the order they are found. */
  method RecursiveRows(g: Graph, way: Way, x: Id, maxDepth: nat) returns (rows: seq<Row>)
    requires maxDepth >= 1
    ensures Distinct(rows)
    ensures forall r :: r in rows <==> 1 <= r.depth <= maxDepth && r.id in Layer(g, way, x, r.depth)
  {
    rows := AddRows(g, way, x, 1, []);
    assert x in Layer(g, way, x, 0);
    NewRowsSound(g, way, x, maxDepth, [], x, 0, rows);
    RowsInUniverse(g, way, x, maxDepth, rows);
    var head := 0;
    while head < |rows|
      invariant 0 <= head <= |rows| <= |Universe(g, way, maxDepth)|
      invariant Distinct(rows) && RowsSound(g, way, x, maxDepth, rows)
      invariant RowsFrom(g, way, x, 1, rows) && RowsClosed(g, way, maxDepth, rows, head)
      decreases |Universe(g, way, maxDepth)| - |rows|, |rows| - head
    {
      ghost var before := rows;
      rows := Visit(g, way, x, maxDepth, rows, head);
      StaysFrom(g, way, x, before, rows);
      head := head + 1;
    }
    NoRowMissing(g, way, x, maxDepth, rows);
  }

  /** neighborsCTE: SELECT DISTINCT over the rows. */
  method NeighborsCTE(g: Graph, way: Way, x: Id, maxDepth: nat) returns (ids: seq<Id>)
    requires maxDepth >= 1
    ensures Distinct(ids) && forall y :: y in ids <==> Reaches(g, way, x, y, maxDepth)
  {
    var rows := RecursiveRows(g, way, x, maxDepth);
    ids := [];
    for i := 0 to |rows|
      invariant Distinct(ids)
      invariant forall y :: y in ids <==> exists j :: 0 <= j < i && rows[j].id == y
    {
      if rows[i].id !in ids {
        ids := ids + [rows[i].id];
      }
    }
    forall y ensures y in ids <==> Reaches(g, way, x, y, maxDepth) {
      ReachesByLayer(g, way, x, y, maxDepth);
      if y in ids {
        var j :| 0 <= j < |rows| && rows[j].id == y;
        assert rows[j] in rows;
        assert 1 <= rows[j].depth <= maxDepth && y in Layer(g, way, x, rows[j].depth);
      }
      if n: nat :| 1 <= n <= maxDepth && y in Layer(g, way, x, n) {
        var r := Row(y, n);
        assert 1 <= r.depth <= maxDepth && r.id in Layer(g, way, x, r.depth);
        var j :| 0 <= j < |rows| && rows[j] == r;
      }
    }
  }

  function Clamped(depth: int): (d: nat)
    ensures 1 <= d <= 10 && (depth >= d || d == 1) && (depth <= d || d == 10)
  {
    if depth < 1 then 1 else if depth > 10 then 10 else depth
  }

  /** The symbols within reach, none twice; an unknown direction is an error. */
  method Neighbors(g: Graph, x: Id, maxDepth: int, direction: string) returns (found: Found)
    ensures found == InvalidDirection <==> direction !in ["outgoing", "incoming", "both"]
    ensures found.Found? ==> Distinct(found.ids)
    ensures found.Found? ==> forall y :: y in found.ids <==>
              || (direction != "incoming" && Reaches(g, Outgoing, x, y, Clamped(maxDepth)))
              || (direction != "outgoing" && Reaches(g, Incoming, x, y, Clamped(maxDepth)))
  {
    var depth := Clamped(maxDepth);
    if direction == "outgoing" {
      var ids := NeighborsCTE(g, Outgoing, x, depth);
      return Found(ids);
    }
    if direction == "incoming" {
      var ids := NeighborsCTE(g, Incoming, x, depth);
      return Found(ids);
    }
    if direction == "both" {
      var out := NeighborsCTE(g, Outgoing, x, depth);
      var inn := NeighborsCTE(g, Incoming, x, depth);
      var ids := Deduplicated(out + inn);
      return Found(ids);
    }
    return InvalidDirection;
  }

  method Deduplicated(all: seq<Id>) returns (result: seq<Id>)
    ensures Distinct(result) && forall y :: y in result <==> y in all
  {
    result := [];
    for i := 0 to |all|
      invariant Distinct(result) && forall y :: y in result <==> y in all[..i]
    {
      assert all[..i + 1] == all[..i] + [all[i]];
      if all[i] !in result {
        result := result + [all[i]];
      }
    }
    assert all[..|all|] == all;
  }
}
