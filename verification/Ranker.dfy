/**
 The two structural scorers (internal/core/ranker.go): one asks the store for each candidate in turn,
 the other asks in three batches. Both are proved to compute `StructuralScores`.

 Store calls are taken to succeed, except that a neighbour query may fail, which both scorers skip.
 The batch queries are those of internal/storage/sqlite/metadata.go, 500 ids at a time.
 */
module Ranking {
  import opened Options
  import opened Paging

  const BATCH_LIMIT: nat := 500

  datatype ChunkRow = ChunkRow(symbolName: string, fileId: int)

  datatype SymbolRow = SymbolRow(name: string, fileId: int, chunkId: int)

  /** `byName` is the order in which a query by name returns rows; `neighbors` is two hops both ways. */
  datatype Store = Store(
    chunks: map<int, ChunkRow>,
    symbols: map<int, SymbolRow>,
    byName: string -> seq<int>,
    neighbors: int -> Option<seq<int>>
  )

  ghost predicate NamesInIdOrder(st: Store) {
    forall name: string ::
      && (forall i, j :: 0 <= i < j < |st.byName(name)| ==> st.byName(name)[i] < st.byName(name)[j])
      && (forall id :: id in st.byName(name) <==> id in st.symbols && st.symbols[id].name == name)
  }

  /** Row ids start at 1, names come in id order. */
  ghost predicate WellFormed(st: Store) {
    && NamesInIdOrder(st)
    && 0 !in st.symbols && 0 !in st.chunks
    && forall id :: id in st.symbols ==> st.symbols[id].chunkId != 0
  }

  // ---- What both compute ----

  ghost predicate Named(st: Store, chunk: int, sym: int) {
    && chunk in st.chunks && st.chunks[chunk].symbolName != ""
    && sym in st.symbols && st.symbols[sym].name == st.chunks[chunk].symbolName
  }

  ghost predicate SameFile(st: Store, chunk: int, sym: int)
    requires Named(st, chunk, sym)
  {
    st.symbols[sym].fileId == st.chunks[chunk].fileId
  }

  /** Same-file symbols come before others, lower ids before higher ones. */
  ghost predicate Preferred(st: Store, chunk: int, a: int, b: int)
    requires Named(st, chunk, a) && Named(st, chunk, b)
  {
    || (SameFile(st, chunk, a) && !SameFile(st, chunk, b))
    || ((SameFile(st, chunk, a) <==> SameFile(st, chunk, b)) && a <= b)
  }

  ghost predicate IsSymbolOf(st: Store, chunk: int, sym: int) {
    Named(st, chunk, sym) && forall other :: Named(st, chunk, other) ==> Preferred(st, chunk, sym, other)
  }

  /** How many listed symbols lie in candidate chunks other than `self`. */
  function Overlap(st: Store, neighbors: seq<int>, candidates: set<int>, self: int): nat {
    if neighbors == [] then 0
    else
      var last := neighbors[|neighbors| - 1];
      Overlap(st, neighbors[..|neighbors| - 1], candidates, self)
      + if last in st.symbols && st.symbols[last].chunkId in candidates
        && st.symbols[last].chunkId != self then 1 else 0
  }

  function Ratio(overlap: nat): real {
    overlap as real / (overlap + 1) as real
  }

  /** The score of a candidate: none without a symbol, neighbours or overlap. */
  ghost predicate HasScore(st: Store, candidates: set<int>, id: int, score: real) {
    exists sym ::
      && IsSymbolOf(st, id, sym) && st.neighbors(sym).Some?
      && Overlap(st, st.neighbors(sym).value, candidates, id) > 0
      && score == Ratio(Overlap(st, st.neighbors(sym).value, candidates, id))
  }

  /** `scores` holds the score of each listed candidate that has one, and nothing else. */
  ghost predicate ScoresOf(st: Store, candidates: set<int>, listed: seq<int>, scores: map<int, real>) {
    && (forall id :: id in scores ==> id in listed && HasScore(st, candidates, id, scores[id]))
    && forall id, score :: id in listed && HasScore(st, candidates, id, score) ==> id in scores && scores[id] == score
  }

  /** The listed places whose symbol lies in another candidate's chunk. */
  function Hits(st: Store, neighbors: seq<int>, candidates: set<int>, self: int): set<int> {
    set i | 0 <= i < |neighbors|
      && neighbors[i] in st.symbols && st.symbols[neighbors[i]].chunkId in candidates - {self}
  }

  lemma {:induction false} OverlapCounts(st: Store, neighbors: seq<int>, candidates: set<int>, self: int)
    ensures Overlap(st, neighbors, candidates, self) == |Hits(st, neighbors, candidates, self)|
  {
    if neighbors != [] {
      var n := |neighbors| - 1;
      OverlapCounts(st, neighbors[..n], candidates, self);
      var before, after := Hits(st, neighbors[..n], candidates, self), Hits(st, neighbors, candidates, self);
      assert after == before || after == before + {n};
      assert n !in before;
    }
  }

  /** A score lies strictly between nothing and one, and more hits always score more. */
  lemma ScoresGrow(few: nat, many: nat)
    requires 0 < few < many
    ensures 0.0 < Ratio(few) < Ratio(many) < 1.0
  {
    FractionBelow(few as real, few as real + 1.0, many as real, many as real + 1.0);
  }

  lemma FractionBelow(a: real, b: real, c: real, d: real)
    requires 0.0 < a < c && b == a + 1.0 && d == c + 1.0
    ensures 0.0 < a / b < c / d < 1.0
  {
    assert a / b == 1.0 - 1.0 / b;
    assert c / d == 1.0 - 1.0 / d;
  }

  /** `score` is the share of `hits` in one more than that. */
  predicate IsShare(score: real, hits: nat) {
    hits > 0 && score * (hits + 1) as real == hits as real
  }

  /** A candidate's score in terms of the hits alone. */
  lemma ScoreByHits(st: Store, candidates: set<int>, id: int, score: real)
    ensures HasScore(st, candidates, id, score) <==>
            exists sym ::
              IsSymbolOf(st, id, sym) && st.neighbors(sym).Some?
              && IsShare(score, |Hits(st, st.neighbors(sym).value, candidates, id)|)
  {
    forall sym | IsSymbolOf(st, id, sym) && st.neighbors(sym).Some?
      ensures Overlap(st, st.neighbors(sym).value, candidates, id) ==
              |Hits(st, st.neighbors(sym).value, candidates, id)|
      ensures IsShare(score, |Hits(st, st.neighbors(sym).value, candidates, id)|) <==>
              Overlap(st, st.neighbors(sym).value, candidates, id) > 0
              && score == Ratio(Overlap(st, st.neighbors(sym).value, candidates, id))
    {
      OverlapCounts(st, st.neighbors(sym).value, candidates, id);
      ShareIsRatio(score, |Hits(st, st.neighbors(sym).value, candidates, id)|);
    }
  }

  lemma ShareIsRatio(score: real, hits: nat)
    ensures IsShare(score, hits) <==> hits > 0 && score == Ratio(hits)
  {
    var d := (hits + 1) as real;
    assert Ratio(hits) * d == hits as real;
    if score * d == hits as real {
      assert score == hits as real / d;
    }
  }

  lemma SymbolUnique(st: Store, chunk: int, a: int, b: int)
    requires IsSymbolOf(st, chunk, a) && IsSymbolOf(st, chunk, b)
    ensures a == b
  {}

  /** The two scorers return the same map, for every store and candidate list. */
  lemma ScoresUnique(st: Store, candidates: set<int>, listed: seq<int>, a: map<int, real>, b: map<int, real>)
    requires ScoresOf(st, candidates, listed, a) && ScoresOf(st, candidates, listed, b)
    ensures a == b
  {
    forall id ensures id in a <==> id in b {
      if id in a {
        assert HasScore(st, candidates, id, a[id]);
      }
      if id in b {
        assert HasScore(st, candidates, id, b[id]);
      }
    }
    forall id | id in a ensures a[id] == b[id] {
      assert HasScore(st, candidates, id, a[id]);
    }
  }

  lemma AddScore(st: Store, candidates: set<int>, listed: seq<int>, scores: map<int, real>, id: int, sym: int)
    requires ScoresOf(st, candidates, listed, scores)
    requires IsSymbolOf(st, id, sym)
    ensures ScoresOf(st, candidates, listed + [id],
              if st.neighbors(sym).Some? && Overlap(st, st.neighbors(sym).value, candidates, id) > 0
              then scores[id := Ratio(Overlap(st, st.neighbors(sym).value, candidates, id))]
              else scores)
  {
    forall score | HasScore(st, candidates, id, score)
      ensures st.neighbors(sym).Some? && Overlap(st, st.neighbors(sym).value, candidates, id) > 0
      ensures score == Ratio(Overlap(st, st.neighbors(sym).value, candidates, id))
    {
      var s :| IsSymbolOf(st, id, s) && st.neighbors(s).Some?
        && Overlap(st, st.neighbors(s).value, candidates, id) > 0
        && score == Ratio(Overlap(st, st.neighbors(s).value, candidates, id));
      SymbolUnique(st, id, s, sym);
    }
  }

  lemma NoScore(st: Store, candidates: set<int>, listed: seq<int>, scores: map<int, real>, id: int)
    requires ScoresOf(st, candidates, listed, scores)
    requires forall sym :: !IsSymbolOf(st, id, sym)
    ensures ScoresOf(st, candidates, listed + [id], scores)
  {}

  // ---- One candidate at a time ----

  method LookupSymbolForChunk(st: Store, chunkId: int) returns (sym: int)
    requires WellFormed(st)
    ensures sym == 0 <==> forall s :: !IsSymbolOf(st, chunkId, s)
    ensures sym != 0 ==> IsSymbolOf(st, chunkId, sym)
  {
    if chunkId !in st.chunks || st.chunks[chunkId].symbolName == "" {
      return 0;
    }
    var chunk := st.chunks[chunkId];
    var syms := st.byName(chunk.symbolName);
    NamedIsListed(st, chunkId);
    if |syms| == 0 {
      return 0;
    }
    forall k | 0 <= k < |syms| ensures Named(st, chunkId, syms[k]) {
      assert syms[k] in syms;
    }
    for i := 0 to |syms|
      invariant forall k :: 0 <= k < i ==> st.symbols[syms[k]].fileId != chunk.fileId
    {
      if st.symbols[syms[i]].fileId == chunk.fileId {
        assert IsSymbolOf(st, chunkId, syms[i]);
        return syms[i];
      }
    }
    assert IsSymbolOf(st, chunkId, syms[0]);
    return syms[0];
  }

  lemma NamedIsListed(st: Store, chunk: int)
    requires WellFormed(st) && chunk in st.chunks && st.chunks[chunk].symbolName != ""
    ensures forall s :: Named(st, chunk, s) <==> s in st.byName(st.chunks[chunk].symbolName)
  {}

  method LookupChunkIdsForSymbols(st: Store, symbolIds: seq<int>) returns (chunkIds: seq<int>)
    ensures forall cands: set<int>, self :: Overlap(st, symbolIds, cands, self) == CountIn(chunkIds, cands, self)
  {
    chunkIds := [];
    for i := 0 to |symbolIds|
      invariant forall cands: set<int>, self :: Overlap(st, symbolIds[..i], cands, self) == CountIn(chunkIds, cands,
          self)
    {
      assert symbolIds[..i + 1][..i] == symbolIds[..i];
      if symbolIds[i] in st.symbols {
        assert (chunkIds + [st.symbols[symbolIds[i]].chunkId])[..|chunkIds|] == chunkIds;
        chunkIds := chunkIds + [st.symbols[symbolIds[i]].chunkId];
      }
    }
    assert symbolIds[..|symbolIds|] == symbolIds;
  }

  function CountIn(chunkIds: seq<int>, candidates: set<int>, self: int): nat {
    if chunkIds == [] then 0
    else
      var last := chunkIds[|chunkIds| - 1];
      CountIn(chunkIds[..|chunkIds| - 1], candidates, self) + if last in candidates && last != self then 1 else 0
  }

  method ComputeStructuralScoresLegacy(st: Store, candidates: seq<int>) returns (scores: map<int, real>)
    requires WellFormed(st)
    ensures ScoresOf(st, Elements(candidates), candidates, scores)
  {
    scores := map[];
    var candidateChunks := Elements(candidates);
    for i := 0 to |candidates|
      invariant ScoresOf(st, candidateChunks, candidates[..i], scores)
    {
      var id := candidates[i];
      assert candidates[..i + 1] == candidates[..i] + [id];
      if id == 0 {
        NoScore(st, candidateChunks, candidates[..i], scores, id);
        continue;
      }
      var symbolId := LookupSymbolForChunk(st, id);
      if symbolId == 0 {
        NoScore(st, candidateChunks, candidates[..i], scores, id);
        continue;
      }
      AddScore(st, candidateChunks, candidates[..i], scores, id, symbolId);
      var neighbors := st.neighbors(symbolId);
      if neighbors == None {
        continue;
      }
      var neighborChunks := LookupChunkIdsForSymbols(st, neighbors.value);
      var overlap := 0;
      for j := 0 to |neighborChunks|
        invariant overlap == CountIn(neighborChunks[..j], candidateChunks, id)
      {
        assert neighborChunks[..j + 1][..j] == neighborChunks[..j];
        if neighborChunks[j] in candidateChunks && neighborChunks[j] != id {
          overlap := overlap + 1;
        }
      }
      assert neighborChunks[..|neighborChunks|] == neighborChunks;
      if overlap > 0 {
        scores := scores[id := overlap as real / (overlap + 1) as real];
      }
    }
    assert candidates[..|candidates|] == candidates;
  }

  // ---- All candidates in three batches ----

  /** The rows of the join of chunks and symbols for one batch: preferred symbols first within a chunk. */
  ghost predicate IsJoin(st: Store, batch: seq<int>, rows: seq<(int, int)>) {
    && (forall c, s :: (c, s) in rows <==> c in batch && Named(st, c, s))
    && forall i, j :: 0 <= i < j < |rows| && rows[i].0 == rows[j].0 ==>
         Named(st, rows[i].0, rows[i].1) && Named(st, rows[i].0, rows[j].1)
         && Preferred(st, rows[i].0, rows[i].1, rows[j].1)
  }

  ghost predicate SymbolMapFor(st: Store, chunkIds: seq<int>, m: map<int, int>) {
    && (forall c :: c in m ==> c in chunkIds && IsSymbolOf(st, c, m[c]))
    && forall c, s :: c in chunkIds && Named(st, c, s) ==> c in m
  }

  /** The rows of one batch, read in order; the first row of each chunk wins. */
  method ReadJoin(st: Store, seen: seq<int>, batch: seq<int>, rows: seq<(int, int)>, m0: map<int, int>)
    returns (m: map<int, int>)
    requires SymbolMapFor(st, seen, m0) && IsJoin(st, batch, rows)
    ensures SymbolMapFor(st, seen + batch, m)
  {
    m := m0;
    for i := 0 to |rows|
      invariant forall c :: c in m ==> c in seen + batch && IsSymbolOf(st, c, m[c])
      invariant forall c :: c in m0 ==> c in m
      invariant forall k :: 0 <= k < i ==> rows[k].0 in m
    {
      var (c, s) := rows[i];
      assert (c, s) in rows;
      if c !in m {
        forall other | Named(st, c, other) ensures Preferred(st, c, s, other) {
          assert (c, other) in rows;
          var j :| 0 <= j < |rows| && rows[j] == (c, other);
          assert j >= i;
        }
        m := m[c := s];
      }
    }
    forall c, s | c in seen + batch && Named(st, c, s) ensures c in m {
      if c in batch {
        assert (c, s) in rows;
      }
    }
  }

  method BatchGetSymbolIdsForChunks(st: Store, chunkIds: seq<int>, join: seq<int> -> seq<(int, int)>)
    returns (m: map<int, int>)
    requires forall batch :: IsJoin(st, batch, join(batch))
    ensures SymbolMapFor(st, chunkIds, m)
  {
    m := map[];
    var start := 0;
    while start < |chunkIds|
      invariant 0 <= start <= |chunkIds|
      invariant SymbolMapFor(st, chunkIds[..start], m)
    {
      var end := if start + BATCH_LIMIT > |chunkIds| then |chunkIds| else start + BATCH_LIMIT;
      var batch := chunkIds[start..end];
      m := ReadJoin(st, chunkIds[..start], batch, join(batch), m);
      assert chunkIds[..end] == chunkIds[..start] + batch;
      start := end;
    }
    assert chunkIds[..|chunkIds|] == chunkIds;
  }

  method BatchNeighbors(st: Store, symbolIds: seq<int>) returns (m: map<int, seq<int>>)
    ensures forall s :: s in m <==> s in symbolIds && st.neighbors(s).Some?
    ensures forall s :: s in m ==> st.neighbors(s) == Some(m[s])
  {
    m := map[];
    for i := 0 to |symbolIds|
      invariant forall s :: s in m <==> s in symbolIds[..i] && st.neighbors(s).Some?
      invariant forall s :: s in m ==> st.neighbors(s) == Some(m[s])
    {
      assert symbolIds[..i + 1] == symbolIds[..i] + [symbolIds[i]];
      var neighbors := st.neighbors(symbolIds[i]);
      if neighbors.Some? {
        m := m[symbolIds[i] := neighbors.value];
      }
    }
    assert symbolIds[..|symbolIds|] == symbolIds;
  }

  method BatchGetChunkIdsForSymbols(st: Store, symbolIds: seq<int>) returns (m: map<int, int>)
    ensures forall s :: s in m <==> s in symbolIds && s in st.symbols
    ensures forall s :: s in m ==> m[s] == st.symbols[s].chunkId
  {
    m := map[];
    var start := 0;
    while start < |symbolIds|
      invariant 0 <= start <= |symbolIds|
      invariant forall s :: s in m <==> s in symbolIds[..start] && s in st.symbols
      invariant forall s :: s in m ==> m[s] == st.symbols[s].chunkId
    {
      var end := if start + BATCH_LIMIT > |symbolIds| then |symbolIds| else start + BATCH_LIMIT;
      var batch := Elements(symbolIds[start..end]);
      assert symbolIds[..end] == symbolIds[..start] + symbolIds[start..end];
      m := m + map s | s in batch && s in st.symbols :: st.symbols[s].chunkId;
      start := end;
    }
    assert symbolIds[..|symbolIds|] == symbolIds;
  }

  method ComputeStructuralScoresBatch(st: Store, candidates: seq<int>, join: seq<int> -> seq<(int, int)>)
    returns (scores: map<int, real>)
    requires WellFormed(st)
    requires forall batch :: IsJoin(st, batch, join(batch))
    ensures ScoresOf(st, Elements(candidates), candidates, scores)
  {
    scores := map[];
    if |candidates| == 0 {
      return;
    }
    var chunkIds := NonZero(candidates);
    var chunkSymbolMap := BatchGetSymbolIdsForChunks(st, chunkIds, join);
    var symbolIds := ListSet(set c | c in chunkSymbolMap :: chunkSymbolMap[c]);
    var neighborMap := BatchNeighbors(st, symbolIds);
    var neighborSymIds := ListSet(set s, n | s in neighborMap && n in neighborMap[s] :: n);
    var symChunkMap := BatchGetChunkIdsForSymbols(st, neighborSymIds);

    var candidateChunks := Elements(candidates);
    for i := 0 to |candidates|
      invariant ScoresOf(st, candidateChunks, candidates[..i], scores)
    {
      var id := candidates[i];
      assert candidates[..i + 1] == candidates[..i] + [id];
      if id !in chunkSymbolMap {
        assert forall s :: !Named(st, id, s);
        NoScore(st, candidateChunks, candidates[..i], scores, id);
        continue;
      }
      var symId := chunkSymbolMap[id];
      assert symId in Elements(symbolIds);
      AddScore(st, candidateChunks, candidates[..i], scores, id, symId);
      var neighbors := if symId in neighborMap then neighborMap[symId] else [];
      forall n | n in neighbors ensures n in symChunkMap <==> n in st.symbols {
        assert n in Elements(neighborSymIds);
      }
      var overlap := CountOverlap(st, neighbors, symChunkMap, candidateChunks, id);
      if overlap > 0 {
        scores := scores[id := overlap as real / (overlap + 1) as real];
      }
    }
  }

  method NonZero(candidates: seq<int>) returns (ids: seq<int>)
    ensures forall id :: id in ids <==> id in candidates && id != 0
  {
    ids := [];
    for i := 0 to |candidates|
      invariant forall id :: id in ids <==> id in candidates[..i] && id != 0
    {
      assert candidates[..i + 1] == candidates[..i] + [candidates[i]];
      if candidates[i] != 0 {
        ids := ids + [candidates[i]];
      }
    }
    assert candidates[..|candidates|] == candidates;
  }

  method CountOverlap(st: Store, neighbors: seq<int>, symChunkMap: map<int, int>, candidates: set<int>, self: int)
    returns (overlap: nat)
    requires WellFormed(st)
    requires forall n :: n in neighbors ==> (n in symChunkMap <==> n in st.symbols)
    requires forall n :: n in neighbors && n in symChunkMap ==> symChunkMap[n] == st.symbols[n].chunkId
    ensures overlap == Overlap(st, neighbors, candidates, self)
  {
    overlap := 0;
    for j := 0 to |neighbors|
      invariant overlap == Overlap(st, neighbors[..j], candidates, self)
    {
      assert neighbors[..j + 1][..j] == neighbors[..j];
      assert neighbors[j] in neighbors;
      var chunk := if neighbors[j] in symChunkMap then symChunkMap[neighbors[j]] else 0;
      if chunk != 0 && chunk in candidates && chunk != self {
        overlap := overlap + 1;
      }
    }
    assert neighbors[..|neighbors|] == neighbors;
  }

  /** Both scorers, run on the same store and candidates. */
  method BothScorersAgree(st: Store, candidates: seq<int>, join: seq<int> -> seq<(int, int)>)
    returns (legacy: map<int, real>, batched: map<int, real>)
    requires WellFormed(st)
    requires forall batch :: IsJoin(st, batch, join(batch))
    ensures legacy == batched
  {
    legacy := ComputeStructuralScoresLegacy(st, candidates);
    batched := ComputeStructuralScoresBatch(st, candidates, join);
    ScoresUnique(st, Elements(candidates), candidates, legacy, batched);
  }
}
