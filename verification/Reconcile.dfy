/**
 Repair of embedded flags after vector loss (internal/daemon/daemon.go, reconcileEmbeddedFlags and the
 choice made at the start of EmbedProject). `vectors` is the set of ids held by the vector store.
 Store calls are taken to succeed.
 */
module Reconciling {
  import EmbedLedgers
  import opened EmbedStatus
  import opened Paging

  const PAGE_SIZE: nat := 256

  /** A set flag implies a stored vector. */
  ghost predicate FlagsSound(chunks: map<int, ChunkRow>, vectors: set<int>) {
    WithFlag(chunks, true) <= vectors
  }

  /**
   Walks all flagged chunks once, in id order, and clears the flags of those without a vector.
   `visited` lists the ids it asked the vector store about.
   */
  method ReconcileEmbeddedFlags(store: Store, vectors: set<int>) returns (missing: seq<int>, ghost visited: seq<int>)
    modifies store
    ensures Ascending(visited) && Elements(visited) == Above(WithFlag(old(store.chunks), true), 0)
    ensures Elements(missing) == Elements(visited) - vectors
    ensures store.Value() == Reset(old(store.Value()), Elements(missing))
  {
    missing, visited := [], [];
    var afterId := 0;
    ghost var flagged := WithFlag(store.chunks, true);
    while true
      invariant store.Value() == old(store.Value())
      invariant Ascending(visited) && forall i :: 0 <= i < |visited| ==> visited[i] <= afterId
      invariant Above(flagged, 0) == Elements(visited) + Above(flagged, afterId)
      invariant Elements(missing) == Elements(visited) - vectors
      decreases Above(flagged, afterId)
    {
      var ids := store.GetEmbeddedChunkIds(afterId, PAGE_SIZE);
      PageCovers(flagged, afterId, PAGE_SIZE);
      if |ids| == 0 {
        break;
      }
      var lost := Absent(ids, vectors);
      ElementsAppend(visited, ids);
      ElementsAppend(missing, lost);
      missing := missing + lost;
      VisitMore(visited, ids, afterId);
      visited := visited + ids;
      afterId := ids[|ids| - 1];
      assert afterId in Elements(ids) && afterId !in Above(flagged, afterId);
    }
    if |missing| == 0 {
      NothingAffected(store.Value(), Elements(missing));
      return;
    }
    store.ResetFlags(missing);
  }

  lemma VisitMore(visited: seq<int>, ids: seq<int>, afterId: int)
    requires Ascending(visited) && Ascending(ids) && Elements(ids) <= Above(Elements(ids), afterId) && ids != []
    requires forall i :: 0 <= i < |visited| ==> visited[i] <= afterId
    ensures var more := visited + ids;
      Ascending(more) && forall i :: 0 <= i < |more| ==> more[i] <= ids[|ids| - 1]
  {
    forall i | 0 <= i < |ids| ensures ids[i] > afterId {
      assert ids[i] in Elements(ids);
    }
  }

  method Absent(ids: seq<int>, vectors: set<int>) returns (lost: seq<int>)
    ensures Elements(lost) == Elements(ids) - vectors
  {
    lost := [];
    for i := 0 to |ids|
      invariant Elements(lost) == Elements(ids[..i]) - vectors
    {
      ElementsStep(ids, i);
      if ids[i] !in vectors {
        ElementsAppend(lost, [ids[i]]);
        assert Elements([ids[i]]) == {ids[i]};
        lost := lost + [ids[i]];
      }
    }
    assert ids[..|ids|] == ids;
  }

  ghost predicate IdsPositive(db: Db) {
    forall c :: c in db.chunks ==> c > 0
  }

  /** The flags afterwards: the old ones that are backed by a vector. */
  lemma RepairedFlags(db: Db, vectors: set<int>, missing: set<int>)
    requires IdsPositive(db)
    requires missing == Above(WithFlag(db.chunks, true), 0) - vectors
    ensures WithFlag(Reset(db, missing).chunks, true) == WithFlag(db.chunks, true) * vectors
    ensures FlagsSound(Reset(db, missing).chunks, vectors)
    ensures Consistent(db) ==> Consistent(Reset(db, missing))
  {
    if Consistent(db) {
      ResetRecomputes(db, missing);
    }
    var after := Reset(db, missing).chunks;
    forall c ensures c in WithFlag(after, true) <==> c in WithFlag(db.chunks, true) * vectors {
      if c in db.chunks {
        assert c > 0;
      }
    }
  }

  // ---- The choice made before embedding ----

  /** What EmbedProject does to the database before it embeds, judging by the two counts. */
  function BeforeEmbedding(db: Db, vectors: set<int>): Db {
    var flagged := WithFlag(db.chunks, true);
    if |flagged| > 0 && |vectors| == 0 then ResetAll(db)
    else if |flagged| > 0 && |vectors| < |flagged| then Reset(db, Above(flagged, 0) - vectors)
    else db
  }

  method ReconcileBeforeEmbedding(store: Store, vectors: set<int>)
    modifies store
    ensures store.Value() == BeforeEmbedding(old(store.Value()), vectors)
  {
    var embeddedInDB := store.CountChunks(true);
    var vectorCount := |vectors|;
    if embeddedInDB > 0 && vectorCount == 0 {
      store.ResetAllFlags();
    } else if embeddedInDB > 0 && vectorCount < embeddedInDB {
      var missing, visited := ReconcileEmbeddedFlags(store, vectors);
    }
  }

  /**
   Comparing counts is not enough: afterwards every flag is backed by a vector exactly when that was so
   before, or fewer vectors than flags were counted.
   */
  lemma RepairExactly(db: Db, vectors: set<int>)
    requires IdsPositive(db)
    ensures var flagged := WithFlag(db.chunks, true);
      FlagsSound(BeforeEmbedding(db, vectors).chunks, vectors) <==>
      (FlagsSound(db.chunks, vectors) || |vectors| < |flagged|)
  {
    var flagged := WithFlag(db.chunks, true);
    if |flagged| > 0 && |vectors| == 0 {
      assert WithFlag(ResetAll(db).chunks, true) == {};
    } else if |flagged| > 0 && |vectors| < |flagged| {
      RepairedFlags(db, vectors, Above(flagged, 0) - vectors);
    }
  }

  /** One flagged chunk without a vector and one stray vector: the counts agree and nothing is repaired. */
  lemma StrayVectorHidesLoss()
    ensures var db := Db(map[1 := ChunkRow(7, true)], map[7 := Complete]);
      && Consistent(db)
      && BeforeEmbedding(db, {2}) == db
      && !FlagsSound(db.chunks, {2})
  {
    var db := Db(map[1 := ChunkRow(7, true)], map[7 := Complete]);
    assert WithFlag(db.chunks, true) == {1};
    assert 1 in Flagged(db.chunks, 7, true);
    assert Flagged(db.chunks, 7, false) == {};
  }

  lemma CardinalityMonotone(a: set<int>, b: set<int>)
    requires a <= b
    ensures |a| <= |b| && (a != b ==> |a| < |b|)
    decreases |b|
  {
    if a != b {
      NonEmpty(b - a);
      assert b == a + (b - a);
      var x :| x in b - a;
      CardinalityMonotone(a, b - {x});
    }
  }

  /** Without stray vectors the counts do find every loss: what remains flagged is what has a vector. */
  lemma RepairCompleteWithoutStrays(db: Db, vectors: set<int>)
    requires IdsPositive(db) && vectors <= WithFlag(db.chunks, true)
    ensures WithFlag(BeforeEmbedding(db, vectors).chunks, true) == vectors
    ensures Consistent(db) ==> Consistent(BeforeEmbedding(db, vectors))
  {
    var flagged := WithFlag(db.chunks, true);
    CardinalityMonotone(vectors, flagged);
    if |flagged| > 0 && |vectors| == 0 {
      assert WithFlag(ResetAll(db).chunks, true) == {};
      ResetAllRecomputes(db);
    } else if |flagged| > 0 && |vectors| < |flagged| {
      RepairedFlags(db, vectors, Above(flagged, 0) - vectors);
      assert flagged * vectors == vectors;
    }
  }

  lemma BeforeEmbeddingKeepsChunks(db: Db, vectors: set<int>)
    ensures BeforeEmbedding(db, vectors).chunks.Keys == db.chunks.Keys
  {}

  lemma FlagsPartition(chunks: map<int, ChunkRow>)
    ensures WithFlag(chunks, false) == chunks.Keys - WithFlag(chunks, true)
    ensures chunks.Keys == WithFlag(chunks, true) + WithFlag(chunks, false)
  {}

  lemma Remainders(chunks: set<int>, flagged: set<int>, all: set<int>, before: set<int>, vectors: set<int>)
    requires chunks == flagged + all && flagged <= before <= chunks && before <= vectors && vectors - before <= all
    ensures vectors <= chunks && chunks - vectors == all - vectors
  {}

  lemma MarkedWhole(db0: Db)
    requires IdsPositive(db0)
    ensures var db := Marked(db0, EmbedLedgers.Unembedded(db0));
      IdsPositive(db) && WithFlag(db.chunks, true) == db.chunks.Keys == db0.chunks.Keys
  {
    EmbedLedgers.AllFlagged(db0);
  }

  lemma {:induction false} StoredBelong(a: EmbedLedgers.Account)
    requires EmbedLedgers.RunComplete(a) && WithFlag(a.db0.chunks, true) <= a.vecs0.Keys <= a.db0.chunks.Keys
    ensures a.vecs.Keys <= a.db0.chunks.Keys
    ensures a.db0.chunks.Keys - a.vecs.Keys == a.ledger.skipped + a.ledger.rejected
  {
    FlagsPartition(a.db0.chunks);
    Remainders(a.db0.chunks.Keys, WithFlag(a.db0.chunks, true), EmbedLedgers.Unembedded(a.db0), a.vecs0.Keys,
               a.vecs.Keys);
  }

  lemma RepairedChoice(db: Db, vectors: set<int>)
    requires IdsPositive(db) && WithFlag(db.chunks, true) == db.chunks.Keys && vectors <= db.chunks.Keys
    ensures WithFlag(BeforeEmbedding(db, vectors).chunks, false) == db.chunks.Keys - vectors
  {
    RepairCompleteWithoutStrays(db, vectors);
    BeforeEmbeddingKeepsChunks(db, vectors);
    FlagsPartition(BeforeEmbedding(db, vectors).chunks);
  }

  /**
   A run marks the chunks it drops as embedded, too. The repair before the next run finds exactly those: if
   no flag was without its vector and no vector without its chunk when the run began, the next one starts with
   what this one skipped or rejected.
   */
  lemma {:induction false} NextRunRetriesDropped(a: EmbedLedgers.Account)
    requires EmbedLedgers.RunComplete(a) && IdsPositive(a.db0)
    requires WithFlag(a.db0.chunks, true) <= a.vecs0.Keys <= a.db0.chunks.Keys
    ensures var dropped := a.ledger.skipped + a.ledger.rejected;
      && WithFlag(a.db.chunks, true) - a.vecs.Keys == dropped
      && WithFlag(BeforeEmbedding(a.db, a.vecs.Keys).chunks, false) == dropped
  {
    MarkedWhole(a.db0);
    StoredBelong(a);
    RepairedChoice(a.db, a.vecs.Keys);
  }

  // ---- After any run, cancelled and failed ones included ----

  lemma RepairSetsNoFlag(db: Db, vectors: set<int>)
    ensures WithFlag(BeforeEmbedding(db, vectors).chunks, true) <= WithFlag(db.chunks, true)
  {}

  /**
   A flag without a vector was so when the run began, or is a mark for a chunk that the run dropped, or held for a
   retry when it ended.
   */
  lemma FlagsWithoutVector(a: EmbedLedgers.Account)
    requires EmbedLedgers.SoundAccount(a)
    ensures var l := a.ledger;
      WithFlag(a.db.chunks, true) - a.vecs.Keys ==
      (WithFlag(a.db0.chunks, true) - a.vecs0.Keys) + Elements(l.marked) * (l.skipped + l.rejected + l.waiting)
  {
    var l := a.ledger;
    FlagsAfterMarks(a.db0, Elements(l.marked));
    FlagsPartition(a.db0.chunks);
    forall c ensures c in WithFlag(a.db0.chunks, true) ==> (c in a.vecs.Keys <==> c in a.vecs0.Keys) {
      assert c in a.vecs.Keys - a.vecs0.Keys ==> c in EmbedLedgers.Unembedded(a.db0);
    }
    forall c ensures c in Elements(l.marked) - a.vecs.Keys
                     <==> c in Elements(l.marked) * (l.skipped + l.rejected + l.waiting)
    {
      if c in Elements(l.marked) && c !in a.vecs.Keys {
        assert c in a.vecs.Keys + l.skipped + l.rejected + l.waiting;
      }
    }
  }

  lemma FlagsAfterMarks(db0: Db, marked: set<int>)
    requires marked <= EmbedLedgers.Unembedded(db0)
    ensures WithFlag(Marked(db0, marked).chunks, true) == WithFlag(db0.chunks, true) + marked
  {}

  /**
   Whatever way a run ended, the next one retries all flagged chunks without a vector, or none of them: all
   exactly when there are none or fewer vectors than flags are counted.
   */
  lemma NextRunRetriesExactly(a: EmbedLedgers.Account)
    requires EmbedLedgers.SoundAccount(a)
    ensures var flagged := WithFlag(a.db.chunks, true);
      var lost, next := flagged - a.vecs.Keys, WithFlag(BeforeEmbedding(a.db, a.vecs.Keys).chunks, false);
      && (lost <= next <==> lost == {} || |a.vecs.Keys| < |flagged|)
      && (lost <= next || lost !! next)
  {
    var flagged, after := WithFlag(a.db.chunks, true), BeforeEmbedding(a.db, a.vecs.Keys);
    RepairExactly(a.db, a.vecs.Keys);
    RepairSetsNoFlag(a.db, a.vecs.Keys);
    BeforeEmbeddingKeepsChunks(a.db, a.vecs.Keys);
    FlagsPartition(after.chunks);
    FlagsPartition(a.db.chunks);
    AllOrNothing(a.db.chunks.Keys, flagged, WithFlag(after.chunks, true), a.vecs.Keys);
    if !(|flagged| > 0 && |a.vecs.Keys| < |flagged|) {
      assert after == a.db;
    }
  }

  lemma AllOrNothing(chunks: set<int>, flagged: set<int>, after: set<int>, vectors: set<int>)
    requires after <= flagged <= chunks
    ensures var lost := flagged - vectors; lost <= chunks - after <==> after <= vectors
  {}

  const TWO_CHUNKS := Db(map[1 := ChunkRow(7, false), 2 := ChunkRow(7, false)], map[7 := Pending])

  /** Chunk 1 is refused for good and marked; the vector of chunk 2 is stored, but marking it fails. */
  const FAILED_RUN := EmbedLedgers.Account(TWO_CHUNKS, map[], Marked(TWO_CHUNKS, {1}), map[2 := [1]],
                                           EmbedLedgers.Ledger([1], {1}, {}, {}), [])

  lemma TwoChunks()
    ensures Consistent(TWO_CHUNKS) && EmbedLedgers.Unembedded(TWO_CHUNKS) == {1, 2}
    ensures WithFlag(TWO_CHUNKS.chunks, true) == {}
    ensures Elements([1]) == {1}
  {
    assert Flagged(TWO_CHUNKS.chunks, 7, true) == {};
  }

  lemma FailedRunIsSound()
    ensures EmbedLedgers.SoundAccount(FAILED_RUN)
    ensures WithFlag(FAILED_RUN.db.chunks, true) == {1} && FAILED_RUN.vecs.Keys == {2}
  {
    TwoChunks();
    FlagsAfterMarks(TWO_CHUNKS, {1});
  }

  /** The counts agree then, and the next run leaves chunk 1 alone. */
  lemma FailedRunHidesLoss()
    ensures EmbedLedgers.SoundAccount(FAILED_RUN)
    ensures WithFlag(FAILED_RUN.db.chunks, true) - FAILED_RUN.vecs.Keys == {1}
    ensures 1 !in WithFlag(BeforeEmbedding(FAILED_RUN.db, FAILED_RUN.vecs.Keys).chunks, false)
  {
    FailedRunIsSound();
    TwoChunks();
    NextRunRetriesExactly(FAILED_RUN);
  }
}
