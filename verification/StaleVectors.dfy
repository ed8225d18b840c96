/**
 What becomes of a file's vectors when its chunks are replaced or deleted (internal/daemon/writer.go,
 processJob and processWriteJob): the ids of its embedded chunks are listed first, and their vectors are
 deleted once the job has succeeded.

 Ids of chunks come from AUTOINCREMENT and are never used twice.
 */
module StaleVectors {
  import opened EmbedStatus
  import opened Paging

  /** The chunk rows, the ids that have a vector, and the next id. */
  datatype Index = Index(chunks: map<int, ChunkRow>, vectors: set<int>, nextId: int)

  ghost predicate IdsUsed(x: Index) {
    (forall c :: c in x.chunks ==> c < x.nextId) && forall v :: v in x.vectors ==> v < x.nextId
  }

  /** Vectors without a chunk. */
  function Strays(x: Index): set<int> {
    x.vectors - x.chunks.Keys
  }

  function OfFile(chunks: map<int, ChunkRow>, file: int): set<int> {
    set c | c in chunks && chunks[c].fileId == file
  }

  function NewIds(from: int, count: nat): (ids: set<int>)
    ensures forall c :: c in ids <==> from <= c < from + count
  {
    if count == 0 then {} else NewIds(from, count - 1) + {from + count - 1}
  }

  function With(chunks: map<int, ChunkRow>, file: int, from: int, count: nat): map<int, ChunkRow> {
    chunks + map c | c in NewIds(from, count) :: ChunkRow(file, false)
  }

  /** How far a job gets: a failure before or after the old chunks go, one after the new ones are there, or none. */
  datatype Progress = BeforeDelete | AfterDelete | AfterInsert | Finished

  /**
   A job for a file that brings `count` new chunks (none if it deletes the file). `listed` are the rows that the
   query for stale ids gets to, as its error is ignored; `cleaned` says whether vectors can be deleted.
   */
  datatype Job = Job(file: int, count: nat, progress: Progress, listed: set<int>, cleaned: bool)

  function Stale(x: Index, j: Job): set<int> {
    Flagged(x.chunks, j.file, true) * j.listed
  }

  function AfterJob(x: Index, j: Job): Index {
    var without := WithoutFileChunks(x.chunks, j.file);
    var with := With(without, j.file, x.nextId, j.count);
    match j.progress
    case BeforeDelete => x
    case AfterDelete => x.(chunks := without)
    case AfterInsert => x.(chunks := with, nextId := x.nextId + j.count)
    case Finished =>
      Index(with, if j.cleaned then x.vectors - Stale(x, j) else x.vectors, x.nextId + j.count)
  }

  /** Vectors whose chunk the job deletes but which it leaves behind. */
  function Leaked(x: Index, j: Job): set<int> {
    var lost := OfFile(x.chunks, j.file) * x.vectors;
    match j.progress
    case BeforeDelete => {}
    case Finished => if j.cleaned then lost - Stale(x, j) else lost
    case _ => lost
  }

  class Writer {
    var chunks: map<int, ChunkRow>
    var vectors: set<int>
    var nextId: int

    constructor ()
      ensures View() == Index(map[], {}, 1)
    {
      chunks, vectors, nextId := map[], {}, 1;
    }

    function View(): Index
      reads this
    {
      Index(chunks, vectors, nextId)
    }

    /** An enrichment job, whose stages may fail: the file's row, the deletion, the new chunks, the rest. */
    method Enrich(file: int, count: nat, fails: nat -> bool, listed: set<int>, cleaned: bool)
      returns (ok: bool, ghost j: Job)
      modifies this
      ensures j == Job(file, count, j.progress, listed, cleaned) && View() == AfterJob(old(View()), j)
      ensures ok <==> j.progress == Finished
      ensures j.progress == BeforeDelete <==> fails(0) || fails(1)
      ensures j.progress == AfterDelete <==> !fails(0) && !fails(1) && fails(2)
      ensures j.progress == AfterInsert <==> !fails(0) && !fails(1) && !fails(2) && fails(3)
      ensures ok <==> forall k :: 0 <= k < 4 ==> !fails(k)
    {
      ok, j := false, Job(file, count, BeforeDelete, listed, cleaned);
      if fails(0) {
        return;
      }
      var stale := Flagged(chunks, file, true) * listed;
      if fails(1) {
        return;
      }
      chunks := WithoutFileChunks(chunks, file);
      if fails(2) {
        j := j.(progress := AfterDelete);
        return;
      }
      chunks, nextId := With(chunks, file, nextId, count), nextId + count;
      if fails(3) {
        j := j.(progress := AfterInsert);
        return;
      }
      if cleaned && |stale| > 0 {
        vectors := vectors - stale;
      }
      ok, j := true, j.(progress := Finished);
    }

    /** A file-delete job: the row goes with its chunks, or an error leaves everything as it was. */
    method DeleteFile(file: int, fails: bool, listed: set<int>, cleaned: bool) returns (ghost j: Job)
      modifies this
      ensures j == Job(file, 0, if fails then BeforeDelete else Finished, listed, cleaned)
      ensures View() == AfterJob(old(View()), j)
    {
      j := Job(file, 0, if fails then BeforeDelete else Finished, listed, cleaned);
      var stale := Flagged(chunks, file, true) * listed;
      if fails {
        return;
      }
      chunks := WithoutFileChunks(chunks, file);
      assert With(chunks, file, nextId, 0) == chunks;
      if cleaned && |stale| > 0 {
        vectors := vectors - stale;
      }
    }
  }

  // ---- Strays ----

  lemma JobKeepsIds(x: Index, j: Job)
    requires IdsUsed(x)
    ensures IdsUsed(AfterJob(x, j))
  {}

  /** A job touches no chunk of another file, and no vector but its own file's; it makes none. */
  lemma OthersSurvive(x: Index, j: Job)
    requires IdsUsed(x)
    ensures var y := AfterJob(x, j);
      && y.vectors <= x.vectors
      && (forall c :: c in x.chunks && x.chunks[c].fileId != j.file ==> c in y.chunks && y.chunks[c] == x.chunks[c])
      && (forall v :: v in x.vectors && v !in y.vectors ==> v in x.chunks && x.chunks[v].fileId == j.file)
  {}

  /** A job that ends well leaves its file with as many chunks as it brought, all new and none flagged. */
  lemma FinishedReplaces(x: Index, j: Job)
    requires IdsUsed(x) && j.progress == Finished
    ensures var y := AfterJob(x, j);
      && OfFile(y.chunks, j.file) == NewIds(x.nextId, j.count) && |OfFile(y.chunks, j.file)| == j.count
      && Flagged(y.chunks, j.file, true) == {} && OfFile(y.chunks, j.file) !! x.chunks.Keys
  {
    NewIdsCount(x.nextId, j.count);
  }

  lemma {:induction false} NewIdsCount(from: int, count: nat)
    ensures |NewIds(from, count)| == count
  {
    if count > 0 {
      NewIdsCount(from, count - 1);
      assert from + count - 1 !in NewIds(from, count - 1);
    }
  }

  /** A job adds to the strays exactly what it leaks, and takes none away. */
  lemma StraysAfterJob(x: Index, j: Job)
    requires IdsUsed(x)
    ensures Strays(AfterJob(x, j)) == Strays(x) + Leaked(x, j)
    ensures Strays(x) !! Leaked(x, j)
  {
    var y, lost := AfterJob(x, j), OfFile(x.chunks, j.file) * x.vectors;
    assert Stale(x, j) <= OfFile(x.chunks, j.file);
    assert forall c :: x.nextId <= c ==> c !in x.vectors;
    forall v ensures v in Strays(y) <==> v in Strays(x) + Leaked(x, j) {
      if j.progress != BeforeDelete && v < x.nextId {
        assert v in y.chunks <==> v in x.chunks && x.chunks[v].fileId != j.file;
      }
    }
  }

  /**
   A job leaks nothing exactly when it failed before the deletion, the file had no vectors, or it finished, could
   delete vectors, and its query got to every chunk of the file that had one, each of them flagged.
   */
  lemma LeaksNothingExactly(x: Index, j: Job)
    ensures Leaked(x, j) == {} <==>
            || j.progress == BeforeDelete
            || OfFile(x.chunks, j.file) * x.vectors == {}
            || (j.progress == Finished && j.cleaned
                && forall c :: c in OfFile(x.chunks, j.file) * x.vectors ==> x.chunks[c].embedded && c in j.listed)
  {
    var lost := OfFile(x.chunks, j.file) * x.vectors;
    forall c | c in lost ensures c in lost - Stale(x, j) <==> !(x.chunks[c].embedded && c in j.listed) {}
    if forall c :: c in lost ==> x.chunks[c].embedded && c in j.listed {
      assert lost - Stale(x, j) == {};
    }
  }

  /** Between jobs vectors are stored for chunks that are there, and flags are set and cleared. */
  datatype Event = Write(job: Job) | Upsert(ids: set<int>) | Flag(ids: set<int>, embedded: bool)

  function Step(x: Index, e: Event): Index {
    match e
    case Write(j) => AfterJob(x, j)
    case Upsert(ids) => x.(vectors := x.vectors + ids * x.chunks.Keys)
    case Flag(ids, embedded) => x.(chunks := SetFlags(x.chunks, ids, embedded))
  }

  function Run(es: seq<Event>): Index {
    if es == [] then Index(map[], {}, 1) else Step(Run(es[..|es| - 1]), es[|es| - 1])
  }

  lemma {:induction false} StepStrays(x: Index, e: Event)
    requires IdsUsed(x)
    ensures IdsUsed(Step(x, e))
    ensures Strays(Step(x, e)) == Strays(x) + if e.Write? then Leaked(x, e.job) else {}
  {
    match e
    case Write(j) =>
      JobKeepsIds(x, j);
      StraysAfterJob(x, j);
    case Upsert(ids) =>
    case Flag(ids, embedded) =>
  }

  ghost predicate NothingLeaked(es: seq<Event>) {
    forall i :: 0 <= i < |es| && es[i].Write? ==> Leaked(Run(es[..i]), es[i].job) == {}
  }

  /** After any history every vector has its chunk exactly when no job of it has leaked one. */
  lemma {:induction false} NoStraysExactly(es: seq<Event>)
    ensures IdsUsed(Run(es)) && (Strays(Run(es)) == {} <==> NothingLeaked(es))
  {
    if es != [] {
      var n := |es| - 1;
      var before := es[..n];
      NoStraysExactly(before);
      StepStrays(Run(before), es[n]);
      forall i | 0 <= i < n ensures es[..i] == before[..i] && es[i] == before[i] {}
    }
  }

  /** A stray is there for good. */
  lemma {:induction false} StraysStay(es: seq<Event>, more: seq<Event>, v: int)
    requires v in Strays(Run(es))
    ensures v in Strays(Run(es + more))
    decreases |more|
  {
    if more == [] {
      assert es + more == es;
    } else {
      var n := |more| - 1;
      StraysStay(es, more[..n], v);
      NoStraysExactly(es + more[..n]);
      StepStrays(Run(es + more[..n]), more[n]);
      assert (es + more)[..|es + more| - 1] == es + more[..n];
    }
  }

  /** A file is indexed and embedded, and then a job for it fails once the old chunk is gone: its vector stays. */
  lemma FailedJobLeavesStray()
    ensures var es := [Write(Job(7, 1, Finished, {}, true)), Upsert({1}), Flag({1}, true)];
      && Strays(Run(es)) == {}
      && Strays(Run(es + [Write(Job(7, 1, AfterDelete, {1}, true))])) == {1}
  {
    var first, second := [Write(Job(7, 1, Finished, {}, true))], [Write(Job(7, 1, Finished, {}, true)), Upsert({1})];
    var third := second + [Flag({1}, true)];
    var last := third + [Write(Job(7, 1, AfterDelete, {1}, true))];
    assert Run([]) == Index(map[], {}, 1);
    assert NewIds(1, 1) == {1};
    assert first[..0] == [] && Run(first) == Index(map[1 := ChunkRow(7, false)], {}, 2);
    assert second[..1] == first && Run(second) == Index(map[1 := ChunkRow(7, false)], {1}, 2);
    assert third[..2] == second && Run(third) == Index(map[1 := ChunkRow(7, true)], {1}, 2);
    assert last[..3] == third && Run(last) == Index(map[], {1}, 2);
  }
}
