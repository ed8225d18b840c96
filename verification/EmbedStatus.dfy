/**
 The embedding-status state machine (internal/storage/embedstatus/state.go) driven through the batched
 SQLite adapter (internal/storage/sqlite/embed_status.go).

 `Db` is the part of the database it touches: chunk rows with their file and flag, and file statuses.
 Each operation runs in one write transaction and is taken to succeed; a re-index runs in several, of which the
 deletion of the old chunks may fail after the file's row is written.
 */
module EmbedStatus {
  import opened Paging

  const CHUNK_BATCH_LIMIT: nat := 500

  datatype Status = Pending | Partial | Complete

  datatype ChunkRow = ChunkRow(fileId: int, embedded: bool)

  datatype Db = Db(chunks: map<int, ChunkRow>, files: map<int, Status>)

  // ---- What a status means ----

  function Flagged(chunks: map<int, ChunkRow>, file: int, embedded: bool): set<int> {
    set c | c in chunks && chunks[c].fileId == file && chunks[c].embedded == embedded
  }

  /** The status that a file's chunk flags call for. */
  function StatusOf(chunks: map<int, ChunkRow>, file: int): Status {
    if Flagged(chunks, file, true) == {} then Pending
    else if Flagged(chunks, file, false) == {} then Complete
    else Partial
  }

  ghost predicate Consistent(db: Db) {
    && (forall c :: c in db.chunks ==> c > 0 && db.chunks[c].fileId in db.files)
    && (forall f :: f in db.files ==> db.files[f] == StatusOf(db.chunks, f))
  }

  /** The same in the words of the promise: complete, partial and pending by the chunks alone. */
  lemma StatusMeaning(db: Db, f: int)
    requires Consistent(db) && f in db.files
    ensures db.files[f] == Complete <==>
      (exists c :: c in db.chunks && db.chunks[c].fileId == f)
      && forall c :: c in db.chunks && db.chunks[c].fileId == f ==> db.chunks[c].embedded
    ensures db.files[f] == Partial <==>
      (exists c :: c in db.chunks && db.chunks[c].fileId == f && db.chunks[c].embedded)
      && exists c :: c in db.chunks && db.chunks[c].fileId == f && !db.chunks[c].embedded
    ensures db.files[f] == Pending <==>
      forall c :: c in db.chunks && db.chunks[c].fileId == f ==> !db.chunks[c].embedded
  {
    NonEmpty(Flagged(db.chunks, f, true));
    NonEmpty(Flagged(db.chunks, f, false));
    assert forall c, b :: c in Flagged(db.chunks, f, b) <==>
      c in db.chunks && db.chunks[c].fileId == f && db.chunks[c].embedded == b;
  }

  // ---- The operations on values ----

  function SetFlags(chunks: map<int, ChunkRow>, ids: set<int>, embedded: bool): map<int, ChunkRow> {
    map c | c in chunks :: if c in ids then chunks[c].(embedded := embedded) else chunks[c]
  }

  function Affected(chunks: map<int, ChunkRow>, ids: set<int>): set<int> {
    set c | c in chunks && c in ids :: chunks[c].fileId
  }

  function StatusAfterMark(chunks: map<int, ChunkRow>, file: int, was: Status): Status {
    if Flagged(chunks, file, false) == {} then Complete
    else if was == Complete then Complete
    else Partial
  }

  function StatusAfterReset(chunks: map<int, ChunkRow>, file: int): Status {
    if Flagged(chunks, file, true) == {} then Pending else Partial
  }

  function Marked(db: Db, ids: set<int>): Db {
    var chunks := SetFlags(db.chunks, ids, true);
    Db(chunks, map f | f in db.files ::
         if f in Affected(db.chunks, ids) then StatusAfterMark(chunks, f, db.files[f]) else db.files[f])
  }

  function Reset(db: Db, ids: set<int>): Db {
    var chunks := SetFlags(db.chunks, ids, false);
    Db(chunks, map f | f in db.files ::
         if f in Affected(db.chunks, ids) then StatusAfterReset(chunks, f) else db.files[f])
  }

  function ResetAll(db: Db): Db {
    Db(SetFlags(db.chunks, db.chunks.Keys, false), map f | f in db.files :: Pending)
  }

  function WithoutFileChunks(chunks: map<int, ChunkRow>, file: int): map<int, ChunkRow> {
    map c | c in chunks && chunks[c].fileId != file :: chunks[c]
  }

  /** Re-index as one step: the file row upserted as pending, its chunks replaced by fresh unembedded ones. */
  function Reindexed(db: Db, file: int, newIds: set<int>): Db {
    Db(WithoutFileChunks(db.chunks, file) + map c | c in newIds :: ChunkRow(file, false), db.files[file := Pending])
  }

  /** What a re-index leaves that fails to delete the old chunks: the row is written, the chunks are there. */
  function RowWritten(db: Db, file: int): Db {
    Db(db.chunks, db.files[file := Pending])
  }

  function Deleted(db: Db, file: int): Db {
    Db(WithoutFileChunks(db.chunks, file), db.files - {file})
  }

  // ---- The database and its adapter ----

  class Store {
    var chunks: map<int, ChunkRow>
    var files: map<int, Status>

    constructor ()
      ensures Value() == Db(map[], map[])
    {
      chunks, files := map[], map[];
    }

    function Value(): Db
      reads this
    {
      Db(chunks, files)
    }

    /** UPDATE chunks ... WHERE id IN (batch), for batches of at most 500 ids. */
    method SetEmbedded(ids: seq<int>, embedded: bool)
      modifies this`chunks
      ensures chunks == SetFlags(old(chunks), Elements(ids), embedded)
    {
      var start := 0;
      assert chunks == SetFlags(chunks, Elements(ids[..0]), embedded);
      while start < |ids|
        invariant 0 <= start <= |ids|
        invariant chunks == SetFlags(old(chunks), Elements(ids[..start]), embedded)
      {
        var end := if start + CHUNK_BATCH_LIMIT > |ids| then |ids| else start + CHUNK_BATCH_LIMIT;
        var batch := Elements(ids[start..end]);
        ElementsSlices(ids, start, end);
        SetFlagsTwice(old(chunks), Elements(ids[..start]), batch, embedded);
        chunks := SetFlags(chunks, batch, embedded);
        start := end;
      }
      assert ids[..|ids|] == ids;
    }

    /** SELECT DISTINCT file_id ... WHERE id IN (batch), duplicates across batches removed. */
    method AffectedFiles(ids: seq<int>) returns (out: seq<int>)
      ensures Elements(out) == Affected(chunks, Elements(ids)) && |out| == |Elements(out)|
    {
      var seen: set<int> := {};
      out := [];
      var start := 0;
      assert Affected(chunks, Elements(ids[..0])) == {};
      while start < |ids|
        invariant 0 <= start <= |ids|
        invariant seen == Elements(out) == Affected(chunks, Elements(ids[..start])) && |out| == |seen|
      {
        var end := if start + CHUNK_BATCH_LIMIT > |ids| then |ids| else start + CHUNK_BATCH_LIMIT;
        var batch := Elements(ids[start..end]);
        AffectedUnion(chunks, Elements(ids[..start]), batch);
        ElementsSlices(ids, start, end);
        var found := ListSet(Affected(chunks, batch));
        seen, out := AddUnseen(seen, out, found);
        start := end;
      }
      assert ids[..|ids|] == ids;
    }

    static method AddUnseen(seen0: set<int>, out0: seq<int>, found: seq<int>) returns (seen: set<int>, out: seq<int>)
      requires seen0 == Elements(out0) && |out0| == |seen0|
      ensures seen == Elements(out) == seen0 + Elements(found) && |out| == |seen|
    {
      seen, out := seen0, out0;
      for i := 0 to |found|
        invariant seen == Elements(out) == seen0 + Elements(found[..i]) && |out| == |seen|
      {
        ElementsStep(found, i);
        if found[i] in seen {
          continue;
        }
        ElementsAppend(out, [found[i]]);
        assert Elements([found[i]]) == {found[i]};
        seen := seen + {found[i]};
        out := out + [found[i]];
      }
      assert found[..|found|] == found;
    }

    method CountRemaining(file: int) returns (n: nat)
      ensures n == |Flagged(chunks, file, false)|
    {
      n := |Flagged(chunks, file, false)|;
    }

    method CountEmbedded(file: int) returns (n: nat)
      ensures n == |Flagged(chunks, file, true)|
    {
      n := |Flagged(chunks, file, true)|;
    }

    method SetFileStatus(file: int, status: Status, keepCompleteOnly: bool)
      modifies this`files
      ensures files == if file in old(files) && !(keepCompleteOnly && old(files)[file] == Complete)
                       then old(files)[file := status] else old(files)
    {
      if file in files && !(keepCompleteOnly && files[file] == Complete) {
        files := files[file := status];
      }
    }

    /** The loop body of MarkEmbedded. */
    method UpdateMarkedFile(file: int)
      modifies this`files
      ensures files == if file in old(files)
                       then old(files)[file := StatusAfterMark(chunks, file, old(files)[file])] else old(files)
    {
      var remaining := CountRemaining(file);
      if remaining == 0 {
        SetFileStatus(file, Complete, false);
        return;
      }
      SetFileStatus(file, Partial, true);
    }

    method MarkEmbedded(ids: seq<int>)
      modifies this
      ensures Value() == Marked(old(Value()), Elements(ids))
    {
      ghost var db, after := Value(), Marked(Value(), Elements(ids)).files;
      if |ids| == 0 {
        NothingAffected(db, Elements(ids));
        return;
      }
      var fileIds := AffectedFiles(ids);
      SetEmbedded(ids, true);
      NoneUpdated(db.files, after);
      for i := 0 to |fileIds|
        invariant chunks == SetFlags(db.chunks, Elements(ids), true)
        invariant files == PartlyUpdated(db.files, after, Elements(fileIds[..i]))
      {
        ElementsStep(fileIds, i);
        OneUpdated(db.files, after, Elements(fileIds[..i]), fileIds[i]);
        assert fileIds[i] in Elements(fileIds);
        UpdateMarkedFile(fileIds[i]);
      }
      assert fileIds[..|fileIds|] == fileIds;
      assert files == after;
    }

    /** The loop body of Reset. */
    method UpdateResetFile(file: int)
      modifies this`files
      ensures files == if file in old(files)
                       then old(files)[file := StatusAfterReset(chunks, file)] else old(files)
    {
      var embedded := CountEmbedded(file);
      var status := Pending;
      if embedded > 0 {
        status := Partial;
      }
      SetFileStatus(file, status, false);
    }

    method ResetFlags(ids: seq<int>)
      modifies this
      ensures Value() == Reset(old(Value()), Elements(ids))
    {
      ghost var db, after := Value(), Reset(Value(), Elements(ids)).files;
      if |ids| == 0 {
        NothingAffected(db, Elements(ids));
        return;
      }
      var fileIds := AffectedFiles(ids);
      SetEmbedded(ids, false);
      NoneUpdated(db.files, after);
      for i := 0 to |fileIds|
        invariant chunks == SetFlags(db.chunks, Elements(ids), false)
        invariant files == PartlyUpdated(db.files, after, Elements(fileIds[..i]))
      {
        ElementsStep(fileIds, i);
        OneUpdated(db.files, after, Elements(fileIds[..i]), fileIds[i]);
        assert fileIds[i] in Elements(fileIds);
        UpdateResetFile(fileIds[i]);
      }
      assert fileIds[..|fileIds|] == fileIds;
      assert files == after;
    }

    method ResetAllFlags()
      modifies this
      ensures Value() == ResetAll(old(Value()))
    {
      chunks := map c | c in chunks :: if chunks[c].embedded then chunks[c].(embedded := false) else chunks[c];
      files := map f | f in files :: if files[f] != Pending then Pending else files[f];
    }

    method GetEmbedPage(after: int, limit: nat) returns (page: seq<int>)
      ensures page == Page(WithFlag(chunks, false), after, limit)
    {
      page := Page(WithFlag(chunks, false), after, limit);
    }

    method GetEmbeddedChunkIds(after: int, limit: nat) returns (page: seq<int>)
      ensures page == Page(WithFlag(chunks, true), after, limit)
    {
      page := Page(WithFlag(chunks, true), after, limit);
    }

    method CountChunks(embedded: bool) returns (n: nat)
      ensures n == |WithFlag(chunks, embedded)|
    {
      n := |WithFlag(chunks, embedded)|;
    }
  }

  function WithFlag(chunks: map<int, ChunkRow>, embedded: bool): set<int> {
    set c | c in chunks && chunks[c].embedded == embedded
  }

  function PartlyUpdated(before: map<int, Status>, after: map<int, Status>, done: set<int>): map<int, Status>
    requires before.Keys == after.Keys
  {
    map f | f in before :: if f in done then after[f] else before[f]
  }

  lemma NoneUpdated(before: map<int, Status>, after: map<int, Status>)
    requires before.Keys == after.Keys
    ensures PartlyUpdated(before, after, Elements([])) == before
  {}

  lemma OneUpdated(before: map<int, Status>, after: map<int, Status>, done: set<int>, f: int)
    requires before.Keys == after.Keys
    ensures PartlyUpdated(before, after, done + {f}) ==
      (var m := PartlyUpdated(before, after, done); if f in m then m[f := after[f]] else m)
  {}

  lemma SetFlagsTwice(chunks: map<int, ChunkRow>, a: set<int>, b: set<int>, embedded: bool)
    ensures SetFlags(SetFlags(chunks, a, embedded), b, embedded) == SetFlags(chunks, a + b, embedded)
  {}

  lemma AffectedUnion(chunks: map<int, ChunkRow>, a: set<int>, b: set<int>)
    ensures Affected(chunks, a + b) == Affected(chunks, a) + Affected(chunks, b)
  {}

  lemma NothingAffected(db: Db, ids: set<int>)
    requires ids == {}
    ensures Marked(db, ids) == db && Reset(db, ids) == db
  {
    assert Affected(db.chunks, ids) == {};
    assert SetFlags(db.chunks, ids, true) == db.chunks && SetFlags(db.chunks, ids, false) == db.chunks;
  }

  // ---- Every operation keeps every status right ----

  /** The database with these flags and every status worked out afresh. */
  function Recomputed(chunks: map<int, ChunkRow>, files: set<int>): Db {
    Db(chunks, map f | f in files :: StatusOf(chunks, f))
  }

  lemma FlaggedAfterSet(chunks: map<int, ChunkRow>, ids: set<int>, file: int, embedded: bool)
    ensures var after := SetFlags(chunks, ids, embedded);
      && (file !in Affected(chunks, ids) ==> forall b :: Flagged(after, file, b) == Flagged(chunks, file, b))
      && (file in Affected(chunks, ids) ==> Flagged(after, file, embedded) != {})
      && Flagged(after, file, !embedded) == Flagged(chunks, file, !embedded) - ids
  {
    var after := SetFlags(chunks, ids, embedded);
    if file in Affected(chunks, ids) {
      var c :| c in chunks && c in ids && chunks[c].fileId == file;
      assert c in Flagged(after, file, embedded);
    } else {
      forall c | c in chunks && c in ids ensures chunks[c].fileId != file {
        assert chunks[c].fileId in Affected(chunks, ids);
      }
      forall b ensures Flagged(after, file, b) == Flagged(chunks, file, b) {}
    }
  }

  /** Marking recomputes every status; the rule that keeps an existing `complete` never decides anything. */
  lemma MarkRecomputes(db: Db, ids: set<int>)
    requires Consistent(db)
    ensures Marked(db, ids) == Recomputed(SetFlags(db.chunks, ids, true), db.files.Keys)
  {
    var chunks := SetFlags(db.chunks, ids, true);
    forall f | f in db.files ensures Marked(db, ids).files[f] == StatusOf(chunks, f) {
      FlaggedAfterSet(db.chunks, ids, f, true);
      if f in Affected(db.chunks, ids) && db.files[f] == Complete {
        assert Flagged(db.chunks, f, false) == {};
      }
    }
  }

  /** Two marks are one, whatever the statuses were. */
  lemma MarkTwice(db: Db, a: set<int>, b: set<int>)
    ensures Marked(Marked(db, a), b) == Marked(db, a + b)
  {
    var once, all := SetFlags(db.chunks, a, true), SetFlags(db.chunks, a + b, true);
    SetFlagsTwice(db.chunks, a, b, true);
    AffectedUnion(db.chunks, a, b);
    assert Affected(once, b) == Affected(db.chunks, b);
    forall f | f in db.files ensures Marked(Marked(db, a), b).files[f] == Marked(db, a + b).files[f] {
      FlaggedAfterSet(db.chunks, a, f, true);
      FlaggedAfterSet(once, b, f, true);
    }
  }

  lemma ResetRecomputes(db: Db, ids: set<int>)
    requires Consistent(db)
    ensures Reset(db, ids) == Recomputed(SetFlags(db.chunks, ids, false), db.files.Keys)
  {
    var chunks := SetFlags(db.chunks, ids, false);
    forall f | f in db.files ensures Reset(db, ids).files[f] == StatusOf(chunks, f) {
      FlaggedAfterSet(db.chunks, ids, f, false);
    }
  }

  lemma ResetAllRecomputes(db: Db)
    ensures ResetAll(db) == Recomputed(SetFlags(db.chunks, db.chunks.Keys, false), db.files.Keys)
  {
    var chunks := SetFlags(db.chunks, db.chunks.Keys, false);
    forall f | f in db.files ensures StatusOf(chunks, f) == Pending {
      assert Flagged(chunks, f, true) == {};
    }
  }

  /** Insert ids are new and positive, as AUTOINCREMENT makes them. */
  ghost predicate FreshIds(db: Db, ids: set<int>) {
    forall c :: c in ids ==> c > 0 && c !in db.chunks
  }

  lemma FlaggedWithoutFile(db: Db, file: int, g: int, b: bool)
    requires g != file
    ensures Flagged(WithoutFileChunks(db.chunks, file), g, b) == Flagged(db.chunks, g, b)
  {}

  lemma FlaggedWithAdded(kept: map<int, ChunkRow>, added: map<int, ChunkRow>, file: int, f: int, b: bool)
    requires forall c :: c in added ==> added[c] == ChunkRow(file, false)
    requires forall c :: c in kept ==> kept[c].fileId != file && c !in added
    ensures f != file ==> Flagged(kept + added, f, b) == Flagged(kept, f, b)
    ensures Flagged(kept + added, file, true) == {}
  {
    var both := kept + added;
    forall c ensures c in both <==> c in kept || c in added {}
    forall c | c in both ensures both[c] == if c in added then added[c] else kept[c] {}
    forall c ensures f != file ==> (c in Flagged(both, f, b) <==> c in Flagged(kept, f, b)) {
      if c in kept {
        assert c !in added && both[c] == kept[c];
      }
    }
    forall c ensures c !in Flagged(both, file, true) {
      if c in kept {
        assert both[c] == kept[c];
      }
    }
  }

  lemma ReindexRecomputes(db: Db, file: int, ids: set<int>)
    requires Consistent(db) && FreshIds(db, ids)
    ensures Reindexed(db, file, ids) == Recomputed(Reindexed(db, file, ids).chunks, db.files.Keys + {file})
  {
    var after := Reindexed(db, file, ids);
    var kept, added := WithoutFileChunks(db.chunks, file), map c | c in ids :: ChunkRow(file, false);
    assert after.chunks == kept + added;
    forall c | c in kept ensures c !in added {
      assert c in db.chunks;
    }
    forall f | f in after.files ensures after.files[f] == StatusOf(after.chunks, f) {
      FlaggedWithAdded(kept, added, file, f, true);
      FlaggedWithAdded(kept, added, file, f, false);
      if f != file {
        FlaggedWithoutFile(db, file, f, true);
        FlaggedWithoutFile(db, file, f, false);
      }
    }
  }

  lemma DeleteRecomputes(db: Db, file: int)
    requires Consistent(db)
    ensures Deleted(db, file) == Recomputed(WithoutFileChunks(db.chunks, file), db.files.Keys - {file})
  {
    forall f | f in db.files && f != file ensures db.files[f] == StatusOf(WithoutFileChunks(db.chunks, file), f) {
      FlaggedWithoutFile(db, file, f, true);
      FlaggedWithoutFile(db, file, f, false);
    }
  }

  // ---- Histories ----

  datatype Op =
    | Mark(ids: seq<int>)
    | ResetSome(ids: seq<int>)
    | ResetEvery
    | Reindex(file: int, newIds: set<int>)
    | ReindexFails(file: int)
    | Delete(file: int)

  function Applied(db: Db, op: Op): Db {
    match op
    case Mark(ids) => Marked(db, Elements(ids))
    case ResetSome(ids) => Reset(db, Elements(ids))
    case ResetEvery => ResetAll(db)
    case Reindex(file, newIds) => Reindexed(db, file, newIds)
    case ReindexFails(file) => RowWritten(db, file)
    case Delete(file) => Deleted(db, file)
  }

  ghost predicate Allowed(db: Db, op: Op) {
    op.Reindex? ==> FreshIds(db, op.newIds)
  }

  function Run(ops: seq<Op>): Db {
    if ops == [] then Db(map[], map[]) else Applied(Run(ops[..|ops| - 1]), ops[|ops| - 1])
  }

  ghost predicate AllAllowed(ops: seq<Op>) {
    forall i :: 0 <= i < |ops| ==> Allowed(Run(ops[..i]), ops[i])
  }

  /** Every status is right but that of the files in `late`, which are pending although some chunk is embedded. */
  ghost predicate RightBut(db: Db, late: set<int>) {
    && (forall c :: c in db.chunks ==> c > 0 && db.chunks[c].fileId in db.files)
    && late <= db.files.Keys
    && (forall f :: f in db.files && f !in late ==> db.files[f] == StatusOf(db.chunks, f))
    && forall f :: f in late ==> db.files[f] == Pending && Flagged(db.chunks, f, true) != {}
  }

  /** A failed re-index makes its file late if it has embedded chunks; whatever touches the file ends that. */
  function LateAfter(db: Db, op: Op, late: set<int>): set<int> {
    match op
    case Mark(ids) => late - Affected(db.chunks, Elements(ids))
    case ResetSome(ids) => late - Affected(db.chunks, Elements(ids))
    case ResetEvery => {}
    case Reindex(file, _) => late - {file}
    case ReindexFails(file) => if Flagged(db.chunks, file, true) != {} then late + {file} else late - {file}
    case Delete(file) => late - {file}
  }

  function Late(ops: seq<Op>): set<int> {
    if ops == [] then {} else LateAfter(Run(ops[..|ops| - 1]), ops[|ops| - 1], Late(ops[..|ops| - 1]))
  }

  lemma MarkedStatus(db: Db, ids: set<int>, late: set<int>, f: int)
    requires RightBut(db, late) && f in db.files
    ensures var after := Marked(db, ids);
      && (f !in late - Affected(db.chunks, ids) ==> after.files[f] == StatusOf(after.chunks, f))
      && (f in late - Affected(db.chunks, ids) ==> after.files[f] == Pending && Flagged(after.chunks, f, true) != {})
  {
    FlaggedAfterSet(db.chunks, ids, f, true);
    if f in Affected(db.chunks, ids) && db.files[f] == Complete {
      assert Flagged(db.chunks, f, false) == {};
    }
  }

  lemma ResetStatus(db: Db, ids: set<int>, late: set<int>, f: int)
    requires RightBut(db, late) && f in db.files
    ensures var after := Reset(db, ids);
      && (f !in late - Affected(db.chunks, ids) ==> after.files[f] == StatusOf(after.chunks, f))
      && (f in late - Affected(db.chunks, ids) ==> after.files[f] == Pending && Flagged(after.chunks, f, true) != {})
  {
    FlaggedAfterSet(db.chunks, ids, f, false);
  }

  lemma MarkKeepsRight(db: Db, ids: set<int>, late: set<int>)
    requires RightBut(db, late)
    ensures RightBut(Marked(db, ids), late - Affected(db.chunks, ids))
  {
    var after := Marked(db, ids);
    forall f | f in db.files
      ensures f !in late - Affected(db.chunks, ids) ==> after.files[f] == StatusOf(after.chunks, f)
      ensures f in late - Affected(db.chunks, ids) ==> after.files[f] == Pending && Flagged(after.chunks, f, true) != {}
    {
      MarkedStatus(db, ids, late, f);
    }
  }

  lemma ResetKeepsRight(db: Db, ids: set<int>, late: set<int>)
    requires RightBut(db, late)
    ensures RightBut(Reset(db, ids), late - Affected(db.chunks, ids))
  {
    var after := Reset(db, ids);
    forall f | f in db.files
      ensures f !in late - Affected(db.chunks, ids) ==> after.files[f] == StatusOf(after.chunks, f)
      ensures f in late - Affected(db.chunks, ids) ==> after.files[f] == Pending && Flagged(after.chunks, f, true) != {}
    {
      ResetStatus(db, ids, late, f);
    }
  }

  lemma ReindexKeepsRight(db: Db, file: int, ids: set<int>, late: set<int>)
    requires RightBut(db, late) && FreshIds(db, ids)
    ensures RightBut(Reindexed(db, file, ids), late - {file})
  {
    var after := Reindexed(db, file, ids);
    forall f, b ensures f != file ==> Flagged(after.chunks, f, b) == Flagged(db.chunks, f, b)
    {
      SameFlags(db, file, ids, f, b);
    }
    SameFlags(db, file, ids, file, true);
  }

  lemma SameFlags(db: Db, file: int, ids: set<int>, f: int, b: bool)
    requires FreshIds(db, ids)
    ensures f != file ==> Flagged(Reindexed(db, file, ids).chunks, f, b) == Flagged(db.chunks, f, b)
    ensures Flagged(Reindexed(db, file, ids).chunks, file, true) == {}
  {
    var kept, added := WithoutFileChunks(db.chunks, file), map c | c in ids :: ChunkRow(file, false);
    forall c | c in kept ensures c !in added {
      assert c in db.chunks;
    }
    FlaggedWithAdded(kept, added, file, f, b);
    if f != file {
      FlaggedWithoutFile(db, file, f, b);
    }
  }

  lemma DeleteKeepsRight(db: Db, file: int, late: set<int>)
    requires RightBut(db, late)
    ensures RightBut(Deleted(db, file), late - {file})
  {
    forall f, b ensures f != file ==> Flagged(WithoutFileChunks(db.chunks, file), f, b) == Flagged(db.chunks, f, b) {
      if f != file {
        FlaggedWithoutFile(db, file, f, b);
      }
    }
  }

  lemma AppliedRight(db: Db, op: Op, late: set<int>)
    requires RightBut(db, late) && Allowed(db, op)
    ensures RightBut(Applied(db, op), LateAfter(db, op, late))
  {
    match op
    case Mark(ids) => MarkKeepsRight(db, Elements(ids), late);
    case ResetSome(ids) => ResetKeepsRight(db, Elements(ids), late);
    case ResetEvery => ResetAllRecomputes(db);
    case Reindex(file, newIds) => ReindexKeepsRight(db, file, newIds, late);
    case ReindexFails(file) =>
    case Delete(file) => DeleteKeepsRight(db, file, late);
  }

  /**
   After any history of marks, resets, re-indexes and deletions a file's status says what its chunks say, unless a
   re-index that could not delete the old chunks was the last to touch it and some of them are embedded.
   */
  lemma {:induction false} HistoryRight(ops: seq<Op>)
    requires AllAllowed(ops)
    ensures RightBut(Run(ops), Late(ops))
    ensures forall f :: f in Run(ops).files ==>
              (Run(ops).files[f] != StatusOf(Run(ops).chunks, f) <==> f in Late(ops))
  {
    if ops != [] {
      var before := ops[..|ops| - 1];
      forall i | 0 <= i < |before| ensures Allowed(Run(before[..i]), before[i]) {
        assert before[..i] == ops[..i];
      }
      HistoryRight(before);
      AppliedRight(Run(before), ops[|ops| - 1], Late(before));
    }
  }

  /** Without such a failure every status is right. */
  lemma {:induction false} HistoryConsistent(ops: seq<Op>)
    requires AllAllowed(ops) && forall i :: 0 <= i < |ops| ==> !ops[i].ReindexFails?
    ensures Consistent(Run(ops))
  {
    HistoryRight(ops);
    NeverLate(ops);
  }

  lemma {:induction false} NeverLate(ops: seq<Op>)
    requires forall i :: 0 <= i < |ops| ==> !ops[i].ReindexFails?
    ensures Late(ops) == {}
  {
    if ops != [] {
      NeverLate(ops[..|ops| - 1]);
    }
  }

  /** A re-index that cannot delete the old chunks leaves every status right exactly when none is embedded. */
  lemma RowWrittenExactly(db: Db, file: int)
    requires Consistent(db)
    ensures Consistent(RowWritten(db, file)) <==> Flagged(db.chunks, file, true) == {}
  {
    AppliedRight(db, ReindexFails(file), {});
    assert file in RowWritten(db, file).files;
  }

  /** A complete file is pending after such a failure, with its one chunk still embedded. */
  lemma CompleteFileTurnsPending()
    ensures var ops := [Reindex(7, {1}), Mark([1])];
      && AllAllowed(ops) && Run(ops) == Db(map[1 := ChunkRow(7, true)], map[7 := Complete])
      && Run(ops + [ReindexFails(7)]) == Db(map[1 := ChunkRow(7, true)], map[7 := Pending])
      && !Consistent(Run(ops + [ReindexFails(7)]))
  {
    var first, ops := [Reindex(7, {1})], [Reindex(7, {1}), Mark([1])];
    var last := ops + [ReindexFails(7)];
    var added := Db(map[1 := ChunkRow(7, false)], map[7 := Pending]);
    var marked := Db(map[1 := ChunkRow(7, true)], map[7 := Complete]);
    assert Run([]) == Db(map[], map[]);
    assert first[..0] == [] && ops[..0] == [] && ops[..1] == first && last[..2] == ops;
    assert Run(first) == added;
    assert Elements([1]) == {1} && SetFlags(added.chunks, {1}, true) == marked.chunks;
    assert Flagged(marked.chunks, 7, false) == {} && 1 in Flagged(marked.chunks, 7, true);
    assert added.chunks[1].fileId in Affected(added.chunks, {1});
    assert Run(ops) == Marked(added, {1}) == marked;
  }
}
