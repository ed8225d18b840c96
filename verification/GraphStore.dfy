/**
 The mutable tables behind the symbol graph (internal/storage/sqlite/graph.go) and the write jobs on them
 (internal/daemon/writer.go, processWriteJob). Each method is proved against the relations of Graph.dfy.
 */
module GraphStores {
  import opened Options
  import opened SymbolGraph

  datatype Outcome = Done | Skipped | Failed

  class GraphStore {
    var files: map<Id, File>
    var symbols: map<Id, Symbol>
    var edges: map<EdgeKey, Id>
    var pending: map<Id, PendingEdge>
    /** AUTOINCREMENT: the next row ids. */
    var nextFile: Id
    var nextSymbol: Id
    var nextRow: Id

    function View(): Graph
      reads this
    {
      Graph(files, symbols, edges, pending)
    }

    /** Row ids handed out so far are below the counters. */
    ghost predicate Valid()
      reads this
    {
      && nextFile > 0 && nextSymbol > 0
      && (forall f :: f in files ==> 0 < f < nextFile)
      && (forall s :: s in symbols ==> 0 < s < nextSymbol)
      && (forall r :: r in pending ==> r < nextRow)
      && PathsUnique(View())
    }

    constructor ()
      ensures Valid() && View() == EMPTY
    {
      files, symbols, edges, pending := map[], map[], map[], map[];
      nextFile, nextSymbol, nextRow := 1, 1, 1;
    }

    /** 0 when there is no such symbol. */
    method LookupSymbol(name: string, file: Id, language: string) returns (id: Id)
      requires 0 !in symbols
      ensures id == 0 <==> Candidates(View(), name, file, language) == {}
      ensures id != 0 ==> id in Candidates(View(), name, file, language)
      ensures Finds(View(), name, file, language, id)
    {
      id := PickSymbol(name, file, language);
      CandidateFinds(View(), name, file, language, id);
    }

    method PickSymbol(name: string, file: Id, language: string) returns (id: Id)
      requires 0 !in symbols
      ensures id == 0 <==> Candidates(View(), name, file, language) == {}
      ensures id != 0 ==> id in Candidates(View(), name, file, language)
    {
      if file > 0 {
        if s :| s in InFile(View(), name, file) {
          return s;
        }
        assert InFile(View(), name, file) == {};
      }
      if language != "" {
        if s :| s in InLanguage(View(), name, language) {
          return s;
        }
        assert InLanguage(View(), name, language) == {};
        return 0;
      }
      if s :| s in Named(View(), name) {
        return s;
      }
      assert Named(View(), name) == {};
      return 0;
    }

    method InsertEdge(file: Id, parsed: seq<ParsedEdge>, i: nat, ids: map<string, Id>, language: string, ghost g: Graph)
      requires Valid() && i < |parsed| && forall n :: n in ids ==> ids[n] != 0
      requires Inserted(g, View(), parsed[..i], ids, file, language)
      modifies `edges, `pending, `nextRow
      ensures Valid() && Inserted(g, View(), parsed[..i + 1], ids, file, language)
    {
      var e := parsed[i];
      ghost var h := View();
      SameLookup(g, h, e.dst, ids, file, language);
      if e.src !in ids {
        InsertedMore(g, h, parsed, i, ids, file, language);
        return;
      }
      var srcId := ids[e.src];
      var dstId := if e.dst in ids then ids[e.dst] else 0;
      if dstId == 0 {
        dstId := LookupSymbol(e.dst, file, language);
      }
      if dstId != 0 {
        var k := EdgeKey(srcId, dstId, e.kind);
        InsertedEdge(g, h, parsed, i, ids, file, language, dstId);
        if k !in edges {
          edges := edges[k := file];
        }
        assert View() == WithEdge(h, k, file);
      } else {
        InsertedRow(g, h, parsed, i, ids, file, language, nextRow);
        pending := pending[nextRow := PendingEdge(srcId, file, e.dst, e.kind, language)];
        nextRow := nextRow + 1;
      }
    }

    /** Resolved edges go to one table, unresolved ones to the other. A source the job did not define is dropped. */
    method InsertEdges(file: Id, parsed: seq<ParsedEdge>, ids: map<string, Id>, language: string)
      requires Valid() && forall n :: n in ids ==> ids[n] != 0
      modifies `edges, `pending, `nextRow
      ensures Valid() && Inserted(old(View()), View(), parsed, ids, file, language)
    {
      ghost var g := View();
      for i := 0 to |parsed|
        invariant Valid() && Inserted(g, View(), parsed[..i], ids, file, language)
      {
        InsertEdge(file, parsed, i, ids, language, g);
      }
      assert parsed[..|parsed|] == parsed;
    }

    /** One pending edge: moved if it can be resolved now. */
    method ResolveRow(r: Id, ghost g: Graph, ghost rows: set<Id>)
      requires Valid() && MovedRows(g, View(), rows) && r in pending && r in g.pending && r !in rows
      modifies `edges, `pending
      ensures Valid() && MovedRows(g, View(), rows + {r})
      ensures pending.Keys >= old(pending.Keys) - {r}
    {
      var p := pending[r];
      ghost var h := View();
      SameLookup(g, h, p.dst, map[], 0, p.language);
      var dstId := LookupSymbol(p.dst, 0, p.language);
      if dstId != 0 {
        var k := EdgeKey(p.src, dstId, p.kind);
        MovedRowsMove(g, h, rows, r, k);
        if k !in edges {
          edges := edges[k := p.file];
        }
        pending := pending - {r};
        assert View() == WithMoved(h, r, k, p.file);
      } else {
        MovedRowsSkip(g, h, rows, r);
      }
    }

    /** The pending edges that name one of `names` and can be resolved become edges. */
    method ResolvePendingEdges(names: seq<string>)
      requires Valid()
      modifies `edges, `pending
      ensures Valid() && ResolvedNames(old(View()), View(), set n | n in names)
    {
      ghost var g := View();
      ghost var wanted := set n | n in names;
      if |names| == 0 {
        assert RowsNaming(g, wanted) == {};
        MovedRowsResolve(g, g, wanted);
        return;
      }
      var toResolve := set r | r in pending && pending[r].dst in names;
      ghost var all, rows: set<Id> := toResolve, {};
      assert all == RowsNaming(g, wanted);
      while exists r :: r in toResolve
        invariant Valid() && MovedRows(g, View(), rows)
        invariant rows <= all && toResolve == all - rows
        invariant toResolve <= pending.Keys
        decreases toResolve
      {
        var r :| r in toResolve;
        OneRowLess(all, rows, r);
        ResolveRow(r, g, rows);
        toResolve, rows := toResolve - {r}, rows + {r};
      }
      AllTaken(all, rows, toResolve);
      MovedRowsResolve(g, View(), wanted);
    }

    method DeleteEdgesByFile(file: Id)
      modifies `edges
      ensures View() == WithoutEdgesOf(old(View()), file)
    {
      edges := map k | k in edges && edges[k] != file :: edges[k];
    }

    // ---- The other tables, as far as the job uses them ----

    method GetFileByPath(path: string) returns (found: Option<Id>)
      ensures found.Some? ==> found.value in files && files[found.value].path == path
      ensures found.None? ==> forall f :: f in files ==> files[f].path != path
    {
      if f :| f in files && files[f].path == path {
        return Some(f);
      }
      return None;
    }

    method UpsertFile(record: File) returns (file: Id)
      requires Valid()
      modifies `files, `nextFile
      ensures Valid() && RowFor(old(View()), record.path, file)
      ensures View() == Upserted(old(View()), file, record)
    {
      var found := GetFileByPath(record.path);
      if found.Some? {
        file := found.value;
      } else {
        file := nextFile;
        nextFile := nextFile + 1;
      }
      files := files[file := record];
    }

    /** The foreign keys cascade from chunks to symbols to both edge tables. */
    method DeleteChunksByFile(file: Id)
      requires Valid()
      modifies `symbols, `edges, `pending
      ensures Valid() && View() == WithoutSymbols(old(View()), file)
    {
      var g := WithoutSymbols(View(), file);
      symbols, edges, pending := g.symbols, g.edges, g.pending;
    }

    /** One more row; `g` are the tables and `lo` the next id before the first. */
    method AddSymbol(file: Id, ghost names: seq<string>, name: string, ids: seq<Id>, ghost added: map<Id, Symbol>,
                     ghost g: Graph, ghost lo: Id)
      returns (moreIds: seq<Id>, ghost more: map<Id, Symbol>)
      requires Valid() && View() == Extended(g, added) && AddedFor(file, names, ids, added, lo, nextSymbol)
      modifies `symbols, `nextSymbol
      ensures Valid() && View() == Extended(g, more) && AddedFor(file, names + [name], moreIds, more, lo, nextSymbol)
    {
      AddOne(file, names, ids, added, lo, nextSymbol, name);
      ExtendOne(g, added, nextSymbol, Symbol(name, file));
      moreIds, more := ids + [nextSymbol], added[nextSymbol := Symbol(name, file)];
      symbols := symbols[nextSymbol := Symbol(name, file)];
      nextSymbol := nextSymbol + 1;
    }

    method InsertSymbols(file: Id, names: seq<string>) returns (ids: seq<Id>, ghost added: map<Id, Symbol>)
      requires Valid()
      modifies `symbols, `nextSymbol
      ensures Valid() && View() == Extended(old(View()), added)
      ensures AddedFor(file, names, ids, added, old(nextSymbol), nextSymbol)
    {
      ids, added := [], map[];
      assert Extended(View(), added) == View();
      for i := 0 to |names|
        invariant Valid() && View() == Extended(old(View()), added)
        invariant AddedFor(file, names[..i], ids, added, old(nextSymbol), nextSymbol)
      {
        assert names[..i + 1] == names[..i] + [names[i]];
        ids, added := AddSymbol(file, names[..i], names[i], ids, added, old(View()), old(nextSymbol));
      }
      assert names[..|names|] == names;
    }

    // ---- Jobs ----

    /** Inserts the job's symbols and maps each name to its first symbol. */
    method WriteSymbols(file: Id, job: Job)
      returns (names: seq<string>, symbolIds: map<string, Id>, ghost added: map<Id, Symbol>)
      requires Valid() && file in files
      modifies `symbols, `nextSymbol
      ensures Valid() && View() == Extended(old(View()), added)
      ensures names == InChunks(job.symbols, job.chunks) && symbolIds.Keys == Names(added) == set n | n in names
      ensures Numbered(added, names, file, old(nextSymbol))
      ensures FreshSymbols(old(View()), file, added, Names(added)) && forall s :: s in added ==> s >= old(nextSymbol)
      ensures OwnSymbols(View(), symbolIds, file)
    {
      names := InChunks(job.symbols, job.chunks);
      var ids;
      ids, added := InsertSymbols(file, names);
      symbolIds := FirstIds(names, ids);
      NumberedNames(added, names, file, old(nextSymbol));
      FirstAreOwn(old(View()), file, names, ids, added, symbolIds, old(nextSymbol), nextSymbol);
    }

    /** The edge transaction: old edges out, new edges in, pending edges that name the new symbols resolved. */
    method WriteEdges(file: Id, job: Job, names: seq<string>, symbolIds: map<string, Id>)
      returns (ghost inserted: Graph)
      requires Valid() && forall n :: n in symbolIds ==> symbolIds[n] != 0
      modifies `edges, `pending, `nextRow
      ensures Valid()
      ensures Inserted(WithoutEdgesOf(old(View()), file), inserted, job.edges, symbolIds, file, job.language)
      ensures ResolvedNames(inserted, View(), set n | n in names)
    {
      DeleteEdgesByFile(file);
      InsertEdges(file, job.edges, symbolIds, job.language);
      inserted := View();
      ResolvePendingEdges(names);
    }

    /**
     processEnrichmentJob. `stale` says that the row was written after the job was made, `fails` which of the
     store's operations return an error; each is a transaction, so the failing one leaves nothing behind.
     */
    method IndexFile(job: Job, stale: bool, fails: nat -> bool) returns (outcome: Outcome, ghost t: Trail)
      requires Valid()
      modifies this
      ensures Valid()
      ensures outcome == Done ==> Follows(old(View()), t, View(), job) && Brings(t, job)
      ensures outcome == Skipped ==> View() == old(View())
      ensures outcome == Failed ==> FailedAt(old(View()), t, View(), job) && BrokeAt(fails, old(View()), t, job, View())
      ensures outcome == Skipped <==> HashKnown(old(View()), job) || (stale && MaySkip(old(View()), job))
      ensures !stale && outcome == Skipped ==>
                exists f :: f in old(files) && old(files)[f].path == job.path && old(files)[f].hash == job.hash
      ensures job.hash == "" ==> outcome != Skipped
      ensures outcome == Done ==> forall k :: 0 <= k < STAGES ==> !fails(k)
      ensures Indexed(old(View()), t, View(), job)
    {
      var known := GetFileByPath(job.path);
      t := Trail(0, map[], map[], View());
      if job.hash != "" && known.Some? && (files[known.value].hash == job.hash || stale) {
        return Skipped, t;
      }
      outcome, t := Reindex(job, fails);
    }

    /** The file's row written and its chunks deleted. */
    method ReplaceRow(job: Job, fails: nat -> bool) returns (failed: bool, file: Id)
      requires Valid()
      modifies `files, `nextFile, `symbols, `edges, `pending
      ensures Valid() && RowFor(old(View()), job.path, file)
      ensures !failed ==> View() == Cleared(old(View()), file, RecordOf(job))
      ensures failed <==> fails(0) || fails(1)
      ensures failed ==>
                View() == if fails(0) then old(View()) else Upserted(old(View()), file, RecordOf(job))
    {
      if fails(0) {
        var known := GetFileByPath(job.path);
        return true, if known.Some? then known.value else nextFile;
      }
      file := UpsertFile(RecordOf(job));
      if fails(1) {
        return true, file;
      }
      DeleteChunksByFile(file);
      return false, file;
    }

    method Reindex(job: Job, fails: nat -> bool) returns (outcome: Outcome, ghost t: Trail)
      requires Valid()
      modifies this
      ensures Valid() && outcome != Skipped
      ensures outcome == Done ==> Follows(old(View()), t, View(), job) && Brings(t, job)
      ensures outcome == Failed ==> FailedAt(old(View()), t, View(), job) && BrokeAt(fails, old(View()), t, job, View())
      ensures outcome == Done ==> forall k :: 0 <= k < STAGES ==> !fails(k)
    {
      ghost var g := View();
      var failed, file := ReplaceRow(job, fails);
      t := Trail(file, map[], map[], g);
      if failed || fails(2) || fails(3) {
        ghost var k := if fails(0) then 0 else if fails(1) then 1 else if fails(2) then 2 else 3;
        Broke(fails, g, t, job, View(), k);
        return Failed, t;
      }
      outcome, t := WriteParse(file, job, fails, g);
    }

    /** The last two stages: the symbols and then the edges. */
    method WriteParse(file: Id, job: Job, fails: nat -> bool, ghost g: Graph)
      returns (outcome: Outcome, ghost t: Trail)
      requires Valid() && View() == Cleared(g, file, RecordOf(job)) && RowFor(g, job.path, file)
      requires forall k :: 0 <= k < STAGES - 1 ==> !fails(k)
      requires forall s :: s in g.symbols ==> s < nextSymbol
      modifies `symbols, `nextSymbol, `edges, `pending, `nextRow
      ensures Valid() && outcome != Skipped
      ensures outcome == Done ==> Follows(g, t, View(), job) && Brings(t, job) && !fails(STAGES - 1)
      ensures outcome == Failed ==> FailedAt(g, t, View(), job) && BrokeAt(fails, g, t, job, View())
    {
      var names, symbolIds;
      ghost var added;
      names, symbolIds, added := WriteSymbols(file, job);
      t := Trail(file, added, symbolIds, g);
      if fails(4) {
        Broke(fails, g, t, job, View(), 4);
        return Failed, t;
      }
      ghost var inserted := WriteEdges(file, job, names, symbolIds);
      t := t.(inserted := inserted);
      return Done, t;
    }

    /** A file-delete job; no such file is no error. */
    method DeleteFile(path: string)
      requires Valid()
      modifies this
      ensures Valid()
      ensures Deleted(old(View()), View(), path)
    {
      ghost var g := View();
      var found := GetFileByPath(path);
      if found.Some? {
        var h := WithoutFile(View(), found.value);
        files, symbols, edges, pending := h.files, h.symbols, h.edges, h.pending;
        assert found.value in g.files && View() == WithoutFile(g, found.value);
      }
    }
  }

  /** The first operation that fails says how far the job got. */
  ghost predicate BrokeAt(fails: nat -> bool, g: Graph, t: Trail, job: Job, h: Graph) {
    exists k :: 0 <= k < STAGES && fails(k) && (forall j :: 0 <= j < k ==> !fails(j)) && h == TablesAt(g, t, job, k)
  }

  lemma Broke(fails: nat -> bool, g: Graph, t: Trail, job: Job, h: Graph, k: nat)
    requires k < STAGES && fails(k) && (forall j :: 0 <= j < k ==> !fails(j)) && h == TablesAt(g, t, job, k)
    requires RowFor(g, job.path, t.file)
    requires t.added == map[] || FreshSymbols(Cleared(g, t.file, RecordOf(job)), t.file, t.added, Names(t.added))
    ensures FailedAt(g, t, h, job) && BrokeAt(fails, g, t, job, h)
  {}

  /** `ids` are new row ids from `lo` up to below `hi`, one for each name. */
  ghost predicate AddedFor(file: Id, names: seq<string>, ids: seq<Id>, added: map<Id, Symbol>, lo: Id, hi: Id) {
    && hi == lo + |names| && Numbered(added, names, file, lo)
    && |ids| == |names| && forall i :: 0 <= i < |ids| ==> ids[i] == lo + i
  }

  lemma ExtendOne(g: Graph, added: map<Id, Symbol>, s: Id, symbol: Symbol)
    ensures Extended(g, added[s := symbol]) == Extended(g, added).(symbols := Extended(g, added).symbols[s := symbol])
  {}

  lemma OneRowLess(all: set<Id>, rows: set<Id>, r: Id)
    requires rows <= all && r in all - rows
    ensures rows + {r} <= all && (all - rows) - {r} == all - (rows + {r})
  {}

  /** Among the first `n` symbols, `id` is that of the first one called `name`. */
  ghost predicate IsFirst(names: seq<string>, ids: seq<Id>, n: nat, name: string, id: Id)
    requires n <= |names| == |ids|
  {
    exists i :: 0 <= i < n && names[i] == name && name !in names[..i] && ids[i] == id
  }

  lemma FirstAreOwn(g: Graph, file: Id, names: seq<string>, ids: seq<Id>, added: map<Id, Symbol>,
                    first: map<string, Id>, lo: Id, hi: Id)
    requires AddedFor(file, names, ids, added, lo, hi)
    requires forall n :: n in first ==> IsFirst(names, ids, |names|, n, first[n])
    ensures OwnSymbols(Extended(g, added), first, file)
  {}

  lemma AllTaken(all: set<Id>, rows: set<Id>, rest: set<Id>)
    requires rows <= all && rest == all - rows && forall r :: r !in rest
    ensures rows == all
  {
    forall r | r in all ensures r in rows {
      assert r !in rest;
    }
  }

  lemma AddOne(file: Id, names: seq<string>, ids: seq<Id>, added: map<Id, Symbol>, lo: Id, hi: Id, name: string)
    requires AddedFor(file, names, ids, added, lo, hi)
    ensures AddedFor(file, names + [name], ids + [hi], added[hi := Symbol(name, file)], lo, hi + 1)
  {}

  /** The name to id map of the job: the first symbol of each name wins. */
  method FirstIds(names: seq<string>, ids: seq<Id>) returns (first: map<string, Id>)
    requires |names| == |ids|
    ensures first.Keys == set n | n in names
    ensures forall n :: n in first ==> IsFirst(names, ids, |names|, n, first[n])
  {
    first := map[];
    for i := 0 to |names|
      invariant first.Keys == set n | n in names[..i]
      invariant forall n :: n in first ==> IsFirst(names, ids, i, n, first[n])
    {
      assert names[..i + 1] == names[..i] + [names[i]];
      if names[i] !in first {
        first := first[names[i] := ids[i]];
      }
    }
    assert names[..|names|] == names;
  }
}
