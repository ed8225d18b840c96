/**
 The brute-force vector store (internal/vector/bruteforce/store.go).

 Go ranges over a map in any order, so that order is a parameter: a listing of the ids. The similarity of
 two vectors is a parameter too, with no value where the source gets NaN or an infinity.
 */
module VectorStores {
  import opened Bytes
  import opened Disks
  import opened Options
  import opened ScoreHeaps
  import opened TopKs
  import opened VectorFile

  datatype LoadOutcome = NoFile | OpenFailed | Done | Error(error: LoadError)

  function FirstBytes(bs: seq<Byte>, n: nat): seq<Byte> {
    if n < |bs| then bs[..n] else bs
  }

  /** Each id once. */
  ghost predicate IsListing(order: seq<Int64>, ids: set<Int64>) {
    && (forall i, j :: 0 <= i < j < |order| ==> order[i] != order[j])
    && forall id :: id in order <==> id in ids
  }

  function Inserted(vectors: map<Int64, Vector>, ids: seq<Int64>, vecs: seq<Vector>): map<Int64, Vector>
    requires |ids| == |vecs|
  {
    if ids == [] then vectors
    else Inserted(vectors, ids[..|ids| - 1], vecs[..|ids| - 1])[ids[|ids| - 1] := vecs[|ids| - 1]]
  }

  /** The entries a search ranks: those of the right dimension with a finite similarity, in map order. */
  function Ranked(query: Vector, vectors: map<Int64, Vector>, dim: nat, order: seq<Int64>,
                  sim: (Vector, Vector) -> Option<real>): seq<Scored>
    requires forall id :: id in order ==> id in vectors
  {
    if order == [] then []
    else
      var id := order[|order| - 1];
      var rest := Ranked(query, vectors, dim, order[..|order| - 1], sim);
      if |vectors[id]| == dim && sim(query, vectors[id]).Some?
      then rest + [Scored(id, sim(query, vectors[id]).value)] else rest
  }

  class VectorStore {
    var vectors: map<Int64, Vector>
    var dim: nat

    constructor (dim: nat)
      ensures Valid() && vectors == map[] && this.dim == dim
    {
      vectors := map[];
      this.dim := dim;
    }

    ghost predicate Valid()
      reads this
    {
      forall id :: id in vectors ==> |vectors[id]| == dim
    }

    method Upsert(id: Int64, v: Vector) returns (ok: bool)
      requires Valid()
      modifies this`vectors
      ensures Valid()
      ensures ok <==> |v| == dim
      ensures vectors == if ok then old(vectors)[id := v] else old(vectors)
    {
      if |v| != dim {
        return false;
      }
      vectors := vectors[id := v];
      return true;
    }

    /** All dimensions are checked before anything is written. */
    method UpsertBatch(ids: seq<Int64>, vecs: seq<Vector>) returns (ok: bool)
      requires Valid()
      modifies this`vectors
      ensures Valid()
      ensures ok <==> |ids| == |vecs| && forall i :: 0 <= i < |vecs| ==> |vecs[i]| == dim
      ensures vectors == if ok then Inserted(old(vectors), ids, vecs) else old(vectors)
    {
      if |ids| != |vecs| {
        return false;
      }
      for i := 0 to |vecs|
        invariant forall k :: 0 <= k < i ==> |vecs[k]| == dim
      {
        if |vecs[i]| != dim {
          return false;
        }
      }
      for i := 0 to |ids|
        invariant Valid() && vectors == Inserted(old(vectors), ids[..i], vecs[..i])
      {
        assert ids[..i + 1][..i] == ids[..i] && vecs[..i + 1][..i] == vecs[..i];
        vectors := vectors[ids[i] := vecs[i]];
      }
      assert ids[..|ids|] == ids && vecs[..|vecs|] == vecs;
      return true;
    }

    method Delete(ids: seq<Int64>)
      requires Valid()
      modifies this`vectors
      ensures Valid()
      ensures vectors == map id | id in old(vectors) && id !in ids :: old(vectors)[id]
    {
      assert vectors == map id | id in vectors && id !in ids[..0] :: vectors[id];
      for i := 0 to |ids|
        invariant vectors == map id | id in old(vectors) && id !in ids[..i] :: old(vectors)[id]
      {
        assert ids[..i + 1] == ids[..i] + [ids[i]];
        vectors := vectors - {ids[i]};
      }
      assert ids[..|ids|] == ids;
    }

    method Has(id: Int64) returns (has: bool)
      ensures has <==> id in vectors
    {
      has := id in vectors;
    }

    /**
     The `topK` best of the ranked entries, best first; no result without a positive `topK`, an error
     for a query of the wrong dimension.
     */
    method Search(query: Vector, topK: int, order: seq<Int64>, sim: (Vector, Vector) -> Option<real>)
      returns (r: Option<seq<Scored>>)
      requires IsListing(order, vectors.Keys)
      ensures r == None <==> topK > 0 && |query| != dim
      ensures topK <= 0 ==> r == Some([])
      ensures topK > 0 && |query| == dim ==> IsTopK(r.value, Ranked(query, vectors, dim, order, sim), topK)
    {
      if topK <= 0 {
        return Some([]);
      }
      if |query| != dim {
        return None;
      }
      if |vectors| == 0 {
        NothingListed(order, vectors.Keys);
        return Some([]);
      }
      var h := new ScoreHeap();
      ghost var all, dropped := [], multiset{};
      for i := 0 to |order|
        invariant fresh(h) && IsHeap(h.items)
        invariant all == Ranked(query, vectors, dim, order[..i], sim)
        invariant KeepsBest(h.items, dropped, all, topK)
      {
        var id := order[i];
        assert order[..i + 1][..i] == order[..i] && order[i] in order;
        if |vectors[id]| != dim {
          continue;
        }
        var s := sim(query, vectors[id]);
        if s == None {
          continue;
        }
        var x := Scored(id, s.value);
        dropped := Offer(h, x, topK, dropped, all);
        all := all + [x];
      }
      assert order[..|order|] == order;
      ghost var kept := multiset(h.items);
      var out := PopAll(h);
      assert multiset(out) == kept;
      BestIsTopK(out, kept, dropped, all, topK);
      return Some(out);
    }

    /** One entry for the heap of the best so far. */
    static method Offer(h: ScoreHeap, x: Scored, topK: nat, ghost before: multiset<Scored>, ghost all: seq<Scored>)
      returns (ghost dropped: multiset<Scored>)
      requires topK > 0 && IsHeap(h.items) && KeepsBest(h.items, before, all, topK)
      modifies h
      ensures IsHeap(h.items) && KeepsBest(h.items, dropped, all + [x], topK)
    {
      ghost var items := h.items;
      dropped := before;
      if |h.items| < topK {
        h.Push(x);
        PushKeepsBest(items, h.items, dropped, all, topK, x);
      } else if x.score > h.items[0].score {
        h.ReplaceRoot(x);
        ReplaceKeepsBest(items, h.items, dropped, all, topK, x);
        dropped := dropped + multiset{items[0]};
      } else {
        DropKeepsBest(items, dropped, all, topK, x);
        dropped := dropped + multiset{x};
      }
    }

    /**
     Writes the whole store to a temporary file and renames it into place. Step `k` of the file I/O goes as
     `io(k)` says; `removeOk` is the outcome of the deferred removal, which is ignored. After a failure the
     temporary file may be left if it could not be removed, and nothing else has changed. Whoever looks in
     between finds at `path` what was there before or, at the very end, the whole new file.
     */
    method SaveToDisk(disk: Disk, path: string, tmp: string, order: seq<Int64>, crc: seq<Byte> -> Bits32,
                      io: nat -> IoStep, removeOk: bool)
      returns (ok: bool)
      requires Valid() && IsListing(order, vectors.Keys)
      requires tmp !in disk.files && tmp != path
      modifies disk
      ensures ok <==> forall k :: 0 <= k < |order| + 7 ==> io(k).ok
      ensures ok ==> disk.files == old(disk.files)[path := FileOf(dim, order, vectors, crc)]
      ensures !ok ==> SameBut(old(disk.files), disk.files, tmp)
      ensures !ok && removeOk ==> disk.files == old(disk.files)
      ensures |old(disk.seen)| <= |disk.seen|
      ensures forall i :: |old(disk.seen)| <= i < |disk.seen| ==>
                || SameBut(old(disk.files), disk.seen[i], tmp)
                || (ok && disk.seen[i] == disk.files)
    {
      // directory, temporary file
      if !io(0).ok || !io(1).ok {
        return false;
      }
      ghost var before, from := disk.files, |disk.seen|;
      disk.Create(tmp);
      assert disk.files - {tmp} == before;
      ok := FillAndRename(disk, path, tmp, order, crc, io, from, before);
      if removeOk {
        ghost var files := disk.files;
        disk.Remove(tmp);
        assert disk.files - {tmp} == files - {tmp};
      }
    }

    /** Everything between the creation of the temporary file and the deferred removal. */
    method FillAndRename(disk: Disk, path: string, tmp: string, order: seq<Int64>, crc: seq<Byte> -> Bits32,
                         io: nat -> IoStep, ghost from: nat, ghost before: Directory)
      returns (ok: bool)
      requires Valid() && IsListing(order, vectors.Keys) && tmp != path
      requires tmp in disk.files && disk.files[tmp] == []
      requires SameBut(before, disk.files, tmp) && disk.OnlySeen(from, before, tmp)
      modifies disk
      ensures ok <==> forall k :: 2 <= k < |order| + 7 ==> io(k).ok
      ensures ok ==> disk.files == before[path := FileOf(dim, order, vectors, crc)]
      ensures !ok ==> SameBut(before, disk.files, tmp) && disk.OnlySeen(from, before, tmp)
      ensures ok ==> disk.seen != [] && disk.seen[|disk.seen| - 1] == disk.files && from < |disk.seen|
      ensures ok ==> forall i :: from <= i < |disk.seen| - 1 ==> SameBut(before, disk.seen[i], tmp)
    {
      var n := |order|;
      ok := Fill(disk, tmp, order, crc, io, from, before);
      // close, rename
      if !ok || !io(n + 5).ok || !io(n + 6).ok {
        return false;
      }
      RenameInto(disk, tmp, path, from, before);
    }

    /** The temporary file is filled, or a write or the flush fails. */
    method Fill(disk: Disk, tmp: string, order: seq<Int64>, crc: seq<Byte> -> Bits32, io: nat -> IoStep,
                ghost from: nat, ghost before: Directory)
      returns (ok: bool)
      requires Valid() && forall id :: id in order ==> id in vectors
      requires tmp in disk.files && disk.files[tmp] == []
      requires SameBut(before, disk.files, tmp) && disk.OnlySeen(from, before, tmp)
      modifies disk
      ensures tmp in disk.files && SameBut(before, disk.files, tmp) && disk.OnlySeen(from, before, tmp)
      ensures ok <==> forall k :: 2 <= k < |order| + 5 ==> io(k).ok
      ensures ok ==> disk.files[tmp] == FileOf(dim, order, vectors, crc)
    {
      var n, held, hashed := |order|, [], [];
      ok, held, hashed := WriteBody(disk, tmp, order, io, from, before);
      if ok {
        ok := WriteSum(disk, tmp, held, Put(crc(hashed), 4), io(n + 3), io(n + 4), from, before);
      }
    }

    static method RenameInto(disk: Disk, tmp: string, path: string, ghost from: nat, ghost before: Directory)
      requires tmp in disk.files && tmp != path
      requires SameBut(before, disk.files, tmp) && disk.OnlySeen(from, before, tmp)
      modifies disk
      ensures disk.files == before[path := old(disk.files)[tmp]]
      ensures from < |disk.seen| && disk.seen[|disk.seen| - 1] == disk.files
      ensures forall i :: from <= i < |disk.seen| - 1 ==> SameBut(before, disk.seen[i], tmp)
    {
      disk.Rename(tmp, path);
    }

    /** The checksum and the flush. */
    static method WriteSum(disk: Disk, tmp: string, held: seq<Byte>, sum: seq<Byte>, write: IoStep, flush: IoStep,
                           ghost from: nat, ghost before: Directory)
      returns (ok: bool)
      requires tmp in disk.files && SameBut(before, disk.files, tmp) && disk.OnlySeen(from, before, tmp)
      modifies disk
      ensures tmp in disk.files && SameBut(before, disk.files, tmp) && disk.OnlySeen(from, before, tmp)
      ensures ok <==> write.ok && flush.ok
      ensures ok ==> disk.files[tmp] == old(disk.files)[tmp] + held + sum
    {
      var left := disk.Write(tmp, held, sum, write.through, from, before);
      if !write.ok {
        return false;
      }
      var through := if flush.ok then |left| else flush.through;
      assert left + [] == left;
      ghost var written := disk.files[tmp] + left;
      assert written == old(disk.files)[tmp] + held + sum && disk.files[tmp] + left + [] == written;
      left := disk.Write(tmp, left, [], through, from, before);
      ok := flush.ok;
      assert disk.files[tmp] + [] == disk.files[tmp];
    }

    /** Header and entries go through the buffer and into the checksum. */
    method WriteBody(disk: Disk, tmp: string, order: seq<Int64>, io: nat -> IoStep, ghost from: nat,
                     ghost before: Directory)
      returns (ok: bool, held: seq<Byte>, hashed: seq<Byte>)
      requires Valid() && forall id :: id in order ==> id in vectors
      requires tmp in disk.files && disk.files[tmp] == []
      requires SameBut(before, disk.files, tmp) && disk.OnlySeen(from, before, tmp)
      modifies disk
      ensures tmp in disk.files && SameBut(before, disk.files, tmp) && disk.OnlySeen(from, before, tmp)
      ensures ok <==> forall k :: 2 <= k < |order| + 3 ==> io(k).ok
      ensures ok ==> disk.files[tmp] + held == hashed == Header(dim, |order|) + Entries(order, vectors)
    {
      hashed := Header(dim, |order|);
      held := disk.Write(tmp, [], hashed, io(2).through, from, before);
      if !io(2).ok {
        return false, held, hashed;
      }
      var entryBuf := new Byte[8 + dim * 4];
      for i := 0 to |order|
        invariant tmp in disk.files && SameBut(before, disk.files, tmp) && disk.OnlySeen(from, before, tmp)
        invariant forall id :: id in order[..i] ==> id in vectors
        invariant disk.files[tmp] + held == hashed == Header(dim, |order|) + Entries(order[..i], vectors)
        invariant forall k :: 2 <= k < i + 3 ==> io(k).ok
        invariant fresh(entryBuf)
      {
        assert order[..i + 1] == order[..i] + [order[i]];
        EntriesSnoc(order[..i], order[i], vectors);
        WriteEntry(entryBuf, order[i], vectors[order[i]]);
        ConcatAssociative(Header(dim, |order|), Entries(order[..i], vectors), Entry(order[i], vectors[order[i]]));
        held := disk.Write(tmp, held, entryBuf[..], io(i + 3).through, from, before);
        if !io(i + 3).ok {
          return false, held, hashed;
        }
        hashed := hashed + entryBuf[..];
      }
      assert order[..|order|] == order;
      ok := true;
    }

    /**
     Replaces the store by the contents of a file, or leaves it alone. An existing file may fail to open, and
     a read fails once it goes beyond the first `readable` bytes, which is taken as a file that ends there.
     */
    method LoadFromDisk(disk: Disk, path: string, crc: seq<Byte> -> Bits32, openOk: bool, readable: nat)
      returns (r: LoadOutcome)
      requires Valid()
      modifies this
      ensures Valid()
      ensures r == NoFile <==> path !in disk.files
      ensures r == OpenFailed <==> path in disk.files && !openOk
      ensures path in disk.files && openOk ==>
                match Parse(FirstBytes(disk.files[path], readable), old(dim), crc)
                case Loaded(d, m) => r == Done && dim == d && vectors == m
                case Failed(e) => r == Error(e)
      ensures r != Done ==> dim == old(dim) && vectors == old(vectors)
    {
      if path !in disk.files {
        return NoFile;
      }
      if !openOk {
        return OpenFailed;
      }
      var bs := FirstBytes(disk.files[path], readable);
      ParsedIsSound(bs, dim, crc);
      if |bs| < 4 { return Error(ShortRead); }
      if bs[..4] != MAGIC { return Error(BadMagic); }
      if |bs| < 8 { return Error(ShortRead); }
      var version := Get(bs[4..8]);
      if version != 1 && version != 2 { return Error(BadVersion); }
      if |bs| < 16 { return Error(ShortRead); }
      var d, count := Get(bs[8..12]), Get(bs[12..16]);
      if d > MAX_DIM { return Error(DimTooLarge); }
      if count > MAX_VECTOR_COUNT { return Error(CountTooLarge); }
      if dim > 0 && d != dim { return Error(DimMismatch); }
      var ok, loaded, pos := ReadEntries(bs, d, count);
      if !ok { return Error(ShortRead); }
      if version == 2 {
        var computed := crc(bs[..pos]);
        if |bs| - pos < 4 { return Error(ShortRead); }
        if computed != Get(bs[pos..pos + 4]) { return Error(CrcMismatch); }
      }
      dim := d;
      vectors := loaded;
      return Done;
    }

    /** The loader's entry loop; a file that ends too early gives nothing. */
    static method ReadEntries(bs: seq<Byte>, d: nat, count: nat)
      returns (ok: bool, loaded: map<Int64, Vector>, pos: nat)
      requires |bs| >= 16
      ensures GetEntries(bs, 16, d, count, map[]) == if ok then Some((pos, loaded)) else None
      ensures ok ==> pos <= |bs|
    {
      loaded, pos := map[], 16;
      for i := 0 to count
        invariant pos <= |bs|
        invariant GetEntries(bs, 16, d, count, map[]) == GetEntries(bs, pos, d, count - i, loaded)
      {
        if |bs| - pos < 8 + 4 * d { return false, loaded, pos; }
        var id := ToInt64(Get(bs[pos..pos + 8]));
        loaded := loaded[id := GetVector(bs[pos + 8..pos + (8 + 4 * d)], d)];
        pos := pos + (8 + 4 * d);
      }
      ok := true;
    }

    /** Empties the heap into a slice, smallest last. */
    static method PopAll(h: ScoreHeap) returns (sorted: seq<Scored>)
      requires IsHeap(h.items)
      modifies h
      ensures Descending(sorted) && multiset(sorted) == multiset(old(h.items))
    {
      var out := new Scored[|h.items|];
      var i := |h.items|;
      while i > 0
        invariant 0 <= i == |h.items| <= out.Length && IsHeap(h.items)
        invariant Emptying(multiset(old(h.items)), h.items, out[i..])
      {
        i := i - 1;
        ghost var before, tail := h.items, out[i + 1..];
        var x := h.Pop();
        out[i] := x;
        assert out[i..] == [x] + tail;
        PoppedLeast(before, h.items, x);
        EmptyingStep(multiset(old(h.items)), before, h.items, x, tail);
      }
      assert multiset(h.items) == multiset{};
      sorted := out[..];
      assert out[0..] == out[..];
    }
  }

  // ---- Writing entries ----

  /** PutUint32 or PutUint64 at an offset of a buffer. */
  method PutAt(buf: array<Byte>, off: nat, n: nat, size: nat)
    requires off + size <= buf.Length
    modifies buf
    ensures buf[..] == old(buf[..off]) + Put(n, size) + old(buf[off + size..])
  {
    var rest := n;
    for k := 0 to size
      invariant Put(n, size)[k..] == Put(rest, size - k)
      invariant buf[..off] == old(buf[..off]) && buf[off + size..] == old(buf[off + size..])
      invariant buf[off..off + k] == Put(n, size)[..k]
    {
      assert Put(n, size)[k] == Put(rest, size - k)[0];
      buf[off + k] := rest % 256;
      assert Put(n, size)[k + 1..] == Put(n, size)[k..][1..];
      rest := rest / 256;
    }
    assert buf[..] == buf[..off] + buf[off..off + size] + buf[off + size..];
  }

  /** Fills the whole entry buffer, so nothing of the entry before it remains. */
  method WriteEntry(buf: array<Byte>, id: Int64, v: Vector)
    requires buf.Length == 8 + 4 * |v|
    modifies buf
    ensures buf[..] == Entry(id, v)
  {
    PutAt(buf, 0, ToUint64(id), 8);
    assert buf[..8] == Put(ToUint64(id), 8);
    for j := 0 to |v|
      invariant buf[..8 + 4 * j] == Put(ToUint64(id), 8) + PutVector(v[..j])
    {
      WriteComponent(buf, Put(ToUint64(id), 8), v, j);
    }
    assert v[..|v|] == v;
    assert buf[..] == buf[..8 + 4 * |v|];
  }

  method WriteComponent(buf: array<Byte>, ghost idPart: seq<Byte>, v: Vector, j: nat)
    requires buf.Length == 8 + 4 * |v| && j < |v| && |idPart| == 8
    requires buf[..8 + 4 * j] == idPart + PutVector(v[..j])
    modifies buf
    ensures buf[..8 + 4 * (j + 1)] == idPart + PutVector(v[..j + 1])
  {
    EntryGrows(buf[..], idPart, v, j);
    PutAt(buf, 8 + 4 * j, v[j], 4);
    assert buf[..8 + 4 * (j + 1)] == buf[..][..8 + 4 * (j + 1)];
  }

  lemma EntryGrows(buf: seq<Byte>, idPart: seq<Byte>, v: Vector, j: nat)
    requires |idPart| == 8 && |buf| == 8 + 4 * |v| && j < |v|
    requires buf[..8 + 4 * j] == idPart + PutVector(v[..j])
    ensures var next := buf[..8 + 4 * j] + Put(v[j], 4) + buf[8 + 4 * j + 4..];
      next[..8 + 4 * (j + 1)] == idPart + PutVector(v[..j + 1])
  {
    var head, part := buf[..8 + 4 * j], Put(v[j], 4);
    PutVectorSnoc(v[..j], v[j]);
    assert v[..j + 1] == v[..j] + [v[j]];
    assert (head + part + buf[8 + 4 * j + 4..])[..8 + 4 * (j + 1)] == head + part;
  }

  lemma {:induction false} PutVectorSnoc(v: Vector, x: Bits32)
    ensures PutVector(v + [x]) == PutVector(v) + Put(x, 4)
  {
    if v != [] {
      PutVectorSnoc(v[1..], x);
      assert (v + [x])[1..] == v[1..] + [x];
    }
  }

  lemma {:induction false} EntriesSnoc(order: seq<Int64>, id: Int64, vectors: map<Int64, Vector>)
    requires forall i :: i in order + [id] ==> i in vectors
    ensures forall i :: i in order ==> i in vectors
    ensures id in vectors && Entries(order + [id], vectors) == Entries(order, vectors) + Entry(id, vectors[id])
  {
    assert id in order + [id];
    forall i | i in order ensures i in vectors {
      assert i in order + [id];
    }
    if order != [] {
      EntriesSnoc(order[1..], id, vectors);
      assert (order + [id])[1..] == order[1..] + [id];
      ConcatAssociative(Entry(order[0], vectors[order[0]]), Entries(order[1..], vectors), Entry(id, vectors[id]));
    } else {
      assert [id][1..] == [];
    }
  }

  // ---- What a search returns ----

  lemma NothingListed(order: seq<Int64>, ids: set<Int64>)
    requires IsListing(order, ids)
    ensures ids == {} ==> order == []
  {
    if order != [] {
      assert order[0] in ids;
    }
  }

  /** The entry of a stored id, if it is valid. */
  predicate IsEntry(query: Vector, vectors: map<Int64, Vector>, dim: nat, sim: (Vector, Vector) -> Option<real>,
                    x: Scored)
  {
    x.id in vectors && |vectors[x.id]| == dim && sim(query, vectors[x.id]) == Some(x.score)
  }

  lemma {:induction false} RankedEntries(query: Vector, vectors: map<Int64, Vector>, dim: nat, order: seq<Int64>,
                                         sim: (Vector, Vector) -> Option<real>, n: nat, x: Scored)
    requires IsListing(order, vectors.Keys) && n <= |order|
    ensures forall id :: id in order[..n] ==> id in vectors
    ensures var all := Ranked(query, vectors, dim, order[..n], sim);
      && (x in all <==> x.id in order[..n] && IsEntry(query, vectors, dim, sim, x))
      && multiset(all)[x] <= 1
  {
    if n > 0 {
      RankedEntries(query, vectors, dim, order, sim, n - 1, x);
      OneMoreListed(order, n, x.id);
      assert order[n - 1] in order;
      RankedSnoc(query, vectors, dim, order[..n - 1], order[n - 1], sim, x);
    }
  }

  lemma OneMoreListed(order: seq<Int64>, n: nat, id: int)
    requires 0 < n <= |order| && forall i, j :: 0 <= i < j < |order| ==> order[i] != order[j]
    ensures order[..n] == order[..n - 1] + [order[n - 1]] && order[n - 1] !in order[..n - 1]
    ensures id in order[..n] <==> id in order[..n - 1] || id == order[n - 1]
  {
    assert order[..n] == order[..n - 1] + [order[n - 1]];
  }

  lemma RankedSnoc(query: Vector, vectors: map<Int64, Vector>, dim: nat, order: seq<Int64>, last: Int64,
                   sim: (Vector, Vector) -> Option<real>, x: Scored)
    requires last in vectors && forall id :: id in order ==> id in vectors
    ensures forall id :: id in order + [last] ==> id in vectors
    ensures var before := Ranked(query, vectors, dim, order, sim);
      var after := Ranked(query, vectors, dim, order + [last], sim);
      var added := x.id == last && IsEntry(query, vectors, dim, sim, x);
      && (x in after <==> x in before || added)
      && multiset(after)[x] == multiset(before)[x] + if added then 1 else 0
  {
    var before := Ranked(query, vectors, dim, order, sim);
    assert (order + [last])[..|order|] == order && (order + [last])[|order|] == last;
    if |vectors[last]| == dim && sim(query, vectors[last]).Some? {
      OneMoreCounts(before, Scored(last, sim(query, vectors[last]).value), x);
    }
  }

  lemma OneMoreCounts(all: seq<Scored>, y: Scored, x: Scored)
    ensures multiset(all + [y])[x] == multiset(all)[x] + if x == y then 1 else 0
    ensures x in all + [y] <==> x in all || x == y
  {}

  lemma RepeatedCounts(s: seq<Scored>, i: nat, j: nat)
    requires i < j < |s| && s[i] == s[j]
    ensures multiset(s)[s[i]] >= 2
  {
    assert s == s[..j] + s[j..];
    assert s[i] == s[..j][i] && s[i] == s[j..][0];
    assert s[i] in s[..j] && s[i] in s[j..];
  }

  /**
   A search returns distinct stored ids with their own similarities, and a stored, valid vector that it
   leaves out is no more similar than any that it returns.
   */
  lemma SearchReturnsBest(query: Vector, vectors: map<Int64, Vector>, dim: nat, order: seq<Int64>,
                          sim: (Vector, Vector) -> Option<real>, out: seq<Scored>, topK: nat)
    requires IsListing(order, vectors.Keys)
    requires IsTopK(out, Ranked(query, vectors, dim, order, sim), topK)
    ensures forall i, j :: 0 <= i < j < |out| ==> out[i].id != out[j].id
    ensures forall o :: o in out ==>
              o.id in vectors && |vectors[o.id]| == dim && sim(query, vectors[o.id]) == Some(o.score)
    ensures forall id, o | id in vectors && o in out ::
              (&& |vectors[id]| == dim && sim(query, vectors[id]).Some?
               && forall p :: p in out ==> p.id != id) ==>
              sim(query, vectors[id]).value <= o.score
  {
    var all := Ranked(query, vectors, dim, order, sim);
    forall o | o in out
      ensures o.id in vectors && |vectors[o.id]| == dim && sim(query, vectors[o.id]) == Some(o.score)
      ensures multiset(all)[o] <= 1
    {
      RankedEntries(query, vectors, dim, order, sim, |order|, o);
      assert order[..|order|] == order;
      assert o in multiset(out) && o in multiset(all);
    }
    forall i, j | 0 <= i < j < |out| ensures out[i].id != out[j].id {
      assert out[i] in out && out[j] in out;
      if out[i] == out[j] {
        RepeatedCounts(out, i, j);
      }
    }
    forall id, o | id in vectors && |vectors[id]| == dim && sim(query, vectors[id]).Some? && o in out
        && (forall p :: p in out ==> p.id != id)
      ensures sim(query, vectors[id]).value <= o.score
    {
      var x := Scored(id, sim(query, vectors[id]).value);
      RankedEntries(query, vectors, dim, order, sim, |order|, x);
      assert order[..|order|] == order;
      assert x in multiset(all) && x !in multiset(out);
      assert x in multiset(all) - multiset(out);
    }
  }

  /** Of two vectors for one id in a batch the later one stays. */
  lemma {:induction false} LastOneStays(vectors: map<Int64, Vector>, ids: seq<Int64>, vecs: seq<Vector>, i: nat)
    requires |ids| == |vecs| && i < |ids| && ids[i] !in ids[i + 1..]
    ensures var after := Inserted(vectors, ids, vecs); ids[i] in after && after[ids[i]] == vecs[i]
  {
    var n := |ids| - 1;
    if i < n {
      assert ids[i + 1..] == ids[..n][i + 1..] + [ids[n]];
      LastOneStays(vectors, ids[..n], vecs[..n], i);
    }
  }

  lemma {:induction false} OthersKeepTheirs(vectors: map<Int64, Vector>, ids: seq<Int64>, vecs: seq<Vector>, id: Int64)
    requires |ids| == |vecs|
    ensures var after := Inserted(vectors, ids, vecs);
      (id in after <==> id in vectors || id in ids) && (id in vectors && id !in ids ==> after[id] == vectors[id])
  {
    if ids != [] {
      var n := |ids| - 1;
      assert ids == ids[..n] + [ids[n]];
      OthersKeepTheirs(vectors, ids[..n], vecs[..n], id);
    }
  }

  /** The stored ids that a search ranks. */
  function ValidIds(query: Vector, vectors: map<Int64, Vector>, dim: nat, sim: (Vector, Vector) -> Option<real>,
                    order: seq<Int64>): set<Int64>
  {
    set id | id in order && id in vectors && |vectors[id]| == dim && sim(query, vectors[id]).Some?
  }

  lemma {:induction false} RankedCount(query: Vector, vectors: map<Int64, Vector>, dim: nat, order: seq<Int64>,
                                       sim: (Vector, Vector) -> Option<real>, n: nat)
    requires IsListing(order, vectors.Keys) && n <= |order|
    ensures forall id :: id in order[..n] ==> id in vectors
    ensures |Ranked(query, vectors, dim, order[..n], sim)| == |ValidIds(query, vectors, dim, sim, order[..n])|
  {
    if n > 0 {
      RankedCount(query, vectors, dim, order, sim, n - 1);
      var before, last := order[..n - 1], order[n - 1];
      OneMoreListed(order, n, last);
      var few, more := ValidIds(query, vectors, dim, sim, before), ValidIds(query, vectors, dim, sim, order[..n]);
      assert last !in few;
      assert more == if |vectors[last]| == dim && sim(query, vectors[last]).Some? then few + {last} else few;
    }
  }

  /** A search returns as many as were asked for, or every valid vector if there are fewer. */
  lemma SearchReturnsEnough(query: Vector, vectors: map<Int64, Vector>, dim: nat, order: seq<Int64>,
                            sim: (Vector, Vector) -> Option<real>, out: seq<Scored>, topK: nat)
    requires IsListing(order, vectors.Keys)
    requires IsTopK(out, Ranked(query, vectors, dim, order, sim), topK)
    ensures var valid := set id | id in vectors && |vectors[id]| == dim && sim(query, vectors[id]).Some?;
      |out| == if topK <= |valid| then topK else |valid|
  {
    RankedCount(query, vectors, dim, order, sim, |order|);
    assert order[..|order|] == order;
    assert ValidIds(query, vectors, dim, sim, order) ==
           set id | id in vectors && |vectors[id]| == dim && sim(query, vectors[id]).Some?;
  }

  // ---- Why the heap keeps the best ----

  /** The heap holds the best `topK` of the entries seen, `dropped` the others. */
  ghost predicate KeepsBest(items: seq<Scored>, dropped: multiset<Scored>, all: seq<Scored>, topK: nat) {
    && multiset(items) + dropped == multiset(all)
    && |items| == (if topK <= |all| then topK else |all|)
    && forall d, x :: d in dropped && x in items ==> d.score <= x.score
  }

  lemma PushKeepsBest(items: seq<Scored>, pushed: seq<Scored>, dropped: multiset<Scored>, all: seq<Scored>,
                      topK: nat, x: Scored)
    requires KeepsBest(items, dropped, all, topK) && |items| < topK
    requires multiset(pushed) == multiset(items) + multiset{x}
    ensures KeepsBest(pushed, dropped, all + [x], topK)
  {
    assert |multiset(pushed)| == |items| + 1;
    assert |multiset(items) + dropped| == |multiset(all)|;
    assert |dropped| == 0;
  }

  lemma ReplaceKeepsBest(items: seq<Scored>, replaced: seq<Scored>, dropped: multiset<Scored>, all: seq<Scored>,
                         topK: nat, x: Scored)
    requires KeepsBest(items, dropped, all, topK) && |items| == topK > 0 && IsHeap(items)
    requires x.score > items[0].score
    requires multiset(replaced) == multiset(items) - multiset{items[0]} + multiset{x}
    ensures KeepsBest(replaced, dropped + multiset{items[0]}, all + [x], topK)
  {
    assert items[0] in multiset(items);
    assert |multiset(replaced)| == |multiset(items)|;
    forall y | y in items ensures items[0].score <= y.score {
      var i :| 0 <= i < |items| && items[i] == y;
      RootIsLeast(items, i);
    }
    forall d, y | d in dropped + multiset{items[0]} && y in replaced ensures d.score <= y.score {
      assert y in multiset(replaced);
      assert y == x || y in multiset(items);
      assert d == items[0] || d in dropped;
    }
  }

  lemma DropKeepsBest(items: seq<Scored>, dropped: multiset<Scored>, all: seq<Scored>, topK: nat, x: Scored)
    requires KeepsBest(items, dropped, all, topK) && |items| == topK > 0 && IsHeap(items)
    requires x.score <= items[0].score
    ensures KeepsBest(items, dropped + multiset{x}, all + [x], topK)
  {
    forall y | y in items ensures x.score <= y.score {
      var i :| 0 <= i < |items| && items[i] == y;
      RootIsLeast(items, i);
    }
  }

  lemma PoppedLeast(before: seq<Scored>, after: seq<Scored>, x: Scored)
    requires IsHeap(before) && before != [] && x == before[0]
    requires multiset(before) == multiset(after) + multiset{x}
    ensures forall y :: y in after ==> y.score >= x.score && y in before
  {
    forall y | y in after ensures y.score >= x.score && y in before {
      assert y in multiset(before);
      var i :| 0 <= i < |before| && before[i] == y;
      RootIsLeast(before, i);
    }
  }

  /** The heap's elements are split between the heap and a descending tail below it. */
  ghost predicate Emptying(all: multiset<Scored>, items: seq<Scored>, tail: seq<Scored>) {
    && Descending(tail) && multiset(items) + multiset(tail) == all
    && forall x, o :: x in items && o in tail ==> x.score >= o.score
  }

  lemma EmptyingStep(all: multiset<Scored>, before: seq<Scored>, after: seq<Scored>, x: Scored, tail: seq<Scored>)
    requires Emptying(all, before, tail) && x in before && multiset(before) == multiset(after) + multiset{x}
    requires forall y :: y in after ==> y.score >= x.score && y in before
    ensures Emptying(all, after, [x] + tail)
  {
    forall j | 0 <= j < |tail| ensures x.score >= tail[j].score {
      assert tail[j] in tail;
    }
    assert multiset([x] + tail) == multiset{x} + multiset(tail);
  }

  lemma BestIsTopK(out: seq<Scored>, kept: multiset<Scored>, dropped: multiset<Scored>, all: seq<Scored>, topK: nat)
    requires Descending(out) && multiset(out) == kept
    requires kept + dropped == multiset(all) && |kept| == (if topK <= |all| then topK else |all|)
    requires forall d, x :: d in dropped && x in kept ==> d.score <= x.score
    ensures IsTopK(out, all, topK)
  {
    assert |out| == |multiset(out)|;
    assert multiset(all) - multiset(out) == dropped;
    forall o | o in out ensures o in kept {
      assert o in multiset(out);
    }
  }
}
