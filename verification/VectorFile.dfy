/**
 The binary file of the brute-force store (internal/vector/bruteforce/store.go): version 2 as written,
 versions 1 and 2 as read. A component is the 32-bit pattern of a float; CRC32 is a parameter, any
 function of the bytes.
 */
module VectorFile {
  import opened Bytes
  import opened Options

  type Bits32 = x: int | 0 <= x < 0x1_0000_0000
  type Int64 = x: int | -0x8000_0000_0000_0000 <= x < 0x8000_0000_0000_0000
  type Vector = seq<Bits32>

  const MAX_DIM: nat := 4096
  const MAX_VECTOR_COUNT: nat := 2_000_000
  const TWO_32: nat := 0x1_0000_0000
  const TWO_64: nat := 0x1_0000_0000_0000_0000

  // 'E', 'M', 'B', 'V'
  const MAGIC: seq<Byte> := [69, 77, 66, 86]

  // ---- Little-endian integers ----

  function Put(n: nat, size: nat): (bs: seq<Byte>)
    ensures |bs| == size
  {
    if size == 0 then [] else [n % 256] + Put(n / 256, size - 1)
  }

  function Get(bs: seq<Byte>): nat {
    if bs == [] then 0 else bs[0] + 256 * Get(bs[1..])
  }

  function Pow256(k: nat): nat {
    if k == 0 then 1 else 256 * Pow256(k - 1)
  }

  lemma {:induction false} GetPut(n: nat, size: nat)
    requires n < Pow256(size)
    ensures Get(Put(n, size)) == n
  {
    if size > 0 {
      GetPut(n / 256, size - 1);
      assert Put(n, size)[1..] == Put(n / 256, size - 1);
    }
  }

  lemma Sizes()
    ensures Pow256(4) == TWO_32 && Pow256(8) == TWO_64
  {
    assert Pow256(1) == 256 && Pow256(2) == 0x1_0000 && Pow256(3) == 0x100_0000;
    assert Pow256(5) == 0x100_0000_0000 && Pow256(6) == 0x1_0000_0000_0000 && Pow256(7) == 0x100_0000_0000_0000;
  }

  /** Go's conversions between int64 and uint64. */
  function ToUint64(id: Int64): nat {
    if id < 0 then id + TWO_64 else id
  }

  function ToInt64(n: nat): Int64 {
    var m := n % TWO_64;
    if m >= 0x8000_0000_0000_0000 then m - TWO_64 else m
  }

  // ---- Writing ----

  function PutVector(v: Vector): (bs: seq<Byte>)
    ensures |bs| == 4 * |v|
  {
    if v == [] then [] else Put(v[0], 4) + PutVector(v[1..])
  }

  function Entry(id: Int64, v: Vector): (bs: seq<Byte>)
    ensures |bs| == 8 + 4 * |v|
  {
    Put(ToUint64(id), 8) + PutVector(v)
  }

  function Header(dim: nat, count: nat): (bs: seq<Byte>)
    ensures |bs| == 16
  {
    MAGIC + Put(2, 4) + Put(dim % TWO_32, 4) + Put(count % TWO_32, 4)
  }

  function Entries(order: seq<Int64>, vectors: map<Int64, Vector>): seq<Byte>
    requires forall id :: id in order ==> id in vectors
  {
    if order == [] then [] else Entry(order[0], vectors[order[0]]) + Entries(order[1..], vectors)
  }

  /** The whole file, for one iteration order of the map. */
  function FileOf(dim: nat, order: seq<Int64>, vectors: map<Int64, Vector>, crc: seq<Byte> -> Bits32): seq<Byte>
    requires forall id :: id in order ==> id in vectors
  {
    var body := Header(dim, |order|) + Entries(order, vectors);
    body + Put(crc(body), 4)
  }

  // ---- Reading ----

  datatype LoadError =
    | ShortRead
    | BadMagic
    | BadVersion
    | DimTooLarge
    | CountTooLarge
    | DimMismatch
    | CrcMismatch

  datatype Loaded = Loaded(dim: nat, vectors: map<Int64, Vector>) | Failed(error: LoadError)

  function GetVector(bs: seq<Byte>, dim: nat): (v: Vector)
    requires |bs| == 4 * dim
    ensures |v| == dim
  {
    if dim == 0 then [] else [Get(bs[..4]) % TWO_32] + GetVector(bs[4..], dim - 1)
  }

  /** The entries from position `pos` on: the map they add up to and the position after them. */
  function GetEntries(bs: seq<Byte>, pos: nat, dim: nat, count: nat,
                      loaded: map<Int64, Vector>): (r: Option<(nat, map<Int64, Vector>)>)
    requires pos <= |bs|
    ensures r.Some? ==> r.value.0 <= |bs|
    decreases count
  {
    var size := 8 + 4 * dim;
    if count == 0 then Some((pos, loaded))
    else if |bs| - pos < size then None
    else
      var id := ToInt64(Get(bs[pos..pos + 8]));
      GetEntries(bs, pos + size, dim, count - 1, loaded[id := GetVector(bs[pos + 8..pos + size], dim)])
  }

  /** What LoadFromDisk makes of the bytes of a file, in a store expecting `expectDim` (0 for any). */
  function Parse(bs: seq<Byte>, expectDim: nat, crc: seq<Byte> -> Bits32): Loaded {
    if |bs| < 4 then Failed(ShortRead)
    else if bs[..4] != MAGIC then Failed(BadMagic)
    else if |bs| < 8 then Failed(ShortRead)
    else
      var version := Get(bs[4..8]);
      if version != 1 && version != 2 then Failed(BadVersion)
      else if |bs| < 16 then Failed(ShortRead)
      else
        var dim, count := Get(bs[8..12]), Get(bs[12..16]);
        if dim > MAX_DIM then Failed(DimTooLarge)
        else if count > MAX_VECTOR_COUNT then Failed(CountTooLarge)
        else if expectDim > 0 && dim != expectDim then Failed(DimMismatch)
        else
          var entries := GetEntries(bs, 16, dim, count, map[]);
          if entries == None then Failed(ShortRead)
          else
            var (pos, vectors) := entries.value;
            if version == 1 then Loaded(dim, vectors)
            else if |bs| - pos < 4 then Failed(ShortRead)
            else if Get(bs[pos..pos + 4]) != crc(bs[..pos]) then Failed(CrcMismatch)
            else Loaded(dim, vectors)
  }

  // ---- Round trip ----

  lemma IdRoundTrip(id: Int64)
    ensures ToInt64(Get(Put(ToUint64(id), 8))) == id
  {
    Sizes();
    GetPut(ToUint64(id), 8);
  }

  lemma {:induction false} VectorRoundTrip(v: Vector)
    ensures GetVector(PutVector(v), |v|) == v
  {
    if v != [] {
      Sizes();
      GetPut(v[0], 4);
      VectorRoundTrip(v[1..]);
      assert PutVector(v)[..4] == Put(v[0], 4);
      assert PutVector(v)[4..] == PutVector(v[1..]);
    }
  }

  function Listed(order: seq<Int64>, vectors: map<Int64, Vector>, onto: map<Int64, Vector>): map<Int64, Vector>
    requires forall id :: id in order ==> id in vectors
  {
    if order == [] then onto else Listed(order[1..], vectors, onto[order[0] := vectors[order[0]]])
  }

  lemma {:induction false} ListedAll(order: seq<Int64>, vectors: map<Int64, Vector>, onto: map<Int64, Vector>)
    requires forall id :: id in order ==> id in vectors
    ensures var m := Listed(order, vectors, onto);
      && (forall id :: id in m <==> id in order || id in onto)
      && forall id :: id in m ==> m[id] == if id in order then vectors[id] else onto[id]
  {
    if order != [] {
      ListedAll(order[1..], vectors, onto[order[0] := vectors[order[0]]]);
      assert order == [order[0]] + order[1..];
    }
  }

  lemma SliceAt(pre: seq<Byte>, mid: seq<Byte>, post: seq<Byte>)
    ensures (pre + mid + post)[|pre|..|pre| + |mid|] == mid
  {}

  lemma Regroup(a: seq<Byte>, b: seq<Byte>, c: seq<Byte>, d: seq<Byte>)
    ensures a + (b + c) + d == a + b + c + d == a + b + (c + d)
  {}

  lemma {:induction false} EntryRoundTrip(pre: seq<Byte>, id: Int64, v: Vector, post: seq<Byte>)
    ensures var bs := pre + Entry(id, v) + post;
      var p := |pre|;
      && ToInt64(Get(bs[p..p + 8])) == id
      && GetVector(bs[p + 8..p + 8 + 4 * |v|], |v|) == v
  {
    var idPart, vPart := Put(ToUint64(id), 8), PutVector(v);
    SliceAt(pre, idPart, vPart + post);
    SliceAt(pre + idPart, vPart, post);
    IdRoundTrip(id);
    VectorRoundTrip(v);
    Regroup(pre, idPart, vPart, post);
  }

  /** One step of the entry loop over bytes that hold an entry at the front. */
  lemma GetEntriesStep(pre: seq<Byte>, id: Int64, v: Vector, post: seq<Byte>, count: nat, loaded: map<Int64, Vector>)
    requires count > 0
    ensures var bs := pre + Entry(id, v) + post;
      GetEntries(bs, |pre|, |v|, count, loaded) ==
      GetEntries(bs, |pre + Entry(id, v)|, |v|, count - 1, loaded[id := v])
  {
    EntryRoundTrip(pre, id, v, post);
  }

  lemma {:induction false} EntriesRoundTrip(pre: seq<Byte>, order: seq<Int64>, vectors: map<Int64, Vector>, dim: nat,
                                            post: seq<Byte>, loaded: map<Int64, Vector>)
    requires forall id :: id in order ==> id in vectors && |vectors[id]| == dim
    ensures GetEntries(pre + Entries(order, vectors) + post, |pre|, dim, |order|, loaded) ==
            Some((|pre| + |Entries(order, vectors)|, Listed(order, vectors, loaded)))
    decreases |order|
  {
    if order != [] {
      var id, v, rest := order[0], vectors[order[0]], Entries(order[1..], vectors);
      Regroup(pre, Entry(id, v), rest, post);
      GetEntriesStep(pre, id, v, rest + post, |order|, loaded);
      EntriesRoundTrip(pre + Entry(id, v), order[1..], vectors, dim, post, loaded[id := v]);
    }
  }

  /** What a loader accepts of the files that Save writes. */
  predicate Loadable(dim: nat, count: nat, expectDim: nat) {
    dim <= MAX_DIM && count <= MAX_VECTOR_COUNT && (expectDim == 0 || expectDim == dim)
  }

  lemma HeaderRoundTrip(dim: nat, count: nat, rest: seq<Byte>)
    requires dim < TWO_32 && count < TWO_32
    ensures var bs := Header(dim, count) + rest;
      && bs[..4] == MAGIC && Get(bs[4..8]) == 2 && Get(bs[8..12]) == dim && Get(bs[12..16]) == count
  {
    var v, d, c := HeaderFields(dim, count);
    HeaderSlices(v, d, c, rest);
  }

  lemma FitsUnchanged(n: nat)
    requires n < TWO_32
    ensures n % TWO_32 == n
  {}

  lemma FieldOf(n: nat) returns (f: seq<Byte>)
    requires n < TWO_32
    ensures f == Put(n, 4) && |f| == 4 && Get(f) == n
  {
    Sizes();
    GetPut(n, 4);
    f := Put(n, 4);
  }

  lemma {:induction false} HeaderFields(dim: nat, count: nat) returns (v: seq<Byte>, d: seq<Byte>, c: seq<Byte>)
    requires dim < TWO_32 && count < TWO_32
    ensures |v| == |d| == |c| == 4 && Header(dim, count) == MAGIC + v + d + c
    ensures Get(v) == 2 && Get(d) == dim && Get(c) == count
  {
    v := FieldOf(2);
    d := FieldOf(dim);
    c := FieldOf(count);
    FitsUnchanged(dim);
    FitsUnchanged(count);
  }

  lemma HeaderSlices(v: seq<Byte>, d: seq<Byte>, c: seq<Byte>, rest: seq<Byte>)
    requires |v| == |d| == |c| == 4
    ensures var bs := MAGIC + v + d + c + rest;
      bs[..4] == MAGIC && bs[4..8] == v && bs[8..12] == d && bs[12..16] == c
  {}

  lemma TrailerSlices(body: seq<Byte>, sum: seq<Byte>)
    ensures (body + sum)[|body|..|body| + |sum|] == sum && (body + sum)[..|body|] == body
  {}

  /** The entries and the checksum of a saved file, as the reader finds them. */
  lemma SavedBody(header: seq<Byte>, order: seq<Int64>, vectors: map<Int64, Vector>, dim: nat, sum: seq<Byte>)
    requires forall id :: id in order <==> id in vectors
    requires forall id :: id in vectors ==> |vectors[id]| == dim
    ensures var body := header + Entries(order, vectors);
      && GetEntries(body + sum, |header|, dim, |order|, map[]) == Some((|body|, vectors))
      && (body + sum)[|body|..|body| + |sum|] == sum && (body + sum)[..|body|] == body
  {
    EntriesRoundTrip(header, order, vectors, dim, sum, map[]);
    ListedAll(order, vectors, map[]);
    assert Listed(order, vectors, map[]) == vectors;
    TrailerSlices(header + Entries(order, vectors), sum);
  }

  /** A file like a saved one, whatever number its last four bytes hold. */
  lemma {:induction false} SavedHeader(dim: nat, order: seq<Int64>, vectors: map<Int64, Vector>, x: Bits32)
    returns (bs: seq<Byte>)
    requires forall id :: id in order <==> id in vectors
    requires forall id :: id in vectors ==> |vectors[id]| == dim
    requires dim < TWO_32 && |order| < TWO_32
    ensures bs == Header(dim, |order|) + Entries(order, vectors) + Put(x, 4) && |bs| >= 20
    ensures bs[..|bs| - 4] == Header(dim, |order|) + Entries(order, vectors)
    ensures bs[..4] == MAGIC && Get(bs[4..8]) == 2 && Get(bs[8..12]) == dim && Get(bs[12..16]) == |order|
    ensures GetEntries(bs, 16, dim, |order|, map[]) == Some((|bs| - 4, vectors))
    ensures Get(bs[|bs| - 4..|bs|]) == x
  {
    var header, entries := Header(dim, |order|), Entries(order, vectors);
    var sum := Put(x, 4);
    bs := header + entries + sum;
    SavedBody(header, order, vectors, dim, sum);
    ConcatAssociative(header, entries, sum);
    HeaderRoundTrip(dim, |order|, entries + sum);
    Sizes();
    GetPut(x, 4);
  }

  lemma ConcatAssociative(a: seq<Byte>, b: seq<Byte>, c: seq<Byte>)
    ensures a + b + c == a + (b + c)
  {}

  /**
   Reading a saved file gives back the dimension and the map, whatever order the map was written in;
   it does so exactly when the sizes are within the loader's bounds and the dimension is the expected one.
   */
  lemma SaveLoadRoundTrip(dim: nat, order: seq<Int64>, vectors: map<Int64, Vector>, expectDim: nat,
                          crc: seq<Byte> -> Bits32)
    requires forall id :: id in order <==> id in vectors
    requires forall id :: id in vectors ==> |vectors[id]| == dim
    requires dim < TWO_32 && |order| < TWO_32
    ensures Parse(FileOf(dim, order, vectors, crc), expectDim, crc) ==
      if Loadable(dim, |order|, expectDim) then Loaded(dim, vectors)
      else if dim > MAX_DIM then Failed(DimTooLarge)
      else if |order| > MAX_VECTOR_COUNT then Failed(CountTooLarge)
      else Failed(DimMismatch)
  {
    var bs := SavedHeader(dim, order, vectors, crc(Header(dim, |order|) + Entries(order, vectors)));
  }

  /** A saved file whose last four bytes hold another number is refused for its checksum. */
  lemma DamagedChecksum(dim: nat, order: seq<Int64>, vectors: map<Int64, Vector>, expectDim: nat,
                        crc: seq<Byte> -> Bits32, x: Bits32)
    requires forall id :: id in order <==> id in vectors
    requires forall id :: id in vectors ==> |vectors[id]| == dim
    requires Loadable(dim, |order|, expectDim)
    requires x != crc(Header(dim, |order|) + Entries(order, vectors))
    ensures Parse(Header(dim, |order|) + Entries(order, vectors) + Put(x, 4), expectDim, crc) == Failed(CrcMismatch)
  {
    var bs := SavedHeader(dim, order, vectors, x);
  }

  /** A version 1 file, which has no checksum. */
  lemma VersionOneLoads(dim: nat, order: seq<Int64>, vectors: map<Int64, Vector>, expectDim: nat,
                        crc: seq<Byte> -> Bits32)
    requires forall id :: id in order <==> id in vectors
    requires forall id :: id in vectors ==> |vectors[id]| == dim
    requires Loadable(dim, |order|, expectDim)
    ensures Parse(MAGIC + Put(1, 4) + Put(dim, 4) + Put(|order|, 4) + Entries(order, vectors), expectDim, crc) ==
            Loaded(dim, vectors)
  {
    var v := FieldOf(1);
    var d := FieldOf(dim);
    var c := FieldOf(|order|);
    var entries := Entries(order, vectors);
    var header := MAGIC + v + d + c;
    HeaderSlices(v, d, c, entries);
    SavedBody(header, order, vectors, dim, []);
    assert header + entries + [] == header + entries;
    ParseVersionOne(header + entries, expectDim, crc, dim, |order|, vectors);
  }

  lemma ParseVersionOne(bs: seq<Byte>, expectDim: nat, crc: seq<Byte> -> Bits32, dim: nat, count: nat,
                        vectors: map<Int64, Vector>)
    requires |bs| >= 16 && bs[..4] == MAGIC && Get(bs[4..8]) == 1
    requires Get(bs[8..12]) == dim && Get(bs[12..16]) == count && Loadable(dim, count, expectDim)
    requires GetEntries(bs, 16, dim, count, map[]) == Some((|bs|, vectors))
    ensures Parse(bs, expectDim, crc) == Loaded(dim, vectors)
  {}

  /** Where the entries of a file end. */
  function EndOfEntries(dim: nat, count: nat): nat {
    16 + count * (8 + 4 * dim)
  }

  lemma {:induction false} EntriesEnd(bs: seq<Byte>, pos: nat, dim: nat, count: nat, loaded: map<Int64, Vector>)
    requires pos <= |bs|
    ensures var r := GetEntries(bs, pos, dim, count, loaded);
      && (r.Some? <==> pos + count * (8 + 4 * dim) <= |bs|)
      && (r.Some? ==> r.value.0 == pos + count * (8 + 4 * dim))
    decreases count
  {
    var size := 8 + 4 * dim;
    if count > 0 {
      OneEntryLess(count, size);
      if |bs| - pos >= size {
        var id := ToInt64(Get(bs[pos..pos + 8]));
        EntriesEnd(bs, pos + size, dim, count - 1, loaded[id := GetVector(bs[pos + 8..pos + size], dim)]);
      }
    }
  }

  lemma OneEntryLess(count: nat, size: nat)
    requires count > 0
    ensures count * size == (count - 1) * size + size >= size
  {}

  ghost predicate HeaderOk(bs: seq<Byte>, expectDim: nat) {
    && |bs| >= 16 && bs[..4] == MAGIC && (Get(bs[4..8]) == 1 || Get(bs[4..8]) == 2)
    && Loadable(Get(bs[8..12]), Get(bs[12..16]), expectDim)
    && EndOfEntries(Get(bs[8..12]), Get(bs[12..16])) <= |bs|
  }

  /**
   Which files load: those whose header and length are right, and which in version 2 have the checksum of all
   that is before it after their entries. A checksum that is there and wrong is reported as that.
   */
  lemma LoadsExactly(bs: seq<Byte>, expectDim: nat, crc: seq<Byte> -> Bits32)
    ensures Parse(bs, expectDim, crc).Loaded? <==>
      && HeaderOk(bs, expectDim)
      && var end := EndOfEntries(Get(bs[8..12]), Get(bs[12..16]));
         Get(bs[4..8]) == 1 || (end + 4 <= |bs| && Get(bs[end..end + 4]) == crc(bs[..end]))
    ensures Parse(bs, expectDim, crc) == Failed(CrcMismatch) <==>
      && HeaderOk(bs, expectDim)
      && var end := EndOfEntries(Get(bs[8..12]), Get(bs[12..16]));
         Get(bs[4..8]) == 2 && end + 4 <= |bs| && Get(bs[end..end + 4]) != crc(bs[..end])
  {
    if |bs| >= 16 {
      EntriesEnd(bs, 16, Get(bs[8..12]), Get(bs[12..16]), map[]);
    }
  }

  /** The bytes of a small file: one vector of one component, 1.0, under the id 258. */
  lemma SmallFile(crc: seq<Byte> -> Bits32)
    ensures FileOf(1, [258], map[258 := [0x3F80_0000]], crc) ==
      [69, 77, 66, 86, 2, 0, 0, 0, 1, 0, 0, 0, 1, 0, 0, 0]
      + [2, 1, 0, 0, 0, 0, 0, 0, 0, 0, 128, 63]
      + Put(crc([69, 77, 66, 86, 2, 0, 0, 0, 1, 0, 0, 0, 1, 0, 0, 0] + [2, 1, 0, 0, 0, 0, 0, 0, 0, 0, 128, 63]), 4)
  {
    FileOfOne(258, [0x3F80_0000], crc);
    SmallHeader();
    SmallEntry();
  }

  lemma FileOfOne(id: Int64, v: Vector, crc: seq<Byte> -> Bits32)
    ensures FileOf(|v|, [id], map[id := v], crc) ==
            Header(|v|, 1) + Entry(id, v) + Put(crc(Header(|v|, 1) + Entry(id, v)), 4)
  {
    var order, vectors := [id], map[id := v];
    assert order[1..] == [] && Entries([], vectors) == [];
    assert Entries(order, vectors) == Entry(id, v) + [] == Entry(id, v);
  }

  lemma SmallHeader()
    ensures Header(1, 1) == [69, 77, 66, 86, 2, 0, 0, 0, 1, 0, 0, 0, 1, 0, 0, 0]
  {
    Zeros(3);
    assert Put(1, 4) == [1] + Put(0, 3) == [1, 0, 0, 0];
    assert Put(2, 4) == [2] + Put(0, 3) == [2, 0, 0, 0];
  }

  lemma SmallEntry()
    ensures Entry(258, [0x3F80_0000]) == [2, 1, 0, 0, 0, 0, 0, 0, 0, 0, 128, 63]
  {
    SmallId();
    SmallComponent();
    assert [0x3F80_0000][1..] == [] && PutVector([]) == [];
    assert PutVector([0x3F80_0000]) == Put(0x3F80_0000, 4) + [];
  }

  lemma SmallId()
    ensures Put(258, 8) == [2, 1, 0, 0, 0, 0, 0, 0]
  {
    Zeros(6);
    assert Put(258, 8) == [2] + Put(1, 7) && Put(1, 7) == [1] + Put(0, 6);
  }

  lemma SmallComponent()
    ensures Put(0x3F80_0000, 4) == [0, 0, 128, 63]
  {
    assert Put(0x3F, 1) == [63];
    assert Put(0x3F80, 2) == [128] + Put(0x3F, 1);
    assert Put(0x3F_8000, 3) == [0] + Put(0x3F80, 2);
    assert Put(0x3F80_0000, 4) == [0] + Put(0x3F_8000, 3);
  }

  lemma {:induction false} Zeros(n: nat)
    ensures Put(0, n) == seq(n, i => 0)
  {
    if n > 0 {
      Zeros(n - 1);
    }
  }

  /** Every load that succeeds yields vectors of the file's dimension, within the bounds. */
  lemma {:induction false} EntriesHaveDim(bs: seq<Byte>, pos: nat, dim: nat, count: nat, loaded: map<Int64, Vector>)
    requires pos <= |bs|
    requires forall id :: id in loaded ==> |loaded[id]| == dim
    ensures var r := GetEntries(bs, pos, dim, count, loaded);
      r.Some? ==> forall id :: id in r.value.1 ==> |r.value.1[id]| == dim
    decreases count
  {
    var size := 8 + 4 * dim;
    if count > 0 && |bs| - pos >= size {
      var id := ToInt64(Get(bs[pos..pos + 8]));
      EntriesHaveDim(bs, pos + size, dim, count - 1, loaded[id := GetVector(bs[pos + 8..pos + size], dim)]);
    }
  }

  lemma ParsedIsSound(bs: seq<Byte>, expectDim: nat, crc: seq<Byte> -> Bits32)
    ensures var r := Parse(bs, expectDim, crc);
      r.Loaded? ==>
        && r.dim <= MAX_DIM && (expectDim == 0 || r.dim == expectDim)
        && forall id :: id in r.vectors ==> |r.vectors[id]| == r.dim
  {
    if |bs| >= 16 {
      EntriesHaveDim(bs, 16, Get(bs[8..12]), Get(bs[12..16]), map[]);
    }
  }
}
